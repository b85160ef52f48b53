// Which append guards are left at COMMIT. The table of append guards has no INSERT trigger, so a row
// can be written by hand; its deferred foreign key then only asks that it name the current Revision.
module AppendGuards {
  import opened Common
  import opened Tables
  import opened Statements
  import opened Invariants
  import opened Runs
  import opened Guarantees
  import HistoryKept

  predicate WrittenByTriggersOnly(events: seq<Event>) {
    forall i :: 0 <= i < |events| ==> !(events[i].Run? && events[i].stmt.InsertAppendGuard?)
  }

  lemma GuardsAfter(db: Db, s: Stmt)
    requires Accepts(db, s) && !IsContentStmt(s)
    ensures var d := Exec(db, s).content.appendGuards;
            d == if s.UpdatePage? && s.key in db.hist.pages && s.row.current != db.hist.pages[s.key].current
                 then db.content.appendGuards - {s.key} else db.content.appendGuards
  {
    hide HistoryAfter, HistoryAllows, TitleRow, AcceptsHistory, ApplyHistory, Marked, SearchColumnsDiffer;
  }

  lemma ContentPending(pages: map<PageKey, Page>, c: Content, s: Stmt)
    requires AcceptsContent(pages, c, s) && !s.InsertAppendGuard?
    ensures forall k :: k in ApplyContent(c, s).appendGuards ==>
      || (k in c.appendGuards && ApplyContent(c, s).appendGuards[k] == c.appendGuards[k])
      || (k in pages && ApplyContent(c, s).appendGuards[k].number == pages[k].current.number + 1)
  {
    hide AcceptsFile, AcceptsSeal, AcceptsFileSet, RevisionKeysFree, RevisionCheck;
  }

  // ---- which guards can be left ----

  ghost predicate HandWrittenIn(events: seq<Event>, key: PageKey, ref: RevRef) {
    exists i :: 0 <= i < |events| && events[i] == Run(InsertAppendGuard(key, ref))
  }

  // Every guard is pending or was written by hand.
  ghost predicate Accounted(db: Db, events: seq<Event>) {
    forall k :: k in db.content.appendGuards ==>
      && k in db.hist.pages
      && (db.content.appendGuards[k].number == db.hist.pages[k].current.number + 1 || HandWrittenIn(events, k, db.content.appendGuards[k]))
  }

  lemma AccountedKept(db: Db, s: Stmt, events: seq<Event>)
    requires RevisionsInv(db.hist.pages, db.content) && Accounted(db, events)
    ensures Accounted(Exec(db, s), events + [Run(s)])
  {
    MoreEvents(events, Run(s));
    PagesAfter(db, s);
    hide RevisionsOk, NumbersUnique, HistoryAfter, HistoryAllows, TitleRow, AcceptsHistory, ApplyHistory, HandWrittenIn;
    if Accepts(db, s) {
      if s.InsertAppendGuard? {
      } else if IsContentStmt(s) {
        ContentPending(db.hist.pages, db.content, s);
        hide AcceptsContent, ApplyContent;
      } else {
        GuardsAfter(db, s);
        hide Apply, PointerAdvances, AcceptsPageUpdate;
      }
    }
  }

  lemma MoreEvents(events: seq<Event>, e: Event)
    ensures forall k, ref :: HandWrittenIn(events, k, ref) ==> HandWrittenIn(events + [e], k, ref)
    ensures e.Run? && e.stmt.InsertAppendGuard? ==> HandWrittenIn(events + [e], e.stmt.key, e.stmt.ref)
  {
    assert (events + [e])[|events|] == e;
    forall k, ref | HandWrittenIn(events, k, ref) ensures HandWrittenIn(events + [e], k, ref) {
      var i :| 0 <= i < |events| && events[i] == Run(InsertAppendGuard(k, ref));
      assert (events + [e])[i] == events[i];
    }
  }

  lemma AccountedNext(c: Conn, e: Event, events: seq<Event>)
    requires RevisionsInv(c.work.db.hist.pages, c.work.db.content)
    requires Accounted(c.committed.db, events) && Accounted(c.work.db, events)
    ensures Accounted(Next(c, e).committed.db, events + [e]) && Accounted(Next(c, e).work.db, events + [e])
  {
    StillAccounted(c.committed.db, events, e);
    StillAccounted(c.work.db, events, e);
    if e.Run? {
      AccountedKept(c.work.db, e.stmt, events);
    }
    hide DeferredOk, Accounted, RevisionsInv, Exec;
  }

  lemma {:induction false} AccountedInRuns(events: seq<Event>)
    ensures Accounted(Committed(events).db, events) && Accounted(Working(events).db, events)
  {
    if events != [] {
      var before, e := events[..|events| - 1], events[|events| - 1];
      AccountedInRuns(before);
      ReachedConn(before);
      assert before + [e] == events;
      hide Next, Accounted, RevisionsInv, DeferredOk;
      AccountedNext(After(FRESH, before), e, before);
    }
  }

  lemma StillAccounted(db: Db, events: seq<Event>, e: Event)
    requires Accounted(db, events)
    ensures Accounted(db, events + [e])
  {
    MoreEvents(events, e);
    hide HandWrittenIn;
  }

  // In every run, an append guard in the committed tables was written by hand, and names the current
  // Revision of its Page.
  lemma SurvivorWasHandWritten(events: seq<Event>, key: PageKey)
    requires key in Committed(events).db.content.appendGuards
    ensures var db := Committed(events).db;
            && HandWrittenIn(events, key, db.content.appendGuards[key])
            && key in db.hist.pages && db.hist.pages[key].current == db.content.appendGuards[key]
  {
    AccountedInRuns(events);
    Reached(events);
    hide StoreOk, HistoryDeferredOk, HandWrittenIn, Committed;
  }

  // When append guards are written by the trigger on Revisions alone, none is left at COMMIT.
  lemma NoAppendGuardSurvives(events: seq<Event>)
    requires WrittenByTriggersOnly(events)
    ensures Committed(events).db.content.appendGuards == map[]
  {
    var guards := Committed(events).db.content.appendGuards;
    hide Committed;
    if k :| k in guards {
      SurvivorWasHandWritten(events, k);
    } else {
      assert guards.Keys == {};
    }
  }

  // ---- guards written by hand ----

  function GuardWritten(db: Db, key: PageKey, ref: RevRef): Db {
    db.(content := db.content.(appendGuards := db.content.appendGuards[key := ref]))
  }

  // The guard could be written, and COMMIT would let it pass.
  predicate Committable(db: Db, key: PageKey, ref: RevRef) {
    && DeferredOk(db)
    && key !in db.content.appendGuards && key in db.hist.pages && db.hist.pages[key].current == ref && ref.number >= 2
  }

  // A guard written by hand and then committed, at once or by the COMMIT of the transaction it is in, is
  // committed exactly when the tables could be committed without it, and it names the current Revision,
  // numbered two or more, of a Page that has no guard. A refused guard leaves the COMMIT what it was, and
  // any other makes it fail.
  lemma HandWrittenGuard(events: seq<Event>, key: PageKey, ref: RevRef)
    ensures var c, s := After(FRESH, events), InsertAppendGuard(key, ref);
            var after := Committed(events + if c.open then [Run(s), Commit] else [Run(s)]).db;
            after == if Committable(c.work.db, key, ref) then GuardWritten(c.work.db, key, ref)
                     else if DeferredOk(c.work.db) && !Accepts(c.work.db, s) then c.work.db
                     else c.committed.db
  {
    ReachedConn(events);
    var c := After(FRESH, events);
    var s := InsertAppendGuard(key, ref);
    AfterConcat(FRESH, events, if c.open then [Run(s), Commit] else [Run(s)]);
    RunAndCommit(c, s);
    hide After, DeferredOk, Next, Accepts, GuardWritten, RevisionsInv, Committable;
    WrittenAndCommitted(c, key, ref);
  }

  lemma ReachedConn(events: seq<Event>)
    ensures var c := After(FRESH, events);
            && RevisionsInv(c.work.db.hist.pages, c.work.db.content)
            && (!c.open ==> c.work == c.committed && DeferredOk(c.work.db))
  {
    FreshOk();
    RunOk(FRESH, events);
    hide DeferredOk, Extends, HistoryInv, SealsInv, DirtyInv, MovesInv, StoriesOk, RevisionsInv;
  }

  // The statement, and COMMIT when a transaction is open.
  ghost function Ran(c: Conn, s: Stmt): Conn {
    if c.open then Next(Next(c, Run(s)), Commit) else Next(c, Run(s))
  }

  lemma WrittenAndCommitted(c: Conn, key: PageKey, ref: RevRef)
    requires RevisionsInv(c.work.db.hist.pages, c.work.db.content)
    requires !c.open ==> c.work == c.committed && DeferredOk(c.work.db)
    ensures var s := InsertAppendGuard(key, ref);
            Ran(c, s).committed.db
            == if Committable(c.work.db, key, ref) then GuardWritten(c.work.db, key, ref)
               else if DeferredOk(c.work.db) && !Accepts(c.work.db, s) then c.work.db
               else c.committed.db
  {
    var s := InsertAppendGuard(key, ref);
    Outcome(c.work.db, key, ref);
    assert ExecStore(c.work, s).db == Exec(c.work.db, s);
    hide DeferredOk, Exec, Accepts, GuardWritten, RevisionsInv, Committable;
  }

  // What the statement makes of the tables, and whether they can then be committed.
  lemma Outcome(db: Db, key: PageKey, ref: RevRef)
    requires RevisionsInv(db.hist.pages, db.content)
    ensures var s := InsertAppendGuard(key, ref);
            && (Committable(db, key, ref) ==> Exec(db, s) == GuardWritten(db, key, ref))
            && (!Accepts(db, s) ==> Exec(db, s) == db)
            && (DeferredOk(Exec(db, s)) <==> Committable(db, key, ref) || (DeferredOk(db) && !Accepts(db, s)))
            && (Committable(db, key, ref) ==> Accepts(db, s))
  {
    var s := InsertAppendGuard(key, ref);
    GuardDoesNotHelp(db, key, ref);
    if DeferredOk(db) {
      HandWritten(db, key, ref);
    }
    assert !Accepts(db, s) ==> Exec(db, s) == db;
    GuardAdded(db, key, ref);
    hide DeferredOk, Exec, Accepts, RevisionsInv, GuardWritten;
  }

  lemma GuardAdded(db: Db, key: PageKey, ref: RevRef)
    ensures key !in db.content.appendGuards ==> GuardWritten(db, key, ref) != db
  {
    assert key in GuardWritten(db, key, ref).content.appendGuards;
  }

  lemma RunAndCommit(c: Conn, s: Stmt)
    ensures After(c, [Run(s)]) == Next(c, Run(s)) && After(c, [Run(s), Commit]) == Next(Next(c, Run(s)), Commit)
  {
    assert [Run(s)][..0] == [] && [Run(s), Commit][..1] == [Run(s)];
    assert After(c, []) == c;
    hide Next;
  }

  // Writing a guard never mends a deferred foreign key.
  lemma GuardDoesNotHelp(db: Db, key: PageKey, ref: RevRef)
    ensures !DeferredOk(db) ==> !DeferredOk(Exec(db, InsertAppendGuard(key, ref)))
    ensures Accepts(db, InsertAppendGuard(key, ref)) ==> Exec(db, InsertAppendGuard(key, ref)) != db
  {
    hide HistoryDeferredOk;
    var s := InsertAppendGuard(key, ref);
    if Accepts(db, s) {
      var d := Exec(db, s);
      assert d == GuardWritten(db, key, ref) && key !in db.content.appendGuards;
      assert forall k :: k in db.content.appendGuards ==> k in d.content.appendGuards && d.content.appendGuards[k] == db.content.appendGuards[k];
      assert d.content.appendGuards != db.content.appendGuards;
    }
  }

  lemma HandWritten(db: Db, key: PageKey, ref: RevRef)
    requires RevisionsInv(db.hist.pages, db.content) && DeferredOk(db)
    ensures var s := InsertAppendGuard(key, ref);
            var written := key !in db.content.appendGuards && key in db.hist.pages
                           && db.hist.pages[key].current == ref && ref.number >= 2;
            var after := GuardWritten(db, key, ref);
            && (written ==> Exec(db, s) == after && DeferredOk(after))
            && (!written ==> Exec(db, s) == db || !DeferredOk(Exec(db, s)))
  {
    hide DeferredOk, Exec, RevisionsInv;
    if key in db.hist.pages && db.hist.pages[key].current == ref {
      NamesCurrent(db, key, ref);
    } else {
      NamesAnother(db, key, ref);
    }
  }

  lemma AcceptedForCurrent(db: Db, key: PageKey, ref: RevRef)
    requires RevisionsInv(db.hist.pages, db.content) && ContentDeferredOk(db.hist.pages, db.content)
    requires key in db.hist.pages && db.hist.pages[key].current == ref
    ensures Accepts(db, InsertAppendGuard(key, ref)) <==> key !in db.content.appendGuards && ref.number >= 2
  {
    assert RevisionsOk(db.content, key, ref);
    hide RevisionsOk, RevisionsInv;
  }

  lemma DeferredWithGuard(pages: map<PageKey, Page>, c: Content, key: PageKey, ref: RevRef)
    requires ContentDeferredOk(pages, c) && key in pages && pages[key].current == ref
    ensures ContentDeferredOk(pages, c.(appendGuards := c.appendGuards[key := ref]))
  {
  }

  lemma NamesCurrent(db: Db, key: PageKey, ref: RevRef)
    requires RevisionsInv(db.hist.pages, db.content) && DeferredOk(db)
    requires key in db.hist.pages && db.hist.pages[key].current == ref
    ensures var s := InsertAppendGuard(key, ref);
            var after := GuardWritten(db, key, ref);
            if key !in db.content.appendGuards && ref.number >= 2 then Exec(db, s) == after && DeferredOk(after)
            else Exec(db, s) == db
  {
    AcceptedForCurrent(db, key, ref);
    DeferredWithGuard(db.hist.pages, db.content, key, ref);
    hide RevisionsInv, HistoryDeferredOk, Accepts, ContentDeferredOk;
  }

  lemma NamesAnother(db: Db, key: PageKey, ref: RevRef)
    requires DeferredOk(db) && !(key in db.hist.pages && db.hist.pages[key].current == ref)
    ensures var s := InsertAppendGuard(key, ref);
            Exec(db, s) == db || !DeferredOk(Exec(db, s))
  {
    hide HistoryDeferredOk;
    var s := InsertAppendGuard(key, ref);
    if Accepts(db, s) {
      assert Exec(db, s).content.appendGuards[key] == ref;
    }
  }

  // ---- a run that leaves one ----

  const KEY := PageKey(1, 1)
  const FIRST := RevRef(1, 1)
  const SECOND := RevRef(2, 2)
  const SHORT_REVISION := Revision(Some(Blob([32], 0)), 0)
  const AT_FIRST := Page(1, 1, 1, "t", "note", 0, FIRST, 0, 0, None)
  const AT_SECOND := AT_FIRST.(current := SECOND)
  const TWO_REVISIONS := [
    Begin, Run(InsertPage(KEY, AT_FIRST)), Run(InsertRevision(RevKey(KEY, FIRST), SHORT_REVISION)),
    Run(InsertRevision(RevKey(KEY, SECOND), SHORT_REVISION)), Run(UpdatePage(KEY, KEY, AT_SECOND)), Commit]

  const BORN := Hist(map[KEY := AT_FIRST], map[], map[], map[], map[], map[], map[], map[], map[])

  ghost function Inserted(): Db { Apply(EMPTY_DB, InsertPage(KEY, AT_FIRST)) }
  ghost function WithFirst(): Db { AfterRevision(Inserted(), RevKey(KEY, FIRST), SHORT_REVISION) }
  ghost function WithSecond(): Db { AfterRevision(WithFirst(), RevKey(KEY, SECOND), SHORT_REVISION) }
  ghost function Moved(): Db { Apply(WithSecond(), UpdatePage(KEY, KEY, AT_SECOND)) }

  lemma InsertedIs()
    ensures Exec(EMPTY_DB, InsertPage(KEY, AT_FIRST)) == Inserted()
    ensures Inserted().hist == BORN && Inserted().content == EMPTY_DB.content
  {
  }

  lemma RowsChecked()
    ensures RevisionCheck(RevKey(KEY, FIRST), SHORT_REVISION) && RevisionCheck(RevKey(KEY, SECOND), SHORT_REVISION)
  {
    assert [32 as Byte][0] == 32;
  }

  lemma FirstAllowed(pages: map<PageKey, Page>, c: Content)
    requires KEY in pages && pages[KEY] == AT_FIRST && c.revisions == map[]
    ensures AcceptsRevision(pages, c, RevKey(KEY, FIRST), SHORT_REVISION)
  {
    RowsChecked();
    hide RevisionCheck;
  }

  lemma FirstAccepted()
    ensures Exec(Inserted(), InsertRevision(RevKey(KEY, FIRST), SHORT_REVISION)) == WithFirst()
  {
    InsertedIs();
    hide Inserted, ContentAfterRevision, MarkedIfCurrent, AcceptsRevision;
    FirstAllowed(Inserted().hist.pages, Inserted().content);
  }

  lemma WithFirstIs()
    ensures WithFirst().hist == BORN
    ensures WithFirst().content.revisions == map[RevKey(KEY, FIRST) := SHORT_REVISION]
    ensures WithFirst().content.appendGuards == map[]
    ensures WithFirst().content.sealGuards == WithFirst().content.seals == {RevKey(KEY, FIRST)}
  {
    InsertedIs();
    hide Inserted;
  }

  lemma SecondAccepted()
    ensures Exec(WithFirst(), InsertRevision(RevKey(KEY, SECOND), SHORT_REVISION)) == WithSecond()
  {
    WithFirstIs();
    RowsChecked();
    hide Inserted, WithFirst, ContentAfterRevision, MarkedIfCurrent, RevisionCheck;
  }

  lemma WithSecondIs()
    ensures WithSecond().hist == BORN
    ensures WithSecond().content.revisions.Keys == {RevKey(KEY, FIRST), RevKey(KEY, SECOND)}
    ensures WithSecond().content.appendGuards == map[KEY := SECOND]
    ensures WithSecond().content.sealGuards == WithSecond().content.seals == {RevKey(KEY, FIRST), RevKey(KEY, SECOND)}
  {
    InsertedIs();
    WithFirstIs();
    hide Inserted, WithFirst;
  }

  lemma MovedAccepted(c: Content, tags: map<PageKey, set<Id>>, marks: Marks)
    requires c.appendGuards == map[KEY := SECOND]
    ensures Accepts(Db(BORN, c, tags, marks), UpdatePage(KEY, KEY, AT_SECOND))
  {
    hide TitleRow;
  }

  lemma MovedIs(c: Content, tags: map<PageKey, set<Id>>, marks: Marks)
    requires c.appendGuards == map[KEY := SECOND]
    ensures var d := Apply(Db(BORN, c, tags, marks), UpdatePage(KEY, KEY, AT_SECOND));
            && d.hist == BORN.(pages := map[KEY := AT_SECOND])
            && d.content == c.(appendGuards := map[])
  {
    hide TitleRow;
  }

  lemma MovedDeferred(c: Content)
    requires c.revisions.Keys == {RevKey(KEY, FIRST), RevKey(KEY, SECOND)} && c.seals == c.sealGuards && c.appendGuards == map[]
    ensures ContentDeferredOk(map[KEY := AT_SECOND], c)
    ensures HistoryDeferredOk(BORN.(pages := map[KEY := AT_SECOND]))
  {
    assert RevKey(KEY, SECOND) in c.revisions.Keys;
  }

  lemma MovedCommits()
    ensures Exec(WithSecond(), UpdatePage(KEY, KEY, AT_SECOND)) == Moved() && DeferredOk(Moved())
    ensures Moved().hist.pages == map[KEY := AT_SECOND] && Moved().content.appendGuards == map[]
  {
    WithSecondIs();
    hide WithSecond, Accepts, Apply, ContentDeferredOk, HistoryDeferredOk;
    var db := WithSecond();
    MovedAccepted(db.content, db.tags, db.marks);
    MovedIs(db.content, db.tags, db.marks);
    MovedDeferred(Moved().content);
  }

  lemma TwoRevisionsRun()
    ensures After(FRESH, TWO_REVISIONS).open == false && Committed(TWO_REVISIONS).db == Moved()
  {
    InsertedIs();
    FirstAccepted();
    SecondAccepted();
    MovedCommits();
    hide Inserted, WithFirst, WithSecond, Moved, Exec, DeferredOk;
    var e := TWO_REVISIONS;
    assert e[..0] == [] && e[..1][..0] == e[..0];
    assert e[..2][..1] == e[..1] && e[..3][..2] == e[..2] && e[..4][..3] == e[..3] && e[..5][..4] == e[..4] && e[..6][..5] == e[..5];
    assert e[..6] == e;
    assert After(FRESH, e[..0]) == FRESH;
    var c1 := After(FRESH, e[..1]);
    assert c1.open && c1.work.db == EMPTY_DB;
    var c2 := After(FRESH, e[..2]);
    assert c2.work.db == Inserted();
    var c3 := After(FRESH, e[..3]);
    assert c3.work.db == WithFirst();
    var c4 := After(FRESH, e[..4]);
    assert c4.work.db == WithSecond();
    var c5 := After(FRESH, e[..5]);
    assert c5.work.db == Moved();
  }

  // Two Revisions, committed; then a guard for the second one, written by hand, is still there.
  lemma HandWrittenGuardSurvives()
    ensures Committed(TWO_REVISIONS + [Run(InsertAppendGuard(KEY, SECOND))]).db.content.appendGuards == map[KEY := SECOND]
  {
    TwoRevisionsRun();
    MovedCommits();
    assert Committable(Moved(), KEY, SECOND) by { hide DeferredOk, Moved; }
    assert After(FRESH, TWO_REVISIONS).work.db == Moved() by { ReachedConn(TWO_REVISIONS); hide After, Moved; }
    hide Moved, After, TWO_REVISIONS, DeferredOk, Committable;
    HandWrittenGuard(TWO_REVISIONS, KEY, SECOND);
  }
}
