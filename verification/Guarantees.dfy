// What holds of the committed tables after any run, and of the tables in the middle of a transaction.
module Guarantees {
  import opened Common
  import opened Tables
  import opened Statements
  import opened History
  import opened Invariants
  import opened Runs
  import HistoryKept

  ghost function Committed(events: seq<Event>): Store { After(FRESH, events).committed }

  // What the connection sees in the middle of a run, transaction or not.
  ghost function Working(events: seq<Event>): Store { After(FRESH, events).work }

  lemma Reached(events: seq<Event>)
    ensures StoreOk(Committed(events)) && DeferredOk(Committed(events).db) && StoreOk(Working(events))
  {
    FreshOk();
    RunOk(FRESH, events);
    hide StoreOk, DeferredOk, Extends;
  }

  // ---- history ----

  // The four logs of a Page, merged by change time, are strictly increasing, contain every row of the
  // four logs in its own order, and replay the row the Page was inserted with to the row it has now.
  lemma HistoryReplays(events: seq<Event>, key: PageKey)
    requires key in Committed(events).db.hist.pages
    ensures var t := Committed(events);
            var logs := LogsOf(t.db.hist, key);
            && StrictlyIncreasing(Merge(logs)) && Parts(Merge(logs)) == logs
            && key in t.born
            && Replay(ShownOf(t.born[key]), Merge(logs)) == Some(ShownOf(t.db.hist.pages[key]))
  {
    Reached(events);
    var t := Committed(events);
    HistoryKept.LedgerAt(t.db.hist, key);
    MergeIsAnInterleaving(LogsOf(t.db.hist, key));
    assert StoryOk(t.born[key], t.db.hist.pages[key], LogsOf(t.db.hist, key));
    hide OccLogOk, LifeLogOk, MoveLogOk, TitleLogOk, DeferredOk, RevisionsInv, SealsInv;
  }

  predicate Even(n: int) { n % 2 == 0 }

  // Deletes and restores alternate, starting with a delete, and the Page is deleted exactly when the
  // last of them is a delete; every pair finds Section, declared time and Revision number unchanged.
  ghost predicate Alternates(log: seq<LifeEvent>, page: Page) {
    && (forall i :: 0 <= i < |log| ==> log[i].sequence == i + 1 && (log[i].action == Delete <==> Even(i)))
    && (page.deletedAt.Some? <==> log != [] && log[|log| - 1].action == Delete)
    && (forall i :: 0 < i < |log| && log[i].action == Restore ==>
          SamePlace(log[i - 1], log[i].section, log[i].occurredAt, log[i].atRevision))
  }

  lemma LifecycleAlternates(events: seq<Event>, key: PageKey)
    requires key in Working(events).db.hist.pages
    ensures var h := Working(events).db.hist;
            Alternates(Rows(h.lifeEvents, key), h.pages[key])
  {
    Reached(events);
    var h := Working(events).db.hist;
    hide DeferredOk, LedgerOk, RevisionsInv, SealsInv, Alternates;
    HistoryKept.LedgerAt(h, key);
    LedgerAlternates(LedgerOf(h, key), key, h.audits);
  }

  lemma LedgerAlternates(l: Ledger, key: PageKey, audits: map<Id, Audit>)
    requires LedgerOk(l, key, audits)
    ensures Alternates(l.logs.life, l.page)
  {
    Alternation(l.logs.life, l.page);
  }

  lemma {:induction false} AlternationUpTo(log: seq<LifeEvent>, page: Page, i: nat)
    requires LifeLogOk(log, page) && i < |log|
    ensures log[i].action == Delete <==> Even(i)
  {
    if i > 0 {
      AlternationUpTo(log, page, i - 1);
    }
  }

  lemma Alternation(log: seq<LifeEvent>, page: Page)
    requires LifeLogOk(log, page)
    ensures Alternates(log, page)
  {
    forall i | 0 <= i < |log| ensures log[i].action == Delete <==> Even(i) {
      AlternationUpTo(log, page, i);
    }
  }

  // ---- guards ----

  // No occurrence, lifecycle or move guard survives COMMIT.
  lemma NoGuardSurvives(events: seq<Event>)
    ensures var h := Committed(events).db.hist;
            h.occGuards == map[] && h.lifeGuards == map[] && h.moveGuards == map[]
  {
    Reached(events);
    DeferredEmptiesGuards(Committed(events).db.hist);
  }

  // With the invariant, the deferred foreign keys hold exactly when no guard is pending.
  lemma DeferredEmptiesGuards(h: Hist)
    requires HistoryInv(h)
    ensures HistoryDeferredOk(h) <==> h.occGuards == map[] && h.lifeGuards == map[] && h.moveGuards == map[]
  {
    hide HistoryInv;
    if k :| k in h.occGuards { HistoryKept.PendingOccGuard(h, k); assert h.occGuards != map[]; }
    else if k :| k in h.lifeGuards { HistoryKept.PendingLifeGuard(h, k); assert h.lifeGuards != map[]; }
    else if k :| k in h.moveGuards { HistoryKept.PendingMoveGuard(h, k); assert h.moveGuards != map[]; }
  }

  // In the middle of any transaction a log row written by hand is refused, and so is the removal of a
  // pending guard.
  lemma LogsOnlyGrowByUpdates(events: seq<Event>, s: Stmt)
    requires s.InsertOccEvent? || s.InsertLifeEvent? || s.InsertMoveEvent?
    ensures !Accepts(Working(events).db, s)
  {
    Reached(events);
    var db := Working(events).db;
    if s.InsertOccEvent? { HistoryKept.NoHandWrittenOccEvent(db.hist, s.key, s.occEvent); }
    if s.InsertLifeEvent? { HistoryKept.NoHandWrittenLifeEvent(db.hist, s.key, s.lifeEvent); }
    if s.InsertMoveEvent? { HistoryKept.NoHandWrittenMoveEvent(db.hist, db.content, s.key, s.moveEvent); }
  }

  // While a guard is pending, the Page still holds the values the guard calls old.
  lemma PendingGuardsDescribeTheirPage(events: seq<Event>, key: PageKey)
    ensures var h := Working(events).db.hist;
            && (key in h.occGuards ==> key in h.pages && h.pages[key].occurredAt == h.occGuards[key].oldOccurred != h.occGuards[key].newOccurred)
            && (key in h.lifeGuards ==> key in h.pages && h.pages[key].deletedAt == h.lifeGuards[key].oldDeletedAt != DeletedAtAfter(h.lifeGuards[key]))
            && (key in h.moveGuards ==>
                  && key in h.pages
                  && var p, g := h.pages[key], h.moveGuards[key];
                     p.section == g.oldSection && p.book == g.oldBook && (g.newSection != p.section || g.newBook != p.book))
  {
    Reached(events);
    var h := Working(events).db.hist;
    hide LedgerOk;
    if key in h.occGuards { HistoryKept.LedgerAt(h, key); HistoryKept.PendingOcc(LedgerOf(h, key), key, h.audits); }
    if key in h.lifeGuards { HistoryKept.LedgerAt(h, key); HistoryKept.PendingLife(LedgerOf(h, key), key, h.audits); }
    if key in h.moveGuards { HistoryKept.LedgerAt(h, key); HistoryKept.PendingMove(LedgerOf(h, key), key, h.audits); }
  }

  // ---- Revision numbers ----

  // At COMMIT the numbers of a Page's Revisions are exactly 1..current, one Revision each, and an
  // append guard that is left, if any, names the current Revision.
  lemma RevisionsAreContiguous(events: seq<Event>, key: PageKey)
    requires key in Committed(events).db.hist.pages
    ensures var db := Committed(events).db;
            && var current := db.hist.pages[key].current;
            && (forall n :: HasNumber(db.content, key, n) <==> 1 <= n <= current.number)
            && RevKey(key, current) in db.content.revisions
            && NumbersUnique(db.content)
            && (key in db.content.appendGuards ==> db.content.appendGuards[key] == current)
  {
    Reached(events);
    ContiguousAtCommit(Committed(events).db, key);
  }

  lemma ContiguousAtCommit(db: Db, key: PageKey)
    requires RevisionsInv(db.hist.pages, db.content) && ContentDeferredOk(db.hist.pages, db.content)
    requires key in db.hist.pages
    ensures forall n :: HasNumber(db.content, key, n) <==> 1 <= n <= db.hist.pages[key].current.number
  {
    var c, current := db.content, db.hist.pages[key].current;
    assert RevisionsOk(c, key, current);
    forall n ensures HasNumber(c, key, n) <==> 1 <= n <= current.number {
      if HasNumber(c, key, n) {
        var r :| r in c.revisions && r.page == key && r.ref.number == n;
      }
      if n == current.number {
        assert RevKey(key, current) in c.revisions;
      }
    }
  }

  // In the middle of a transaction they are 1..current plus at most the pending number current + 1,
  // which the append guard names; before the first Revision arrives there are none and current is 1.
  lemma RevisionsMidTransaction(events: seq<Event>, key: PageKey)
    requires key in Working(events).db.hist.pages
    ensures var c, current := Working(events).db.content, Working(events).db.hist.pages[key].current;
            && (forall n :: HasNumber(c, key, n) ==> 1 <= n <= current.number + 1)
            && (HasNumber(c, key, current.number + 1) ==>
                  key in c.appendGuards && c.appendGuards[key].number == current.number + 1)
            && ((forall n :: 1 <= n <= current.number ==> HasNumber(c, key, n))
                || (current.number == 1 && forall n :: !HasNumber(c, key, n)))
  {
    Reached(events);
    MidTransaction(Working(events).db, key);
  }

  lemma MidTransaction(db: Db, key: PageKey)
    requires RevisionsInv(db.hist.pages, db.content) && key in db.hist.pages
    ensures var c, current := db.content, db.hist.pages[key].current;
            && (forall n :: HasNumber(c, key, n) ==> 1 <= n <= current.number + 1)
            && (HasNumber(c, key, current.number + 1) ==>
                  key in c.appendGuards && c.appendGuards[key].number == current.number + 1)
            && ((forall n :: 1 <= n <= current.number ==> HasNumber(c, key, n))
                || (current.number == 1 && forall n :: !HasNumber(c, key, n)))
  {
    var c, current := db.content, db.hist.pages[key].current;
    assert RevisionsOk(c, key, current);
    forall n | HasNumber(c, key, n)
      ensures 1 <= n <= current.number + 1 && RevKey(key, current) in c.revisions
      ensures n == current.number + 1 ==> key in c.appendGuards && c.appendGuards[key].number == n
    {
      var r :| r in c.revisions && r.page == key && r.ref.number == n;
    }
    if RevKey(key, current) in c.revisions {
      assert HasNumber(c, key, current.number);
    }
  }

  // One statement leaves a Page's pointer alone or advances it by one, to a Revision that exists.
  lemma PointerStep(db: Db, s: Stmt, key: PageKey)
    requires RevisionsInv(db.hist.pages, db.content) && key in db.hist.pages
    ensures var h, d := db.hist, Exec(db, s).hist;
            && key in d.pages
            && (d.pages[key].current == h.pages[key].current
                || (d.pages[key].current.number == h.pages[key].current.number + 1
                    && RevKey(key, d.pages[key].current) in db.content.revisions
                    && h.pages[key].deletedAt.None?))
  {
    PagesAfter(db, s);
    hide Exec, HistoryAllows, RevisionsInv, AcceptsHistory, AcceptsContent, PointerAdvances;
    if Accepts(db, s) && s.UpdatePage? && s.key in db.hist.pages {
      PointerUpdate(db, s.key, s.row);
    }
  }

  lemma PointerUpdate(db: Db, key: PageKey, n: Page)
    requires RevisionsInv(db.hist.pages, db.content) && key in db.hist.pages
    requires PointerAdvances(db.content.appendGuards, key, db.hist.pages[key], n) && HistoryAllows(db.hist, key, db.hist.pages[key], n)
    ensures n.current != db.hist.pages[key].current ==>
              && n.current.number == db.hist.pages[key].current.number + 1
              && RevKey(key, n.current) in db.content.revisions
              && db.hist.pages[key].deletedAt.None?
  {
    hide TitleAudited, OccurrenceGuarded, LifecycleGuarded, MoveGuarded, PageCheck, RevisionsOk;
  }

  // ---- seals ----

  // At COMMIT every Revision is sealed, and its set is the exact content.md mirror of its Markdown
  // or matches its manifest in file count and byte sum.
  lemma EveryRevisionIsSealed(events: seq<Event>, rev: RevKey)
    requires rev in Committed(events).db.content.revisions
    ensures var c := Committed(events).db.content;
            && rev in c.seals && rev in c.fileSets
            && match c.revisions[rev].content
               case Some(markdown) =>
                 Rows(c.files, rev) == [File(CONTENT_MD, markdown)] && c.fileSets[rev].format == LegacyMarkdown
               case None =>
                 && c.fileSets[rev].format == FileSetV1
                 && |Rows(c.files, rev)| == c.fileSets[rev].count && TotalBytes(Rows(c.files, rev)) == c.fileSets[rev].total
  {
    Reached(events);
    var c := Committed(events).db.content;
    assert SealableSet(c, rev);
  }

  // Once committed, a sealed set never changes again, whatever runs later, and neither does any
  // earlier row of a log.
  lemma CommittedFactsLast(events: seq<Event>, more: seq<Event>)
    ensures Extends(Committed(events).db, Committed(events + more).db)
    ensures Extends(Committed(events).db, Working(events + more).db)
  {
    FreshOk();
    RunOk(FRESH, events);
    AfterConcat(FRESH, events, more);
    RunOk(After(FRESH, events), more);
    hide Extends;
    ghost var b := After(After(FRESH, events), more);
    ExtendsTransitive(Committed(events).db, b.committed.db, b.work.db);
  }

  lemma {:induction false} AfterConcat(c: Conn, a: seq<Event>, b: seq<Event>)
    ensures After(c, a + b) == After(After(c, a), b)
  {
    if b == [] {
      assert a + b == a;
    } else {
      AfterConcat(c, a, b[..|b| - 1]);
      assert (a + b)[..|a + b| - 1] == a + b[..|b| - 1];
    }
  }

  // ---- delete and restore ----

  // An accepted UPDATE that deletes or restores a Page changes nothing else that is shown.
  lemma LifecycleStep(db: Db, key: PageKey, n: Page)
    requires key in db.hist.pages && Accepts(db, UpdatePage(key, key, n)) && n.deletedAt != db.hist.pages[key].deletedAt
    ensures key in Exec(db, UpdatePage(key, key, n)).hist.pages && Exec(db, UpdatePage(key, key, n)).hist.pages[key] == n
    ensures ShownOf(n) == ShownOf(db.hist.pages[key]).(deletedAt := n.deletedAt) && n.current == db.hist.pages[key].current
  {
    hide HistoryAfter, TitleRow, HistoryAllows;
    HistoryKept.UpdatedPages(db.hist, key, n, TitleRow(db.hist, key, db.hist.pages[key], n));
    LifecycleKeeps(db.hist, key, n);
  }

  lemma NextExtendsWork(c: Conn, e: Event)
    requires ConnOk(c) && e != Rollback
    ensures Extends(c.work.db, Next(c, e).work.db)
  {
    ExtendsReflexive(c.work.db);
    if e.Run? {
      ExecStoreOk(c.work, e.stmt) by { hide Extends, Inv, DeferredOk, StoriesOk; }
    }
    hide Extends, StoreOk, DeferredOk, ExecStore;
  }

  // Without a ROLLBACK what the connection sees only extends.
  lemma {:induction false} WorkExtends(c: Conn, events: seq<Event>)
    requires ConnOk(c) && Rollback !in events
    ensures ConnOk(After(c, events)) && Extends(c.work.db, After(c, events).work.db)
  {
    hide ConnOk, Extends, Next;
    ExtendsReflexive(c.work.db);
    if events != [] {
      var b := After(c, events[..|events| - 1]);
      WorkExtends(c, events[..|events| - 1]);
      NextOk(b, events[|events| - 1]);
      NextExtendsWork(b, events[|events| - 1]);
      ExtendsTransitive(c.work.db, b.work.db, After(c, events).work.db);
    }
  }

  function LifeRows(c: Conn, key: PageKey): nat { |Rows(c.work.db.hist.lifeEvents, key)| }

  // A run that deletes a live Page, goes on, and restores it: the delete takes effect; nothing is rolled
  // back before the transaction it is in has ended, and anything may happen after that, rollbacks
  // included; in between no lifecycle row is added for the Page.
  ghost predicate DeletesAndRestores(
    events: seq<Event>, key: PageKey, deleted: Page, before: seq<Event>, after: seq<Event>, restored: Page)
  {
    var c0 := After(FRESH, events);
    var c1 := Next(c0, Run(UpdatePage(key, key, deleted)));
    var c2 := After(c1, before);
    var c3 := After(c2, after);
    && key in c0.work.db.hist.pages && c0.work.db.hist.pages[key].deletedAt.None?
    && Accepts(c0.work.db, UpdatePage(key, key, deleted)) && deleted.deletedAt.Some?
    && c1.work.db == Exec(c0.work.db, UpdatePage(key, key, deleted))
    && Rollback !in before && (after == [] || !c2.open)
    && LifeRows(c3, key) == LifeRows(c1, key)
    && Accepts(c3.work.db, UpdatePage(key, key, restored)) && restored.deletedAt.None?
  }

  lemma ExtendsBetween(c1: Conn, before: seq<Event>, after: seq<Event>)
    requires ConnOk(c1) && Rollback !in before && (after == [] || !After(c1, before).open)
    ensures Extends(c1.work.db, After(After(c1, before), after).work.db)
  {
    WorkExtends(c1, before);
    var c2 := After(c1, before);
    if after != [] {
      RunOk(c2, after);
      var c3 := After(c2, after);
      hide Extends, StoreOk, DeferredOk;
      ExtendsTransitive(c2.work.db, c3.committed.db, c3.work.db);
      ExtendsTransitive(c1.work.db, c2.work.db, c3.work.db);
    }
  }

  lemma FrozenBetween(d: Db, e: Db, key: PageKey)
    requires Extends(d, e) && key in d.hist.pages && d.hist.pages[key].deletedAt.Some?
    requires |Rows(e.hist.lifeEvents, key)| == |Rows(d.hist.lifeEvents, key)|
    ensures key in e.hist.pages && Frozen(d.hist.pages[key], e.hist.pages[key])
  {
    hide ContentExtends;
  }

  // In every such run the restored Page has the Section, Book, title, declared time and current Revision
  // it had before the delete.
  lemma DeletedPageReturns(events: seq<Event>, key: PageKey, deleted: Page, before: seq<Event>, after: seq<Event>, restored: Page)
    requires DeletesAndRestores(events, key, deleted, before, after, restored)
    ensures var page := Working(events).db.hist.pages[key];
            ShownOf(restored) == ShownOf(page) && restored.current == page.current
  {
    FreshOk();
    RunOk(FRESH, events);
    var c0 := After(FRESH, events);
    var c1 := Next(c0, Run(UpdatePage(key, key, deleted)));
    var c3 := After(After(c1, before), after);
    hide ConnOk, After, Next, Accepts, Exec, Extends;
    NextOk(c0, Run(UpdatePage(key, key, deleted)));
    LifecycleStep(c0.work.db, key, deleted);
    ExtendsBetween(c1, before, after);
    FrozenBetween(c1.work.db, c3.work.db, key);
    LifecycleStep(c3.work.db, key, restored);
  }

  lemma LifecycleKeeps(h: Hist, key: PageKey, n: Page)
    requires key in h.pages && HistoryAllows(h, key, h.pages[key], n) && n.deletedAt != h.pages[key].deletedAt
    ensures ShownOf(n) == ShownOf(h.pages[key]).(deletedAt := n.deletedAt) && n.current == h.pages[key].current
  {
    hide TitleAudited, OccurrenceGuarded, MoveGuarded, PageCheck;
  }
}
