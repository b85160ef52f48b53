// A concrete run that deletes a Page, commits, and restores it in a later transaction.
module LifecycleRun {
  import opened Common
  import opened Tables
  import opened Statements
  import opened History
  import opened Invariants
  import opened Runs
  import opened Guarantees
  import opened AppendGuards

  const DELETE_ROW := LifeEvent(1, Delete, 1, None, 0, 1, 1, 0, Caller(1, 1), 0)
  const RESTORE_ROW := LifeEvent(2, Restore, 1, Some(1), 1, 2, 1, 0, Caller(1, 1), 0)
  const DELETED := AT_FIRST.(updatedAt := 1, deletedAt := Some(1))
  const RESTORED := AT_FIRST.(updatedAt := 2)

  const CREATE := [Begin, Run(InsertPage(KEY, AT_FIRST)), Run(InsertRevision(RevKey(KEY, FIRST), SHORT_REVISION)), Commit]
  const GUARD_DELETE := [Begin, Run(InsertLifeGuard(KEY, DELETE_ROW))]
  const GUARD_RESTORE := [Begin, Run(InsertLifeGuard(KEY, RESTORE_ROW))]

  // The history tables at four points of the run.
  const GUARDED := BORN.(lifeGuards := map[KEY := DELETE_ROW])
  const GONE := BORN.(pages := map[KEY := DELETED], lifeEvents := map[KEY := [DELETE_ROW]])
  const GUARDED_AGAIN := GONE.(lifeGuards := map[KEY := RESTORE_ROW])

  lemma DeleteGuarded(c: Content, tags: map<PageKey, set<Id>>, marks: Marks)
    ensures Exec(Db(BORN, c, tags, marks), InsertLifeGuard(KEY, DELETE_ROW)) == Db(GUARDED, c, tags, marks)
  {
    assert LifeSequences([]) == [];
  }

  lemma DeleteAllowed()
    ensures HistoryAllows(GUARDED, KEY, AT_FIRST, DELETED)
    ensures PointerAdvances(map[], KEY, AT_FIRST, DELETED)
  {
    hide TitleRow;
  }

  lemma DeleteApplied(titleRow: Option<TitleEvent>)
    ensures HistoryAfter(GUARDED, KEY, AT_FIRST, DELETED, titleRow) == GONE
  {
    var d := HistoryAfter(GUARDED, KEY, AT_FIRST, DELETED, titleRow);
    assert d.pages == GONE.pages && d.lifeGuards == map[];
    assert [] + [DELETE_ROW] == [DELETE_ROW];
    assert d.lifeEvents == GONE.lifeEvents;
  }

  lemma RestoreGuarded(c: Content, tags: map<PageKey, set<Id>>, marks: Marks)
    ensures Exec(Db(GONE, c, tags, marks), InsertLifeGuard(KEY, RESTORE_ROW)) == Db(GUARDED_AGAIN, c, tags, marks)
  {
    assert LifeSequences(Rows(GONE.lifeEvents, KEY)) == [1];
    assert NextSequence([1]) == 2;
    assert LifePreState(DELETED, RESTORE_ROW) && LifeCheck(RESTORE_ROW);
    assert AcceptsLifeGuard(GONE, KEY, RESTORE_ROW);
  }

  lemma RestoreAllowed()
    ensures HistoryAllows(GUARDED_AGAIN, KEY, DELETED, RESTORED)
    ensures PointerAdvances(map[], KEY, DELETED, RESTORED)
  {
    hide TitleRow;
  }

  // What stays of the content through the run.
  predicate OneRevision(c: Content) {
    c.revisions == map[RevKey(KEY, FIRST) := SHORT_REVISION] && c.appendGuards == map[] && c.seals == c.sealGuards
  }

  lemma CanCommit(c: Content, tags: map<PageKey, set<Id>>, marks: Marks)
    requires OneRevision(c)
    ensures DeferredOk(Db(BORN, c, tags, marks)) && DeferredOk(Db(GONE, c, tags, marks))
  {
  }

  lemma Deletes(c: Content, tags: map<PageKey, set<Id>>, marks: Marks)
    requires OneRevision(c)
    ensures var db := Db(GUARDED, c, tags, marks);
            Accepts(db, UpdatePage(KEY, KEY, DELETED))
            && Exec(db, UpdatePage(KEY, KEY, DELETED)) == Db(GONE, c, tags, Marked(marks, KEY, 1))
  {
    DeleteAllowed();
    DeleteApplied(TitleRow(GUARDED, KEY, AT_FIRST, DELETED));
    hide HistoryAllows, HistoryAfter, TitleRow, Marked, PointerAdvances;
  }

  lemma Restores(c: Content, tags: map<PageKey, set<Id>>, marks: Marks)
    requires OneRevision(c)
    ensures Accepts(Db(GUARDED_AGAIN, c, tags, marks), UpdatePage(KEY, KEY, RESTORED))
  {
    RestoreAllowed();
    hide HistoryAllows, PointerAdvances;
  }

  // ---- the run ----

  lemma TwoEvents(c: Conn, a: Event, b: Event)
    ensures After(c, [a, b]) == Next(Next(c, a), b)
  {
    assert [a, b][..1] == [a] && [a][..0] == [];
    assert After(c, []) == c;
    assert After(c, [a]) == Next(c, a);
    hide Next;
  }

  lemma OneEvent(c: Conn, a: Event)
    ensures After(c, [a]) == Next(c, a)
  {
    assert [a][..0] == [];
    assert After(c, []) == c;
    hide Next;
  }

  lemma PageInserted()
    ensures var c := After(FRESH, [Begin, Run(InsertPage(KEY, AT_FIRST))]);
            c.open && c.work.db == Inserted()
  {
    InsertedIs();
    TwoEvents(FRESH, Begin, Run(InsertPage(KEY, AT_FIRST)));
    hide After, Inserted, Exec, DeferredOk;
  }

  lemma RevisionCommitted(c: Conn)
    requires c.open && c.work.db == Inserted()
    ensures var d := After(c, [Run(InsertRevision(RevKey(KEY, FIRST), SHORT_REVISION)), Commit]);
            !d.open && d.work == d.committed && d.work.db == WithFirst() && WithFirst().hist == BORN && OneRevision(WithFirst().content)
  {
    WithFirstIs();
    FirstAccepted();
    TwoEvents(c, Run(InsertRevision(RevKey(KEY, FIRST), SHORT_REVISION)), Commit);
    var db := WithFirst();
    CanCommit(db.content, db.tags, db.marks);
    hide After, Inserted, WithFirst, Exec, DeferredOk, BORN;
  }

  lemma Created()
    ensures var c := After(FRESH, CREATE);
            !c.open && c.work == c.committed && c.work.db.hist == BORN && OneRevision(c.work.db.content)
  {
    var a, b := [Begin, Run(InsertPage(KEY, AT_FIRST))], [Run(InsertRevision(RevKey(KEY, FIRST), SHORT_REVISION)), Commit];
    assert CREATE == a + b;
    AfterConcat(FRESH, a, b);
    PageInserted();
    hide After, Inserted, WithFirst, OneRevision, BORN;
    RevisionCommitted(After(FRESH, a));
  }

  lemma GuardedForDelete()
    ensures var c := After(FRESH, CREATE + GUARD_DELETE);
            c.open && c.work.db.hist == GUARDED && OneRevision(c.work.db.content)
  {
    Created();
    AfterConcat(FRESH, CREATE, GUARD_DELETE);
    var c := After(FRESH, CREATE);
    TwoEvents(c, GUARD_DELETE[0], GUARD_DELETE[1]);
    DeleteGuarded(c.work.db.content, c.work.db.tags, c.work.db.marks);
    hide After, Exec, DeferredOk, OneRevision;
  }

  lemma DeletedAndCommitted()
    ensures var c0 := After(FRESH, CREATE + GUARD_DELETE);
            var c1 := Next(c0, Run(UpdatePage(KEY, KEY, DELETED)));
            var c2 := After(c1, [Commit]);
            && Accepts(c0.work.db, UpdatePage(KEY, KEY, DELETED)) && c1.work.db == Exec(c0.work.db, UpdatePage(KEY, KEY, DELETED))
            && c1.work.db.hist == GONE && !c2.open && c2.work.db.hist == GONE && c2.committed == c2.work && OneRevision(c2.work.db.content)
  {
    GuardedForDelete();
    var c0 := After(FRESH, CREATE + GUARD_DELETE);
    var db := c0.work.db;
    Deletes(db.content, db.tags, db.marks);
    CanCommit(db.content, db.tags, Marked(db.marks, KEY, 1));
    var c1 := Next(c0, Run(UpdatePage(KEY, KEY, DELETED)));
    OneEvent(c1, Commit);
    hide After, Exec, Accepts, DeferredOk, OneRevision, Marked;
    assert c1.open && c1.work.db == Exec(db, UpdatePage(KEY, KEY, DELETED));
  }

  lemma GuardedForRestore(c: Conn)
    requires !c.open && c.committed == c.work && c.work.db.hist == GONE && OneRevision(c.work.db.content)
    ensures var d := After(c, GUARD_RESTORE);
            d.work.db.hist == GUARDED_AGAIN && Accepts(d.work.db, UpdatePage(KEY, KEY, RESTORED))
  {
    TwoEvents(c, GUARD_RESTORE[0], GUARD_RESTORE[1]);
    var db := c.work.db;
    RestoreGuarded(db.content, db.tags, db.marks);
    Restores(db.content, db.tags, db.marks);
    hide After, Exec, Accepts, DeferredOk, OneRevision;
  }

  lemma FirstLifeRow(db: Db)
    requires db.hist == GONE || db.hist == GUARDED_AGAIN
    ensures |Rows(db.hist.lifeEvents, KEY)| == 1
  {
  }

  // Created, deleted, committed, restored: what DeletedPageReturns speaks of does happen.
  lemma DeletedThenRestored()
    ensures DeletesAndRestores(CREATE + GUARD_DELETE, KEY, DELETED, [Commit], GUARD_RESTORE, RESTORED)
    ensures ShownOf(RESTORED) == ShownOf(AT_FIRST)
  {
    GuardedForDelete();
    DeletedAndCommitted();
    var c0 := After(FRESH, CREATE + GUARD_DELETE);
    var c1 := Next(c0, Run(UpdatePage(KEY, KEY, DELETED)));
    var c2 := After(c1, [Commit]);
    GuardedForRestore(c2);
    assert KEY in GUARDED.pages && GUARDED.pages[KEY] == AT_FIRST;
    FirstLifeRow(c1.work.db);
    FirstLifeRow(After(c2, GUARD_RESTORE).work.db);
    assert Rollback !in [Commit];
    hide After, Next, Exec, Accepts, GONE, GUARDED, GUARDED_AGAIN, OneRevision, BORN, CREATE, GUARD_DELETE, GUARD_RESTORE;
  }
}
