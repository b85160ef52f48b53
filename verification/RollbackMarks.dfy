// A ROLLBACK takes the dirty counter back with everything else. From which states the marks still
// tell every later change of a Page's view, whatever the run does.
module RollbackMarks {
  import opened Common
  import opened Tables
  import opened Statements
  import opened Invariants
  import opened Runs
  import opened SearchIndex
  import opened AppendGuards

  // Every Page whose view differs carries a mark above the counter of the earlier state.
  ghost predicate Tells(d: Db, e: Db) {
    forall k :: View(e, k) != View(d, k) ==> k in e.marks.dirty && e.marks.dirty[k] > d.marks.sequence
  }

  lemma ReachedTracks(events: seq<Event>)
    ensures ConnTracks(After(FRESH, events)) && ConnOk(After(FRESH, events))
  {
    TracksReflexive(EMPTY_DB);
    RunTracks(FRESH, events);
    FreshOk();
    RunOk(FRESH, events);
    hide Tracks, StoreOk, DeferredOk, Extends;
  }

  // As long as the counter has not moved since the last COMMIT, no view has changed either.
  lemma SameCounterSameViews(c: Conn)
    requires ConnTracks(c) && DirtyInv(c.work.db.marks) && c.work.db.marks.sequence == c.committed.db.marks.sequence
    ensures forall k :: View(c.work.db, k) == View(c.committed.db, k)
  {
    hide View;
    forall k ensures View(c.work.db, k) == View(c.committed.db, k) {
      assert Told(c.committed.db, c.work.db, k);
    }
  }

  lemma TellsFromCommitted(c: Conn, more: seq<Event>)
    requires ConnTracks(c) && DirtyInv(c.work.db.marks) && c.work.db.marks.sequence == c.committed.db.marks.sequence
    ensures Tells(c.work.db, After(c, more).work.db)
  {
    RunTracks(c, more);
    SameCounterSameViews(c);
    hide View;
    var e := After(c, more).work.db;
    forall k | View(e, k) != View(c.work.db, k) ensures k in e.marks.dirty && e.marks.dirty[k] > c.work.db.marks.sequence {
      assert Told(c.committed.db, e, k);
    }
  }

  // Undo the transaction and insert another Page.
  function UndoAndInsert(key: PageKey, p: Page): seq<Event> { [Rollback, Begin, Run(InsertPage(key, p))] }

  lemma ThreeEvents(c: Conn, a: Event, b: Event, d: Event)
    ensures After(c, [a, b, d]) == Next(Next(Next(c, a), b), d)
  {
    var e := [a, b, d];
    assert e[..2][..1] == e[..1] && e[..1][..0] == [] && e[..2][1] == b && e[..1][0] == a;
    assert After(c, e[..0]) == c;
    assert After(c, e[..1]) == Next(After(c, e[..0]), a);
    assert After(c, e[..2]) == Next(After(c, e[..1]), b);
    hide Next;
  }

  lemma UndoneAndInserted(c: Conn, key: PageKey, p: Page)
    requires c.open && AcceptsPage(c.committed.db.hist.pages, key, p)
    ensures After(c, UndoAndInsert(key, p)).work.db == Apply(c.committed.db, InsertPage(key, p))
  {
    ThreeEvents(c, Rollback, Begin, Run(InsertPage(key, p)));
    hide AcceptsPage, Apply, DeferredOk;
  }

  // Its mark counts from the committed counter, which the undone transaction had passed.
  lemma CountedBack(c: Conn, key: PageKey, p: Page)
    requires c.open && AcceptsPage(c.committed.db.hist.pages, key, p) && key !in c.work.db.hist.pages
    requires c.work.db.marks.sequence > c.committed.db.marks.sequence
    ensures var v := After(c, UndoAndInsert(key, p)).work.db;
            View(v, key).Some? && View(c.work.db, key).None? && key in v.marks.dirty && v.marks.dirty[key] <= c.work.db.marks.sequence
    ensures !Tells(c.work.db, After(c, UndoAndInsert(key, p)).work.db)
  {
    UndoneAndInserted(c, key, p);
    hide After, AcceptsPage, RowsOf;
    var v := After(c, UndoAndInsert(key, p)).work.db;
    assert View(v, key).Some? && View(c.work.db, key).None?;
    assert v.marks == Marked(c.committed.db.marks, key, 1);
    hide View;
  }

  lemma {:induction false} FreeLibrary(keys: set<PageKey>) returns (library: Id)
    ensures forall k :: k in keys ==> k.library < library
    decreases |keys|
  {
    if keys == {} {
      library := 0;
    } else {
      var k :| k in keys;
      var rest := FreeLibrary(keys - {k});
      library := if k.library < rest then rest else k.library + 1;
      assert keys == (keys - {k}) + {k};
    }
  }

  lemma FreePage(pages: map<PageKey, Page>, library: Id)
    requires forall k :: k in pages ==> k.library < library
    ensures AcceptsPage(pages, PageKey(library, 1), AT_FIRST)
  {
  }

  // From a state of a run the marks tell every change, whatever the run does next, exactly when the
  // dirty counter is where the last COMMIT left it.
  lemma RollbackTells(events: seq<Event>)
    ensures var c := After(FRESH, events);
            (forall more :: Tells(c.work.db, After(c, more).work.db)) <==> c.work.db.marks.sequence == c.committed.db.marks.sequence
  {
    ReachedTracks(events);
    var c := After(FRESH, events);
    DirtyIn(c.work);
    hide After, Tells, StoreOk, DeferredOk, Extends;
    if c.work.db.marks.sequence == c.committed.db.marks.sequence {
      forall more ensures Tells(c.work.db, After(c, more).work.db) {
        TellsFromCommitted(c, more);
      }
    } else {
      var library := FreeLibrary(c.work.db.hist.pages.Keys + c.committed.db.hist.pages.Keys);
      FreePage(c.committed.db.hist.pages, library);
      CountedBack(c, PageKey(library, 1), AT_FIRST);
    }
  }

  // A run in which they do not: a Page inserted after an undone transaction carries mark 1, which is not
  // above the counter seen inside that transaction.
  const OTHER := PageKey(2, 1)
  const INSERTED := [Begin, Run(InsertPage(KEY, AT_FIRST))]

  lemma MarkTooLow()
    ensures var c := After(FRESH, INSERTED);
            var v := After(c, UndoAndInsert(OTHER, AT_FIRST)).work.db;
            c.work.db.marks.sequence == 1 && View(c.work.db, OTHER).None? && View(v, OTHER).Some? && Lookup(v.marks.dirty, OTHER) == Some(1)
  {
    OnePageInserted();
    var c := After(FRESH, INSERTED);
    hide After, Inserted, INSERTED, RowsOf;
    FreePage(map[], 2);
    UndoneAndInserted(c, OTHER, AT_FIRST);
  }

  lemma OnePageInserted()
    ensures var c := After(FRESH, INSERTED);
            && c.open && c.committed.db == EMPTY_DB && OTHER !in c.work.db.hist.pages && c.work.db.marks == Marks(1, map[KEY := 1])
  {
    InsertedIs();
    assert INSERTED[..1][..0] == [] && INSERTED[..1][0] == Begin;
    assert After(FRESH, []) == FRESH;
    assert After(FRESH, INSERTED[..1]) == Next(FRESH, Begin);
    var c := After(FRESH, INSERTED);
    assert c == Next(After(FRESH, INSERTED[..1]), INSERTED[1]);
    hide Exec, DeferredOk, After;
    assert c.work.db == Inserted();
  }
}
