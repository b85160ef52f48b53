// The transaction wrapper as it runs on a live connection.
module SearchCoordinator {
  import opened Common
  import opened Tables
  import opened Statements
  import opened Runs
  import opened SearchIndex
  import opened PageStore

  lemma SameLookups<K, V>(a: map<K, V>, b: map<K, V>)
    requires forall k :: Lookup(a, k) == Lookup(b, k)
    ensures a == b
  {
    assert forall k :: k in a <==> Lookup(a, k).Some?;
    assert forall k :: k in b <==> Lookup(b, k).Some?;
    assert forall k :: k in a ==> a[k] == Lookup(a, k).value;
  }

  class Coordinator {
    const store: PageStore
    var index: map<PageKey, SearchRow>

    ghost predicate Valid() reads this, store {
      store.Valid() && !store.open
    }

    ghost function Contents(): Indexed reads this, store {
      Indexed(store.View().committed, index)
    }

    constructor ()
      ensures Valid() && fresh(store) && Contents() == EMPTY_INDEXED
    {
      store := new PageStore();
      index := map[];
    }

    // `body` is what the wrapped code runs before it ends or raises.
    method Immediate(body: seq<Stmt>, firing: Firing, ending: Ending) returns (done: bool)
      requires Valid() && AnyOrder(firing)
      modifies this, store
      ensures Valid() && Contents() == ImmediateTransaction(old(Contents()), body, ending)
      ensures done <==> ending == Completes && DeferredOk(ExecStores(old(Contents()).store, body).db)
    {
      hide ConnOk, DeferredOk, AnyOrder, Exec, Flushed;
      var before := index;
      assert store.View().work == store.View().committed by { WorkingInv(store.View()); }
      store.Begin();
      var since := store.marks.sequence;
      for i := 0 to |body|
        invariant store.Valid() && store.open && index == before
        invariant store.View().committed == old(store.View().committed)
        invariant store.View().work == ExecStores(old(store.View().committed), body[..i])
      {
        assert body[..i + 1][..i] == body[..i];
        store.Execute(body[i], firing);
      }
      assert body[..|body|] == body;
      done := false;
      if ending != BodyRaises {
        FlushSince(since);
        if ending != FlushRaises {
          done := store.Commit();
        }
      }
      if !done {
        store.Rollback();
        index := before;
      }
    }

    // Recomputes the index row of every Page marked above `since`.
    method FlushSince(since: int)
      modifies this`index
      ensures index == Flushed(store.Now(), old(index), since)
    {
      hide SearchIndex.View;
      var todo := set k | k in store.marks.dirty && store.marks.dirty[k] > since;
      ghost var all := todo;
      while todo != {}
        invariant todo <= all
        invariant forall k ::
          Lookup(index, k) == if k in all && k !in todo then SearchIndex.View(store.Now(), k) else Lookup(old(index), k)
        decreases |todo|
      {
        var key :| key in todo;
        var row := SearchIndex.View(store.Now(), key);
        index := if row.Some? then index[key := row.value] else index - {key};
        todo := todo - {key};
      }
      SameLookups(index, Flushed(store.Now(), old(index), since));
    }
  }
}
