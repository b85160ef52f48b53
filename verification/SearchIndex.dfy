// Incremental maintenance of the search index: the dirty sequence, and the transaction wrapper that
// flushes the index before it commits.
module SearchIndex {
  import opened Common
  import opened Tables
  import opened Statements
  import opened Invariants
  import opened Runs
  import HistoryKept

  // The rows about one Revision that searching reads.
  datatype RevisionRows = RevisionRows(row: Option<Revision>, manifest: Option<Manifest>, files: seq<File>, isSealed: bool)

  // What the index row of a Page is computed from.
  datatype SearchRow = SearchRow(
    section: Id, book: Id, pageId: Id, title: string, occurredAt: Time, current: RevRef, deletedAt: Option<Time>,
    tags: set<Id>, content: RevisionRows)

  function RowsOf(c: Content, rev: RevKey): RevisionRows {
    RevisionRows(Lookup(c.revisions, rev), Lookup(c.fileSets, rev), Rows(c.files, rev), rev in c.seals)
  }

  function RowOf(key: PageKey, p: Page, tags: set<Id>, content: RevisionRows): SearchRow {
    SearchRow(p.section, p.book, p.pageId, p.title, p.occurredAt, p.current, p.deletedAt, tags, content)
  }

  // The index row recomputed from the authority tables.
  function View(db: Db, key: PageKey): Option<SearchRow> {
    if key !in db.hist.pages then None
    else var p := db.hist.pages[key];
         Some(RowOf(key, p, TagsOf(db.tags, key), RowsOf(db.content, RevKey(key, p.current))))
  }

  // Equal views of a Page mean that everything searching reads of it is equal: its columns but page type
  // and times, its tags, and the row, manifest, files and seal of its current Revision.
  lemma ViewTellsApart(d: Db, e: Db, key: PageKey)
    requires key in d.hist.pages && View(d, key) == View(e, key)
    ensures key in e.hist.pages
    ensures var p, q := d.hist.pages[key], e.hist.pages[key];
            && q == p.(pageType := q.pageType, createdAt := q.createdAt, updatedAt := q.updatedAt)
            && (forall tag :: (key in d.tags && tag in d.tags[key]) <==> (key in e.tags && tag in e.tags[key]))
            && var rev, b, c := RevKey(key, p.current), d.content, e.content;
               && (rev in b.revisions <==> rev in c.revisions) && (rev in b.revisions ==> b.revisions[rev] == c.revisions[rev])
               && (rev in b.fileSets <==> rev in c.fileSets) && (rev in b.fileSets ==> b.fileSets[rev] == c.fileSets[rev])
               && Rows(b.files, rev) == Rows(c.files, rev)
               && (rev in b.seals <==> rev in c.seals)
  {
    var tags := TagsOf(d.tags, key);
    assert tags == TagsOf(e.tags, key);
    assert forall tag :: tag in tags <==> tag in TagsOf(e.tags, key);
  }

  // ---- dirty marks tell every change of a view ----

  // From `d` to `e` the counter never goes back; a mark that moved lies above the counter of `d`; and
  // every Page whose view differs carries such a mark.
  ghost predicate Told(d: Db, e: Db, key: PageKey) {
    && (Lookup(e.marks.dirty, key) == Lookup(d.marks.dirty, key)
        || (key in e.marks.dirty && e.marks.dirty[key] > d.marks.sequence))
    && (View(e, key) != View(d, key) ==> key in e.marks.dirty && e.marks.dirty[key] > d.marks.sequence)
  }

  ghost predicate Tracks(d: Db, e: Db) {
    e.marks.sequence >= d.marks.sequence && forall k :: Told(d, e, k)
  }

  lemma TracksReflexive(d: Db)
    ensures Tracks(d, d)
  {
    hide View;
  }

  lemma TracksTransitive(d: Db, e: Db, f: Db)
    requires Tracks(d, e) && Tracks(e, f)
    ensures Tracks(d, f)
  {
    hide View;
    forall k ensures Told(d, f, k) {
      assert Told(d, e, k) && Told(e, f, k);
    }
  }

  // A mark on one Page tells any change of that Page's view.
  lemma MarkTells(d: Db, e: Db, key: PageKey, n: nat)
    requires e.marks == Marked(d.marks, key, n)
    requires forall k :: View(e, k) != View(d, k) ==> k == key && n > 0
    ensures Tracks(d, e)
  {
    hide View;
  }

  lemma UnmarkedTells(d: Db, e: Db)
    requires e.marks == d.marks && forall k :: View(e, k) == View(d, k)
    ensures Tracks(d, e)
  {
    hide View;
  }

  lemma SamePagesSameView(d: Db, e: Db)
    requires e.hist.pages == d.hist.pages && e.tags == d.tags && e.content == d.content
    ensures forall k :: View(e, k) == View(d, k)
  {
  }

  // A statement about one Revision leaves the rows of all others alone.
  lemma OtherRevisions(c: Content, s: Stmt, rev: RevKey, other: RevKey)
    requires IsContentStmt(s)
    requires s.InsertRevision? || s.InsertFileSet? || s.InsertFile? || s.InsertSeal? ==> s.rev != other
    ensures RowsOf(ApplyContent(c, s), other) == RowsOf(c, other)
  {
  }

  predicate WritesRevisionRows(s: Stmt) {
    s.InsertRevision? || s.InsertFileSet? || s.InsertFile? || s.InsertSeal?
  }

  lemma ContentStmtTells(db: Db, s: Stmt)
    requires IsContentStmt(s)
    ensures Tracks(db, Apply(db, s))
  {
    var e := Apply(db, s);
    hide RowsOf, ApplyContent;
    forall k | View(e, k) != View(db, k) ensures WritesRevisionRows(s) && IsCurrent(db.hist.pages, s.rev) && k == s.rev.page {
      var rev := RevKey(k, db.hist.pages[k].current);
      if !(WritesRevisionRows(s) && s.rev == rev) {
        OtherRevisions(db.content, s, rev, rev);
      }
    }
    hide View;
    if WritesRevisionRows(s) && IsCurrent(db.hist.pages, s.rev) {
      ContentMarks(db, s);
      MarkTells(db, e, s.rev.page, MarksOf(db, s));
    } else {
      UnmarkedTells(db, e);
    }
  }

  function MarksOf(db: Db, s: Stmt): nat {
    match s
    case InsertRevision(r, row) => if row.content.Some? then 4 else 1
    case InsertFile(r, f) => if IsMarkdown(db.content, r) then 2 else 1
    case _ => 1
  }

  lemma ContentMarks(db: Db, s: Stmt)
    requires WritesRevisionRows(s) && IsCurrent(db.hist.pages, s.rev)
    ensures Apply(db, s).marks == Marked(db.marks, s.rev.page, MarksOf(db, s))
  {
    hide ApplyContent, Marked;
  }

  lemma UpdateTells(db: Db, key: PageKey, n: Page)
    requires key in db.hist.pages && n.pageId == db.hist.pages[key].pageId
    ensures Tracks(db, AfterPageUpdate(db, key, n))
  {
    var o, e := db.hist.pages[key], AfterPageUpdate(db, key, n);
    HistoryKept.UpdatedPages(db.hist, key, n, TitleRow(db.hist, key, o, n));
    hide HistoryAfter, TitleRow;
    forall rev ensures RowsOf(e.content, rev) == RowsOf(db.content, rev) {
    }
    hide RowsOf, Marked;
    assert forall k :: View(e, k) != View(db, k) ==> k == key && SearchColumnsDiffer(o, n);
    hide View, AfterPageUpdate;
    MarkTells(db, e, key, if SearchColumnsDiffer(o, n) then 1 else 0);
  }

  lemma TagTells(db: Db, s: Stmt)
    requires s.InsertTag? || s.DeleteTag?
    ensures Tracks(db, Apply(db, s))
  {
    var e := Apply(db, s);
    hide RowsOf, Marked;
    if e != db {
      assert forall k :: View(e, k) != View(db, k) ==> k == s.key;
      hide View;
      MarkTells(db, e, s.key, 1);
    } else {
      hide View;
      TracksReflexive(db);
    }
  }

  lemma ReassignTells(db: Db, s: Stmt)
    requires s.ReassignTag? && s.tag in TagsOf(db.tags, s.key)
    ensures Tracks(db, Apply(db, s))
  {
    var e := Apply(db, s);
    hide RowsOf;
    assert forall k :: View(e, k) != View(db, k) ==> k == s.key || k == s.toKey;
    hide View;
  }

  lemma InsertTells(db: Db, s: Stmt)
    requires s.InsertPage?
    ensures Tracks(db, Apply(db, s))
  {
    var e := Apply(db, s);
    hide RowsOf, Marked;
    assert forall k :: View(e, k) != View(db, k) ==> k == s.key;
    hide View;
    MarkTells(db, e, s.key, 1);
  }

  // One statement, accepted or not.
  lemma ExecTracks(db: Db, s: Stmt)
    ensures Tracks(db, Exec(db, s))
  {
    hide Tracks, ApplyContent, MarksAfterContent, AcceptsHistory, AcceptsContent, AfterPageUpdate, View, HistoryAllows, AcceptsPage;
    TracksReflexive(db);
    if Accepts(db, s) {
      if IsHistoryStmt(s) {
        HistoryStmtTells(db, s);
      } else if IsContentStmt(s) {
        ContentStmtTells(db, s);
      } else if s.UpdatePage? && s.key in db.hist.pages {
        UpdateIdentity(db, s.key, s.row);
        UpdateTells(db, s.key, s.row);
      } else if s.InsertPage? {
        InsertTells(db, s);
      } else if s.InsertTag? || s.DeleteTag? {
        TagTells(db, s);
      } else if s.ReassignTag? && s.tag in TagsOf(db.tags, s.key) {
        ReassignTells(db, s);
      } else if s.UpdatePage? {
        AbsentUpdate(db, s.key, s.row);
      }
    }
  }

  lemma AbsentUpdate(db: Db, key: PageKey, n: Page)
    requires key !in db.hist.pages
    ensures AfterPageUpdate(db, key, n) == db
  {
  }

  lemma UpdateIdentity(db: Db, key: PageKey, n: Page)
    requires key in db.hist.pages && HistoryAllows(db.hist, key, db.hist.pages[key], n)
    ensures n.pageId == db.hist.pages[key].pageId
  {
    HistoryKeepsIdentity(db.hist, key, n);
    hide HistoryAllows;
  }

  lemma HistoryStmtTells(db: Db, s: Stmt)
    requires IsHistoryStmt(s)
    ensures Tracks(db, Apply(db, s))
  {
    SamePagesSameView(db, Apply(db, s));
    hide View;
    UnmarkedTells(db, Apply(db, s));
  }

  // ---- over whole runs ----

  ghost predicate ConnTracks(c: Conn) {
    Tracks(c.committed.db, c.work.db) && (!c.open ==> c.work == c.committed)
  }

  lemma NextTracks(c: Conn, e: Event)
    requires ConnTracks(c)
    ensures ConnTracks(Next(c, e)) && Tracks(c.committed.db, Next(c, e).committed.db)
    ensures e != Rollback ==> Tracks(c.work.db, Next(c, e).work.db)
  {
    hide Tracks, DeferredOk, Exec;
    TracksReflexive(c.committed.db);
    TracksReflexive(c.work.db);
    if e.Run? {
      var t := ExecStore(c.work, e.stmt);
      ExecTracks(c.work.db, e.stmt);
      TracksTransitive(c.committed.db, c.work.db, t.db);
      TracksReflexive(t.db);
    }
  }

  // From any committed state, whatever the run does, rollbacks included: a Page whose view is
  // different later carries a mark above the counter of that state.
  lemma {:induction false} RunTracks(c: Conn, events: seq<Event>)
    requires ConnTracks(c)
    ensures ConnTracks(After(c, events))
    ensures Tracks(c.committed.db, After(c, events).committed.db) && Tracks(c.committed.db, After(c, events).work.db)
  {
    hide Tracks, Next;
    if events == [] {
      TracksReflexive(c.committed.db);
    } else {
      var b := After(c, events[..|events| - 1]);
      RunTracks(c, events[..|events| - 1]);
      NextTracks(b, events[|events| - 1]);
      TracksTransitive(c.committed.db, b.committed.db, After(c, events).committed.db);
      TracksTransitive(c.committed.db, After(c, events).committed.db, After(c, events).work.db);
    }
  }

  // From a state inside a transaction, the same as long as nothing is rolled back.
  lemma {:induction false} RunTracksWithoutRollback(c: Conn, events: seq<Event>)
    requires ConnTracks(c) && Rollback !in events
    ensures ConnTracks(After(c, events)) && Tracks(c.work.db, After(c, events).work.db)
  {
    hide Tracks, Next;
    TracksReflexive(c.work.db);
    if events != [] {
      var b := After(c, events[..|events| - 1]);
      RunTracksWithoutRollback(c, events[..|events| - 1]);
      NextTracks(b, events[|events| - 1]);
      TracksTransitive(c.work.db, b.work.db, After(c, events).work.db);
    }
  }

  lemma DirtyIn(t: Store)
    requires StoreOk(t)
    ensures DirtyInv(t.db.marks)
  {
    hide HistoryInv, RevisionsInv, SealsInv, StoriesOk;
  }

  // ---- the wrapper that flushes before it commits ----

  // The authority tables and the index beside them.
  datatype Indexed = Indexed(store: Store, index: map<PageKey, SearchRow>)

  // How the body of a transaction ends: it raises after the statements it ran, the flush raises, or
  // both complete.
  datatype Ending = BodyRaises | FlushRaises | Completes

  ghost function ExecStores(t: Store, stmts: seq<Stmt>): Store {
    if stmts == [] then t else ExecStore(ExecStores(t, stmts[..|stmts| - 1]), stmts[|stmts| - 1])
  }

  // The index row of every Page marked above `since` is recomputed from its view.
  function Flushed(db: Db, index: map<PageKey, SearchRow>, since: int): map<PageKey, SearchRow> {
    map k | k in index.Keys + db.marks.dirty.Keys
            && (if k in db.marks.dirty && db.marks.dirty[k] > since then View(db, k).Some? else k in index)
      :: if k in db.marks.dirty && db.marks.dirty[k] > since then View(db, k).value else index[k]
  }

  ghost function ImmediateTransaction(x: Indexed, stmts: seq<Stmt>, ending: Ending): Indexed {
    var since := x.store.db.marks.sequence;
    var work := ExecStores(x.store, stmts);
    if ending == Completes && DeferredOk(work.db) then Indexed(work, Flushed(work.db, x.index, since)) else x
  }

  ghost predicate IndexOk(x: Indexed) {
    forall k :: Lookup(x.index, k) == View(x.store.db, k)
  }

  lemma {:induction false} BodyTracks(t: Store, stmts: seq<Stmt>)
    ensures Tracks(t.db, ExecStores(t, stmts).db)
  {
    hide Tracks, Exec;
    TracksReflexive(t.db);
    if stmts != [] {
      var b := ExecStores(t, stmts[..|stmts| - 1]);
      BodyTracks(t, stmts[..|stmts| - 1]);
      ExecTracks(b.db, stmts[|stmts| - 1]);
      TracksTransitive(t.db, b.db, ExecStores(t, stmts).db);
    }
  }

  // Flushing what was marked since the start brings the index level with the authority tables.
  lemma FlushIsEnough(d: Db, e: Db, index: map<PageKey, SearchRow>)
    requires Tracks(d, e) && DirtyInv(d.marks) && forall k :: Lookup(index, k) == View(d, k)
    ensures forall k :: Lookup(Flushed(e, index, d.marks.sequence), k) == View(e, k)
  {
    hide View;
    forall k ensures Lookup(Flushed(e, index, d.marks.sequence), k) == View(e, k) {
      assert Told(d, e, k);
      assert Lookup(index, k) == View(d, k);
    }
  }

  datatype Transaction = Transaction(body: seq<Stmt>, ending: Ending)

  ghost function AfterTransactions(x: Indexed, transactions: seq<Transaction>): Indexed {
    if transactions == [] then x
    else
      var t := transactions[|transactions| - 1];
      ImmediateTransaction(AfterTransactions(x, transactions[..|transactions| - 1]), t.body, t.ending)
  }

  const EMPTY_INDEXED := Indexed(Store(EMPTY_DB, map[]), map[])

  lemma {:induction false} BodyOk(t: Store, stmts: seq<Stmt>)
    requires StoreOk(t)
    ensures StoreOk(ExecStores(t, stmts))
  {
    hide StoreOk, ExecStore;
    if stmts != [] {
      BodyOk(t, stmts[..|stmts| - 1]);
      ExecStoreOk(ExecStores(t, stmts[..|stmts| - 1]), stmts[|stmts| - 1]);
    }
  }

  lemma TransactionKeepsIndex(x: Indexed, stmts: seq<Stmt>, ending: Ending)
    requires StoreOk(x.store) && IndexOk(x)
    ensures StoreOk(ImmediateTransaction(x, stmts, ending).store) && IndexOk(ImmediateTransaction(x, stmts, ending))
  {
    BodyOk(x.store, stmts);
    BodyTracks(x.store, stmts);
    DirtyIn(x.store);
    hide StoreOk, DeferredOk, ExecStores, Tracks, Flushed, View, DirtyInv;
    FlushIsEnough(x.store.db, ExecStores(x.store, stmts).db, x.index);
  }

  // At every commit of every sequence of wrapped transactions, whatever fails in them, the index is
  // the recomputed view of the authority tables.
  lemma {:induction false} IndexIsAlwaysLevel(transactions: seq<Transaction>)
    ensures IndexOk(AfterTransactions(EMPTY_INDEXED, transactions)) && StoreOk(AfterTransactions(EMPTY_INDEXED, transactions).store)
  {
    if transactions == [] {
      EmptyInv();
    } else {
      hide IndexOk, StoreOk, ImmediateTransaction;
      IndexIsAlwaysLevel(transactions[..|transactions| - 1]);
      var t := transactions[|transactions| - 1];
      TransactionKeepsIndex(AfterTransactions(EMPTY_INDEXED, transactions[..|transactions| - 1]), t.body, t.ending);
    }
  }
}
