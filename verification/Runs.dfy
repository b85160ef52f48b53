// Runs of one connection: transactions over single-row statements, with the deferred foreign keys
// checked at COMMIT, and what every state of every run keeps.
module Runs {
  import opened Common
  import opened Tables
  import opened Statements
  import opened History
  import opened Invariants
  import HistoryKept
  import ContentKept

  // The tables, and beside them the row each Page was inserted with. No statement reads `born`.
  datatype Store = Store(db: Db, born: map<PageKey, Page>)

  ghost function ExecStore(t: Store, s: Stmt): Store {
    Store(Exec(t.db, s), if s.InsertPage? && Accepts(t.db, s) then t.born[s.key := s.row] else t.born)
  }

  // What other connections see, what this one sees, and whether it is inside a transaction.
  datatype Conn = Conn(committed: Store, work: Store, open: bool)

  datatype Event = Begin | Run(stmt: Stmt) | Commit | Rollback

  // Outside a transaction a statement commits by itself, if it can. A COMMIT whose deferred foreign
  // keys fail leaves the transaction open.
  ghost function Next(c: Conn, e: Event): Conn {
    match e
    case Begin => if c.open then c else Conn(c.committed, c.committed, true)
    case Run(s) =>
      var after := ExecStore(c.work, s);
      if c.open then c.(work := after)
      else if DeferredOk(after.db) then Conn(after, after, false)
      else c
    case Commit => if c.open && DeferredOk(c.work.db) then Conn(c.work, c.work, false) else c
    case Rollback => if c.open then Conn(c.committed, c.committed, false) else c
  }

  ghost function After(c: Conn, events: seq<Event>): Conn {
    if events == [] then c else Next(After(c, events[..|events| - 1]), events[|events| - 1])
  }

  const FRESH := Conn(Store(EMPTY_DB, map[]), Store(EMPTY_DB, map[]), false)

  // The pages table changes only by the row a Page statement names.
  lemma PagesAfter(db: Db, s: Stmt)
    ensures var pages := db.hist.pages;
            Exec(db, s).hist.pages ==
              if Accepts(db, s) && (s.InsertPage? || (s.UpdatePage? && s.key in pages)) then pages[s.key := s.row] else pages
  {
    hide Accepts, HistoryAfter, TitleRow, ApplyContent, MarksAfterContent, SearchColumnsDiffer, Marked;
    if Accepts(db, s) && s.UpdatePage? && s.key in db.hist.pages {
      HistoryKept.UpdatedPages(db.hist, s.key, s.row, TitleRow(db.hist, s.key, db.hist.pages[s.key], s.row));
    }
  }

  // ---- each Page's story ----

  // The merged logs replay the row the Page was inserted with to the row it has now.
  ghost predicate StoryOk(born: Page, page: Page, logs: Logs) {
    && Replay(ShownOf(born), Merge(logs)) == Some(ShownOf(page))
    && StableIdentity(born, page)
    && born.deletedAt.None? && born.current.number == 1
  }

  ghost predicate StoriesOk(t: Store) {
    forall k :: k in t.db.hist.pages ==> k in t.born && StoryOk(t.born[k], t.db.hist.pages[k], LogsOf(t.db.hist, k))
  }

  lemma UpdatedStory(h: Hist, key: PageKey, n: Page, titleRow: Option<TitleEvent>, born: Page)
    requires HistoryInv(h) && key in h.pages && HistoryAllows(h, key, h.pages[key], n)
    requires titleRow == TitleRow(h, key, h.pages[key], n)
    requires StoryOk(born, h.pages[key], LogsOf(h, key))
    ensures StoryOk(born, n, LogsOf(HistoryAfter(h, key, h.pages[key], n, titleRow), key))
  {
    hide HistoryAllows, TitleRow, HistoryAfter, LogsOf, HistoryInv, LedgerOk, HistoryKept.Logged;
    HistoryKept.LedgerAt(h, key);
    HistoryKept.UpdateLogs(h, key, n, titleRow);
    HistoryKeepsIdentity(h, key, n);
    var logs := LogsOf(h, key);
    var e := HistoryKept.Logged(h, key, h.pages[key], n, titleRow);
    if e.Some? {
      assert AllBefore(logs, At(e.value));
      MergeLatest(logs, e.value);
      ReplaySnoc(ShownOf(born), Merge(logs), e.value);
    }
  }

  lemma HistoryKeepsIdentity(h: Hist, key: PageKey, n: Page)
    requires key in h.pages && HistoryAllows(h, key, h.pages[key], n)
    ensures StableIdentity(h.pages[key], n)
  {
    hide TitleAudited, OccurrenceGuarded, LifecycleGuarded, MoveGuarded, PageCheck;
  }

  lemma InsertedStory(h: Hist, key: PageKey, p: Page)
    requires HistoryInv(h) && key !in h.pages && p.deletedAt.None? && p.current.number == 1
    ensures StoryOk(p, p, LogsOf(h.(pages := h.pages[key := p]), key))
  {
  }

  // The logs of a Page change only with its own UPDATE.
  lemma LogsElsewhere(h: Hist, c: Content, s: Stmt, k: PageKey)
    requires HistoryInv(h) && AcceptsHistory(h, c, s)
    ensures ApplyHistory(h, s).pages == h.pages && LogsOf(ApplyHistory(h, s), k) == LogsOf(h, k)
  {
    hide HistoryInv, AcceptsOccGuard, AcceptsLifeGuard, AcceptsMoveGuard, AcceptsOccEvent, AcceptsLifeEvent, AcceptsMoveEvent;
    match s
    case InsertOccEvent(key, e) => HistoryKept.NoHandWrittenOccEvent(h, key, e);
    case InsertLifeEvent(key, e) => HistoryKept.NoHandWrittenLifeEvent(h, key, e);
    case InsertMoveEvent(key, e) => HistoryKept.NoHandWrittenMoveEvent(h, c, key, e);
    case _ =>
  }

  lemma StoriesKept(t: Store, s: Stmt)
    requires HistoryInv(t.db.hist) && StoriesOk(t) && Accepts(t.db, s)
    ensures StoriesOk(ExecStore(t, s))
  {
    hide HistoryInv, HistoryAllows, AcceptsContent, TitleRow, HistoryAfter, AcceptsHistory, StoryOk, LogsOf, ApplyHistory, PageCheck;
    var h, d := t.db.hist, Apply(t.db, s).hist;
    if IsHistoryStmt(s) {
      forall k | k in d.pages ensures k in t.born && StoryOk(t.born[k], d.pages[k], LogsOf(d, k)) {
        LogsElsewhere(h, t.db.content, s, k);
      }
    } else if s.InsertPage? {
      InsertedStory(h, s.key, s.row);
      forall k | k in d.pages && k != s.key ensures LogsOf(d, k) == LogsOf(h, k) {
        InsertElsewhere(h, s.key, s.row, k);
      }
    } else if s.UpdatePage? && s.key in h.pages {
      var titleRow := TitleRow(h, s.key, h.pages[s.key], s.row);
      UpdatedStory(h, s.key, s.row, titleRow, t.born[s.key]);
      HistoryKept.UpdateFrame(h, s.key, s.row, titleRow);
      forall k | k in d.pages && k != s.key ensures k in t.born && StoryOk(t.born[k], d.pages[k], LogsOf(d, k)) {
        HistoryKept.OtherLedger(h, s.key, s.row, titleRow, k);
      }
    }
  }

  lemma InsertElsewhere(h: Hist, key: PageKey, p: Page, k: PageKey)
    requires k != key
    ensures LogsOf(h.(pages := h.pages[key := p]), k) == LogsOf(h, k)
  {
  }

  // ---- what a later state keeps of an earlier one ----

  ghost predicate LogsExtend(a: Logs, b: Logs) {
    a.occ <= b.occ && a.life <= b.life && a.move <= b.move && a.title <= b.title
  }

  // Until the next lifecycle event a deleted Page keeps these columns.
  predicate Frozen(p: Page, q: Page) {
    ShownOf(q) == ShownOf(p) && q.current == p.current
  }

  ghost predicate PageExtends(p: Page, a: Logs, q: Page, b: Logs) {
    && StableIdentity(p, q) && q.updatedAt >= p.updatedAt && q.current.number >= p.current.number
    && LogsExtend(a, b)
    && (p.deletedAt.Some? && |b.life| == |a.life| ==> Frozen(p, q))
  }

  ghost predicate HistExtends(h: Hist, d: Hist) {
    forall k :: k in h.pages ==>
      k in d.pages && PageExtends(h.pages[k], LogsOf(h, k), d.pages[k], LogsOf(d, k))
  }

  // Revisions are never rewritten, and a sealed set keeps its manifest and its files.
  ghost predicate ContentExtends(c: Content, d: Content) {
    && (forall r :: r in c.revisions ==> r in d.revisions && d.revisions[r] == c.revisions[r])
    && (forall r :: r in c.seals ==> r in d.seals && ContentKept.SameSet(c, d, r))
  }

  ghost predicate Extends(d: Db, e: Db) {
    HistExtends(d.hist, e.hist) && ContentExtends(d.content, e.content)
  }

  lemma ExtendsReflexive(d: Db)
    ensures Extends(d, d)
  {
    hide LogsOf;
  }

  lemma PageExtendsTransitive(p: Page, a: Logs, q: Page, b: Logs, r: Page, c: Logs)
    requires PageExtends(p, a, q, b) && PageExtends(q, b, r, c)
    ensures PageExtends(p, a, r, c)
  {
  }

  lemma ExtendsTransitive(d: Db, e: Db, f: Db)
    requires Extends(d, e) && Extends(e, f)
    ensures Extends(d, f)
  {
    assert ContentExtends(d.content, f.content);
    hide LogsOf, PageExtends, ContentExtends;
    forall k | k in d.hist.pages
      ensures k in f.hist.pages && PageExtends(d.hist.pages[k], LogsOf(d.hist, k), f.hist.pages[k], LogsOf(f.hist, k))
    {
      PageExtendsTransitive(d.hist.pages[k], LogsOf(d.hist, k), e.hist.pages[k], LogsOf(e.hist, k), f.hist.pages[k], LogsOf(f.hist, k));
    }
  }

  lemma UpdateExtends(h: Hist, appendGuards: map<PageKey, RevRef>, key: PageKey, n: Page, titleRow: Option<TitleEvent>)
    requires HistoryInv(h) && key in h.pages && HistoryAllows(h, key, h.pages[key], n)
    requires PointerAdvances(appendGuards, key, h.pages[key], n)
    requires titleRow == TitleRow(h, key, h.pages[key], n)
    ensures PageExtends(h.pages[key], LogsOf(h, key), n, LogsOf(HistoryAfter(h, key, h.pages[key], n, titleRow), key))
  {
    hide TitleRow, HistoryAfter, LogsOf, HistoryInv, LedgerOk, HistoryKept.Logged, AllBefore;
    HistoryKeepsIdentity(h, key, n);
    assert h.pages[key].deletedAt.Some? ==> n.current == h.pages[key].current by {
      hide TitleAudited, OccurrenceGuarded, LifecycleGuarded, MoveGuarded, PageCheck;
    }
    hide HistoryAllows;
    HistoryKept.LedgerAt(h, key);
    HistoryKept.UpdateLogs(h, key, n, titleRow);
  }

  lemma HistoryStmtExtends(h: Hist, c: Content, s: Stmt)
    requires HistoryInv(h) && AcceptsHistory(h, c, s)
    ensures HistExtends(h, ApplyHistory(h, s))
  {
    hide HistoryInv, AcceptsHistory, ApplyHistory, LogsOf;
    forall k | k in h.pages
      ensures k in ApplyHistory(h, s).pages
      ensures PageExtends(h.pages[k], LogsOf(h, k), ApplyHistory(h, s).pages[k], LogsOf(ApplyHistory(h, s), k))
    {
      LogsElsewhere(h, c, s, k);
    }
  }

  lemma PageStmtExtends(db: Db, s: Stmt)
    requires HistoryInv(db.hist) && Accepts(db, s) && (s.InsertPage? || s.UpdatePage?)
    ensures HistExtends(db.hist, Apply(db, s).hist)
  {
    hide HistoryInv, HistoryAllows, TitleRow, HistoryAfter, LogsOf, PageCheck, PageExtends;
    var h, d := db.hist, Apply(db, s).hist;
    if s.InsertPage? {
      forall k | k in h.pages ensures k in d.pages && PageExtends(h.pages[k], LogsOf(h, k), d.pages[k], LogsOf(d, k)) {
        InsertElsewhere(h, s.key, s.row, k);
        SamePageExtends(h.pages[k], LogsOf(h, k));
      }
    } else if s.key in h.pages {
      var titleRow := TitleRow(h, s.key, h.pages[s.key], s.row);
      UpdateExtends(h, db.content.appendGuards, s.key, s.row, titleRow);
      HistoryKept.UpdateFrame(h, s.key, s.row, titleRow);
      forall k | k in h.pages && k != s.key ensures k in d.pages && PageExtends(h.pages[k], LogsOf(h, k), d.pages[k], LogsOf(d, k)) {
        HistoryKept.OtherLedger(h, s.key, s.row, titleRow, k);
        SamePageExtends(h.pages[k], LogsOf(h, k));
      }
    } else {
      HistExtendsReflexive(h);
    }
  }

  lemma SamePageExtends(p: Page, a: Logs)
    ensures PageExtends(p, a, p, a)
  {
  }

  lemma HistExtendsReflexive(h: Hist)
    ensures HistExtends(h, h)
  {
    hide LogsOf;
  }

  lemma ContentStmtExtends(pages: map<PageKey, Page>, c: Content, s: Stmt)
    requires SealsInv(c) && AcceptsContent(pages, c, s)
    ensures ContentExtends(c, ApplyContent(c, s))
  {
    forall r | r in c.seals ensures r in ApplyContent(c, s).seals && ContentKept.SameSet(c, ApplyContent(c, s), r) {
      ContentKept.SealedSetUnchanged(pages, c, s, r);
    }
    hide SealsInv, AcceptsAppendGuard, AcceptsAppendGuardDelete, Sequential, RevisionCheck, ManifestCheck, FileCheck, ContentKept.SameSet;
    assert s.InsertRevision? ==> s.rev !in c.revisions;
  }

  // One statement extends the state it runs in, accepted or not.
  lemma ExecExtends(db: Db, s: Stmt)
    requires Inv(db)
    ensures Extends(db, Exec(db, s))
  {
    hide HistoryInv, SealsInv, RevisionsInv, AcceptsHistory, AcceptsContent, ApplyContent, ApplyHistory;
    hide HistoryAllows, TitleRow, HistoryAfter, HistExtends, ContentExtends, PageCheck;
    ExtendsReflexive(db);
    if Accepts(db, s) {
      if IsHistoryStmt(s) {
        HistoryStmtExtends(db.hist, db.content, s);
      } else if IsContentStmt(s) {
        ContentStmtExtends(db.hist.pages, db.content, s);
      } else if s.InsertPage? || s.UpdatePage? {
        PageStmtExtends(db, s);
        PageStmtContent(db, s);
      }
    }
  }

  lemma PageStmtContent(db: Db, s: Stmt)
    requires s.InsertPage? || s.UpdatePage?
    ensures ContentExtends(db.content, Apply(db, s).content)
  {
    hide HistoryAfter, TitleRow;
  }

  // ---- every run ----

  lemma ExecInv(db: Db, s: Stmt)
    requires Inv(db)
    ensures Inv(Exec(db, s))
  {
    hide HistoryInv, RevisionsInv, SealsInv, DirtyInv, MovesInv, Accepts, Apply;
    if Accepts(db, s) {
      HistoryKept.HistoryKept(db, s);
      ContentKept.ContentKept(db, s);
      ContentKept.MarksKept(db, s);
      ContentKept.MovesKept(db, s);
    }
  }

  ghost predicate StoreOk(t: Store) { Inv(t.db) && StoriesOk(t) }

  ghost predicate ConnOk(c: Conn) {
    && StoreOk(c.committed) && StoreOk(c.work)
    && DeferredOk(c.committed.db)
    && Extends(c.committed.db, c.work.db)
    && (!c.open ==> c.work == c.committed)
  }

  lemma ExecStoreOk(t: Store, s: Stmt)
    requires StoreOk(t)
    ensures StoreOk(ExecStore(t, s)) && Extends(t.db, ExecStore(t, s).db)
  {
    ExecInv(t.db, s);
    ExecExtends(t.db, s);
    hide Extends, Accepts, Apply, HistoryInv, RevisionsInv, SealsInv, DirtyInv, MovesInv;
    if Accepts(t.db, s) {
      StoriesKept(t, s);
    }
  }

  lemma NextOk(c: Conn, e: Event)
    requires ConnOk(c)
    ensures ConnOk(Next(c, e))
    ensures Extends(c.committed.db, Next(c, e).committed.db)
  {
    hide Extends, StoreOk, DeferredOk, ExecStore;
    ExtendsReflexive(c.committed.db);
    if e.Run? {
      ExecStoreOk(c.work, e.stmt);
      var t := ExecStore(c.work, e.stmt);
      ExtendsTransitive(c.committed.db, c.work.db, t.db);
      ExtendsReflexive(t.db);
    }
    ExtendsReflexive(c.work.db);
  }

  // Every state of every run satisfies the invariants, and the committed state only ever grows:
  // logs by appending, Revisions and sealed sets by adding, deleted Pages not at all until restored.
  lemma {:induction false} RunOk(c: Conn, events: seq<Event>)
    requires ConnOk(c)
    ensures ConnOk(After(c, events)) && Extends(c.committed.db, After(c, events).committed.db)
  {
    hide Extends, StoreOk, DeferredOk, ConnOk, Next;
    if events == [] {
      ExtendsReflexive(c.committed.db);
    } else {
      var b := After(c, events[..|events| - 1]);
      RunOk(c, events[..|events| - 1]);
      NextOk(b, events[|events| - 1]);
      ExtendsTransitive(c.committed.db, b.committed.db, After(c, events).committed.db);
    }
  }

  lemma FreshOk()
    ensures ConnOk(FRESH)
  {
    EmptyInv();
    ExtendsReflexive(EMPTY_DB);
  }
}
