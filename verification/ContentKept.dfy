// Every statement keeps the invariants of Revisions, file sets, seals and dirty marks.
module ContentKept {
  import opened Common
  import opened Tables
  import opened Statements
  import opened Invariants

  // ---- Revisions and append guards ----

  // The rows about one Page's Revisions are the same in both.
  ghost predicate SameFor(c: Content, d: Content, key: PageKey) {
    && (forall r :: r in c.revisions || r in d.revisions ==> r.page == key ==> r in c.revisions && r in d.revisions)
    && (key in c.appendGuards <==> key in d.appendGuards)
    && (key in c.appendGuards ==> c.appendGuards[key] == d.appendGuards[key])
  }

  lemma RevisionsFrame(c: Content, d: Content, key: PageKey, current: RevRef)
    requires RevisionsOk(c, key, current) && SameFor(c, d, key)
    ensures RevisionsOk(d, key, current)
  {
    forall n | 1 <= n < current.number ensures HasNumber(d, key, n) {
      assert HasNumber(c, key, n);
      var r :| r in c.revisions && r.page == key && r.ref.number == n;
      assert r in d.revisions;
    }
  }

  // The Page just inserted has no Revision yet.
  lemma PageInsertRevisions(pages: map<PageKey, Page>, c: Content, key: PageKey, p: Page)
    requires RevisionsInv(pages, c) && key !in pages && p.current.number == 1
    ensures RevisionsInv(pages[key := p], c)
  {
    hide RevisionsOk;
    assert RevisionsOk(c, key, p.current) by { NoRevisions(c, key, p.current); }
  }

  lemma NoRevisions(c: Content, key: PageKey, current: RevRef)
    requires current.number == 1 && forall r :: r in c.revisions ==> r.page != key
    ensures RevisionsOk(c, key, current)
  {
  }

  // The pointer moves to the pending Revision: the numbers below it stay present.
  lemma Advanced(c: Content, key: PageKey, o: RevRef, n: RevRef)
    requires RevisionsOk(c, key, o) && NumbersUnique(c)
    requires n.number == o.number + 1 && RevKey(key, n) in c.revisions
    ensures RevisionsOk(c.(appendGuards := c.appendGuards - {key}), key, n)
  {
    var d := c.(appendGuards := c.appendGuards - {key});
    forall m | 1 <= m < n.number ensures HasNumber(d, key, m) {
      if m < o.number {
        assert HasNumber(c, key, m);
      } else {
        assert RevKey(key, o) in d.revisions;
      }
    }
  }

  // Only the Page row and the append guard of one Page change.
  lemma OnePageChanges(pages: map<PageKey, Page>, c: Content, key: PageKey, p: Page, d: Content)
    requires RevisionsInv(pages, c) && key in pages
    requires d == c.(appendGuards := d.appendGuards)
    requires forall k :: k != key ==> SameFor(c, d, k)
    requires key in d.appendGuards ==> RevKey(key, d.appendGuards[key]) in d.revisions && d.appendGuards[key].number >= 2
    requires RevisionsOk(d, key, p.current)
    ensures RevisionsInv(pages[key := p], d)
  {
    hide RevisionsOk;
    forall k | k in pages && k != key ensures RevisionsOk(d, k, pages[k].current) {
      RevisionsFrame(c, d, k, pages[k].current);
    }
    assert forall k :: k in d.appendGuards && k != key ==> SameFor(c, d, k);
  }

  lemma PageUpdateRevisions(pages: map<PageKey, Page>, c: Content, key: PageKey, n: Page)
    requires RevisionsInv(pages, c) && key in pages && PointerAdvances(c.appendGuards, key, pages[key], n)
    ensures RevisionsInv(pages[key := n], if n.current == pages[key].current then c else c.(appendGuards := c.appendGuards - {key}))
  {
    hide RevisionsOk, NumbersUnique;
    if n.current != pages[key].current {
      Advanced(c, key, pages[key].current, n.current);
      OnePageChanges(pages, c, key, n, c.(appendGuards := c.appendGuards - {key}));
    } else {
      OnePageChanges(pages, c, key, n, c);
    }
  }

  lemma Appended(c: Content, rev: RevKey, row: Revision, current: RevRef)
    requires RevisionsOk(c, rev.page, current) && RevisionCheck(rev, row)
    requires || (rev.ref.number == 1 && current == rev.ref && (forall r :: r in c.revisions ==> r.page != rev.page))
             || (rev.ref.number == current.number + 1 && RevKey(rev.page, current) in c.revisions)
    requires RevisionKeysFree(c, rev)
    ensures RevisionsOk(ContentAfterRevision(c, rev, row), rev.page, current)
  {
    var d := ContentAfterRevision(c, rev, row);
    forall n | 1 <= n < current.number ensures HasNumber(d, rev.page, n) {
      assert HasNumber(c, rev.page, n);
      var r :| r in c.revisions && r.page == rev.page && r.ref.number == n;
      assert r in d.revisions;
    }
  }

  lemma StillUnique(c: Content, rev: RevKey, row: Revision)
    requires NumbersUnique(c) && RevisionKeysFree(c, rev)
    ensures NumbersUnique(ContentAfterRevision(c, rev, row))
  {
  }

  lemma RevisionInsertRevisions(pages: map<PageKey, Page>, c: Content, rev: RevKey, row: Revision)
    requires RevisionsInv(pages, c) && AcceptsRevision(pages, c, rev, row)
    ensures RevisionsInv(pages, ContentAfterRevision(c, rev, row))
  {
    hide RevisionsOk, RevisionCheck, NumbersUnique;
    var d := ContentAfterRevision(c, rev, row);
    Appended(c, rev, row, pages[rev.page].current);
    StillUnique(c, rev, row);
    hide RevisionKeysFree;
    forall k | k in pages ensures RevisionsOk(d, k, pages[k].current) {
      if k != rev.page {
        RevisionsFrame(c, d, k, pages[k].current);
      }
    }
  }

  // The guard of a Page with no pending Revision may come and go.
  lemma IdleGuard(c: Content, d: Content, key: PageKey, current: RevRef)
    requires RevisionsOk(c, key, current) && d.revisions == c.revisions
    requires forall r :: r in c.revisions && r.page == key ==> r.ref.number != current.number + 1
    ensures RevisionsOk(d, key, current)
  {
    forall n | 1 <= n < current.number ensures HasNumber(d, key, n) {
      assert HasNumber(c, key, n);
    }
  }

  lemma NothingPending(pages: map<PageKey, Page>, c: Content, key: PageKey)
    requires RevisionsInv(pages, c) && key in pages
    requires key in c.appendGuards ==> c.appendGuards[key] == pages[key].current
    ensures forall r :: r in c.revisions && r.page == key ==> r.ref.number != pages[key].current.number + 1
  {
    assert RevisionsOk(c, key, pages[key].current);
  }

  lemma GuardInsertRevisions(pages: map<PageKey, Page>, c: Content, key: PageKey, ref: RevRef)
    requires RevisionsInv(pages, c) && AcceptsAppendGuard(c, key, ref)
    ensures RevisionsInv(pages, c.(appendGuards := c.appendGuards[key := ref]))
  {
    hide RevisionsOk;
    var d := c.(appendGuards := c.appendGuards[key := ref]);
    NothingPending(pages, c, key);
    IdleGuard(c, d, key, pages[key].current);
    OnePageChanges(pages, c, key, pages[key], d);
    assert pages[key := pages[key]] == pages;
  }

  lemma GuardDeleteRevisions(pages: map<PageKey, Page>, c: Content, key: PageKey)
    requires RevisionsInv(pages, c) && AcceptsAppendGuardDelete(pages, c, key)
    ensures RevisionsInv(pages, c.(appendGuards := c.appendGuards - {key}))
  {
    hide RevisionsOk;
    var d := c.(appendGuards := c.appendGuards - {key});
    if key in c.appendGuards {
      NothingPending(pages, c, key);
      IdleGuard(c, d, key, pages[key].current);
      OnePageChanges(pages, c, key, pages[key], d);
      assert pages[key := pages[key]] == pages;
    } else {
      assert d == c;
    }
  }

  lemma SameRevisions(pages: map<PageKey, Page>, c: Content, d: Content)
    requires RevisionsInv(pages, c) && d.revisions == c.revisions && d.appendGuards == c.appendGuards
    ensures RevisionsInv(pages, d)
  {
    hide RevisionsOk;
    forall k | k in pages ensures RevisionsOk(d, k, pages[k].current) {
      RevisionsFrame(c, d, k, pages[k].current);
    }
  }

  lemma ContentStmtRevisions(pages: map<PageKey, Page>, c: Content, s: Stmt)
    requires RevisionsInv(pages, c) && AcceptsContent(pages, c, s)
    ensures RevisionsInv(pages, ApplyContent(c, s))
  {
    hide RevisionsInv, AcceptsRevision, AcceptsAppendGuard, AcceptsAppendGuardDelete, AcceptsFileSet, AcceptsFile, AcceptsSeal;
    match s
    case InsertRevision(r, row) => RevisionInsertRevisions(pages, c, r, row);
    case InsertAppendGuard(k, ref) => GuardInsertRevisions(pages, c, k, ref);
    case DeleteAppendGuard(k) => GuardDeleteRevisions(pages, c, k);
    case _ => SameRevisions(pages, c, ApplyContent(c, s));
  }

  // ---- file sets and seals ----

  // Nothing the seal of a set depends on has changed.
  ghost predicate SameSet(c: Content, d: Content, r: RevKey) {
    && (r in c.revisions ==> r in d.revisions && d.revisions[r] == c.revisions[r])
    && (r in c.fileSets ==> r in d.fileSets && d.fileSets[r] == c.fileSets[r])
    && Rows(d.files, r) == Rows(c.files, r)
  }

  // Every statement about content leaves every sealed set exactly as it was.
  lemma SealedSetUnchanged(pages: map<PageKey, Page>, c: Content, s: Stmt, r: RevKey)
    requires SealsInv(c) && AcceptsContent(pages, c, s) && r in c.seals
    ensures r in ApplyContent(c, s).seals && SameSet(c, ApplyContent(c, s), r)
  {
    assert SealableSet(c, r);
    hide AcceptsAppendGuard, AcceptsAppendGuardDelete, Sequential, Sealable, SealableSet, RevisionCheck, ManifestCheck, FileCheck;
  }

  // The statement that adds a seal adds it to a set that may carry it.
  lemma NewSealFits(pages: map<PageKey, Page>, c: Content, s: Stmt, r: RevKey)
    requires SealsInv(c) && AcceptsContent(pages, c, s) && r in ApplyContent(c, s).seals && r !in c.seals
    ensures SealableSet(ApplyContent(c, s), r)
  {
    hide AcceptsAppendGuard, AcceptsAppendGuardDelete, Sequential, RevisionCheck, ManifestCheck, FileCheck, SealsInv, AcceptsFileSet;
  }

  lemma ContentStmtSeals(pages: map<PageKey, Page>, c: Content, s: Stmt)
    requires SealsInv(c) && AcceptsContent(pages, c, s)
    ensures SealsInv(ApplyContent(c, s))
  {
    var d := ApplyContent(c, s);
    forall r | r in d.seals ensures SealableSet(d, r) {
      if r in c.seals {
        assert SealableSet(c, r);
        SealedSetUnchanged(pages, c, s, r);
      } else {
        NewSealFits(pages, c, s, r);
      }
    }
    SealDomains(pages, c, s);
  }

  lemma SealDomains(pages: map<PageKey, Page>, c: Content, s: Stmt)
    requires SealsInv(c) && AcceptsContent(pages, c, s)
    ensures var d := ApplyContent(c, s);
            && (forall r :: r in d.revisions <==> r in d.sealGuards)
            && (forall r :: r in d.fileSets || r in d.files ==> r in d.revisions)
            && (forall r :: IsMarkdown(d, r) ==> r in d.seals)
  {
    hide AcceptsAppendGuard, AcceptsAppendGuardDelete, Sequential, RevisionCheck, ManifestCheck, FileCheck, Sealable, SealableSet;
  }

  // ---- all of it ----

  lemma RevisionsGrow(c: Content, s: Stmt)
    ensures forall r :: r in c.revisions ==> r in ApplyContent(c, s).revisions
  {
  }

  lemma MoveGuardsNamed(h: Hist, c: Content, s: Stmt)
    requires MovesInv(h.moveGuards, c.revisions) && AcceptsHistory(h, c, s)
    ensures MovesInv(ApplyHistory(h, s).moveGuards, c.revisions)
  {
    hide AcceptsOccGuard, AcceptsLifeGuard, AcceptsOccEvent, AcceptsLifeEvent, AcceptsMoveEvent;
  }

  lemma MovesKept(db: Db, s: Stmt)
    requires MovesInv(db.hist.moveGuards, db.content.revisions) && Accepts(db, s)
    ensures MovesInv(Apply(db, s).hist.moveGuards, Apply(db, s).content.revisions)
  {
    hide TitleRow, AcceptsPageUpdate, AcceptsContent, AcceptsHistory, MarksAfterContent, ApplyContent, ApplyHistory;
    if IsHistoryStmt(s) {
      MoveGuardsNamed(db.hist, db.content, s);
    } else if IsContentStmt(s) {
      RevisionsGrow(db.content, s);
    }
  }

  lemma MarksKept(db: Db, s: Stmt)
    requires DirtyInv(db.marks)
    ensures DirtyInv(Apply(db, s).marks)
  {
    hide ApplyContent, ApplyHistory, HistoryAfter, TitleRow;
  }

  lemma ContentKept(db: Db, s: Stmt)
    requires RevisionsInv(db.hist.pages, db.content) && SealsInv(db.content) && Accepts(db, s)
    ensures RevisionsInv(Apply(db, s).hist.pages, Apply(db, s).content) && SealsInv(Apply(db, s).content)
  {
    hide RevisionsInv, HistoryAllows, TitleRow, AcceptsContent, ApplyContent, AcceptsHistory;
    if IsContentStmt(s) {
      ContentStmtRevisions(db.hist.pages, db.content, s);
      ContentStmtSeals(db.hist.pages, db.content, s);
    } else if s.InsertPage? {
      PageInsertRevisions(db.hist.pages, db.content, s.key, s.row);
    } else if s.UpdatePage? && s.key in db.hist.pages {
      PageUpdateRevisions(db.hist.pages, db.content, s.key, s.row);
    }
  }
}
