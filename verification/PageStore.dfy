// The store as a program: tables that statements change in place, triggers that run one after
// another, and a transaction that is committed or undone. Every method is proved against the run
// model of module Runs, which speaks only of net effects.
module PageStore {
  import opened Common
  import opened Tables
  import opened Statements
  import opened Invariants
  import opened Runs
  import opened Triggers
  import opened PageTriggers
  import ContentKept

  // SQLite does not fix the order in which the triggers of one statement fire.
  datatype Firing = Firing(pages: seq<PageTrigger>, revisions: seq<RevisionTrigger>, files: seq<FileTrigger>)

  ghost predicate AnyOrder(f: Firing) {
    FiringOrder(f.pages, PAGE_TRIGGERS) && FiringOrder(f.revisions, REVISION_TRIGGERS) && FiringOrder(f.files, FILE_TRIGGERS)
  }

  // What a statement leaves behind: the new tables if it is accepted. A refused one may stop half way.
  ghost predicate Outcome(before: Db, s: Stmt, ok: bool, after: Db) {
    ok == Accepts(before, s) && (ok ==> after == Apply(before, s))
  }

  class PageStore {
    var hist: Hist
    var content: Content
    var tags: map<PageKey, set<Id>>
    var marks: Marks
    var committed: Db
    var open: bool
    ghost var born: map<PageKey, Page>
    ghost var committedBorn: map<PageKey, Page>

    // The tables as they are now.
    function Now(): Db reads this { Db(hist, content, tags, marks) }

    ghost function View(): Conn reads this {
      Conn(Store(committed, committedBorn), Store(Now(), born), open)
    }

    ghost predicate Valid() reads this { ConnOk(View()) }

    constructor ()
      ensures Valid() && View() == FRESH
    {
      hist, content, tags, marks := EMPTY_DB.hist, EMPTY_DB.content, EMPTY_DB.tags, EMPTY_DB.marks;
      committed, open, born, committedBorn := EMPTY_DB, false, map[], map[];
      FreshOk();
    }

    // ---- transactions ----

    method Begin()
      requires Valid()
      modifies this
      ensures Valid() && View() == Next(old(View()), Event.Begin)
    {
      hide ConnOk, DeferredOk;
      NextOk(View(), Event.Begin);
      WorkingInv(View());
      if !open {
        open := true;
      }
    }

    method Commit() returns (done: bool)
      requires Valid()
      modifies this
      ensures Valid() && View() == Next(old(View()), Event.Commit)
      ensures done <==> old(open) && !open
    {
      hide ConnOk, DeferredOk;
      NextOk(View(), Event.Commit);
      done := open && DeferredOk(Now());
      if done {
        committed, committedBorn, open := Now(), born, false;
      }
    }

    method Rollback()
      requires Valid()
      modifies this
      ensures Valid() && View() == Next(old(View()), Event.Rollback)
    {
      hide ConnOk, DeferredOk;
      NextOk(View(), Event.Rollback);
      if open {
        Restore(committed);
        born, open := committedBorn, false;
      }
    }

    method Restore(db: Db)
      modifies this`hist, this`content, this`tags, this`marks
      ensures Now() == db
    {
      hist, content, tags, marks := db.hist, db.content, db.tags, db.marks;
    }

    // One statement: an abort anywhere in its cascade undoes all of it, and outside a transaction it
    // is committed at once or not at all.
    method Execute(s: Stmt, firing: Firing)
      requires Valid() && AnyOrder(firing)
      modifies this
      ensures Valid() && View() == Next(old(View()), Run(s))
    {
      hide ConnOk, Inv, Accepts, Apply, AnyOrder, DeferredOk;
      NextOk(View(), Run(s));
      WorkingInv(View());
      var before := Now();
      var ok := Perform(s, firing);
      if !ok {
        Restore(before);
      } else if s.InsertPage? {
        born := born[s.key := s.row];
      }
      if !open {
        if DeferredOk(Now()) {
          committed, committedBorn := Now(), born;
        } else {
          Restore(before);
          born := committedBorn;
        }
      }
    }

    method Perform(s: Stmt, firing: Firing) returns (ok: bool)
      requires Inv(Now()) && AnyOrder(firing)
      modifies this`hist, this`content, this`tags, this`marks
      ensures Outcome(old(Now()), s, ok, Now())
    {
      hide Accepts, Apply, HistoryInv, RevisionsInv, DirtyInv, MovesInv, SealsInv, FiringOrder;
      if IsHistoryStmt(s) {
        ok := WriteHistory(s);
      } else if s.InsertRevision? {
        ok := InsertRevisionRow(s.rev, s.revision, firing.revisions, firing.files);
      } else if s.InsertFile? {
        ok := InsertFileRow(s.rev, s.file, firing.files);
      } else if IsContentStmt(s) {
        ok := WriteContent(s);
      } else if s.UpdatePage? {
        ok := UpdatePageRow(s.key, s.newKey, s.row, firing.pages);
      } else if s.InsertPage? {
        ok := InsertPageRow(s.key, s.row);
      } else {
        ok := WriteTags(s);
      }
    }

    // Rows of the logs, their guards and the audit.
    method WriteHistory(s: Stmt) returns (ok: bool)
      requires IsHistoryStmt(s)
      modifies this`hist
      ensures Outcome(old(Now()), s, ok, Now())
      ensures !ok ==> Now() == old(Now())
    {
      hide AcceptsHistory, ApplyHistory;
      ok := AcceptsHistory(hist, content, s);
      if ok {
        hist := ApplyHistory(hist, s);
      }
    }

    // Rows about Revisions whose only AFTER trigger, if any, is the dirty mark.
    method WriteContent(s: Stmt) returns (ok: bool)
      requires IsContentStmt(s) && !s.InsertRevision? && !s.InsertFile?
      modifies this`content, this`marks
      ensures Outcome(old(Now()), s, ok, Now())
      ensures !ok ==> Now() == old(Now())
    {
      hide AcceptsContent, ApplyContent, MarksAfterContent;
      ok := AcceptsContent(hist.pages, content, s);
      if ok {
        marks := MarksAfterContent(Now(), s);
        content := ApplyContent(content, s);
      }
    }

    method InsertPageRow(key: PageKey, row: Page) returns (ok: bool)
      modifies this`hist, this`marks
      ensures Outcome(old(Now()), InsertPage(key, row), ok, Now())
    {
      hide AcceptsPage, Marked;
      ok := AcceptsPage(hist.pages, key, row);
      if ok {
        hist := hist.(pages := hist.pages[key := row]);
        marks := Marked(marks, key, 1);
      }
    }

    method WriteTags(s: Stmt) returns (ok: bool)
      requires s.InsertTag? || s.DeleteTag? || s.ReassignTag? || s.Rewrite?
      modifies this`tags, this`marks
      ensures Outcome(old(Now()), s, ok, Now())
    {
      hide Marked, AddTag, DropTag;
      ok := true;
      if s.InsertTag? {
        ok := s.key in hist.pages && s.tag !in TagsOf(tags, s.key);
        if ok {
          tags, marks := AddTag(tags, s.key, s.tag), Marked(marks, s.key, 1);
        }
      } else if s.DeleteTag? {
        if s.tag in TagsOf(tags, s.key) {
          tags, marks := DropTag(tags, s.key, s.tag), Marked(marks, s.key, 1);
        }
      } else if s.ReassignTag? {
        ok := ReassignTagRow(s.key, s.tag, s.toKey, s.toTag, s.oldFirst);
      } else {
        ok := false;
      }
    }

    // Both rows of the UPDATE mark their Page.
    method ReassignTagRow(key: PageKey, tag: Id, toKey: PageKey, toTag: Id, oldFirst: bool) returns (ok: bool)
      modifies this`tags, this`marks
      ensures Outcome(old(Now()), ReassignTag(key, tag, toKey, toTag, oldFirst), ok, Now())
    {
      hide Marked, AddTag, DropTag;
      if tag !in TagsOf(tags, key) {
        return true;
      }
      ok := toKey in hist.pages && (toTag in TagsOf(tags, toKey) ==> key == toKey && tag == toTag);
      if ok {
        tags := AddTag(DropTag(tags, key, tag), toKey, toTag);
        marks := Marked(marks, if oldFirst then key else toKey, 1);
        marks := Marked(marks, if oldFirst then toKey else key, 1);
      }
    }

    // ---- AFTER INSERT ON revision_files ----

    method InsertFileRow(rev: RevKey, f: File, order: seq<FileTrigger>) returns (ok: bool)
      requires FiringOrder(order, FILE_TRIGGERS)
      modifies this`hist, this`content, this`tags, this`marks
      ensures Outcome(old(Now()), InsertFile(rev, f), ok, Now())
    {
      hide FiringOrder, FireFiles, HasFile, Sealable;
      if !FileAdmitted(content, rev, f) {
        NotAdmitted(Now(), rev, f);
        return false;
      }
      AnyOrderOfFileTriggers(Now(), rev, f, order);
      hide FileAdmitted, AcceptsFile, AfterFile;
      content := content.(files := Appended(content.files, rev, f));
      ok := FireFileTriggers(rev, order);
    }

    method FireFileTriggers(rev: RevKey, order: seq<FileTrigger>) returns (ok: bool)
      modifies this`hist, this`content, this`tags, this`marks
      ensures FireFiles(old(Now()), rev, order) == if ok then Some(Now()) else None
    {
      hide FireFile;
      ok := true;
      var i := 0;
      while i < |order| && ok
        invariant 0 <= i <= |order|
        invariant FireFiles(old(Now()), rev, order[..i]) == if ok then Some(Now()) else None
      {
        assert order[..i + 1][..i] == order[..i];
        ok := FireFileTrigger(rev, order[i]);
        i := i + 1;
      }
      if ok {
        assert order[..|order|] == order;
      } else {
        FireFilesStops(old(Now()), rev, order, i);
      }
    }

    method FireFileTrigger(rev: RevKey, t: FileTrigger) returns (ok: bool)
      modifies this`hist, this`content, this`tags, this`marks
      ensures FireFile(old(Now()), rev, t) == if ok then Some(Now()) else None
    {
      hide Accepts, Apply, MarkedIfCurrent, IsMarkdown;
      ok := true;
      match t
      case AutoSeal =>
        if IsMarkdown(content, rev) {
          ok := WriteContent(InsertSeal(rev));
        }
      case MarkFile => marks := MarkedIfCurrent(Now(), rev, 1);
    }

    // ---- AFTER INSERT ON revisions ----

    method InsertRevisionRow(rev: RevKey, row: Revision, order: seq<RevisionTrigger>, fileOrder: seq<FileTrigger>) returns (ok: bool)
      requires SealsInv(content) && FiringOrder(order, REVISION_TRIGGERS) && FiringOrder(fileOrder, FILE_TRIGGERS)
      modifies this`hist, this`content, this`tags, this`marks
      ensures Outcome(old(Now()), InsertRevision(rev, row), ok, Now())
    {
      if !AcceptsRevision(hist.pages, content, rev, row) {
        return false;
      }
      var before := Now();
      hide AcceptsRevision, SealsInv, FireRevision, AfterRevision;
      AnyOrderOfRevisionTriggers(before, rev, row, order);
      hide FiringOrder;
      content := content.(revisions := content.revisions[rev := row]);
      for i := 0 to |order|
        invariant FireRevisions(RevisionWritten(before, rev, row), rev, row, order[..i]) == Some(Now())
      {
        assert order[..i + 1][..i] == order[..i];
        var fired := FireRevisionTrigger(rev, row, order[i], fileOrder);
        assert fired by {
          if !fired {
            FireRevisionsStops(RevisionWritten(before, rev, row), rev, row, order, i + 1);
          }
        }
      }
      assert order[..|order|] == order;
      ok := true;
    }

    method FireRevisionTrigger(rev: RevKey, row: Revision, t: RevisionTrigger, fileOrder: seq<FileTrigger>) returns (ok: bool)
      requires FiringOrder(fileOrder, FILE_TRIGGERS)
      modifies this`hist, this`content, this`tags, this`marks
      ensures FireRevision(old(Now()), rev, row, t) == if ok then Some(Now()) else None
    {
      hide Accepts, Apply, MarkedIfCurrent, FiringOrder;
      ok := true;
      match t
      case CreateAppendGuard =>
        if rev.ref.number > 1 {
          ok := WriteContent(InsertAppendGuard(rev.page, rev.ref));
        }
      case MirrorContentFile =>
        if row.content.Some? {
          ok := WriteContent(InsertFileSet(rev, MirrorManifest(row.content.value)));
          if ok {
            ok := InsertFileRow(rev, File(CONTENT_MD, row.content.value), fileOrder);
          }
        }
      case RequireFileSeal => ok := WriteContent(InsertSealGuard(rev));
      case MarkRevision => marks := MarkedIfCurrent(Now(), rev, 1);
    }

    // ---- UPDATE ON pages ----

    // The BEFORE triggers and CHECKs of an UPDATE of one Page row.
    method PageUpdateAdmitted(key: PageKey, newKey: PageKey, o: Page, n: Page) returns (ok: bool)
      requires key in hist.pages && hist.pages[key] == o
      ensures ok == AcceptsPageUpdate(Now(), key, newKey, n)
    {
      hide TitleRow, TitleAudited, OccurrenceGuarded, LifecycleGuarded, MoveGuarded, PointerAdvances, PageCheck;
      if newKey != key || !StableIdentity(o, n) || n.updatedAt < o.updatedAt || !PageCheck(n) {
        return false;
      }
      if !PointerAdvances(content.appendGuards, key, o, n) || !OccurrenceGuarded(hist, key, o, n) {
        return false;
      }
      if !LifecycleGuarded(hist, key, o, n) || !FrozenWhileDeleted(o, n) || !MoveGuarded(hist, key, o, n) {
        return false;
      }
      ok := TitleChangeAudited(key, o, n);
    }

    method TitleChangeAudited(key: PageKey, o: Page, n: Page) returns (ok: bool)
      ensures ok == TitleAudited(hist, key, o, n)
    {
      if n.title == o.title {
        return true;
      }
      if o.deletedAt.Some? || n.updatedAt <= o.updatedAt || !SameSection(o, n) || n.pageType != o.pageType
         || n.occurredAt != o.occurredAt || n.current != o.current || n.deletedAt != o.deletedAt {
        return false;
      }
      var row := UnusedAuditRow(key, o, n);
      hide TitleRow;
      ok := row.Some? && TitleCheck(row.value);
    }

    // The row INSERT ... SELECT records for a title change, when exactly one audit is unused.
    method UnusedAuditRow(key: PageKey, o: Page, n: Page) returns (row: Option<TitleEvent>)
      ensures row == TitleRow(hist, key, o, n)
    {
      var ids := UnusedTitleAudits(hist, key, n.updatedAt);
      if |ids| != 1 {
        return None;
      }
      var id :| id in ids;
      TheOnly(ids, id);
      row := Some(TitleEvent(NextSequence(TitleSequences(Rows(hist.titleEvents, key))), o.title, n.title,
                             o.updatedAt, n.updatedAt, o.current.number, id));
    }

    method UpdatePageRow(key: PageKey, newKey: PageKey, n: Page, order: seq<PageTrigger>) returns (ok: bool)
      requires Inv(Now()) && FiringOrder(order, PAGE_TRIGGERS)
      modifies this`hist, this`content, this`tags, this`marks
      ensures Outcome(old(Now()), UpdatePage(key, newKey, n), ok, Now())
    {
      hide Inv, AfterPageUpdate, FirePage, FiringOrder, HistoryAllows, PointerAdvances;
      if key !in hist.pages {
        AbsentPage(Now(), key, newKey, n);
        return true;
      }
      var before, o := Now(), hist.pages[key];
      var admitted := PageUpdateAdmitted(key, newKey, o, n);
      if !admitted {
        return false;
      }
      AnyOrderOfPageTriggers(before, key, n, order);
      hist := hist.(pages := hist.pages[key := n]);
      hide AcceptsPageUpdate;
      for i := 0 to |order|
        invariant FirePages(PageWritten(before, key, n), key, o, n, order[..i]) == Some(Now())
      {
        assert order[..i + 1][..i] == order[..i];
        var fired := FirePageTrigger(key, o, n, order[i]);
        assert fired by {
          if !fired {
            FirePagesStops(PageWritten(before, key, n), key, o, n, order, i + 1);
          }
        }
      }
      assert order[..|order|] == order;
      ok := true;
    }

    method FirePageTrigger(key: PageKey, o: Page, n: Page, t: PageTrigger) returns (ok: bool)
      modifies this`hist, this`content, this`tags, this`marks
      ensures FirePage(old(Now()), key, o, n, t) == if ok then Some(Now()) else None
    {
      hide Accepts, Apply, Marked, TitleRow, SearchColumnsDiffer, AcceptsTitleEvent;
      ok := true;
      match t
      case RecordOccurrence =>
        if n.occurredAt != o.occurredAt && key in hist.occGuards {
          ok := WriteHistory(InsertOccEvent(key, OccRow(o, n, hist.occGuards[key])));
          if ok {
            ok := WriteHistory(DeleteOccGuard(key));
          }
        }
      case RecordLifecycle =>
        if n.deletedAt != o.deletedAt && key in hist.lifeGuards {
          ok := WriteHistory(InsertLifeEvent(key, LifeRow(o, n, hist.lifeGuards[key])));
          if ok {
            ok := WriteHistory(DeleteLifeGuard(key));
          }
        }
      case RecordMove =>
        if !SameSection(o, n) && key in hist.moveGuards {
          ok := WriteHistory(InsertMoveEvent(key, hist.moveGuards[key]));
          if ok {
            ok := WriteHistory(DeleteMoveGuard(key));
          }
        }
      case RecordTitle =>
        if n.title != o.title {
          var row := UnusedAuditRow(key, o, n);
          ok := row.Some? && AcceptsTitleEvent(hist, key, row.value);
          if ok {
            hist := hist.(titleEvents := Appended(hist.titleEvents, key, row.value));
          }
        }
      case ClearAppendGuard =>
        if n.current != o.current && key in content.appendGuards && content.appendGuards[key] == n.current {
          ok := WriteContent(DeleteAppendGuard(key));
        }
      case MarkPage =>
        if SearchColumnsDiffer(o, n) {
          marks := Marked(marks, key, 1);
        }
    }
  }

  lemma WorkingInv(c: Conn)
    requires ConnOk(c)
    ensures Inv(c.work.db) && (!c.open ==> c.work == c.committed)
  {
    hide Inv, Extends, DeferredOk;
  }

  lemma NotAdmitted(db: Db, rev: RevKey, f: File)
    requires !FileAdmitted(db.content, rev, f)
    ensures !Accepts(db, InsertFile(rev, f))
  {
    hide HasFile, Sealable, FileCheck;
  }

  lemma AbsentPage(db: Db, key: PageKey, newKey: PageKey, n: Page)
    requires key !in db.hist.pages
    ensures Accepts(db, UpdatePage(key, newKey, n)) && Apply(db, UpdatePage(key, newKey, n)) == db
  {
    hide HistoryAllows, PointerAdvances;
  }

  lemma TheOnly(ids: set<Id>, id: Id)
    requires |ids| == 1 && id in ids
    ensures forall x :: x in ids ==> x == id
  {
    assert |ids - {id}| == 0;
    assert ids - {id} == {};
    assert forall x :: x in ids ==> x in ids - {id} || x == id;
  }

  lemma {:induction false} FireRevisionsStops(db: Db, rev: RevKey, row: Revision, order: seq<RevisionTrigger>, n: nat)
    requires n <= |order| && FireRevisions(db, rev, row, order[..n]).None?
    ensures FireRevisions(db, rev, row, order).None?
  {
    if n == |order| {
      assert order[..n] == order;
    } else {
      assert order[..|order| - 1][..n] == order[..n];
      FireRevisionsStops(db, rev, row, order[..|order| - 1], n);
    }
  }

  lemma {:induction false} FirePagesStops(db: Db, key: PageKey, o: Page, n: Page, order: seq<PageTrigger>, m: nat)
    requires m <= |order| && FirePages(db, key, o, n, order[..m]).None?
    ensures FirePages(db, key, o, n, order).None?
  {
    if m == |order| {
      assert order[..m] == order;
    } else {
      assert order[..|order| - 1][..m] == order[..m];
      FirePagesStops(db, key, o, n, order[..|order| - 1], m);
    }
  }

  // Once a trigger aborts, the rest does not matter.
  lemma {:induction false} FireFilesStops(db: Db, rev: RevKey, order: seq<FileTrigger>, n: nat)
    requires n <= |order| && FireFiles(db, rev, order[..n]).None?
    ensures FireFiles(db, rev, order).None?
  {
    if n == |order| {
      assert order[..n] == order;
    } else {
      assert order[..|order| - 1][..n] == order[..n];
      FireFilesStops(db, rev, order[..|order| - 1], n);
    }
  }
}
