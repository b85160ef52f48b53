// What goes through for Revisions, file sets and tags: from every reachable state of an open
// transaction, exactly which statements add a Page with its first Revision, append a Revision or give a
// Revision its sealed file set, and the tables they leave.
module ContentProgress {
  import opened Common
  import opened Tables
  import opened Statements
  import opened Invariants
  import opened Runs
  import opened Guarantees
  import opened Progress

  // ---- a new Page and its first Revision ----

  predicate IsNewPage(pages: map<PageKey, Page>, key: PageKey, p: Page) {
    && p.current.number == 1 && p.deletedAt == None
    && MIN_OCCURRED <= p.occurredAt <= MAX_OCCURRED && |p.title| >= 1 && 0 <= p.createdAt <= p.updatedAt
    && forall k :: k in pages && k.library == key.library ==> pages[k].pageId != p.pageId
  }

  // A Revision row with an identifier its Library does not have.
  predicate IsNewRevision(c: Content, rev: RevKey, row: Revision) {
    && row.createdAt >= 0
    && (row.content.Some? ==>
          1 <= |row.content.value.bytes| <= 2 * 1024 * 1024 && forall i :: 0 <= i < |row.content.value.bytes| ==> row.content.value.bytes[i] != 0)
    && forall r :: r in c.revisions && r.page.library == rev.page.library ==> r.ref.id != rev.ref.id
  }

  // The content tables with one more Revision. A Markdown Revision comes with its set of one file, sealed;
  // another one has to be sealed before COMMIT.
  function WithRevision(c: Content, rev: RevKey, row: Revision): Content {
    match row.content
    case None => c.(revisions := c.revisions[rev := row], sealGuards := c.sealGuards + {rev})
    case Some(blob) =>
      c.(revisions := c.revisions[rev := row], sealGuards := c.sealGuards + {rev}, seals := c.seals + {rev},
         fileSets := c.fileSets[rev := Manifest(LegacyMarkdown, 1, |blob.bytes|, None)],
         files := c.files[rev := [File("content.md", blob)]])
  }

  function PageAdded(db: Db, key: PageKey, p: Page): Db {
    db.(hist := db.hist.(pages := db.hist.pages[key := p]), marks := Marking(db.marks, key, 1))
  }

  // One mark for the Page and one for every row written for its current Revision.
  function BornTables(db: Db, key: PageKey, p: Page, row: Revision): Db {
    db.(hist := db.hist.(pages := db.hist.pages[key := p]),
        content := WithRevision(db.content, RevKey(key, p.current), row),
        marks := Marking(db.marks, key, if row.content == None then 2 else 5))
  }

  lemma PageInserted(db: Db, key: PageKey, p: Page)
    requires key !in db.hist.pages
    ensures Exec(db, InsertPage(key, p)) == if IsNewPage(db.hist.pages, key, p) then PageAdded(db, key, p) else db
  {
  }

  lemma RevisionChecked(c: Content, rev: RevKey, row: Revision)
    requires 1 <= rev.ref.number <= MAX_BIGINT
    requires forall r :: r in c.revisions && r.page == rev.page ==> r.ref.number != rev.ref.number
    ensures RevisionCheck(rev, row) && RevisionKeysFree(c, rev) <==> IsNewRevision(c, rev, row)
  {
    if row.content.Some? {
      var bytes := row.content.value.bytes;
      assert 0 !in bytes <==> forall i :: 0 <= i < |bytes| ==> bytes[i] != 0;
    }
  }

  lemma FirstRevision(db: Db, key: PageKey, p: Page, row: Revision)
    requires key !in db.hist.pages && p.current.number == 1 && forall r :: r in db.content.revisions ==> r.page != key
    ensures Exec(PageAdded(db, key, p), InsertRevision(RevKey(key, p.current), row))
      == if IsNewRevision(db.content, RevKey(key, p.current), row) then BornTables(db, key, p, row) else PageAdded(db, key, p)
  {
    RevisionChecked(db.content, RevKey(key, p.current), row);
    hide RevisionCheck, RevisionKeysFree, IsNewRevision;
  }

  lemma NoPageNoRevisions(db: Db, key: PageKey)
    requires Inv(db) && key !in db.hist.pages
    ensures forall r :: r in db.content.revisions ==> r.page != key
  {
    hide HistoryInv, SealsInv, MovesInv, DirtyInv, NumbersUnique, RevisionsOk;
  }

  lemma BirthOutcome(db: Db, key: PageKey, p: Page, row: Revision)
    requires Inv(db) && key !in db.hist.pages
    ensures var rev := RevKey(key, p.current);
            var after := Exec(Exec(db, InsertPage(key, p)), InsertRevision(rev, row));
            after == if !IsNewPage(db.hist.pages, key, p) then db
                     else if !IsNewRevision(db.content, rev, row) then PageAdded(db, key, p)
                     else BornTables(db, key, p, row)
  {
    hide Inv, Accepts, Apply, IsNewRevision, BornTables, PageAdded;
    NoPageNoRevisions(db, key);
    PageInserted(db, key, p);
    if IsNewPage(db.hist.pages, key, p) {
      FirstRevision(db, key, p, row);
    } else {
      NoPage(db, key, p, row);
    }
  }

  lemma NoPage(db: Db, key: PageKey, p: Page, row: Revision)
    requires key !in db.hist.pages
    ensures Exec(db, InsertRevision(RevKey(key, p.current), row)) == db
  {
  }

  // A new Page arrives exactly when its row is in order and its identifier is new to the Library, and its
  // first Revision exactly when that row and identifier are too.
  lemma BirthGoesThrough(events: seq<Event>, key: PageKey, p: Page, row: Revision)
    requires After(FRESH, events).open && key !in Working(events).db.hist.pages
    ensures var db, rev := Working(events).db, RevKey(key, p.current);
            Then(events, [InsertPage(key, p), InsertRevision(rev, row)])
            == if !IsNewPage(db.hist.pages, key, p) then db
               else if !IsNewRevision(db.content, rev, row) then PageAdded(db, key, p)
               else BornTables(db, key, p, row)
  {
    hide Then, Working, ExecAll, Inv, Exec, IsNewPage, IsNewRevision, After, PageAdded, BornTables;
    var s, t := InsertPage(key, p), InsertRevision(RevKey(key, p.current), row);
    ThenIs(events, [s, t]);
    TwoStatements(Working(events).db, s, t);
    BirthOutcome(Working(events).db, key, p, row);
  }

  // ---- the next Revision ----

  // A Revision with the next number, after a current one that is there.
  predicate IsNextRevision(db: Db, key: PageKey, ref: RevRef, row: Revision)
    requires key in db.hist.pages
  {
    var p := db.hist.pages[key];
    && ref.number == p.current.number + 1 <= MAX_BIGINT && RevKey(key, p.current) in db.content.revisions
    && IsNewRevision(db.content, RevKey(key, ref), row)
  }

  // A live Page with another current Revision; page type and change time may move along with it.
  predicate IsAdvanced(p: Page, n: Page) {
    p.deletedAt == None && p.updatedAt <= n.updatedAt && n == p.(current := n.current, pageType := n.pageType, updatedAt := n.updatedAt)
  }

  function AppendedTables(db: Db, key: PageKey, n: Page, row: Revision): Db {
    db.(hist := db.hist.(pages := db.hist.pages[key := n]),
        content := WithRevision(db.content, RevKey(key, n.current), row), marks := Marking(db.marks, key, 1))
  }

  // A Revision whose number is ahead of its Page waits as the append guard.
  function Waiting(db: Db, key: PageKey, ref: RevRef, row: Revision): Db {
    db.(content := WithRevision(db.content, RevKey(key, ref), row).(appendGuards := db.content.appendGuards[key := ref]))
  }

  lemma NumberIsFree(db: Db, key: PageKey, number: int)
    requires Inv(db) && key in db.hist.pages && key !in db.content.appendGuards && number == db.hist.pages[key].current.number + 1
    ensures forall r :: r in db.content.revisions && r.page == key ==> r.ref.number != number
  {
    hide HistoryInv, SealsInv, MovesInv, DirtyInv, NumbersUnique;
    assert RevisionsOk(db.content, key, db.hist.pages[key].current);
  }

  lemma NextTaken(db: Db, key: PageKey, ref: RevRef, row: Revision)
    requires key in db.hist.pages && key !in db.content.appendGuards && ref != db.hist.pages[key].current
    requires 1 <= db.hist.pages[key].current.number
    requires ref.number == db.hist.pages[key].current.number + 1 ==> forall r :: r in db.content.revisions && r.page == key ==> r.ref.number != ref.number
    ensures Exec(db, InsertRevision(RevKey(key, ref), row)) == if IsNextRevision(db, key, ref, row) then Waiting(db, key, ref, row) else db
  {
    if ref.number == db.hist.pages[key].current.number + 1 <= MAX_BIGINT {
      RevisionChecked(db.content, RevKey(key, ref), row);
      hide RevisionCheck, RevisionKeysFree, IsNewRevision;
    }
  }

  lemma AdvanceUpdate(db: Db, key: PageKey, n: Page)
    requires key in db.hist.pages && PageCheck(db.hist.pages[key]) && n.current != db.hist.pages[key].current
    ensures Accepts(db, UpdatePage(key, key, n)) <==>
            && IsAdvanced(db.hist.pages[key], n) && n.current.number == db.hist.pages[key].current.number + 1
            && key in db.content.appendGuards && db.content.appendGuards[key] == n.current
  {
    hide TitleRow;
  }

  lemma AdvanceApplied(db: Db, key: PageKey, n: Page, row: Revision)
    requires key in db.hist.pages && key !in db.content.appendGuards && n.current != db.hist.pages[key].current
    requires IsAdvanced(db.hist.pages[key], n)
    ensures Apply(Waiting(db, key, n.current, row), UpdatePage(key, key, n)) == AppendedTables(db, key, n, row)
  {
    hide TitleRow;
    assert db.content.appendGuards[key := n.current] - {key} == db.content.appendGuards;
  }

  lemma AppendOutcome(db: Db, key: PageKey, n: Page, row: Revision)
    requires Inv(db) && key in db.hist.pages && key !in db.content.appendGuards && n.current != db.hist.pages[key].current
    ensures var after := Exec(Exec(db, InsertRevision(RevKey(key, n.current), row)), UpdatePage(key, key, n));
            after == if !IsNextRevision(db, key, n.current, row) then db
                     else if !IsAdvanced(db.hist.pages[key], n) then Waiting(db, key, n.current, row)
                     else AppendedTables(db, key, n, row)
  {
    hide Inv, Accepts, Apply, IsAdvanced, IsNewRevision, AppendedTables, WithRevision, NextSequence;
    PageFacts(db, key);
    if n.current.number == db.hist.pages[key].current.number + 1 {
      NumberIsFree(db, key, n.current.number);
    }
    NextTaken(db, key, n.current, row);
    AdvanceUpdate(db, key, n);
    if IsNextRevision(db, key, n.current, row) {
      AdvanceUpdate(Waiting(db, key, n.current, row), key, n);
      if IsAdvanced(db.hist.pages[key], n) {
        AdvanceApplied(db, key, n, row);
      }
    }
  }

  // A Revision and an UPDATE of the pointer to it append that Revision exactly when it has the next
  // number and an identifier new to the Library, the Page is live, and nothing but page type and change
  // time differs besides. No append guard is left.
  lemma AppendGoesThrough(events: seq<Event>, key: PageKey, n: Page, row: Revision)
    requires After(FRESH, events).open && key in Working(events).db.hist.pages
    requires key !in Working(events).db.content.appendGuards && n.current != Working(events).db.hist.pages[key].current
    ensures var db := Working(events).db;
            Then(events, [InsertRevision(RevKey(key, n.current), row), UpdatePage(key, key, n)])
            == if !IsNextRevision(db, key, n.current, row) then db
               else if !IsAdvanced(db.hist.pages[key], n) then Waiting(db, key, n.current, row)
               else AppendedTables(db, key, n, row)
  {
    hide Then, Working, ExecAll, Inv, Exec, IsNextRevision, IsAdvanced, After, Waiting, AppendedTables;
    var s, t := InsertRevision(RevKey(key, n.current), row), UpdatePage(key, key, n);
    ThenIs(events, [s, t]);
    TwoStatements(Working(events).db, s, t);
    AppendOutcome(Working(events).db, key, n, row);
  }

  // ---- the sealed file set of a Revision ----

  predicate IsFile(f: File) {
    |f.name| >= 1 && |f.blob.bytes| <= 16 * 1024 * 1024
  }

  predicate NameTaken(files: seq<File>, name: string) {
    exists i :: 0 <= i < |files| && files[i].name == name
  }

  // The files an INSERT keeps: those in order whose name is not taken yet.
  function Kept(files: seq<File>): seq<File> {
    if files == [] then []
    else
      var before, f := Kept(files[..|files| - 1]), files[|files| - 1];
      if IsFile(f) && !NameTaken(before, f.name) then before + [f] else before
  }

  // Every file is kept exactly when all are in order and no name comes twice.
  lemma {:induction false} KeptAll(files: seq<File>)
    ensures |Kept(files)| <= |files|
    ensures Kept(files) == files <==>
            && (forall i :: 0 <= i < |files| ==> IsFile(files[i]))
            && (forall i, j :: 0 <= i < j < |files| ==> files[i].name != files[j].name)
  {
    hide IsFile;
    if files != [] {
      var before, f := files[..|files| - 1], files[|files| - 1];
      assert files == before + [f];
      KeptAll(before);
      if Kept(files) == files {
        assert |Kept(before)| == |before| && Kept(files) == Kept(before) + [f];
        assert Kept(before) == before;
      }
      if Kept(before) == before {
        assert !NameTaken(before, f.name) <==> forall i :: 0 <= i < |before| ==> files[i].name != f.name;
      }
    }
  }

  predicate IsSetManifest(m: Manifest) {
    m.format == FileSetV1 && 1 <= m.count <= 64 && 0 <= m.total <= 64 * 1024 * 1024 && m.snapshot != None
  }

  // Statements about a Revision mark its Page while that Revision is the current one.
  function MarkingCurrent(db: Db, rev: RevKey, n: nat): Marks {
    if n > 0 && rev.page in db.hist.pages && db.hist.pages[rev.page].current == rev.ref then Marking(db.marks, rev.page, n)
    else db.marks
  }

  function WithFiles(files: map<RevKey, seq<File>>, rev: RevKey, rows: seq<File>): map<RevKey, seq<File>> {
    if rows == [] then files else files[rev := rows]
  }

  // The tables once some files of the set, and perhaps its manifest and its seal, are in.
  function SetTables(db: Db, rev: RevKey, manifest: Option<Manifest>, rows: seq<File>, sealed: bool): Db {
    var n := |rows| + (if manifest == None then 0 else 1) + (if sealed then 1 else 0);
    db.(content := db.content.(
          fileSets := if manifest == None then db.content.fileSets else db.content.fileSets[rev := manifest.value],
          files := WithFiles(db.content.files, rev, rows),
          seals := if sealed then db.content.seals + {rev} else db.content.seals),
        marks := MarkingCurrent(db, rev, n))
  }

  // A Revision without Markdown content that still waits for its files.
  predicate AwaitsFiles(c: Content, rev: RevKey) {
    && rev in c.revisions && c.revisions[rev].content == None
    && rev !in c.fileSets && Rows(c.files, rev) == [] && rev !in c.seals
  }

  lemma ManifestTaken(db: Db, rev: RevKey, m: Manifest)
    requires AwaitsFiles(db.content, rev)
    ensures Exec(db, InsertFileSet(rev, m)) == SetTables(db, rev, if IsSetManifest(m) then Some(m) else None, [], false)
  {
  }

  lemma FileTaken(db: Db, rev: RevKey, manifest: Option<Manifest>, rows: seq<File>, f: File)
    requires AwaitsFiles(db.content, rev)
    ensures Exec(SetTables(db, rev, manifest, rows, false), InsertFile(rev, f))
      == SetTables(db, rev, manifest, if IsFile(f) && !NameTaken(rows, f.name) then rows + [f] else rows, false)
  {
    var d := SetTables(db, rev, manifest, rows, false);
    assert Rows(d.content.files, rev) == rows;
    assert WithFiles(db.content.files, rev, rows)[rev := rows + [f]] == WithFiles(db.content.files, rev, rows + [f]);
    assert HasFile(rows, f.name) <==> NameTaken(rows, f.name);
    hide HasFile, NameTaken;
  }

  lemma Sealing(db: Db, rev: RevKey, manifest: Option<Manifest>, rows: seq<File>)
    requires AwaitsFiles(db.content, rev) && (manifest.Some? ==> IsSetManifest(manifest.value))
    ensures AcceptsSeal(SetTables(db, rev, manifest, rows, false).content, rev)
      <==> manifest.Some? && |rows| == manifest.value.count && TotalBytes(rows) == manifest.value.total
  {
    var d := SetTables(db, rev, manifest, rows, false);
    assert Rows(d.content.files, rev) == rows;
    hide TotalBytes, MarkingCurrent, Marking;
  }

  lemma Sealed(db: Db, rev: RevKey, manifest: Option<Manifest>, rows: seq<File>)
    ensures Apply(SetTables(db, rev, manifest, rows, false), InsertSeal(rev)) == SetTables(db, rev, manifest, rows, true)
  {
    hide WithFiles;
  }

  lemma SealTaken(db: Db, rev: RevKey, manifest: Option<Manifest>, rows: seq<File>)
    requires AwaitsFiles(db.content, rev) && (manifest.Some? ==> IsSetManifest(manifest.value))
    ensures Exec(SetTables(db, rev, manifest, rows, false), InsertSeal(rev))
      == SetTables(db, rev, manifest, rows, manifest.Some? && |rows| == manifest.value.count && TotalBytes(rows) == manifest.value.total)
  {
    Sealing(db, rev, manifest, rows);
    Sealed(db, rev, manifest, rows);
    hide TotalBytes, SetTables, AcceptsSeal, Apply, AwaitsFiles;
  }

  function FileInserts(rev: RevKey, files: seq<File>): seq<Stmt> {
    seq(|files|, i requires 0 <= i < |files| => InsertFile(rev, files[i]))
  }

  lemma {:induction false} FilesTaken(db: Db, rev: RevKey, manifest: Option<Manifest>, files: seq<File>)
    requires AwaitsFiles(db.content, rev)
    ensures ExecAll(SetTables(db, rev, manifest, [], false), FileInserts(rev, files)) == SetTables(db, rev, manifest, Kept(files), false)
  {
    hide AwaitsFiles, Exec, SetTables, IsFile, NameTaken;
    if files != [] {
      var before, f := files[..|files| - 1], files[|files| - 1];
      FilesTaken(db, rev, manifest, before);
      assert FileInserts(rev, files)[..|files| - 1] == FileInserts(rev, before);
      FileTaken(db, rev, manifest, Kept(before), f);
    }
  }

  lemma SetOutcome(db: Db, rev: RevKey, m: Manifest, files: seq<File>)
    requires AwaitsFiles(db.content, rev)
    ensures ExecAll(db, [InsertFileSet(rev, m)] + FileInserts(rev, files) + [InsertSeal(rev)])
      == SetTables(db, rev, if IsSetManifest(m) then Some(m) else None, Kept(files),
                   IsSetManifest(m) && |Kept(files)| == m.count && TotalBytes(Kept(files)) == m.total)
  {
    hide AwaitsFiles, Exec, SetTables, IsSetManifest, Kept, FileInserts, TotalBytes;
    var manifest := if IsSetManifest(m) then Some(m) else None;
    var s, t := InsertFileSet(rev, m), InsertSeal(rev);
    ManifestTaken(db, rev, m);
    FilesTaken(db, rev, manifest, files);
    SealTaken(db, rev, manifest, Kept(files));
    TwoStatements(db, s, s);
    ExecConcat(db, [s], FileInserts(rev, files));
    ExecConcat(db, [s] + FileInserts(rev, files), [t]);
    TwoStatements(ExecAll(db, [s] + FileInserts(rev, files)), t, t);
  }

  lemma {:induction false} ExecConcat(db: Db, a: seq<Stmt>, b: seq<Stmt>)
    ensures ExecAll(db, a + b) == ExecAll(ExecAll(db, a), b)
  {
    hide Exec;
    if b == [] {
      assert a + b == a;
    } else {
      ExecConcat(db, a, b[..|b| - 1]);
      assert (a + b)[..|a + b| - 1] == a + b[..|b| - 1];
    }
  }

  // A manifest, files and a seal give a waiting Revision its set: the manifest if it is in order, the files
  // in order whose names come first, and the seal exactly when their number and their bytes add up to
  // what the manifest says.
  lemma FileSetGoesThrough(events: seq<Event>, rev: RevKey, m: Manifest, files: seq<File>)
    requires After(FRESH, events).open && AwaitsFiles(Working(events).db.content, rev)
    ensures Then(events, [InsertFileSet(rev, m)] + FileInserts(rev, files) + [InsertSeal(rev)])
      == SetTables(Working(events).db, rev, if IsSetManifest(m) then Some(m) else None, Kept(files),
                   IsSetManifest(m) && |Kept(files)| == m.count && TotalBytes(Kept(files)) == m.total)
  {
    hide Then, Working, ExecAll, Inv, After, AwaitsFiles, SetTables, Kept, TotalBytes, IsSetManifest;
    ThenIs(events, [InsertFileSet(rev, m)] + FileInserts(rev, files) + [InsertSeal(rev)]);
    SetOutcome(Working(events).db, rev, m, files);
  }

  // ---- tags ----

  predicate HasTag(tags: map<PageKey, set<Id>>, key: PageKey, tag: Id) {
    key in tags && tag in tags[key]
  }

  lemma TagAdded(db: Db, key: PageKey, tag: Id)
    ensures var after, add := Exec(db, InsertTag(key, tag)), key in db.hist.pages && !HasTag(db.tags, key, tag);
            && after == db.(tags := after.tags, marks := if add then Marking(db.marks, key, 1) else db.marks)
            && (forall k, t :: HasTag(after.tags, k, t) <==> HasTag(db.tags, k, t) || (add && k == key && t == tag))
  {
  }

  lemma TagDropped(db: Db, key: PageKey, tag: Id)
    ensures var after, drop := Exec(db, DeleteTag(key, tag)), HasTag(db.tags, key, tag);
            && after == db.(tags := after.tags, marks := if drop then Marking(db.marks, key, 1) else db.marks)
            && (forall k, t :: HasTag(after.tags, k, t) <==> HasTag(db.tags, k, t) && !(k == key && t == tag))
  {
  }

  // The row is there, and the row it would become is free.
  predicate CanReassign(db: Db, key: PageKey, tag: Id, other: PageKey, tag2: Id) {
    HasTag(db.tags, key, tag) && other in db.hist.pages && ((other == key && tag2 == tag) || !HasTag(db.tags, other, tag2))
  }

  lemma TagReassigned(db: Db, key: PageKey, tag: Id, other: PageKey, tag2: Id, oldFirst: bool)
    ensures var after, move := Exec(db, ReassignTag(key, tag, other, tag2, oldFirst)), CanReassign(db, key, tag, other, tag2);
            && after == db.(tags := after.tags, marks := after.marks)
            && after.marks == (if !move then db.marks
                               else if oldFirst then Marking(Marking(db.marks, key, 1), other, 1)
                               else Marking(Marking(db.marks, other, 1), key, 1))
            && (forall k, t :: HasTag(after.tags, k, t) <==>
                  || (move && k == other && t == tag2)
                  || (HasTag(db.tags, k, t) && !(move && k == key && t == tag)))
  {
  }

  // Which tags which Pages have after each statement about tags, and which marks it leaves: a statement
  // that is refused or finds no row changes nothing.
  lemma TagsGoThrough(events: seq<Event>, key: PageKey, tag: Id, other: PageKey, tag2: Id, oldFirst: bool)
    requires After(FRESH, events).open
    ensures var db, after := Working(events).db, Then(events, [InsertTag(key, tag)]);
            var add := key in db.hist.pages && !HasTag(db.tags, key, tag);
            && after == db.(tags := after.tags, marks := if add then Marking(db.marks, key, 1) else db.marks)
            && (forall k, t :: HasTag(after.tags, k, t) <==> HasTag(db.tags, k, t) || (add && k == key && t == tag))
    ensures var db, after := Working(events).db, Then(events, [DeleteTag(key, tag)]);
            var drop := HasTag(db.tags, key, tag);
            && after == db.(tags := after.tags, marks := if drop then Marking(db.marks, key, 1) else db.marks)
            && (forall k, t :: HasTag(after.tags, k, t) <==> HasTag(db.tags, k, t) && !(k == key && t == tag))
    ensures var db, after := Working(events).db, Then(events, [ReassignTag(key, tag, other, tag2, oldFirst)]);
            var move := CanReassign(db, key, tag, other, tag2);
            && after == db.(tags := after.tags, marks := after.marks)
            && after.marks == (if !move then db.marks
                               else if oldFirst then Marking(Marking(db.marks, key, 1), other, 1)
                               else Marking(Marking(db.marks, other, 1), key, 1))
            && (forall k, t :: HasTag(after.tags, k, t) <==>
                  || (move && k == other && t == tag2)
                  || (HasTag(db.tags, k, t) && !(move && k == key && t == tag)))
  {
    hide Then, Working, ExecAll, Inv, After, Exec, HasTag, CanReassign, Marking;
    var db := Working(events).db;
    var r, s, t := InsertTag(key, tag), DeleteTag(key, tag), ReassignTag(key, tag, other, tag2, oldFirst);
    ThenIs(events, [r]);
    ThenIs(events, [s]);
    ThenIs(events, [t]);
    TwoStatements(db, r, r);
    TwoStatements(db, s, s);
    TwoStatements(db, t, t);
    TagAdded(db, key, tag);
    TagDropped(db, key, tag);
    TagReassigned(db, key, tag, other, tag2, oldFirst);
  }
}
