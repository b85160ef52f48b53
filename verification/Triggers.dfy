// The AFTER triggers themselves, one at a time and in any order, over the row their statement wrote.
// A statement inside a trigger body is a statement like any other: its own BEFORE triggers may abort
// it, and that aborts the outer statement.
module Triggers {
  import opened Common
  import opened Tables
  import opened Statements
  import opened Invariants
  import opened History
  import HistoryKept

  ghost function Nested(db: Db, s: Stmt): Option<Db> {
    if Accepts(db, s) then Some(Apply(db, s)) else None
  }

  ghost function Then(r: Option<Db>, s: Stmt): Option<Db> {
    match r
    case None => None
    case Some(db) => Nested(db, s)
  }

  // An order in which each trigger of a statement fires once.
  predicate FiringOrder<T(!new, ==)>(order: seq<T>, all: set<T>) {
    SetOf(order) == all && NoneTwice(order)
  }

  function SetOf<T(!new, ==)>(order: seq<T>): set<T> {
    set t | t in order
  }

  predicate NoneTwice<T(!new, ==)>(order: seq<T>) {
    forall i, j :: 0 <= i < j < |order| ==> order[i] != order[j]
  }

  lemma OneMore<T(!new)>(order: seq<T>)
    requires order != [] && NoneTwice(order)
    ensures var before, t := order[..|order| - 1], order[|order| - 1];
            NoneTwice(before) && t !in SetOf(before) && SetOf(order) == SetOf(before) + {t}
  {
    var before, t := order[..|order| - 1], order[|order| - 1];
    assert order == before + [t];
  }

  // ---- AFTER INSERT ON revision_files ----

  datatype FileTrigger = AutoSeal | MarkFile
  const FILE_TRIGGERS := {AutoSeal, MarkFile}

  ghost function FireFile(db: Db, rev: RevKey, t: FileTrigger): Option<Db> {
    match t
    case AutoSeal => if IsMarkdown(db.content, rev) then Nested(db, InsertSeal(rev)) else Some(db)
    case MarkFile => Some(db.(marks := MarkedIfCurrent(db, rev, 1)))
  }

  function FileWritten(db: Db, rev: RevKey, f: File): Db {
    db.(content := db.content.(files := Appended(db.content.files, rev, f)))
  }

  ghost function FireFiles(db: Db, rev: RevKey, order: seq<FileTrigger>): Option<Db> {
    if order == [] then Some(db)
    else match FireFiles(db, rev, order[..|order| - 1])
         case None => None
         case Some(d) => FireFile(d, rev, order[|order| - 1])
  }

  // ---- AFTER INSERT ON revisions ----

  datatype RevisionTrigger = CreateAppendGuard | MirrorContentFile | RequireFileSeal | MarkRevision
  const REVISION_TRIGGERS := {CreateAppendGuard, MirrorContentFile, RequireFileSeal, MarkRevision}

  ghost function FireRevision(db: Db, rev: RevKey, row: Revision, t: RevisionTrigger): Option<Db> {
    match t
    case CreateAppendGuard => if rev.ref.number > 1 then Nested(db, InsertAppendGuard(rev.page, rev.ref)) else Some(db)
    case MirrorContentFile =>
      if row.content.None? then Some(db)
      else Then(Nested(db, InsertFileSet(rev, MirrorManifest(row.content.value))),
                InsertFile(rev, File(CONTENT_MD, row.content.value)))
    case RequireFileSeal => Nested(db, InsertSealGuard(rev))
    case MarkRevision => Some(db.(marks := MarkedIfCurrent(db, rev, 1)))
  }

  function RevisionWritten(db: Db, rev: RevKey, row: Revision): Db {
    db.(content := db.content.(revisions := db.content.revisions[rev := row]))
  }

  ghost function FireRevisions(db: Db, rev: RevKey, row: Revision, order: seq<RevisionTrigger>): Option<Db> {
    if order == [] then Some(db)
    else match FireRevisions(db, rev, row, order[..|order| - 1])
         case None => None
         case Some(d) => FireRevision(d, rev, row, order[|order| - 1])
  }

  // The state once the triggers in `fired` have run, in whatever order.
  function ContentPartly(c: Content, rev: RevKey, row: Revision, fired: set<RevisionTrigger>): Content {
    var mirrored := row.content.Some? && MirrorContentFile in fired;
    c.(
      revisions := c.revisions[rev := row],
      sealGuards := if RequireFileSeal in fired then c.sealGuards + {rev} else c.sealGuards,
      appendGuards := if CreateAppendGuard in fired && rev.ref.number > 1 then c.appendGuards[rev.page := rev.ref] else c.appendGuards,
      fileSets := if mirrored then c.fileSets[rev := MirrorManifest(row.content.value)] else c.fileSets,
      files := if mirrored then c.files[rev := [File(CONTENT_MD, row.content.value)]] else c.files,
      seals := if mirrored then c.seals + {rev} else c.seals)
  }

  function RevisionPartly(db: Db, rev: RevKey, row: Revision, fired: set<RevisionTrigger>): Db {
    db.(content := ContentPartly(db.content, rev, row, fired),
        marks := MarkedIfCurrent(db, rev, (if MarkRevision in fired then 1 else 0)
                                          + (if row.content.Some? && MirrorContentFile in fired then 3 else 0)))
  }

  lemma MarkedTwice(m: Marks, key: PageKey, a: nat, b: nat)
    ensures Marked(Marked(m, key, a), key, b) == Marked(m, key, a + b)
  {
  }

  lemma MarkedTwiceIfCurrent(db: Db, d: Db, rev: RevKey, a: nat, b: nat)
    requires d.hist.pages == db.hist.pages && d.marks == MarkedIfCurrent(db, rev, a)
    ensures MarkedIfCurrent(d, rev, b) == MarkedIfCurrent(db, rev, a + b)
  {
    MarkedTwice(db.marks, rev.page, a, b);
  }

  // A Revision no table mentions yet.
  predicate Unseen(c: Content, rev: RevKey) {
    rev !in c.fileSets && rev !in c.files && rev !in c.seals && rev !in c.sealGuards
  }

  lemma NewRevisionUnseen(pages: map<PageKey, Page>, c: Content, rev: RevKey, row: Revision)
    requires SealsInv(c) && AcceptsRevision(pages, c, rev, row)
    ensures Unseen(c, rev)
  {
    hide Sequential, RevisionCheck, Sealable;
    assert rev !in c.revisions;
    assert rev in c.seals ==> SealableSet(c, rev);
  }

  lemma AppendGuardFires(db: Db, rev: RevKey, row: Revision, fired: set<RevisionTrigger>)
    requires AcceptsRevision(db.hist.pages, db.content, rev, row) && CreateAppendGuard !in fired
    ensures FireRevision(RevisionPartly(db, rev, row, fired), rev, row, CreateAppendGuard)
         == Some(RevisionPartly(db, rev, row, fired + {CreateAppendGuard}))
  {
    hide Sequential, RevisionKeysFree, MarkedIfCurrent;
  }

  lemma SealGuardFires(db: Db, rev: RevKey, row: Revision, fired: set<RevisionTrigger>)
    requires Unseen(db.content, rev) && RequireFileSeal !in fired
    ensures FireRevision(RevisionPartly(db, rev, row, fired), rev, row, RequireFileSeal)
         == Some(RevisionPartly(db, rev, row, fired + {RequireFileSeal}))
  {
    hide MarkedIfCurrent;
  }

  lemma MarkFires(db: Db, rev: RevKey, row: Revision, fired: set<RevisionTrigger>)
    requires MarkRevision !in fired
    ensures FireRevision(RevisionPartly(db, rev, row, fired), rev, row, MarkRevision)
         == Some(RevisionPartly(db, rev, row, fired + {MarkRevision}))
  {
    MarkedTwiceIfCurrent(db, RevisionPartly(db, rev, row, fired), rev,
                         if row.content.Some? && MirrorContentFile in fired then 3 else 0, 1);
    hide MarkedIfCurrent;
  }

  // The tables between the two inserts of the mirror trigger.
  function HalfMirrored(db: Db, rev: RevKey, row: Revision, fired: set<RevisionTrigger>): Db
    requires row.content.Some?
  {
    var c := ContentPartly(db.content, rev, row, fired);
    db.(content := c.(fileSets := c.fileSets[rev := MirrorManifest(row.content.value)]),
        marks := MarkedIfCurrent(db, rev, if MarkRevision in fired then 2 else 1))
  }

  lemma MirrorSetFires(db: Db, rev: RevKey, row: Revision, fired: set<RevisionTrigger>)
    requires Unseen(db.content, rev) && RevisionCheck(rev, row) && MirrorContentFile !in fired && row.content.Some?
    ensures Nested(RevisionPartly(db, rev, row, fired), InsertFileSet(rev, MirrorManifest(row.content.value)))
         == Some(HalfMirrored(db, rev, row, fired))
  {
    MirrorSetAccepted(db.content, rev, row, fired);
    MarkedTwiceIfCurrent(db, RevisionPartly(db, rev, row, fired), rev, if MarkRevision in fired then 1 else 0, 1);
    hide MarkedIfCurrent, ContentPartly, AcceptsFileSet, RevisionCheck, Unseen, MirrorManifest;
  }

  lemma MirrorFileFires(db: Db, rev: RevKey, row: Revision, fired: set<RevisionTrigger>)
    requires Unseen(db.content, rev) && RevisionCheck(rev, row) && MirrorContentFile !in fired && row.content.Some?
    ensures Nested(HalfMirrored(db, rev, row, fired), InsertFile(rev, File(CONTENT_MD, row.content.value)))
         == Some(RevisionPartly(db, rev, row, fired + {MirrorContentFile}))
  {
    MirrorFileAccepted(db.content, rev, row, fired);
    MarkedTwiceIfCurrent(db, HalfMirrored(db, rev, row, fired), rev, if MarkRevision in fired then 2 else 1, 2);
    hide MarkedIfCurrent, AcceptsFile, RevisionCheck, MirrorManifest;
  }

  lemma MirrorFires(db: Db, rev: RevKey, row: Revision, fired: set<RevisionTrigger>)
    requires Unseen(db.content, rev) && RevisionCheck(rev, row) && MirrorContentFile !in fired && row.content.Some?
    ensures FireRevision(RevisionPartly(db, rev, row, fired), rev, row, MirrorContentFile)
         == Some(RevisionPartly(db, rev, row, fired + {MirrorContentFile}))
  {
    MirrorSetFires(db, rev, row, fired);
    MirrorFileFires(db, rev, row, fired);
    hide Nested, RevisionPartly, HalfMirrored, Unseen, RevisionCheck;
  }

  lemma MirrorSetAccepted(c: Content, rev: RevKey, row: Revision, fired: set<RevisionTrigger>)
    requires Unseen(c, rev) && RevisionCheck(rev, row) && MirrorContentFile !in fired && row.content.Some?
    ensures AcceptsFileSet(ContentPartly(c, rev, row, fired), rev, MirrorManifest(row.content.value))
  {
  }

  lemma MirrorFileAccepted(c: Content, rev: RevKey, row: Revision, fired: set<RevisionTrigger>)
    requires Unseen(c, rev) && RevisionCheck(rev, row) && MirrorContentFile !in fired && row.content.Some?
    ensures var d := ContentPartly(c, rev, row, fired);
            AcceptsFile(d.(fileSets := d.fileSets[rev := MirrorManifest(row.content.value)]), rev, File(CONTENT_MD, row.content.value))
  {
    assert Rows(c.files, rev) == [];
    assert [] + [File(CONTENT_MD, row.content.value)] == [File(CONTENT_MD, row.content.value)];
  }

  lemma RevisionTriggerFires(db: Db, rev: RevKey, row: Revision, fired: set<RevisionTrigger>, t: RevisionTrigger)
    requires SealsInv(db.content) && AcceptsRevision(db.hist.pages, db.content, rev, row) && t !in fired
    ensures FireRevision(RevisionPartly(db, rev, row, fired), rev, row, t) == Some(RevisionPartly(db, rev, row, fired + {t}))
  {
    NewRevisionUnseen(db.hist.pages, db.content, rev, row);
    hide SealsInv, Unseen, MarkedIfCurrent, Nested, Sequential, RevisionKeysFree;
    match t
    case CreateAppendGuard => AppendGuardFires(db, rev, row, fired);
    case MirrorContentFile => if row.content.Some? { MirrorFires(db, rev, row, fired); }
    case RequireFileSeal => SealGuardFires(db, rev, row, fired);
    case MarkRevision => MarkFires(db, rev, row, fired);
  }

  lemma {:induction false} RevisionTriggersFire(db: Db, rev: RevKey, row: Revision, order: seq<RevisionTrigger>)
    requires SealsInv(db.content) && AcceptsRevision(db.hist.pages, db.content, rev, row) && NoneTwice(order)
    ensures FireRevisions(RevisionWritten(db, rev, row), rev, row, order) == Some(RevisionPartly(db, rev, row, SetOf(order)))
  {
    if order != [] {
      OneMore(order);
      RevisionTriggersFire(db, rev, row, order[..|order| - 1]);
      RevisionTriggerFires(db, rev, row, SetOf(order[..|order| - 1]), order[|order| - 1]);
      hide SealsInv, AcceptsRevision, NoneTwice, SetOf, FireRevision, RevisionPartly;
    }
  }

  // Whatever the order of the four triggers, an accepted Revision leaves the same tables behind.
  lemma AnyOrderOfRevisionTriggers(db: Db, rev: RevKey, row: Revision, order: seq<RevisionTrigger>)
    requires SealsInv(db.content) && AcceptsRevision(db.hist.pages, db.content, rev, row)
    requires FiringOrder(order, REVISION_TRIGGERS)
    ensures FireRevisions(RevisionWritten(db, rev, row), rev, row, order) == Some(AfterRevision(db, rev, row))
  {
    RevisionTriggersFire(db, rev, row, order);
  }

  // ---- files ----

  function FilePartly(db: Db, rev: RevKey, f: File, fired: set<FileTrigger>): Db {
    var sealing := AutoSeal in fired && IsMarkdown(db.content, rev);
    db.(content := db.content.(
          files := Appended(db.content.files, rev, f),
          seals := if sealing then db.content.seals + {rev} else db.content.seals),
        marks := MarkedIfCurrent(db, rev, (if MarkFile in fired then 1 else 0) + (if sealing then 1 else 0)))
  }

  // The BEFORE triggers, CHECKs and keys of a file, without what its cascade adds.
  predicate FileAdmitted(c: Content, rev: RevKey, f: File) {
    && rev !in c.seals && !(f.name != CONTENT_MD && IsMarkdown(c, rev))
    && !HasFile(Rows(c.files, rev), f.name) && FileCheck(f) && rev in c.revisions
  }

  lemma AutoSealFires(db: Db, rev: RevKey, f: File, fired: set<FileTrigger>)
    requires FileAdmitted(db.content, rev, f) && AutoSeal !in fired
    ensures FireFile(FilePartly(db, rev, f, fired), rev, AutoSeal)
         == if AcceptsFile(db.content, rev, f) then Some(FilePartly(db, rev, f, fired + {AutoSeal})) else None
  {
    MarkedTwiceIfCurrent(db, FilePartly(db, rev, f, fired), rev, if MarkFile in fired then 1 else 0, 1);
    hide MarkedIfCurrent, Sealable, HasFile, FileCheck;
  }

  lemma MarkFileFires(db: Db, rev: RevKey, f: File, fired: set<FileTrigger>)
    requires MarkFile !in fired
    ensures FireFile(FilePartly(db, rev, f, fired), rev, MarkFile) == Some(FilePartly(db, rev, f, fired + {MarkFile}))
  {
    MarkedTwiceIfCurrent(db, FilePartly(db, rev, f, fired), rev,
                         if AutoSeal in fired && IsMarkdown(db.content, rev) then 1 else 0, 1);
    hide MarkedIfCurrent;
  }

  lemma {:induction false} FileTriggersFire(db: Db, rev: RevKey, f: File, order: seq<FileTrigger>)
    requires FileAdmitted(db.content, rev, f) && NoneTwice(order)
    ensures FireFiles(FileWritten(db, rev, f), rev, order)
         == if AutoSeal in SetOf(order) && !AcceptsFile(db.content, rev, f) then None else Some(FilePartly(db, rev, f, SetOf(order)))
  {
    if order != [] {
      OneMore(order);
      var before := order[..|order| - 1];
      FileTriggersFire(db, rev, f, before);
      if order[|order| - 1] == AutoSeal {
        AutoSealFires(db, rev, f, SetOf(before));
      } else {
        MarkFileFires(db, rev, f, SetOf(before));
      }
      hide NoneTwice, SetOf, FireFile, FilePartly, AcceptsFile, FileAdmitted;
    }
  }

  // A file is accepted exactly when its cascade is, in either order, and the tables are then the same.
  lemma AnyOrderOfFileTriggers(db: Db, rev: RevKey, f: File, order: seq<FileTrigger>)
    requires FileAdmitted(db.content, rev, f) && FiringOrder(order, FILE_TRIGGERS)
    ensures FireFiles(FileWritten(db, rev, f), rev, order)
         == if AcceptsFile(db.content, rev, f) then Some(AfterFile(db, rev, f)) else None
  {
    FileTriggersFire(db, rev, f, order);
  }
}
