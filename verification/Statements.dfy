// Single-row statements against the tables: when one is accepted, and what it leaves behind once
// every trigger it fires has run. An aborted statement changes nothing.
//
// Accepts* collects the BEFORE triggers, CHECKs, keys and immediate foreign keys of the statement.
// After* is the net effect, written without the triggers that produce it; module PageStore runs the
// triggers themselves, one by one, and is proved to reach exactly this state.
module Statements {
  import opened Common
  import opened Tables

  datatype ImmutableTable =
    | AppendGuardsTable | RevisionsTable | FileSetsTable | FilesTable | SealsTable | SealGuardsTable
    | OccGuardsTable | OccEventsTable | LifeGuardsTable | LifeEventsTable | MoveGuardsTable
    | MoveEventsTable | TitleEventsTable | AuditsTable

  datatype Stmt =
    | InsertPage(key: PageKey, row: Page)
    | UpdatePage(key: PageKey, newKey: PageKey, row: Page)
    | InsertRevision(rev: RevKey, revision: Revision)
    | InsertAppendGuard(key: PageKey, ref: RevRef)
    | DeleteAppendGuard(key: PageKey)
    | InsertFileSet(rev: RevKey, manifest: Manifest)
    | InsertFile(rev: RevKey, file: File)
    | InsertSeal(rev: RevKey)
    | InsertSealGuard(rev: RevKey)
    | InsertOccGuard(key: PageKey, occGuard: OccGuard)
    | DeleteOccGuard(key: PageKey)
    | InsertOccEvent(key: PageKey, occEvent: OccEvent)
    | InsertLifeGuard(key: PageKey, lifeGuard: LifeEvent)
    | DeleteLifeGuard(key: PageKey)
    | InsertLifeEvent(key: PageKey, lifeEvent: LifeEvent)
    | InsertMoveGuard(key: PageKey, moveGuard: MoveEvent)
    | DeleteMoveGuard(key: PageKey)
    | InsertMoveEvent(key: PageKey, moveEvent: MoveEvent)
    | InsertAudit(auditId: Id, audit: Audit)
    | InsertTag(key: PageKey, tag: Id)
    | DeleteTag(key: PageKey, tag: Id)
    | ReassignTag(key: PageKey, tag: Id, toKey: PageKey, toTag: Id, oldFirst: bool)
    // UPDATE of any row of one of these tables, and DELETE of any row of one of them that is not a guard.
    | Rewrite(table: ImmutableTable)

  // ---- dirty marking (0024) ----

  // n firings of dirty triggers for one Page; each bumps the counter by one and stamps the Page with it.
  function Marked(m: Marks, key: PageKey, n: nat): Marks {
    if n == 0 then m else Marks(m.sequence + n, m.dirty[key := m.sequence + n])
  }

  predicate IsCurrent(pages: map<PageKey, Page>, rev: RevKey) {
    rev.page in pages && pages[rev.page].current == rev.ref
  }

  // The firings for n rows of one Revision: those triggers only watch current Revisions.
  function MarkedIfCurrent(db: Db, rev: RevKey, n: nat): Marks {
    if IsCurrent(db.hist.pages, rev) then Marked(db.marks, rev.page, n) else db.marks
  }

  // ---- pages ----

  predicate AcceptsPage(pages: map<PageKey, Page>, key: PageKey, p: Page) {
    && p.current.number == 1
    && p.deletedAt.None?
    && PageCheck(p)
    && key !in pages
    && (forall q :: q in pages && q.library == key.library ==> pages[q].pageId != p.pageId)
  }

  // In the predicates below `o` is the OLD row of an UPDATE and `n` the NEW one.
  predicate SameSection(o: Page, n: Page) { n.section == o.section && n.book == o.book }

  predicate OccurrenceGuarded(h: Hist, key: PageKey, o: Page, n: Page) {
    n.occurredAt != o.occurredAt ==>
      && n.updatedAt > o.updatedAt
      && SameSection(o, n) && n.title == o.title && n.pageType == o.pageType
      && n.current == o.current && n.deletedAt == o.deletedAt
      && key in h.occGuards
      && var g := h.occGuards[key];
         g.oldOccurred == o.occurredAt && g.newOccurred == n.occurredAt && g.at == n.updatedAt
  }

  function DeletedAtAfter(e: LifeEvent): Option<Time> {
    if e.action == Delete then Some(e.at) else None
  }

  predicate LifePreState(p: Page, g: LifeEvent) {
    && p.section == g.section && p.deletedAt == g.oldDeletedAt && p.updatedAt == g.oldUpdatedAt
    && p.current.number == g.atRevision && p.occurredAt == g.occurredAt
  }

  predicate LifecycleGuarded(h: Hist, key: PageKey, o: Page, n: Page) {
    n.deletedAt != o.deletedAt ==>
      && n.updatedAt > o.updatedAt
      && SameSection(o, n) && n.title == o.title && n.pageType == o.pageType
      && n.occurredAt == o.occurredAt && n.current == o.current
      && key in h.lifeGuards
      && LifePreState(o, h.lifeGuards[key])
      && h.lifeGuards[key].at == n.updatedAt && n.deletedAt == DeletedAtAfter(h.lifeGuards[key])
  }

  predicate FrozenWhileDeleted(o: Page, n: Page) {
    o.deletedAt.Some? ==> n.occurredAt == o.occurredAt && n.current == o.current
  }

  predicate MovePreState(p: Page, g: MoveEvent) {
    && p.deletedAt.None? && p.section == g.oldSection && p.book == g.oldBook
    && p.updatedAt == g.oldUpdatedAt && p.current == g.atRevision && p.occurredAt == g.occurredAt
  }

  predicate MoveGuarded(h: Hist, key: PageKey, o: Page, n: Page) {
    !SameSection(o, n) ==>
      && n.deletedAt == o.deletedAt
      && n.title == o.title && n.occurredAt == o.occurredAt && n.current == o.current
      && n.pageType == o.pageType
      && key in h.moveGuards
      && var g := h.moveGuards[key];
         MovePreState(o, g) && g.newSection == n.section && g.newBook == n.book && g.at == n.updatedAt
  }

  predicate AuditIs(audits: map<Id, Audit>, id: Id, action: AuditAction, key: PageKey, at: Time) {
    id in audits && audits[id] == Audit(action, PageTarget(key), at)
  }

  predicate TitleAuditUsed(h: Hist, id: Id) {
    exists k, i :: k in h.titleEvents && 0 <= i < |h.titleEvents[k]| && h.titleEvents[k][i].audit == id
  }

  function UnusedTitleAudits(h: Hist, key: PageKey, at: Time): set<Id> {
    set id | id in h.audits && AuditIs(h.audits, id, TitleEdit, key, at) && !TitleAuditUsed(h, id)
  }

  // The row the title trigger records for an UPDATE from `o` to `n`, if exactly one audit is unused.
  ghost function TitleRow(h: Hist, key: PageKey, o: Page, n: Page): Option<TitleEvent> {
    var ids := UnusedTitleAudits(h, key, n.updatedAt);
    if |ids| != 1 then None else
    var id :| id in ids;
    Some(TitleEvent(NextSequence(TitleSequences(Rows(h.titleEvents, key))), o.title, n.title,
                    o.updatedAt, n.updatedAt, o.current.number, id))
  }

  ghost predicate TitleAudited(h: Hist, key: PageKey, o: Page, n: Page) {
    n.title != o.title ==>
      && o.deletedAt.None? && n.updatedAt > o.updatedAt
      && SameSection(o, n) && n.pageType == o.pageType
      && n.occurredAt == o.occurredAt && n.current == o.current && n.deletedAt == o.deletedAt
      && TitleRow(h, key, o, n).Some? && TitleCheck(TitleRow(h, key, o, n).value)
  }

  predicate StableIdentity(o: Page, n: Page) {
    n.pageId == o.pageId && n.createdAt == o.createdAt
  }

  predicate PointerAdvances(appendGuards: map<PageKey, RevRef>, key: PageKey, o: Page, n: Page) {
    n.current != o.current ==>
      && n.current.number == o.current.number + 1
      && key in appendGuards && appendGuards[key] == n.current
  }

  // Everything the history triggers ask of an UPDATE from `o` to `n`.
  ghost predicate HistoryAllows(h: Hist, key: PageKey, o: Page, n: Page) {
    && StableIdentity(o, n)
    && n.updatedAt >= o.updatedAt
    && PageCheck(n)
    && OccurrenceGuarded(h, key, o, n)
    && LifecycleGuarded(h, key, o, n)
    && FrozenWhileDeleted(o, n)
    && MoveGuarded(h, key, o, n)
    && TitleAudited(h, key, o, n)
  }

  ghost predicate AcceptsPageUpdate(db: Db, key: PageKey, newKey: PageKey, n: Page) {
    key in db.hist.pages ==>
      && newKey == key
      && PointerAdvances(db.content.appendGuards, key, db.hist.pages[key], n)
      && HistoryAllows(db.hist, key, db.hist.pages[key], n)
  }

  // The columns whose change the search trigger watches; updated_at and page_type are not among them.
  predicate SearchColumnsDiffer(o: Page, n: Page) {
    || !SameSection(o, n) || n.pageId != o.pageId || n.title != o.title || n.occurredAt != o.occurredAt
    || n.current != o.current || n.deletedAt != o.deletedAt
  }

  function NewOccEvent(o: Page, g: OccGuard): OccEvent {
    OccEvent(g.sequence, g.oldOccurred, g.newOccurred, o.current.number, g.actor, g.at)
  }

  // What INSERT INTO log SELECT FROM guards WHERE key appends.
  function Logging<T>(log: map<PageKey, seq<T>>, guards: map<PageKey, T>, key: PageKey): map<PageKey, seq<T>> {
    if key in guards then Appended(log, key, guards[key]) else log
  }

  // Net effect of an accepted UPDATE of one Page row on its history: a guard whose change happened is
  // consumed and becomes the last row of its log. `titleRow` is the row a title change logs.
  function HistoryAfter(h: Hist, key: PageKey, o: Page, n: Page, titleRow: Option<TitleEvent>): Hist {
    h.(
      pages := h.pages[key := n],
      occEvents := if n.occurredAt == o.occurredAt || key !in h.occGuards then h.occEvents
                   else Appended(h.occEvents, key, NewOccEvent(o, h.occGuards[key])),
      occGuards := if n.occurredAt == o.occurredAt then h.occGuards else h.occGuards - {key},
      lifeEvents := if n.deletedAt == o.deletedAt then h.lifeEvents else Logging(h.lifeEvents, h.lifeGuards, key),
      lifeGuards := if n.deletedAt == o.deletedAt then h.lifeGuards else h.lifeGuards - {key},
      moveEvents := if SameSection(o, n) then h.moveEvents else Logging(h.moveEvents, h.moveGuards, key),
      moveGuards := if SameSection(o, n) then h.moveGuards else h.moveGuards - {key},
      titleEvents := if n.title == o.title || titleRow.None? then h.titleEvents
                     else Appended(h.titleEvents, key, titleRow.value))
  }

  ghost function AfterPageUpdate(db: Db, key: PageKey, n: Page): Db {
    if key !in db.hist.pages then db else
    var o := db.hist.pages[key];
    db.(
      hist := HistoryAfter(db.hist, key, o, n, TitleRow(db.hist, key, o, n)),
      content := if n.current == o.current then db.content
                 else db.content.(appendGuards := db.content.appendGuards - {key}),
      marks := if SearchColumnsDiffer(o, n) then Marked(db.marks, key, 1) else db.marks)
  }

  // ---- revisions, append guards ----

  predicate Sequential(pages: map<PageKey, Page>, c: Content, rev: RevKey) {
    && rev.page in pages
    && var p := pages[rev.page];
       || (rev.ref.number == 1 && p.current == rev.ref && (forall r :: r in c.revisions ==> r.page != rev.page))
       || (rev.ref.number == p.current.number + 1 && RevKey(rev.page, p.current) in c.revisions)
  }

  // The primary key (library, revision_id) and the unique (library, page, number).
  predicate RevisionKeysFree(c: Content, rev: RevKey) {
    forall r :: r in c.revisions ==>
      && (r.page.library == rev.page.library ==> r.ref.id != rev.ref.id)
      && (r.page == rev.page ==> r.ref.number != rev.ref.number)
  }

  predicate AcceptsRevision(pages: map<PageKey, Page>, c: Content, rev: RevKey, row: Revision) {
    && Sequential(pages, c, rev)
    && RevisionCheck(rev, row)
    && RevisionKeysFree(c, rev)
    && (rev.ref.number > 1 ==> rev.page !in c.appendGuards)
  }

  function MirrorManifest(content: Blob): Manifest {
    Manifest(LegacyMarkdown, 1, |content.bytes|, None)
  }

  // Net effect of an accepted Revision: its append guard, its seal guard and, for Markdown content,
  // the one-file set with its seal.
  function ContentAfterRevision(c: Content, rev: RevKey, row: Revision): Content {
    var markdown := row.content.Some?;
    c.(
      revisions := c.revisions[rev := row],
      sealGuards := c.sealGuards + {rev},
      appendGuards := if rev.ref.number > 1 then c.appendGuards[rev.page := rev.ref] else c.appendGuards,
      fileSets := if markdown then c.fileSets[rev := MirrorManifest(row.content.value)] else c.fileSets,
      files := if markdown then c.files[rev := [File(CONTENT_MD, row.content.value)]] else c.files,
      seals := if markdown then c.seals + {rev} else c.seals)
  }

  // One dirty mark per row written when the Revision is current.
  function AfterRevision(db: Db, rev: RevKey, row: Revision): Db {
    db.(content := ContentAfterRevision(db.content, rev, row),
        marks := MarkedIfCurrent(db, rev, if row.content.Some? then 4 else 1))
  }

  predicate AcceptsAppendGuard(c: Content, key: PageKey, ref: RevRef) {
    && 2 <= ref.number <= MAX_BIGINT
    && RevKey(key, ref) in c.revisions
    && key !in c.appendGuards
  }

  predicate AcceptsAppendGuardDelete(pages: map<PageKey, Page>, c: Content, key: PageKey) {
    key in c.appendGuards ==> key in pages && pages[key].current == c.appendGuards[key]
  }

  // ---- file sets, files, seals ----

  predicate AcceptsFileSet(c: Content, rev: RevKey, m: Manifest) {
    && rev in c.revisions
    && (match m.format
        case LegacyMarkdown => c.revisions[rev].content.Some? && m.total == |c.revisions[rev].content.value.bytes|
        case FileSetV1 => c.revisions[rev].content.None?)
    && rev !in c.fileSets
    && ManifestCheck(m)
  }

  // The content.md mirror of a Markdown Revision.
  predicate IsMirror(files: seq<File>, content: Blob) {
    files == [File(CONTENT_MD, content)]
  }

  predicate MatchesManifest(files: seq<File>, m: Manifest) {
    |files| == m.count && TotalBytes(files) == m.total
  }

  predicate Sealable(content: Option<Blob>, m: Manifest, files: seq<File>) {
    match m.format
    case LegacyMarkdown => content.Some? && IsMirror(files, content.value)
    case FileSetV1 => content.None? && MatchesManifest(files, m)
  }

  predicate SealableSet(c: Content, rev: RevKey) {
    rev in c.revisions && rev in c.fileSets && Sealable(c.revisions[rev].content, c.fileSets[rev], Rows(c.files, rev))
  }

  predicate AcceptsSeal(c: Content, rev: RevKey) {
    SealableSet(c, rev) && rev !in c.seals
  }

  predicate IsMarkdown(c: Content, rev: RevKey) {
    rev in c.revisions && c.revisions[rev].content.Some?
  }

  function ContentAfterFile(c: Content, rev: RevKey, f: File): Content {
    c.(files := Appended(c.files, rev, f), seals := if IsMarkdown(c, rev) then c.seals + {rev} else c.seals)
  }

  // A file of a Markdown Revision seals its set at once, so the set must then be sealable.
  predicate AcceptsFile(c: Content, rev: RevKey, f: File) {
    && rev !in c.seals
    && !(f.name != CONTENT_MD && IsMarkdown(c, rev))
    && !HasFile(Rows(c.files, rev), f.name)
    && FileCheck(f)
    && rev in c.revisions
    && (IsMarkdown(c, rev) ==>
          rev in c.fileSets && Sealable(c.revisions[rev].content, c.fileSets[rev], Rows(c.files, rev) + [f]))
  }

  function AfterFile(db: Db, rev: RevKey, f: File): Db {
    db.(content := ContentAfterFile(db.content, rev, f),
        marks := MarkedIfCurrent(db, rev, if IsMarkdown(db.content, rev) then 2 else 1))
  }

  predicate AcceptsSealGuard(c: Content, rev: RevKey) {
    rev in c.revisions && rev !in c.sealGuards
  }

  // ---- occurrence corrections ----

  predicate AcceptsOccGuard(h: Hist, key: PageKey, g: OccGuard) {
    && key in h.pages
    && h.pages[key].occurredAt == g.oldOccurred && g.at > h.pages[key].updatedAt
    && g.sequence == NextSequence(OccSequences(Rows(h.occEvents, key)))
    && (g.actor.Master? ==> AuditIs(h.audits, g.actor.audit, OccurrenceCorrect, key, g.at))
    && OccCheck(g.sequence, g.oldOccurred, g.newOccurred, g.at)
    && key !in h.occGuards
  }

  predicate OccMatches(e: OccEvent, g: OccGuard) {
    && e.sequence == g.sequence && e.oldOccurred == g.oldOccurred && e.newOccurred == g.newOccurred
    && e.actor == g.actor && e.at == g.at
  }

  predicate OccPostState(p: Page, e: OccEvent) {
    p.occurredAt == e.newOccurred && p.updatedAt == e.at && p.current.number == e.atRevision
  }

  predicate OccAuditFree(h: Hist, actor: Actor) {
    actor.Master? ==>
      forall k, i :: k in h.occEvents && 0 <= i < |h.occEvents[k]| ==> h.occEvents[k][i].actor != actor
  }

  predicate AcceptsOccEvent(h: Hist, key: PageKey, e: OccEvent) {
    && key in h.occGuards && OccMatches(e, h.occGuards[key])
    && key in h.pages && OccPostState(h.pages[key], e)
    && OccCheck(e.sequence, e.oldOccurred, e.newOccurred, e.at) && BigPositive(e.atRevision)
    && e.sequence !in OccSequences(Rows(h.occEvents, key))
    && OccAuditFree(h, e.actor)
  }

  predicate AcceptsOccGuardDelete(h: Hist, key: PageKey) {
    key in h.occGuards ==>
      && key in h.pages
      && var p, g, log := h.pages[key], h.occGuards[key], Rows(h.occEvents, key);
         exists i :: 0 <= i < |log| && OccMatches(log[i], g) && p.occurredAt == log[i].newOccurred && p.updatedAt == log[i].at
  }

  // ---- lifecycle ----

  predicate AcceptsLifeGuard(h: Hist, key: PageKey, g: LifeEvent) {
    && key in h.pages
    && LifePreState(h.pages[key], g) && g.at > h.pages[key].updatedAt
    && g.sequence == NextSequence(LifeSequences(Rows(h.lifeEvents, key)))
    && (g.actor.Master? ==>
          AuditIs(h.audits, g.actor.audit, if g.action == Delete then ArchiveDelete else ArchiveRestore, key, g.at))
    && LifeCheck(g)
    && key !in h.lifeGuards
  }

  predicate LifePostState(p: Page, e: LifeEvent) {
    p.updatedAt == e.at && p.deletedAt == DeletedAtAfter(e)
  }

  predicate AcceptsLifeEvent(h: Hist, key: PageKey, e: LifeEvent) {
    && key in h.lifeGuards && h.lifeGuards[key] == e
    && key in h.pages && LifePostState(h.pages[key], e)
    && LifeCheck(e)
    && e.sequence !in LifeSequences(Rows(h.lifeEvents, key))
  }

  predicate AcceptsLifeGuardDelete(h: Hist, key: PageKey) {
    key in h.lifeGuards ==>
      && key in h.pages
      && h.lifeGuards[key] in Rows(h.lifeEvents, key) && LifePostState(h.pages[key], h.lifeGuards[key])
  }

  // ---- moves ----

  predicate MoveAuditUsed(h: Hist, id: Id) {
    exists k, i :: k in h.moveEvents && 0 <= i < |h.moveEvents[k]| && h.moveEvents[k][i].audit == id
  }

  predicate AcceptsMoveGuard(h: Hist, c: Content, key: PageKey, g: MoveEvent) {
    && key !in h.moveGuards
    && key in h.pages
    && MovePreState(h.pages[key], g)
    && g.sequence == NextSequence(MoveSequences(Rows(h.moveEvents, key)))
    && AuditIs(h.audits, g.audit, PageMove, key, g.at)
    && !MoveAuditUsed(h, g.audit)
    && (forall k :: k in h.moveGuards ==> h.moveGuards[k].audit != g.audit)
    && MoveCheck(g)
    && RevKey(key, g.atRevision) in c.revisions
  }

  predicate MovePostState(p: Page, e: MoveEvent) {
    && p.section == e.newSection && p.book == e.newBook && p.updatedAt == e.at && p.deletedAt.None?
    && p.current == e.atRevision && p.occurredAt == e.occurredAt
  }

  predicate AcceptsMoveEvent(h: Hist, c: Content, key: PageKey, e: MoveEvent) {
    && e.sequence !in MoveSequences(Rows(h.moveEvents, key))
    && !MoveAuditUsed(h, e.audit)
    && key in h.moveGuards && h.moveGuards[key] == e
    && key in h.pages && MovePostState(h.pages[key], e)
    && MoveCheck(e)
    && RevKey(key, e.atRevision) in c.revisions
  }

  predicate AcceptsMoveGuardDelete(h: Hist, key: PageKey) {
    key in h.moveGuards ==>
      && key in h.pages
      && h.moveGuards[key] in Rows(h.moveEvents, key) && MovePostState(h.pages[key], h.moveGuards[key])
  }

  // ---- tags ----

  function AddTag(tags: map<PageKey, set<Id>>, key: PageKey, tag: Id): map<PageKey, set<Id>> {
    tags[key := TagsOf(tags, key) + {tag}]
  }

  function DropTag(tags: map<PageKey, set<Id>>, key: PageKey, tag: Id): map<PageKey, set<Id>> {
    tags[key := TagsOf(tags, key) - {tag}]
  }

  // ---- every statement ----

  // Statements about one Page's history.
  predicate AcceptsHistory(h: Hist, c: Content, s: Stmt) {
    match s
    case InsertOccGuard(k, g) => AcceptsOccGuard(h, k, g)
    case DeleteOccGuard(k) => AcceptsOccGuardDelete(h, k)
    case InsertOccEvent(k, e) => AcceptsOccEvent(h, k, e)
    case InsertLifeGuard(k, g) => AcceptsLifeGuard(h, k, g)
    case DeleteLifeGuard(k) => AcceptsLifeGuardDelete(h, k)
    case InsertLifeEvent(k, e) => AcceptsLifeEvent(h, k, e)
    case InsertMoveGuard(k, g) => AcceptsMoveGuard(h, c, k, g)
    case DeleteMoveGuard(k) => AcceptsMoveGuardDelete(h, k)
    case InsertMoveEvent(k, e) => AcceptsMoveEvent(h, c, k, e)
    case InsertAudit(id, a) => id !in h.audits && a.at >= 0
    case _ => false
  }

  function ApplyHistory(h: Hist, s: Stmt): Hist {
    match s
    case InsertOccGuard(k, g) => h.(occGuards := h.occGuards[k := g])
    case DeleteOccGuard(k) => h.(occGuards := h.occGuards - {k})
    case InsertOccEvent(k, e) => h.(occEvents := Appended(h.occEvents, k, e))
    case InsertLifeGuard(k, g) => h.(lifeGuards := h.lifeGuards[k := g])
    case DeleteLifeGuard(k) => h.(lifeGuards := h.lifeGuards - {k})
    case InsertLifeEvent(k, e) => h.(lifeEvents := Appended(h.lifeEvents, k, e))
    case InsertMoveGuard(k, g) => h.(moveGuards := h.moveGuards[k := g])
    case DeleteMoveGuard(k) => h.(moveGuards := h.moveGuards - {k})
    case InsertMoveEvent(k, e) => h.(moveEvents := Appended(h.moveEvents, k, e))
    case InsertAudit(id, a) => h.(audits := h.audits[id := a])
    case _ => h
  }

  // Statements about Revisions, files and seals; the Page rows they look at are in `pages`.
  predicate AcceptsContent(pages: map<PageKey, Page>, c: Content, s: Stmt) {
    match s
    case InsertRevision(r, row) => AcceptsRevision(pages, c, r, row)
    case InsertAppendGuard(k, ref) => AcceptsAppendGuard(c, k, ref)
    case DeleteAppendGuard(k) => AcceptsAppendGuardDelete(pages, c, k)
    case InsertFileSet(r, m) => AcceptsFileSet(c, r, m)
    case InsertFile(r, f) => AcceptsFile(c, r, f)
    case InsertSeal(r) => AcceptsSeal(c, r)
    case InsertSealGuard(r) => AcceptsSealGuard(c, r)
    case _ => false
  }

  function ApplyContent(c: Content, s: Stmt): Content {
    match s
    case InsertRevision(r, row) => ContentAfterRevision(c, r, row)
    case InsertAppendGuard(k, ref) => c.(appendGuards := c.appendGuards[k := ref])
    case DeleteAppendGuard(k) => c.(appendGuards := c.appendGuards - {k})
    case InsertFileSet(r, m) => c.(fileSets := c.fileSets[r := m])
    case InsertFile(r, f) => ContentAfterFile(c, r, f)
    case InsertSeal(r) => c.(seals := c.seals + {r})
    case InsertSealGuard(r) => c.(sealGuards := c.sealGuards + {r})
    case _ => c
  }

  function MarksAfterContent(db: Db, s: Stmt): Marks {
    match s
    case InsertRevision(r, row) => MarkedIfCurrent(db, r, if row.content.Some? then 4 else 1)
    case InsertFileSet(r, m) => MarkedIfCurrent(db, r, 1)
    case InsertFile(r, f) => MarkedIfCurrent(db, r, if IsMarkdown(db.content, r) then 2 else 1)
    case InsertSeal(r) => MarkedIfCurrent(db, r, 1)
    case _ => db.marks
  }

  predicate IsHistoryStmt(s: Stmt) {
    || s.InsertOccGuard? || s.DeleteOccGuard? || s.InsertOccEvent? || s.InsertLifeGuard? || s.DeleteLifeGuard?
    || s.InsertLifeEvent? || s.InsertMoveGuard? || s.DeleteMoveGuard? || s.InsertMoveEvent? || s.InsertAudit?
  }

  predicate IsContentStmt(s: Stmt) {
    || s.InsertRevision? || s.InsertAppendGuard? || s.DeleteAppendGuard? || s.InsertFileSet?
    || s.InsertFile? || s.InsertSeal? || s.InsertSealGuard?
  }

  ghost predicate Accepts(db: Db, s: Stmt) {
    if IsHistoryStmt(s) then AcceptsHistory(db.hist, db.content, s)
    else if IsContentStmt(s) then AcceptsContent(db.hist.pages, db.content, s)
    else match s
    case InsertPage(k, p) => AcceptsPage(db.hist.pages, k, p)
    case UpdatePage(k, k2, n) => AcceptsPageUpdate(db, k, k2, n)
    case InsertTag(k, t) => k in db.hist.pages && t !in TagsOf(db.tags, k)
    case DeleteTag(k, t) => true
    case ReassignTag(k, t, k2, t2, oldFirst) =>
      t in TagsOf(db.tags, k) ==> k2 in db.hist.pages && (t2 in TagsOf(db.tags, k2) ==> k == k2 && t == t2)
    case _ => false
  }

  ghost function Apply(db: Db, s: Stmt): Db {
    if IsHistoryStmt(s) then db.(hist := ApplyHistory(db.hist, s))
    else if IsContentStmt(s) then db.(content := ApplyContent(db.content, s), marks := MarksAfterContent(db, s))
    else match s
    case InsertPage(k, p) => db.(hist := db.hist.(pages := db.hist.pages[k := p]), marks := Marked(db.marks, k, 1))
    case UpdatePage(k, k2, n) => AfterPageUpdate(db, k, n)
    case InsertTag(k, t) => db.(tags := AddTag(db.tags, k, t), marks := Marked(db.marks, k, 1))
    case DeleteTag(k, t) =>
      if t in TagsOf(db.tags, k) then db.(tags := DropTag(db.tags, k, t), marks := Marked(db.marks, k, 1)) else db
    // An UPDATE of page_tags marks the Page of the new row and the Page of the old one. SQLite does not
    // fix the order of those two triggers, so the statement carries it.
    case ReassignTag(k, t, k2, t2, oldFirst) =>
      if t in TagsOf(db.tags, k) then
        db.(tags := AddTag(DropTag(db.tags, k, t), k2, t2), marks := if oldFirst then Marked(Marked(db.marks, k, 1), k2, 1) else Marked(Marked(db.marks, k2, 1), k, 1))
      else db
    case _ => db
  }

  // One statement: an abort undoes that statement alone.
  ghost function Exec(db: Db, s: Stmt): Db {
    if Accepts(db, s) then Apply(db, s) else db
  }

  // The deferred foreign keys, checked at COMMIT.
  predicate ContentDeferredOk(pages: map<PageKey, Page>, c: Content) {
    && (forall k :: k in pages ==> RevKey(k, pages[k].current) in c.revisions)
    && (forall r :: r in c.revisions ==> r.page in pages)
    && (forall k :: k in c.appendGuards ==> k in pages && pages[k].current == c.appendGuards[k])
    && c.sealGuards <= c.seals
  }

  predicate HistoryDeferredOk(h: Hist) {
    && (forall k :: k in h.occGuards ==> h.occGuards[k].sequence in OccSequences(Rows(h.occEvents, k)))
    && (forall k :: k in h.lifeGuards ==> h.lifeGuards[k].sequence in LifeSequences(Rows(h.lifeEvents, k)))
    && (forall k :: k in h.moveGuards ==> h.moveGuards[k].sequence in MoveSequences(Rows(h.moveEvents, k)))
  }

  predicate DeferredOk(db: Db) {
    ContentDeferredOk(db.hist.pages, db.content) && HistoryDeferredOk(db.hist)
  }
}
