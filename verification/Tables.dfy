// The tables behind one Page's history, as the schema stands after migration 0028,
// together with the row CHECK constraints that matter to the protocol.
//
// Identifiers are abstract integers. `pageId` stands for page_id together with the other
// columns of the canonical identifier (id_scheme, id_timestamp_micros, base_slug,
// collision_ordinal), which one trigger freezes as a group.
module Tables {
  import opened Common

  type Id = int
  type Time = int
  newtype Byte = b: int | 0 <= b < 256

  const MAX_BIGINT := 9223372036854775807
  const MIN_OCCURRED := -62135596800000000
  const MAX_OCCURRED := 253402300799999999
  const MAX_MARKDOWN_BYTES := 2 * 1024 * 1024
  const MAX_FILE_BYTES := 16 * 1024 * 1024
  const MAX_FILES := 64
  const MAX_PAGE_BYTES := 64 * 1024 * 1024
  const CONTENT_MD := "content.md"

  datatype PageKey = PageKey(library: Id, uid: Id)
  datatype RevRef = RevRef(id: Id, number: int)
  datatype RevKey = RevKey(page: PageKey, ref: RevRef)

  datatype Page = Page(
    pageId: Id, section: Id, book: Id, title: string, pageType: string,
    occurredAt: Time, current: RevRef, createdAt: Time, updatedAt: Time, deletedAt: Option<Time>)

  // A stored byte string with its digest column.
  datatype Blob = Blob(bytes: seq<Byte>, sha: Id)

  datatype Revision = Revision(content: Option<Blob>, createdAt: Time)

  datatype Format = LegacyMarkdown | FileSetV1
  datatype Manifest = Manifest(format: Format, count: int, total: int, snapshot: Option<Id>)
  datatype File = File(name: string, blob: Blob)

  // Who made a change: a Caller with its home Library, or a master audit event (0019, 0027).
  datatype Actor = Caller(home: Id, caller: Id) | Master(audit: Id)

  datatype OccEvent = OccEvent(
    sequence: int, oldOccurred: Time, newOccurred: Time, atRevision: int, actor: Actor, at: Time)
  datatype OccGuard = OccGuard(
    sequence: int, oldOccurred: Time, newOccurred: Time, actor: Actor, at: Time)

  datatype LifeAction = Delete | Restore
  // The guard table and the event table of the lifecycle have the same columns.
  datatype LifeEvent = LifeEvent(
    sequence: int, action: LifeAction, section: Id, oldDeletedAt: Option<Time>, oldUpdatedAt: Time,
    at: Time, atRevision: int, occurredAt: Time, actor: Actor, request: Id)

  // The guard table and the event table of the moves have the same columns.
  datatype MoveEvent = MoveEvent(
    sequence: int, oldSection: Id, oldBook: Id, newSection: Id, newBook: Id, oldUpdatedAt: Time,
    at: Time, atRevision: RevRef, occurredAt: Time, audit: Id)

  datatype TitleEvent = TitleEvent(
    sequence: int, oldTitle: string, newTitle: string, oldUpdatedAt: Time, at: Time,
    atRevision: int, audit: Id)

  datatype AuditAction = TitleEdit | PageMove | OccurrenceCorrect | ArchiveDelete | ArchiveRestore | OtherAction
  datatype AuditTarget = PageTarget(key: PageKey) | OtherTarget
  datatype Audit = Audit(action: AuditAction, target: AuditTarget, at: Time)

  // pages, the four event logs, their guard tables and the master audit.
  datatype Hist = Hist(
    pages: map<PageKey, Page>,
    occEvents: map<PageKey, seq<OccEvent>>,
    occGuards: map<PageKey, OccGuard>,
    lifeEvents: map<PageKey, seq<LifeEvent>>,
    lifeGuards: map<PageKey, LifeEvent>,
    moveEvents: map<PageKey, seq<MoveEvent>>,
    moveGuards: map<PageKey, MoveEvent>,
    titleEvents: map<PageKey, seq<TitleEvent>>,
    audits: map<Id, Audit>)

  // revisions, their append guards, and their sealed file sets.
  datatype Content = Content(
    revisions: map<RevKey, Revision>,
    appendGuards: map<PageKey, RevRef>,
    fileSets: map<RevKey, Manifest>,
    files: map<RevKey, seq<File>>,
    seals: set<RevKey>,
    sealGuards: set<RevKey>)

  // search_meta.dirty_sequence and search_dirty_pages.
  datatype Marks = Marks(sequence: int, dirty: map<PageKey, int>)

  datatype Db = Db(hist: Hist, content: Content, tags: map<PageKey, set<Id>>, marks: Marks)

  const EMPTY_DB := Db(
    Hist(map[], map[], map[], map[], map[], map[], map[], map[], map[]),
    Content(map[], map[], map[], map[], {}, {}), map[], Marks(0, map[]))

  function Lookup<K, T>(table: map<K, T>, key: K): Option<T> {
    if key in table then Some(table[key]) else None
  }

  // The rows a table of lists holds under one key, in insertion order.
  function Rows<K, T>(table: map<K, seq<T>>, key: K): seq<T> {
    if key in table then table[key] else []
  }

  function Appended<K, T>(table: map<K, seq<T>>, key: K, row: T): map<K, seq<T>> {
    table[key := Rows(table, key) + [row]]
  }

  function TagsOf(tags: map<PageKey, set<Id>>, key: PageKey): set<Id> {
    if key in tags then tags[key] else {}
  }

  // SQL's 1 + coalesce(max(sequence), 0).
  function NextSequence(sequences: seq<int>): int
  {
    1 + MaxOrZero(sequences)
  }

  function MaxOrZero(sequences: seq<int>): int {
    if |sequences| == 0 then 0
    else if |sequences| == 1 then sequences[0]
    else
      var last := sequences[|sequences| - 1];
      var rest := MaxOrZero(sequences[..|sequences| - 1]);
      if last > rest then last else rest
  }

  function OccSequences(log: seq<OccEvent>): seq<int> {
    seq(|log|, i requires 0 <= i < |log| => log[i].sequence)
  }

  function LifeSequences(log: seq<LifeEvent>): seq<int> {
    seq(|log|, i requires 0 <= i < |log| => log[i].sequence)
  }

  function MoveSequences(log: seq<MoveEvent>): seq<int> {
    seq(|log|, i requires 0 <= i < |log| => log[i].sequence)
  }

  function TitleSequences(log: seq<TitleEvent>): seq<int> {
    seq(|log|, i requires 0 <= i < |log| => log[i].sequence)
  }

  // SQL's coalesce(sum(size_bytes), 0).
  function TotalBytes(files: seq<File>): nat {
    if files == [] then 0 else |files[0].blob.bytes| + TotalBytes(files[1..])
  }

  predicate HasFile(files: seq<File>, name: string) {
    exists i :: 0 <= i < |files| && files[i].name == name
  }

  // ---- CHECK constraints ----

  predicate BigPositive(n: int) { 1 <= n <= MAX_BIGINT }

  predicate OccurredRange(t: Time) { MIN_OCCURRED <= t <= MAX_OCCURRED }

  predicate PageCheck(p: Page) {
    && OccurredRange(p.occurredAt)
    && |p.title| >= 1
    && 0 <= p.createdAt <= p.updatedAt
    && (p.deletedAt.Some? ==> p.createdAt <= p.deletedAt.value <= p.updatedAt)
  }

  predicate RevisionCheck(key: RevKey, rev: Revision) {
    && BigPositive(key.ref.number)
    && rev.createdAt >= 0
    && (rev.content.Some? ==> 1 <= |rev.content.value.bytes| <= MAX_MARKDOWN_BYTES && 0 !in rev.content.value.bytes)
  }

  predicate ManifestCheck(m: Manifest) {
    || (m.format == LegacyMarkdown && m.count == 1 && 1 <= m.total <= MAX_MARKDOWN_BYTES && m.snapshot.None?)
    || (m.format == FileSetV1 && 1 <= m.count <= MAX_FILES && 0 <= m.total <= MAX_PAGE_BYTES && m.snapshot.Some?)
  }

  predicate FileCheck(f: File) {
    && |f.name| >= 1
    && |f.blob.bytes| <= MAX_FILE_BYTES
  }

  predicate OccCheck(sequence: int, oldOccurred: Time, newOccurred: Time, at: Time) {
    && BigPositive(sequence)
    && OccurredRange(oldOccurred) && OccurredRange(newOccurred) && oldOccurred != newOccurred
    && at >= 0
  }

  predicate LifeCheck(e: LifeEvent) {
    && BigPositive(e.sequence)
    && (e.action == Delete <==> e.oldDeletedAt.None?)
    && 0 <= e.oldUpdatedAt < e.at <= MAX_BIGINT
    && (e.oldDeletedAt.Some? ==> 0 <= e.oldDeletedAt.value <= e.oldUpdatedAt)
    && BigPositive(e.atRevision) && OccurredRange(e.occurredAt)
  }

  predicate MoveCheck(e: MoveEvent) {
    && BigPositive(e.sequence)
    && (e.oldSection != e.newSection || e.oldBook != e.newBook)
    && 0 <= e.oldUpdatedAt < e.at <= MAX_OCCURRED
    && BigPositive(e.atRevision.number) && OccurredRange(e.occurredAt)
  }

  predicate TitleCheck(e: TitleEvent) {
    && BigPositive(e.sequence) && BigPositive(e.atRevision)
    && |e.oldTitle| >= 1 && |e.newTitle| >= 1 && e.oldTitle != e.newTitle
    && 0 <= e.oldUpdatedAt < e.at <= MAX_BIGINT
  }
}
