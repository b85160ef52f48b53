// What every state of every run keeps, inside transactions as well as at COMMIT.
module Invariants {
  import opened Common
  import opened Tables
  import opened Statements
  import opened History

  // ---- history: pages, the four logs and their guards ----

  // Every row about one Page.
  datatype Ledger = Ledger(
    page: Page, logs: Logs, occGuard: Option<OccGuard>, lifeGuard: Option<LifeEvent>, moveGuard: Option<MoveEvent>)

  function LogsOf(h: Hist, key: PageKey): Logs {
    Logs(Rows(h.occEvents, key), Rows(h.lifeEvents, key), Rows(h.moveEvents, key), Rows(h.titleEvents, key))
  }

  function LedgerOf(h: Hist, key: PageKey): Ledger
    requires key in h.pages
  {
    Ledger(h.pages[key], LogsOf(h, key), Lookup(h.occGuards, key), Lookup(h.lifeGuards, key), Lookup(h.moveGuards, key))
  }

  // Each log is numbered 1, 2, 3, ... and audited; the lifecycle alternates delete and restore.
  ghost predicate OccLogOk(log: seq<OccEvent>, key: PageKey, audits: map<Id, Audit>) {
    forall i :: 0 <= i < |log| ==>
      && log[i].sequence == i + 1
      && (log[i].actor.Master? ==> AuditIs(audits, log[i].actor.audit, OccurrenceCorrect, key, log[i].at))
  }

  // The deletion time a lifecycle log leaves its Page with.
  function DeletedAtBy(log: seq<LifeEvent>): Option<Time> {
    if log == [] then None else DeletedAtAfter(log[|log| - 1])
  }

  // What a lifecycle event records about its Page besides the deletion time.
  predicate SamePlace(e: LifeEvent, section: Id, occurredAt: Time, number: int) {
    e.section == section && e.occurredAt == occurredAt && e.atRevision == number
  }

  // Deletes and restores alternate, starting with a delete; from a delete to the restore that
  // follows it, Section, declared time and current Revision number stay what the delete recorded.
  ghost predicate LifeLogOk(log: seq<LifeEvent>, page: Page) {
    && (forall i :: 0 <= i < |log| ==> log[i].sequence == i + 1)
    && (log != [] ==> log[0].action == Delete)
    && (forall i :: 0 < i < |log| ==> log[i].action != log[i - 1].action)
    && (forall i :: 0 < i < |log| && log[i].action == Restore ==>
          SamePlace(log[i - 1], log[i].section, log[i].occurredAt, log[i].atRevision))
    && page.deletedAt == DeletedAtBy(log)
    && (page.deletedAt.Some? ==> SamePlace(log[|log| - 1], page.section, page.occurredAt, page.current.number))
  }

  ghost predicate MoveLogOk(log: seq<MoveEvent>, key: PageKey, audits: map<Id, Audit>) {
    forall i :: 0 <= i < |log| ==>
      log[i].sequence == i + 1 && AuditIs(audits, log[i].audit, PageMove, key, log[i].at)
  }

  ghost predicate TitleLogOk(log: seq<TitleEvent>, key: PageKey, audits: map<Id, Audit>) {
    forall i :: 0 <= i < |log| ==>
      log[i].sequence == i + 1 && AuditIs(audits, log[i].audit, TitleEdit, key, log[i].at)
  }

  ghost predicate TimesOk(logs: Logs, updatedAt: Time) {
    AllBefore(logs, updatedAt + 1) && StrictlyIncreasing(Merge(logs))
  }

  ghost predicate LogsOk(logs: Logs, page: Page, key: PageKey, audits: map<Id, Audit>) {
    && TimesOk(logs, page.updatedAt)
    && OccLogOk(logs.occ, key, audits) && LifeLogOk(logs.life, page)
    && MoveLogOk(logs.move, key, audits) && TitleLogOk(logs.title, key, audits)
  }

  // While a guard is pending, the fields it guards still hold the values it calls old, and its
  // sequence number is the first one its log does not have.
  ghost predicate OccGuardOk(g: OccGuard, logs: Logs, page: Page, key: PageKey, audits: map<Id, Audit>) {
    && g.oldOccurred == page.occurredAt && g.sequence == |logs.occ| + 1
    && OccCheck(g.sequence, g.oldOccurred, g.newOccurred, g.at)
    && (g.actor.Master? ==> AuditIs(audits, g.actor.audit, OccurrenceCorrect, key, g.at))
  }

  ghost predicate LifeGuardOk(g: LifeEvent, logs: Logs, page: Page) {
    g.oldDeletedAt == page.deletedAt && g.sequence == |logs.life| + 1 && LifeCheck(g)
  }

  ghost predicate MoveGuardOk(g: MoveEvent, logs: Logs, page: Page, key: PageKey, audits: map<Id, Audit>) {
    && g.oldSection == page.section && g.oldBook == page.book && g.sequence == |logs.move| + 1
    && MoveCheck(g) && AuditIs(audits, g.audit, PageMove, key, g.at)
    && (forall i :: 0 <= i < |logs.move| ==> logs.move[i].audit != g.audit)
  }

  ghost predicate GuardsOk(l: Ledger, key: PageKey, audits: map<Id, Audit>) {
    && (l.occGuard.Some? ==> OccGuardOk(l.occGuard.value, l.logs, l.page, key, audits))
    && (l.lifeGuard.Some? ==> LifeGuardOk(l.lifeGuard.value, l.logs, l.page))
    && (l.moveGuard.Some? ==> MoveGuardOk(l.moveGuard.value, l.logs, l.page, key, audits))
  }

  ghost predicate LedgerOk(l: Ledger, key: PageKey, audits: map<Id, Audit>) {
    PageCheck(l.page) && LogsOk(l.logs, l.page, key, audits) && GuardsOk(l, key, audits)
  }

  // Rows about a Page exist only for Pages that exist.
  ghost predicate NoOrphans(h: Hist) {
    && (forall k :: k in h.occEvents ==> k in h.pages) && (forall k :: k in h.occGuards ==> k in h.pages)
    && (forall k :: k in h.lifeEvents ==> k in h.pages) && (forall k :: k in h.lifeGuards ==> k in h.pages)
    && (forall k :: k in h.moveEvents ==> k in h.pages) && (forall k :: k in h.moveGuards ==> k in h.pages)
    && (forall k :: k in h.titleEvents ==> k in h.pages)
  }

  ghost predicate HistoryInv(h: Hist) {
    NoOrphans(h) && forall k :: k in h.pages ==> LedgerOk(LedgerOf(h, k), k, h.audits)
  }

  // ---- Revisions and append guards ----

  predicate HasNumber(c: Content, key: PageKey, n: int) {
    exists r :: r in c.revisions && r.page == key && r.ref.number == n
  }

  // Revision numbers of a Page are 1..current, plus at most current + 1, which is then the pending
  // append guard; until the first Revision arrives they are empty and current is 1.
  ghost predicate RevisionsOk(c: Content, key: PageKey, current: RevRef) {
    && BigPositive(current.number)
    && (forall r :: r in c.revisions && r.page == key ==>
          && 1 <= r.ref.number <= current.number + 1 && BigPositive(r.ref.number)
          && RevKey(key, current) in c.revisions
          && (r.ref.number == current.number + 1 ==> key in c.appendGuards && c.appendGuards[key] == r.ref))
    && (forall n :: 1 <= n < current.number ==> HasNumber(c, key, n))
    && (current.number > 1 ==> RevKey(key, current) in c.revisions)
  }

  // A Page has one Revision of each number.
  ghost predicate NumbersUnique(c: Content) {
    forall q, r :: q in c.revisions && r in c.revisions && q.page == r.page && q.ref.number == r.ref.number ==> q == r
  }

  ghost predicate RevisionsInv(pages: map<PageKey, Page>, c: Content) {
    && NumbersUnique(c)
    && (forall r :: r in c.revisions ==> r.page in pages)
    && (forall k :: k in c.appendGuards ==> RevKey(k, c.appendGuards[k]) in c.revisions && c.appendGuards[k].number >= 2)
    && (forall k :: k in pages ==> RevisionsOk(c, k, pages[k].current))
  }

  // A pending move names a Revision that exists.
  ghost predicate MovesInv(moveGuards: map<PageKey, MoveEvent>, revisions: map<RevKey, Revision>) {
    forall k :: k in moveGuards ==> RevKey(k, moveGuards[k].atRevision) in revisions
  }

  // ---- file sets and seals ----

  // A sealed set is one its seal could be given to now, and a Markdown Revision is born sealed.
  ghost predicate SealsInv(c: Content) {
    && (forall r :: r in c.revisions <==> r in c.sealGuards)
    && (forall r :: r in c.fileSets || r in c.files ==> r in c.revisions)
    && (forall r :: r in c.seals ==> SealableSet(c, r))
    && (forall r :: IsMarkdown(c, r) ==> r in c.seals)
  }

  // ---- dirty marks ----

  ghost predicate DirtyInv(m: Marks) {
    forall k :: k in m.dirty ==> m.dirty[k] <= m.sequence
  }

  ghost predicate Inv(db: Db) {
    && HistoryInv(db.hist) && RevisionsInv(db.hist.pages, db.content) && SealsInv(db.content) && DirtyInv(db.marks)
    && MovesInv(db.hist.moveGuards, db.content.revisions)
  }

  lemma EmptyInv()
    ensures Inv(EMPTY_DB)
  {
  }
}
