// What goes through: from every reachable state of an open transaction, exactly which statements move,
// correct, retitle, delete, restore or extend a Page, and the tables they leave. Conditions and results
// are read off the tables, row by row.
module Progress {
  import opened Common
  import opened Tables
  import opened Statements
  import opened Invariants
  import opened Runs
  import opened Guarantees
  import HistoryKept

  // ---- statements one after another ----

  function Running(statements: seq<Stmt>): seq<Event> {
    seq(|statements|, i requires 0 <= i < |statements| => Run(statements[i]))
  }

  ghost function ExecAll(db: Db, statements: seq<Stmt>): Db {
    if statements == [] then db
    else Exec(ExecAll(db, statements[..|statements| - 1]), statements[|statements| - 1])
  }

  lemma {:induction false} RunAll(c: Conn, statements: seq<Stmt>)
    requires c.open
    ensures After(c, Running(statements)).open
    ensures After(c, Running(statements)).work.db == ExecAll(c.work.db, statements)
  {
    hide Exec, DeferredOk;
    if statements != [] {
      RunAll(c, statements[..|statements| - 1]);
      assert Running(statements)[..|statements| - 1] == Running(statements[..|statements| - 1]);
    }
  }

  // The tables after a transaction goes on with some statements.
  ghost function Then(events: seq<Event>, statements: seq<Stmt>): Db {
    Working(events + Running(statements)).db
  }

  lemma ThenIs(events: seq<Event>, statements: seq<Stmt>)
    requires After(FRESH, events).open
    ensures Then(events, statements) == ExecAll(Working(events).db, statements)
    ensures Inv(Working(events).db)
  {
    Reached(events);
    AfterConcat(FRESH, events, Running(statements));
    RunAll(After(FRESH, events), statements);
    hide Inv, After, ExecAll, DeferredOk, StoriesOk;
  }

  lemma TwoStatements(db: Db, a: Stmt, b: Stmt)
    ensures ExecAll(db, [a]) == Exec(db, a) && ExecAll(db, [a, b]) == Exec(Exec(db, a), b)
  {
    hide Exec;
    assert [a][..0] == [] && [a, b][..1] == [a];
    assert ExecAll(db, []) == db;
  }

  // Marked dirty n more times.
  function Marking(m: Marks, key: PageKey, n: nat): Marks {
    Marks(m.sequence + n, m.dirty[key := m.sequence + n])
  }

  function With<T>(log: map<PageKey, seq<T>>, key: PageKey, row: T): map<PageKey, seq<T>> {
    log[key := (if key in log then log[key] else []) + [row]]
  }

  // What the history invariant says of one Page, in numbers.
  lemma PageFacts(db: Db, key: PageKey)
    requires Inv(db) && key in db.hist.pages
    ensures var p, h := db.hist.pages[key], db.hist;
            && MIN_OCCURRED <= p.occurredAt <= MAX_OCCURRED && 0 <= p.createdAt <= p.updatedAt && |p.title| >= 1
            && (p.deletedAt.Some? ==> p.createdAt <= p.deletedAt.value <= p.updatedAt)
            && 1 <= p.current.number <= MAX_BIGINT
            && NextSequence(OccSequences(Rows(h.occEvents, key))) == |Rows(h.occEvents, key)| + 1
            && NextSequence(LifeSequences(Rows(h.lifeEvents, key))) == |Rows(h.lifeEvents, key)| + 1
            && NextSequence(MoveSequences(Rows(h.moveEvents, key))) == |Rows(h.moveEvents, key)| + 1
            && NextSequence(TitleSequences(Rows(h.titleEvents, key))) == |Rows(h.titleEvents, key)| + 1
  {
    HistoryKept.LedgerAt(db.hist, key);
    var l := LedgerOf(db.hist, key);
    assert RevisionsOk(db.content, key, l.page.current);
    hide HistoryInv, SealsInv, MovesInv, DirtyInv, RevisionsInv, LogsOk, GuardsOk, NextSequence;
    HistoryKept.NextSequences(l, key, db.hist.audits);
  }

  // ---- moves ----

  predicate UnusedMoveAuditRow(h: Hist, id: Id) {
    && (forall k, i :: k in h.moveEvents && 0 <= i < |h.moveEvents[k]| ==> h.moveEvents[k][i].audit != id)
    && (forall k :: k in h.moveGuards ==> h.moveGuards[k].audit != id)
  }

  // A move row for a live Page whose current Revision is there, out of its Section and Book and into
  // others, made by an audited action of the same time that no move row names.
  predicate IsMoveOf(h: Hist, c: Content, key: PageKey, g: MoveEvent)
    requires key in h.pages
  {
    var p, length := h.pages[key], |Rows(h.moveEvents, key)|;
    && g == MoveEvent(length + 1, p.section, p.book, g.newSection, g.newBook, p.updatedAt, g.at, p.current, p.occurredAt, g.audit)
    && length < MAX_BIGINT
    && p.deletedAt == None
    && (g.newSection != p.section || g.newBook != p.book)
    && p.updatedAt < g.at <= MAX_OCCURRED
    && RevKey(key, p.current) in c.revisions
    && g.audit in h.audits && h.audits[g.audit] == Audit(PageMove, PageTarget(key), g.at)
    && UnusedMoveAuditRow(h, g.audit)
  }

  lemma MoveGuardReady(h: Hist, c: Content, key: PageKey, g: MoveEvent)
    requires key in h.pages && key !in h.moveGuards && 0 <= h.pages[key].updatedAt
    requires OccurredRange(h.pages[key].occurredAt) && BigPositive(h.pages[key].current.number)
    requires NextSequence(MoveSequences(Rows(h.moveEvents, key))) == |Rows(h.moveEvents, key)| + 1
    ensures AcceptsMoveGuard(h, c, key, g) <==> IsMoveOf(h, c, key, g)
  {
    hide NextSequence, MoveSequences;
    assert MoveAuditUsed(h, g.audit) || (forall k :: k in h.moveGuards ==> h.moveGuards[k].audit != g.audit) ==>
        (UnusedMoveAuditRow(h, g.audit) <==> !MoveAuditUsed(h, g.audit));
    hide MoveAuditUsed;
    if IsMoveOf(h, c, key, g) {
      hide UnusedMoveAuditRow;
    }
  }

  function MoveGuarding(db: Db, key: PageKey, g: MoveEvent): Db {
    db.(hist := db.hist.(moveGuards := db.hist.moveGuards[key := g]))
  }

  lemma MoveGuardTaken(db: Db, key: PageKey, g: MoveEvent)
    requires Inv(db) && key in db.hist.pages && key !in db.hist.moveGuards
    ensures Exec(db, InsertMoveGuard(key, g))
      == if IsMoveOf(db.hist, db.content, key, g) then MoveGuarding(db, key, g) else db
  {
    hide Inv, NextSequence, AcceptsMoveGuard, IsMoveOf;
    PageFacts(db, key);
    MoveGuardReady(db.hist, db.content, key, g);
  }

  predicate IsMoved(p: Page, g: MoveEvent, n: Page) {
    n == p.(section := g.newSection, book := g.newBook, updatedAt := g.at)
  }

  predicate Elsewhere(p: Page, n: Page) { n.section != p.section || n.book != p.book }

  // The tables after a move: the new row, the move in the log, one dirty mark, and nothing else.
  function MovedTables(db: Db, key: PageKey, g: MoveEvent, n: Page): Db {
    db.(hist := db.hist.(pages := db.hist.pages[key := n], moveEvents := With(db.hist.moveEvents, key, g)),
        marks := Marking(db.marks, key, 1))
  }

  // An UPDATE to another Section or Book does what the pending guard says, or nothing.
  lemma MoveUpdate(db: Db, key: PageKey, n: Page)
    requires key in db.hist.pages && PageCheck(db.hist.pages[key]) && Elsewhere(db.hist.pages[key], n)
    ensures Accepts(db, UpdatePage(key, key, n)) <==>
            && key in db.hist.moveGuards
            && var p, g := db.hist.pages[key], db.hist.moveGuards[key];
               MovePreState(p, g) && g.at >= p.updatedAt && IsMoved(p, g, n)
  {
    hide TitleRow;
  }

  lemma MoveApplied(db: Db, key: PageKey, g: MoveEvent, n: Page)
    requires key in db.hist.pages && key !in db.hist.moveGuards
    requires Elsewhere(db.hist.pages[key], n) && IsMoved(db.hist.pages[key], g, n)
    ensures Apply(MoveGuarding(db, key, g), UpdatePage(key, key, n)) == MovedTables(db, key, g, n)
  {
    hide TitleRow;
    assert db.hist.moveGuards[key := g] - {key} == db.hist.moveGuards;
  }

  lemma MoveAllowed(db: Db, key: PageKey, g: MoveEvent, n: Page)
    requires Inv(db) && key in db.hist.pages && key !in db.hist.moveGuards && Elsewhere(db.hist.pages[key], n)
    ensures !Accepts(db, UpdatePage(key, key, n))
    ensures IsMoveOf(db.hist, db.content, key, g) ==>
              (Accepts(MoveGuarding(db, key, g), UpdatePage(key, key, n)) <==> IsMoved(db.hist.pages[key], g, n))
  {
    hide Inv, NextSequence, Accepts, Elsewhere;
    PageFacts(db, key);
    MoveUpdate(db, key, n);
    MoveUpdate(MoveGuarding(db, key, g), key, n);
  }

  lemma MoveOutcome(db: Db, key: PageKey, g: MoveEvent, n: Page)
    requires Inv(db) && key in db.hist.pages && key !in db.hist.moveGuards && Elsewhere(db.hist.pages[key], n)
    ensures var after := Exec(Exec(db, InsertMoveGuard(key, g)), UpdatePage(key, key, n));
            if IsMoveOf(db.hist, db.content, key, g) && IsMoved(db.hist.pages[key], g, n)
            then after == MovedTables(db, key, g, n)
            else after == db || after == MoveGuarding(db, key, g)
  {
    hide Inv, Accepts, Apply, IsMoveOf, IsMoved, Elsewhere, MovedTables, MoveGuarding;
    MoveGuardTaken(db, key, g);
    MoveAllowed(db, key, g, n);
    if IsMoved(db.hist.pages[key], g, n) {
      MoveApplied(db, key, g, n);
    }
  }

  // A guard and an UPDATE to another Section or Book move the Page exactly when the guard is the next
  // move of the Page and the new row is the old one with that Section, Book and time. The move is then
  // logged, no guard is left, and the Page is marked dirty once. Otherwise pages and logs stay.
  lemma MoveGoesThrough(events: seq<Event>, key: PageKey, g: MoveEvent, n: Page)
    requires After(FRESH, events).open && key in Working(events).db.hist.pages
    requires key !in Working(events).db.hist.moveGuards && Elsewhere(Working(events).db.hist.pages[key], n)
    ensures var db := Working(events).db;
            var after := Then(events, [InsertMoveGuard(key, g), UpdatePage(key, key, n)]);
            if IsMoveOf(db.hist, db.content, key, g) && IsMoved(db.hist.pages[key], g, n)
            then after == MovedTables(db, key, g, n)
            else after == db || after == MoveGuarding(db, key, g)
  {
    hide Then, Working, ExecAll, Inv, Exec, IsMoveOf, IsMoved, Elsewhere, After, MovedTables, MoveGuarding;
    var s, t := InsertMoveGuard(key, g), UpdatePage(key, key, n);
    ThenIs(events, [s, t]);
    TwoStatements(Working(events).db, s, t);
    MoveOutcome(Working(events).db, key, g, n);
  }

  // ---- corrections of the declared time ----

  // A correction of the declared time the Page has, by a Caller or by an audited action of the same time.
  predicate IsCorrectionOf(h: Hist, key: PageKey, g: OccGuard)
    requires key in h.pages
  {
    var p, length := h.pages[key], |Rows(h.occEvents, key)|;
    && g == OccGuard(length + 1, p.occurredAt, g.newOccurred, g.actor, g.at)
    && length < MAX_BIGINT
    && g.newOccurred != p.occurredAt && MIN_OCCURRED <= g.newOccurred <= MAX_OCCURRED
    && p.updatedAt < g.at
    && (g.actor.Master? ==>
          g.actor.audit in h.audits && h.audits[g.actor.audit] == Audit(OccurrenceCorrect, PageTarget(key), g.at))
  }

  predicate IsCorrected(p: Page, g: OccGuard, n: Page) {
    p.deletedAt == None && n == p.(occurredAt := g.newOccurred, updatedAt := g.at)
  }

  // The tables after a correction.
  function CorrectedTables(db: Db, key: PageKey, g: OccGuard, n: Page): Db
    requires key in db.hist.pages
  {
    var p := db.hist.pages[key];
    var row := OccEvent(g.sequence, p.occurredAt, n.occurredAt, p.current.number, g.actor, n.updatedAt);
    db.(hist := db.hist.(pages := db.hist.pages[key := n], occEvents := With(db.hist.occEvents, key, row)),
        marks := Marking(db.marks, key, 1))
  }

  function OccGuarding(db: Db, key: PageKey, g: OccGuard): Db {
    db.(hist := db.hist.(occGuards := db.hist.occGuards[key := g]))
  }

  lemma OccGuardReady(h: Hist, key: PageKey, g: OccGuard)
    requires key in h.pages && key !in h.occGuards && 0 <= h.pages[key].updatedAt && OccurredRange(h.pages[key].occurredAt)
    requires NextSequence(OccSequences(Rows(h.occEvents, key))) == |Rows(h.occEvents, key)| + 1
    ensures AcceptsOccGuard(h, key, g) <==> IsCorrectionOf(h, key, g)
  {
    hide NextSequence, OccSequences;
  }

  lemma OccGuardTaken(db: Db, key: PageKey, g: OccGuard)
    requires Inv(db) && key in db.hist.pages && key !in db.hist.occGuards
    ensures Exec(db, InsertOccGuard(key, g)) == if IsCorrectionOf(db.hist, key, g) then OccGuarding(db, key, g) else db
  {
    hide Inv, NextSequence, AcceptsOccGuard, IsCorrectionOf;
    PageFacts(db, key);
    OccGuardReady(db.hist, key, g);
  }

  lemma OccUpdate(db: Db, key: PageKey, n: Page)
    requires key in db.hist.pages && PageCheck(db.hist.pages[key]) && n.occurredAt != db.hist.pages[key].occurredAt
    ensures Accepts(db, UpdatePage(key, key, n)) <==>
            && key in db.hist.occGuards
            && var p, g := db.hist.pages[key], db.hist.occGuards[key];
               g.oldOccurred == p.occurredAt && g.at > p.updatedAt && OccurredRange(g.newOccurred) && IsCorrected(p, g, n)
  {
    hide TitleRow;
  }

  lemma OccApplied(db: Db, key: PageKey, g: OccGuard, n: Page)
    requires key in db.hist.pages && key !in db.hist.occGuards && g.oldOccurred == db.hist.pages[key].occurredAt
    requires n.occurredAt != db.hist.pages[key].occurredAt && IsCorrected(db.hist.pages[key], g, n)
    ensures Apply(OccGuarding(db, key, g), UpdatePage(key, key, n)) == CorrectedTables(db, key, g, n)
  {
    hide TitleRow;
    assert db.hist.occGuards[key := g] - {key} == db.hist.occGuards;
  }

  lemma OccAllowed(db: Db, key: PageKey, g: OccGuard, n: Page)
    requires Inv(db) && key in db.hist.pages && key !in db.hist.occGuards && n.occurredAt != db.hist.pages[key].occurredAt
    ensures !Accepts(db, UpdatePage(key, key, n))
    ensures IsCorrectionOf(db.hist, key, g) ==>
              && g.oldOccurred == db.hist.pages[key].occurredAt
              && (Accepts(OccGuarding(db, key, g), UpdatePage(key, key, n)) <==> IsCorrected(db.hist.pages[key], g, n))
  {
    hide Inv, NextSequence, Accepts;
    PageFacts(db, key);
    OccUpdate(db, key, n);
    OccUpdate(OccGuarding(db, key, g), key, n);
  }

  lemma OccOutcome(db: Db, key: PageKey, g: OccGuard, n: Page)
    requires Inv(db) && key in db.hist.pages && key !in db.hist.occGuards && n.occurredAt != db.hist.pages[key].occurredAt
    ensures var after := Exec(Exec(db, InsertOccGuard(key, g)), UpdatePage(key, key, n));
            if IsCorrectionOf(db.hist, key, g) && IsCorrected(db.hist.pages[key], g, n)
            then after == CorrectedTables(db, key, g, n)
            else after == db || after == OccGuarding(db, key, g)
  {
    hide Inv, Accepts, Apply, IsCorrectionOf, IsCorrected, CorrectedTables, OccGuarding;
    OccGuardTaken(db, key, g);
    OccAllowed(db, key, g, n);
    if IsCorrectionOf(db.hist, key, g) && IsCorrected(db.hist.pages[key], g, n) {
      OccApplied(db, key, g, n);
    }
  }

  // A guard and an UPDATE to another declared time correct the Page exactly when it is live, the guard is
  // its next correction, and the new row is the old one with that declared time and change time. The
  // correction is then logged with the current Revision number, and no guard is left.
  lemma CorrectionGoesThrough(events: seq<Event>, key: PageKey, g: OccGuard, n: Page)
    requires After(FRESH, events).open && key in Working(events).db.hist.pages
    requires key !in Working(events).db.hist.occGuards && n.occurredAt != Working(events).db.hist.pages[key].occurredAt
    ensures var db := Working(events).db;
            var after := Then(events, [InsertOccGuard(key, g), UpdatePage(key, key, n)]);
            if IsCorrectionOf(db.hist, key, g) && IsCorrected(db.hist.pages[key], g, n)
            then after == CorrectedTables(db, key, g, n)
            else after == db || after == OccGuarding(db, key, g)
  {
    hide Then, Working, ExecAll, Inv, Exec, IsCorrectionOf, IsCorrected, After, CorrectedTables, OccGuarding;
    var s, t := InsertOccGuard(key, g), UpdatePage(key, key, n);
    ThenIs(events, [s, t]);
    TwoStatements(Working(events).db, s, t);
    OccOutcome(Working(events).db, key, g, n);
  }

  // ---- delete and restore ----

  // A delete of a live Page or a restore of a deleted one, with everything the row records of the Page,
  // by a Caller or by an audited action of the same kind and time.
  predicate IsLifecycleOf(h: Hist, key: PageKey, g: LifeEvent)
    requires key in h.pages
  {
    var p, length := h.pages[key], |Rows(h.lifeEvents, key)|;
    && g == LifeEvent(length + 1, g.action, p.section, p.deletedAt, p.updatedAt, g.at, p.current.number, p.occurredAt, g.actor, g.request)
    && length < MAX_BIGINT
    && g.action == (if p.deletedAt == None then Delete else Restore)
    && p.updatedAt < g.at <= MAX_BIGINT
    && (g.actor.Master? ==>
          && g.actor.audit in h.audits
          && h.audits[g.actor.audit] == Audit(if p.deletedAt == None then ArchiveDelete else ArchiveRestore, PageTarget(key), g.at))
  }

  // Deleted at the time of the guard, or live again.
  predicate IsTurned(p: Page, g: LifeEvent, n: Page) {
    n == p.(deletedAt := if p.deletedAt == None then Some(g.at) else None, updatedAt := g.at)
  }

  function TurnedTables(db: Db, key: PageKey, g: LifeEvent, n: Page): Db {
    db.(hist := db.hist.(pages := db.hist.pages[key := n], lifeEvents := With(db.hist.lifeEvents, key, g)),
        marks := Marking(db.marks, key, 1))
  }

  function LifeGuarding(db: Db, key: PageKey, g: LifeEvent): Db {
    db.(hist := db.hist.(lifeGuards := db.hist.lifeGuards[key := g]))
  }

  lemma LifeGuardReady(h: Hist, key: PageKey, g: LifeEvent)
    requires key in h.pages && key !in h.lifeGuards && PageCheck(h.pages[key]) && BigPositive(h.pages[key].current.number)
    requires NextSequence(LifeSequences(Rows(h.lifeEvents, key))) == |Rows(h.lifeEvents, key)| + 1
    ensures AcceptsLifeGuard(h, key, g) <==> IsLifecycleOf(h, key, g)
  {
    hide NextSequence, LifeSequences;
  }

  lemma LifeGuardTaken(db: Db, key: PageKey, g: LifeEvent)
    requires Inv(db) && key in db.hist.pages && key !in db.hist.lifeGuards
    ensures Exec(db, InsertLifeGuard(key, g)) == if IsLifecycleOf(db.hist, key, g) then LifeGuarding(db, key, g) else db
  {
    hide Inv, NextSequence, AcceptsLifeGuard, IsLifecycleOf;
    PageFacts(db, key);
    LifeGuardReady(db.hist, key, g);
  }

  lemma LifeUpdate(db: Db, key: PageKey, n: Page)
    requires key in db.hist.pages && PageCheck(db.hist.pages[key]) && n.deletedAt != db.hist.pages[key].deletedAt
    ensures Accepts(db, UpdatePage(key, key, n)) <==>
            && key in db.hist.lifeGuards
            && var p, g := db.hist.pages[key], db.hist.lifeGuards[key];
               && LifePreState(p, g) && g.at > p.updatedAt
               && n == p.(deletedAt := if g.action == Delete then Some(g.at) else None, updatedAt := g.at)
  {
    hide TitleRow;
  }

  lemma LifeApplied(db: Db, key: PageKey, g: LifeEvent, n: Page)
    requires key in db.hist.pages && key !in db.hist.lifeGuards && IsTurned(db.hist.pages[key], g, n)
    ensures Apply(LifeGuarding(db, key, g), UpdatePage(key, key, n)) == TurnedTables(db, key, g, n)
  {
    hide TitleRow;
    assert db.hist.lifeGuards[key := g] - {key} == db.hist.lifeGuards;
  }

  lemma LifeAllowed(db: Db, key: PageKey, g: LifeEvent, n: Page)
    requires Inv(db) && key in db.hist.pages && key !in db.hist.lifeGuards && n.deletedAt != db.hist.pages[key].deletedAt
    ensures !Accepts(db, UpdatePage(key, key, n))
    ensures IsLifecycleOf(db.hist, key, g) ==>
              (Accepts(LifeGuarding(db, key, g), UpdatePage(key, key, n)) <==> IsTurned(db.hist.pages[key], g, n))
  {
    hide Inv, NextSequence, Accepts;
    PageFacts(db, key);
    LifeUpdate(db, key, n);
    LifeUpdate(LifeGuarding(db, key, g), key, n);
  }

  lemma LifeOutcome(db: Db, key: PageKey, g: LifeEvent, n: Page)
    requires Inv(db) && key in db.hist.pages && key !in db.hist.lifeGuards && n.deletedAt != db.hist.pages[key].deletedAt
    ensures var after := Exec(Exec(db, InsertLifeGuard(key, g)), UpdatePage(key, key, n));
            if IsLifecycleOf(db.hist, key, g) && IsTurned(db.hist.pages[key], g, n)
            then after == TurnedTables(db, key, g, n)
            else after == db || after == LifeGuarding(db, key, g)
  {
    hide Inv, Accepts, Apply, IsLifecycleOf, IsTurned, TurnedTables, LifeGuarding;
    LifeGuardTaken(db, key, g);
    LifeAllowed(db, key, g, n);
    if IsTurned(db.hist.pages[key], g, n) {
      LifeApplied(db, key, g, n);
    }
  }

  // A guard and an UPDATE of deleted_at delete a live Page or restore a deleted one exactly when the guard
  // is its next lifecycle row and the new row is the old one with that deletion and change time.
  lemma LifecycleGoesThrough(events: seq<Event>, key: PageKey, g: LifeEvent, n: Page)
    requires After(FRESH, events).open && key in Working(events).db.hist.pages
    requires key !in Working(events).db.hist.lifeGuards && n.deletedAt != Working(events).db.hist.pages[key].deletedAt
    ensures var db := Working(events).db;
            var after := Then(events, [InsertLifeGuard(key, g), UpdatePage(key, key, n)]);
            if IsLifecycleOf(db.hist, key, g) && IsTurned(db.hist.pages[key], g, n)
            then after == TurnedTables(db, key, g, n)
            else after == db || after == LifeGuarding(db, key, g)
  {
    hide Then, Working, ExecAll, Inv, Exec, IsLifecycleOf, IsTurned, After, TurnedTables, LifeGuarding;
    var s, t := InsertLifeGuard(key, g), UpdatePage(key, key, n);
    ThenIs(events, [s, t]);
    TwoStatements(Working(events).db, s, t);
    LifeOutcome(Working(events).db, key, g, n);
  }

  // ---- title edits ----

  // An audited title edit of the Page at that time that no title row names.
  predicate IsFreeTitleAudit(h: Hist, key: PageKey, at: Time, id: Id) {
    && id in h.audits && h.audits[id] == Audit(TitleEdit, PageTarget(key), at)
    && (forall k, i :: k in h.titleEvents && 0 <= i < |h.titleEvents[k]| ==> h.titleEvents[k][i].audit != id)
  }

  // A later, non-empty title of a live Page, everything else as it was.
  predicate IsRetitled(p: Page, n: Page) {
    && p.deletedAt == None && |n.title| >= 1 && p.updatedAt < n.updatedAt <= MAX_BIGINT
    && n == p.(title := n.title, updatedAt := n.updatedAt)
  }

  ghost predicate OnlyFreeTitleAudit(h: Hist, key: PageKey, at: Time, id: Id) {
    IsFreeTitleAudit(h, key, at, id) && forall other :: IsFreeTitleAudit(h, key, at, other) ==> other == id
  }

  function RetitledTables(db: Db, key: PageKey, n: Page, audit: Id): Db
    requires key in db.hist.pages
  {
    var p := db.hist.pages[key];
    var row := TitleEvent(|Rows(db.hist.titleEvents, key)| + 1, p.title, n.title, p.updatedAt, n.updatedAt, p.current.number, audit);
    db.(hist := db.hist.(pages := db.hist.pages[key := n], titleEvents := With(db.hist.titleEvents, key, row)),
        marks := Marking(db.marks, key, 1))
  }

  lemma FreeTitleAudits(h: Hist, key: PageKey, at: Time)
    ensures forall id :: id in UnusedTitleAudits(h, key, at) <==> IsFreeTitleAudit(h, key, at, id)
  {
    forall id ensures id in UnusedTitleAudits(h, key, at) <==> IsFreeTitleAudit(h, key, at, id) {
      assert TitleAuditUsed(h, id) <==> !(forall k, i :: k in h.titleEvents && 0 <= i < |h.titleEvents[k]| ==> h.titleEvents[k][i].audit != id);
    }
  }

  lemma OnlyMember(s: set<Id>, x: Id)
    ensures s == {x} ==> |s| == 1
    ensures |s| == 1 && x in s ==> s == {x}
  {
    if |s| == 1 && x in s {
      assert |s - {x}| == 0;
    }
  }

  // The row recorded for a title change.
  lemma TitleRowIs(h: Hist, key: PageKey, o: Page, n: Page, id: Id)
    requires OnlyFreeTitleAudit(h, key, n.updatedAt, id)
    requires NextSequence(TitleSequences(Rows(h.titleEvents, key))) == |Rows(h.titleEvents, key)| + 1
    ensures TitleRow(h, key, o, n) == Some(TitleEvent(|Rows(h.titleEvents, key)| + 1, o.title, n.title, o.updatedAt, n.updatedAt, o.current.number, id))
  {
    hide NextSequence, TitleSequences, IsFreeTitleAudit, UnusedTitleAudits;
    var ids := UnusedTitleAudits(h, key, n.updatedAt);
    FreeTitleAudits(h, key, n.updatedAt);
    OnlyMember(ids, id);
    assert IsFreeTitleAudit(h, key, n.updatedAt, id);
    assert id in ids;
    forall other | other in ids ensures other == id {
      assert IsFreeTitleAudit(h, key, n.updatedAt, other);
    }
    assert ids == {id};
  }

  lemma TitleRowOnly(h: Hist, key: PageKey, o: Page, n: Page)
    requires TitleRow(h, key, o, n).Some?
    ensures OnlyFreeTitleAudit(h, key, n.updatedAt, TitleRow(h, key, o, n).value.audit)
    ensures TitleRow(h, key, o, n).value.sequence == NextSequence(TitleSequences(Rows(h.titleEvents, key)))
  {
    FreeTitleAudits(h, key, n.updatedAt);
    OnlyMember(UnusedTitleAudits(h, key, n.updatedAt), TitleRow(h, key, o, n).value.audit);
    hide NextSequence, TitleSequences, IsFreeTitleAudit, UnusedTitleAudits;
  }

  lemma TitleUpdate(db: Db, key: PageKey, n: Page)
    requires key in db.hist.pages && PageCheck(db.hist.pages[key]) && n.title != db.hist.pages[key].title
    requires BigPositive(db.hist.pages[key].current.number)
    ensures var h, p := db.hist, db.hist.pages[key];
            Accepts(db, UpdatePage(key, key, n)) <==>
              && IsRetitled(p, n) && TitleRow(h, key, p, n).Some? && BigPositive(TitleRow(h, key, p, n).value.sequence)
  {
    hide UnusedTitleAudits, NextSequence;
  }

  lemma TitleApplied(db: Db, key: PageKey, n: Page, audit: Id)
    requires key in db.hist.pages && IsRetitled(db.hist.pages[key], n) && n.title != db.hist.pages[key].title
    requires OnlyFreeTitleAudit(db.hist, key, n.updatedAt, audit)
    requires NextSequence(TitleSequences(Rows(db.hist.titleEvents, key))) == |Rows(db.hist.titleEvents, key)| + 1
    ensures Apply(db, UpdatePage(key, key, n)) == RetitledTables(db, key, n, audit)
  {
    TitleRowIs(db.hist, key, db.hist.pages[key], n, audit);
    hide TitleRow, NextSequence, OnlyFreeTitleAudit;
  }

  lemma TitleOutcome(db: Db, key: PageKey, n: Page)
    requires Inv(db) && key in db.hist.pages && n.title != db.hist.pages[key].title
    ensures var h, p, after := db.hist, db.hist.pages[key], Exec(db, UpdatePage(key, key, n));
            && (forall id :: IsRetitled(p, n) && |Rows(h.titleEvents, key)| < MAX_BIGINT && OnlyFreeTitleAudit(h, key, n.updatedAt, id) ==>
                  after == RetitledTables(db, key, n, id))
            && (after == db || (IsRetitled(p, n) && |Rows(h.titleEvents, key)| < MAX_BIGINT && exists id :: OnlyFreeTitleAudit(h, key, n.updatedAt, id)))
  {
    var h, p := db.hist, db.hist.pages[key];
    hide Inv, NextSequence, Accepts, Apply, TitleRow, OnlyFreeTitleAudit, RetitledTables, IsRetitled;
    PageFacts(db, key);
    TitleUpdate(db, key, n);
    forall id | IsRetitled(p, n) && |Rows(h.titleEvents, key)| < MAX_BIGINT && OnlyFreeTitleAudit(h, key, n.updatedAt, id)
      ensures Exec(db, UpdatePage(key, key, n)) == RetitledTables(db, key, n, id)
    {
      TitleRowIs(h, key, p, n, id);
      TitleApplied(db, key, n, id);
    }
    if Accepts(db, UpdatePage(key, key, n)) {
      TitleRowOnly(h, key, p, n);
    }
  }

  // An UPDATE to another title goes through exactly when the Page is live, nothing but title and change
  // time differ, and one audited title edit of that time is free; that edit is then logged.
  lemma TitleEditGoesThrough(events: seq<Event>, key: PageKey, n: Page)
    requires After(FRESH, events).open && key in Working(events).db.hist.pages
    requires n.title != Working(events).db.hist.pages[key].title
    ensures var db := Working(events).db;
            var h, p, after := db.hist, db.hist.pages[key], Then(events, [UpdatePage(key, key, n)]);
            && (forall id :: IsRetitled(p, n) && |Rows(h.titleEvents, key)| < MAX_BIGINT && OnlyFreeTitleAudit(h, key, n.updatedAt, id) ==>
                  after == RetitledTables(db, key, n, id))
            && (after == db || (IsRetitled(p, n) && |Rows(h.titleEvents, key)| < MAX_BIGINT && exists id :: OnlyFreeTitleAudit(h, key, n.updatedAt, id)))
  {
    hide Then, Working, ExecAll, Inv, Exec, IsRetitled, OnlyFreeTitleAudit, After, RetitledTables;
    var s := UpdatePage(key, key, n);
    ThenIs(events, [s]);
    TwoStatements(Working(events).db, s, s);
    TitleOutcome(Working(events).db, key, n);
  }

  // ---- other UPDATEs ----

  // None of the columns that a guard, an audit or the pointer protects differs.
  predicate SameShown(p: Page, n: Page) {
    && n.section == p.section && n.book == p.book && n.title == p.title && n.occurredAt == p.occurredAt
    && n.current == p.current && n.deletedAt == p.deletedAt
  }

  lemma PlainUpdate(db: Db, key: PageKey, n: Page)
    requires key in db.hist.pages && PageCheck(db.hist.pages[key]) && SameShown(db.hist.pages[key], n)
    ensures var p := db.hist.pages[key];
            Exec(db, UpdatePage(key, key, n))
            == if p.updatedAt <= n.updatedAt && n == p.(pageType := n.pageType, updatedAt := n.updatedAt)
               then db.(hist := db.hist.(pages := db.hist.pages[key := n])) else db
  {
    hide TitleRow;
  }

  // Any other UPDATE of a Page changes its page type and its change time, forwards; a Page that is not
  // there stays so, no Page changes its key, and nothing is logged or marked.
  lemma PlainUpdateGoesThrough(events: seq<Event>, key: PageKey, newKey: PageKey, n: Page)
    requires After(FRESH, events).open
    requires key in Working(events).db.hist.pages && newKey == key ==> SameShown(Working(events).db.hist.pages[key], n)
    ensures var db := Working(events).db;
            Then(events, [UpdatePage(key, newKey, n)])
            == if key in db.hist.pages && newKey == key && db.hist.pages[key].updatedAt <= n.updatedAt
                  && n == db.hist.pages[key].(pageType := n.pageType, updatedAt := n.updatedAt)
               then db.(hist := db.hist.(pages := db.hist.pages[key := n])) else db
  {
    hide Then, Working, ExecAll, Inv, After, SameShown, NextSequence, HistoryAllows, AcceptsPageUpdate, TitleRow, HistoryAfter;
    var db, s := Working(events).db, UpdatePage(key, newKey, n);
    ThenIs(events, [s]);
    TwoStatements(db, s, s);
    if key in db.hist.pages && newKey == key {
      PageFacts(db, key);
      PlainUpdate(db, key, n);
    } else {
      OtherKey(db, key, newKey, n);
    }
  }

  lemma OtherKey(db: Db, key: PageKey, newKey: PageKey, n: Page)
    requires key !in db.hist.pages || newKey != key
    ensures Exec(db, UpdatePage(key, newKey, n)) == db
  {
    hide HistoryAllows, HistoryAfter, TitleRow;
  }

  // ---- COMMIT, and the statements that change nothing ----

  // COMMIT goes through exactly when no guard of the history is pending, every Page has its current
  // Revision, every append guard names the current one, and every Revision is sealed.
  lemma CommitGoesThrough(events: seq<Event>)
    requires After(FRESH, events).open
    ensures var db := Working(events).db;
            var done := && db.hist.occGuards == map[] && db.hist.lifeGuards == map[] && db.hist.moveGuards == map[]
                        && (forall k :: k in db.hist.pages ==> RevKey(k, db.hist.pages[k].current) in db.content.revisions)
                        && (forall k :: k in db.content.appendGuards ==>
                              k in db.hist.pages && db.hist.pages[k].current == db.content.appendGuards[k])
                        && (forall r :: r in db.content.revisions ==> r in db.content.seals);
            var after := After(FRESH, events + [Commit]);
            if done then after == Conn(Working(events), Working(events), false) else after == After(FRESH, events)
  {
    Reached(events);
    AfterConcat(FRESH, events, [Commit]);
    CommitStep(After(FRESH, events));
    hide After, Inv, DeferredOk, StoriesOk, Next;
    DeferredIs(After(FRESH, events).work.db);
  }

  lemma CommitStep(c: Conn)
    requires c.open
    ensures After(c, [Commit]) == if DeferredOk(c.work.db) then Conn(c.work, c.work, false) else c
  {
    hide DeferredOk;
    assert [Commit][..0] == [] && After(c, []) == c;
  }

  lemma DeferredIs(db: Db)
    requires Inv(db)
    ensures DeferredOk(db) <==>
            && db.hist.occGuards == map[] && db.hist.lifeGuards == map[] && db.hist.moveGuards == map[]
            && (forall k :: k in db.hist.pages ==> RevKey(k, db.hist.pages[k].current) in db.content.revisions)
            && (forall k :: k in db.content.appendGuards ==>
                  k in db.hist.pages && db.hist.pages[k].current == db.content.appendGuards[k])
            && (forall r :: r in db.content.revisions ==> r in db.content.seals)
  {
    hide HistoryInv, HistoryDeferredOk, MovesInv, DirtyInv, ContentDeferredOk, RevisionsInv, SealsInv;
    DeferredEmptiesGuards(db.hist);
    ContentDeferredIs(db.hist.pages, db.content);
  }

  lemma ContentDeferredIs(pages: map<PageKey, Page>, c: Content)
    requires RevisionsInv(pages, c) && SealsInv(c)
    ensures ContentDeferredOk(pages, c) <==>
            && (forall k :: k in pages ==> RevKey(k, pages[k].current) in c.revisions)
            && (forall k :: k in c.appendGuards ==> k in pages && pages[k].current == c.appendGuards[k])
            && (forall r :: r in c.revisions ==> r in c.seals)
  {
    hide RevisionsOk, NumbersUnique, SealableSet, IsMarkdown;
  }

  // An audit row is recorded once under its identifier.
  lemma AuditGoesThrough(events: seq<Event>, id: Id, a: Audit)
    requires After(FRESH, events).open
    ensures var db := Working(events).db;
            Then(events, [InsertAudit(id, a)])
            == if id !in db.hist.audits && a.at >= 0 then db.(hist := db.hist.(audits := db.hist.audits[id := a])) else db
  {
    hide Then, Working, ExecAll, Inv, After;
    ThenIs(events, [InsertAudit(id, a)]);
    TwoStatements(Working(events).db, InsertAudit(id, a), InsertAudit(id, a));
  }

  predicate IsByHand(s: Stmt) {
    || s.InsertOccEvent? || s.InsertLifeEvent? || s.InsertMoveEvent? || s.InsertSealGuard? || s.Rewrite?
    || s.DeleteOccGuard? || s.DeleteLifeGuard? || s.DeleteMoveGuard?
  }

  lemma ByHand(db: Db, s: Stmt)
    requires Inv(db) && IsByHand(s)
    ensures Exec(db, s) == db
  {
    if s.InsertSealGuard? {
      hide HistoryInv, RevisionsInv, MovesInv, SealableSet;
    } else if !s.Rewrite? {
      ByHandHistory(db.hist, db.content, s);
      hide Inv, AcceptsHistory, ApplyHistory;
    }
  }

  lemma ByHandHistory(h: Hist, c: Content, s: Stmt)
    requires HistoryInv(h) && IsByHand(s) && IsHistoryStmt(s)
    ensures AcceptsHistory(h, c, s) ==> ApplyHistory(h, s) == h
  {
    hide HistoryInv, AcceptsOccEvent, AcceptsLifeEvent, AcceptsMoveEvent, AcceptsOccGuardDelete, AcceptsLifeGuardDelete, AcceptsMoveGuardDelete;
    match s
    case InsertOccEvent(k, e) => HistoryKept.NoHandWrittenOccEvent(h, k, e);
    case InsertLifeEvent(k, e) => HistoryKept.NoHandWrittenLifeEvent(h, k, e);
    case InsertMoveEvent(k, e) => HistoryKept.NoHandWrittenMoveEvent(h, c, k, e);
    case DeleteOccGuard(k) => if k in h.occGuards { HistoryKept.PendingOccGuard(h, k); } else { assert h.occGuards - {k} == h.occGuards; }
    case DeleteLifeGuard(k) => if k in h.lifeGuards { HistoryKept.PendingLifeGuard(h, k); } else { assert h.lifeGuards - {k} == h.lifeGuards; }
    case DeleteMoveGuard(k) => if k in h.moveGuards { HistoryKept.PendingMoveGuard(h, k); } else { assert h.moveGuards - {k} == h.moveGuards; }
    case _ =>
  }

  // Log rows and seal guards written by hand, deletions of pending guards, and rewrites of protected rows
  // change nothing in any reachable state of a transaction.
  lemma ByHandChangesNothing(events: seq<Event>, s: Stmt)
    requires After(FRESH, events).open && IsByHand(s)
    ensures Then(events, [s]) == Working(events).db
  {
    hide Then, Working, ExecAll, Inv, After, Exec;
    ThenIs(events, [s]);
    TwoStatements(Working(events).db, s, s);
    ByHand(Working(events).db, s);
  }
}
