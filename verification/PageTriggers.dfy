// The AFTER UPDATE triggers on pages, in any order.
module PageTriggers {
  import opened Common
  import opened Tables
  import opened Statements
  import opened Invariants
  import opened History
  import opened Triggers
  import HistoryKept

  datatype PageTrigger = RecordOccurrence | RecordLifecycle | RecordMove | RecordTitle | ClearAppendGuard | MarkPage
  const PAGE_TRIGGERS := {RecordOccurrence, RecordLifecycle, RecordMove, RecordTitle, ClearAppendGuard, MarkPage}

  // The rows the triggers insert, from the guard, the OLD row and the NEW row.
  function OccRow(o: Page, n: Page, g: OccGuard): OccEvent {
    OccEvent(g.sequence, o.occurredAt, n.occurredAt, n.current.number, g.actor, n.updatedAt)
  }

  function LifeRow(o: Page, n: Page, g: LifeEvent): LifeEvent {
    LifeEvent(g.sequence, g.action, g.section, o.deletedAt, o.updatedAt, n.updatedAt, n.current.number, n.occurredAt, g.actor, g.request)
  }

  // What the title log asks of a row: it has no guard, only the Page and the audit to compare with.
  predicate AcceptsTitleEvent(h: Hist, key: PageKey, e: TitleEvent) {
    && key in h.pages
    && var p := h.pages[key];
    && p.title == e.newTitle && p.updatedAt == e.at && p.current.number == e.atRevision && p.deletedAt.None?
    && AuditIs(h.audits, e.audit, TitleEdit, key, e.at)
    && e.sequence == NextSequence(TitleSequences(Rows(h.titleEvents, key)))
    && TitleCheck(e)
    && !TitleAuditUsed(h, e.audit)
  }

  ghost function InsertTitleEvent(db: Db, key: PageKey, row: Option<TitleEvent>): Option<Db> {
    if row.Some? && AcceptsTitleEvent(db.hist, key, row.value)
    then Some(db.(hist := db.hist.(titleEvents := Appended(db.hist.titleEvents, key, row.value)))) else None
  }

  ghost function FirePage(db: Db, key: PageKey, o: Page, n: Page, t: PageTrigger): Option<Db> {
    match t
    case RecordOccurrence =>
      if n.occurredAt == o.occurredAt || key !in db.hist.occGuards then Some(db)
      else Then(Nested(db, InsertOccEvent(key, OccRow(o, n, db.hist.occGuards[key]))), DeleteOccGuard(key))
    case RecordLifecycle =>
      if n.deletedAt == o.deletedAt || key !in db.hist.lifeGuards then Some(db)
      else Then(Nested(db, InsertLifeEvent(key, LifeRow(o, n, db.hist.lifeGuards[key]))), DeleteLifeGuard(key))
    case RecordMove =>
      if SameSection(o, n) || key !in db.hist.moveGuards then Some(db)
      else Then(Nested(db, InsertMoveEvent(key, db.hist.moveGuards[key])), DeleteMoveGuard(key))
    case RecordTitle =>
      if n.title == o.title then Some(db) else InsertTitleEvent(db, key, TitleRow(db.hist, key, o, n))
    case ClearAppendGuard =>
      if n.current != o.current && key in db.content.appendGuards && db.content.appendGuards[key] == n.current
      then Nested(db, DeleteAppendGuard(key)) else Some(db)
    case MarkPage =>
      Some(if SearchColumnsDiffer(o, n) then db.(marks := Marked(db.marks, key, 1)) else db)
  }

  function PageWritten(db: Db, key: PageKey, n: Page): Db {
    db.(hist := db.hist.(pages := db.hist.pages[key := n]))
  }

  ghost function FirePages(db: Db, key: PageKey, o: Page, n: Page, order: seq<PageTrigger>): Option<Db> {
    if order == [] then Some(db)
    else match FirePages(db, key, o, n, order[..|order| - 1])
         case None => None
         case Some(d) => FirePage(d, key, o, n, order[|order| - 1])
  }

  // The state once the triggers in `fired` have run, in whatever order.
  function HistPartly(h: Hist, key: PageKey, o: Page, n: Page, titleRow: Option<TitleEvent>, fired: set<PageTrigger>): Hist {
    var occ := RecordOccurrence in fired && n.occurredAt != o.occurredAt;
    var life := RecordLifecycle in fired && n.deletedAt != o.deletedAt;
    var move := RecordMove in fired && !SameSection(o, n);
    var title := RecordTitle in fired && n.title != o.title && titleRow.Some?;
    h.(
      pages := h.pages[key := n],
      occEvents := if occ && key in h.occGuards then Appended(h.occEvents, key, NewOccEvent(o, h.occGuards[key])) else h.occEvents,
      occGuards := if occ then h.occGuards - {key} else h.occGuards,
      lifeEvents := if life then Logging(h.lifeEvents, h.lifeGuards, key) else h.lifeEvents,
      lifeGuards := if life then h.lifeGuards - {key} else h.lifeGuards,
      moveEvents := if move then Logging(h.moveEvents, h.moveGuards, key) else h.moveEvents,
      moveGuards := if move then h.moveGuards - {key} else h.moveGuards,
      titleEvents := if title then Appended(h.titleEvents, key, titleRow.value) else h.titleEvents)
  }

  ghost function PagePartly(db: Db, key: PageKey, o: Page, n: Page, fired: set<PageTrigger>): Db {
    db.(
      hist := HistPartly(db.hist, key, o, n, TitleRow(db.hist, key, o, n), fired),
      content := if ClearAppendGuard in fired && n.current != o.current
                 then db.content.(appendGuards := db.content.appendGuards - {key}) else db.content,
      marks := if MarkPage in fired && SearchColumnsDiffer(o, n) then Marked(db.marks, key, 1) else db.marks)
  }

  // An audit that a pending guard of this Page names is in no row of the log it names: the rows of
  // other Pages name audits of other Pages, and this Page's rows are older.
  lemma UnusedOccAudit(h: Hist, key: PageKey)
    requires HistoryInv(h) && key in h.occGuards && h.occGuards[key].at > h.pages[key].updatedAt
    ensures OccAuditFree(h, h.occGuards[key].actor)
  {
    var g := h.occGuards[key];
    hide LedgerOk, LogsOf;
    if g.actor.Master? {
      HistoryKept.LedgerAt(h, key);
      OccGuardAudit(LedgerOf(h, key), key, h.audits);
      forall k, i | k in h.occEvents && 0 <= i < |h.occEvents[k]| ensures h.occEvents[k][i].actor != g.actor {
        HistoryKept.LedgerAt(h, k);
        OccRowAudit(LedgerOf(h, k), k, h.audits, i);
      }
    }
  }

  lemma OccGuardAudit(l: Ledger, key: PageKey, audits: map<Id, Audit>)
    requires LedgerOk(l, key, audits) && l.occGuard.Some? && l.occGuard.value.actor.Master?
    ensures AuditIs(audits, l.occGuard.value.actor.audit, OccurrenceCorrect, key, l.occGuard.value.at)
  {
    hide LogsOk, PageCheck, LifeGuardOk, MoveGuardOk, OccCheck;
  }

  lemma OccRowAudit(l: Ledger, key: PageKey, audits: map<Id, Audit>, i: nat)
    requires LedgerOk(l, key, audits) && i < |l.logs.occ|
    ensures l.logs.occ[i].at <= l.page.updatedAt
    ensures l.logs.occ[i].actor.Master? ==> AuditIs(audits, l.logs.occ[i].actor.audit, OccurrenceCorrect, key, l.logs.occ[i].at)
  {
    hide GuardsOk, PageCheck, LifeLogOk, MoveLogOk, TitleLogOk, StrictlyIncreasing;
  }

  lemma UnusedMoveAudit(h: Hist, key: PageKey)
    requires HistoryInv(h) && key in h.moveGuards && h.moveGuards[key].at > h.pages[key].updatedAt
    ensures !MoveAuditUsed(h, h.moveGuards[key].audit)
  {
    var g := h.moveGuards[key];
    hide LedgerOk, LogsOf;
    HistoryKept.LedgerAt(h, key);
    MoveGuardAudit(LedgerOf(h, key), key, h.audits);
    forall k, i | k in h.moveEvents && 0 <= i < |h.moveEvents[k]| ensures h.moveEvents[k][i].audit != g.audit {
      HistoryKept.LedgerAt(h, k);
      MoveRowAudit(LedgerOf(h, k), k, h.audits, i);
    }
  }

  lemma MoveGuardAudit(l: Ledger, key: PageKey, audits: map<Id, Audit>)
    requires LedgerOk(l, key, audits) && l.moveGuard.Some?
    ensures AuditIs(audits, l.moveGuard.value.audit, PageMove, key, l.moveGuard.value.at)
  {
    hide LogsOk, PageCheck, LifeGuardOk, OccGuardOk, MoveCheck;
  }

  lemma MoveRowAudit(l: Ledger, key: PageKey, audits: map<Id, Audit>, i: nat)
    requires LedgerOk(l, key, audits) && i < |l.logs.move|
    ensures l.logs.move[i].at <= l.page.updatedAt
    ensures AuditIs(audits, l.logs.move[i].audit, PageMove, key, l.logs.move[i].at)
  {
    hide GuardsOk, PageCheck, LifeLogOk, OccLogOk, TitleLogOk, StrictlyIncreasing;
  }

  // ---- each trigger, after any others ----

  // What a pending guard promises the trigger that consumes it.
  lemma OccurrenceRecorded(h: Hist, key: PageKey, o: Page, n: Page)
    requires HistoryInv(h) && key in h.pages && o == h.pages[key] && BigPositive(o.current.number)
    requires OccurrenceGuarded(h, key, o, n) && n.occurredAt != o.occurredAt
    ensures var g := h.occGuards[key];
            && OccRow(o, n, g) == NewOccEvent(o, g) && OccMatches(NewOccEvent(o, g), g) && OccPostState(n, NewOccEvent(o, g))
            && OccCheck(g.sequence, g.oldOccurred, g.newOccurred, g.at)
            && g.sequence !in OccSequences(Rows(h.occEvents, key))
            && OccAuditFree(h, g.actor)
  {
    UnusedOccAudit(h, key);
    HistoryKept.PendingOccGuard(h, key);
    HistoryKept.LedgerAt(h, key);
    OccGuardChecked(LedgerOf(h, key), key, h.audits);
    hide HistoryInv, LedgerOk, OccCheck, OccAuditFree;
  }

  lemma OccGuardChecked(l: Ledger, key: PageKey, audits: map<Id, Audit>)
    requires LedgerOk(l, key, audits) && l.occGuard.Some?
    ensures var g := l.occGuard.value; OccCheck(g.sequence, g.oldOccurred, g.newOccurred, g.at)
  {
    hide LogsOk, PageCheck, LifeGuardOk, MoveGuardOk, OccCheck;
  }

  lemma BothAccepted(db: Db, s: Stmt, u: Stmt)
    requires IsHistoryStmt(s) && IsHistoryStmt(u)
    requires AcceptsHistory(db.hist, db.content, s) && AcceptsHistory(ApplyHistory(db.hist, s), db.content, u)
    ensures Then(Nested(db, s), u) == Some(db.(hist := ApplyHistory(ApplyHistory(db.hist, s), u)))
  {
    hide AcceptsHistory, ApplyHistory;
  }

  lemma OccurrenceConsumed(h: Hist, c: Content, key: PageKey, e: OccEvent)
    requires key in h.pages && key in h.occGuards && OccMatches(e, h.occGuards[key]) && OccPostState(h.pages[key], e)
    requires OccCheck(e.sequence, e.oldOccurred, e.newOccurred, e.at) && BigPositive(e.atRevision)
    requires e.sequence !in OccSequences(Rows(h.occEvents, key)) && OccAuditFree(h, e.actor)
    ensures AcceptsHistory(h, c, InsertOccEvent(key, e))
    ensures AcceptsHistory(ApplyHistory(h, InsertOccEvent(key, e)), c, DeleteOccGuard(key))
  {
    hide OccCheck, OccAuditFree;
    var log := Rows(ApplyHistory(h, InsertOccEvent(key, e)).occEvents, key);
    assert log[|log| - 1] == e;
  }

  lemma OccPartly(h: Hist, key: PageKey, o: Page, n: Page, titleRow: Option<TitleEvent>, fired: set<PageTrigger>)
    requires RecordOccurrence !in fired && n.occurredAt != o.occurredAt && key in h.occGuards
    ensures ApplyHistory(ApplyHistory(HistPartly(h, key, o, n, titleRow, fired), InsertOccEvent(key, NewOccEvent(o, h.occGuards[key]))), DeleteOccGuard(key))
         == HistPartly(h, key, o, n, titleRow, fired + {RecordOccurrence})
    ensures var d := HistPartly(h, key, o, n, titleRow, fired);
            && d.occEvents == h.occEvents && d.occGuards == h.occGuards && key in d.pages && d.pages[key] == n
  {
  }

  lemma OccurrenceFires(db: Db, key: PageKey, o: Page, n: Page, fired: set<PageTrigger>)
    requires HistoryInv(db.hist) && key in db.hist.pages && o == db.hist.pages[key] && BigPositive(o.current.number)
    requires OccurrenceGuarded(db.hist, key, o, n) && RecordOccurrence !in fired
    ensures FirePage(PagePartly(db, key, o, n, fired), key, o, n, RecordOccurrence)
         == Some(PagePartly(db, key, o, n, fired + {RecordOccurrence}))
  {
    hide HistoryInv, TitleRow, AcceptsHistory, Nested, Then, ApplyHistory;
    if n.occurredAt != o.occurredAt {
      OccurrenceRecorded(db.hist, key, o, n);
      var d := PagePartly(db, key, o, n, fired);
      var e := NewOccEvent(o, db.hist.occGuards[key]);
      OccPartly(db.hist, key, o, n, TitleRow(db.hist, key, o, n), fired);
      OccurrenceConsumed(d.hist, d.content, key, e);
      BothAccepted(d, InsertOccEvent(key, e), DeleteOccGuard(key));
      hide OccAuditFree, OccCheck, OccSequences, OccurrenceGuarded, HistPartly;
    }
  }

  lemma LifecycleRecorded(h: Hist, key: PageKey, o: Page, n: Page)
    requires HistoryInv(h) && key in h.pages && o == h.pages[key]
    requires LifecycleGuarded(h, key, o, n) && n.deletedAt != o.deletedAt
    ensures var g := h.lifeGuards[key];
            && LifeRow(o, n, g) == g && LifePostState(n, g) && LifeCheck(g)
            && g.sequence !in LifeSequences(Rows(h.lifeEvents, key))
  {
    HistoryKept.PendingLifeGuard(h, key);
    HistoryKept.LedgerAt(h, key);
    LifeGuardChecked(LedgerOf(h, key), key, h.audits);
    hide HistoryInv, LedgerOk, LifeCheck;
  }

  lemma LifeGuardChecked(l: Ledger, key: PageKey, audits: map<Id, Audit>)
    requires LedgerOk(l, key, audits) && l.lifeGuard.Some?
    ensures LifeCheck(l.lifeGuard.value)
  {
    hide LogsOk, PageCheck, OccGuardOk, MoveGuardOk, LifeCheck;
  }

  lemma LifecycleConsumed(h: Hist, c: Content, key: PageKey, e: LifeEvent)
    requires key in h.pages && key in h.lifeGuards && h.lifeGuards[key] == e && LifePostState(h.pages[key], e)
    requires LifeCheck(e) && e.sequence !in LifeSequences(Rows(h.lifeEvents, key))
    ensures AcceptsHistory(h, c, InsertLifeEvent(key, e))
    ensures AcceptsHistory(ApplyHistory(h, InsertLifeEvent(key, e)), c, DeleteLifeGuard(key))
  {
    hide LifeCheck;
    var log := Rows(ApplyHistory(h, InsertLifeEvent(key, e)).lifeEvents, key);
    assert log[|log| - 1] == e;
  }

  lemma LifePartly(h: Hist, key: PageKey, o: Page, n: Page, titleRow: Option<TitleEvent>, fired: set<PageTrigger>)
    requires RecordLifecycle !in fired && n.deletedAt != o.deletedAt && key in h.lifeGuards
    ensures ApplyHistory(ApplyHistory(HistPartly(h, key, o, n, titleRow, fired), InsertLifeEvent(key, h.lifeGuards[key])), DeleteLifeGuard(key))
         == HistPartly(h, key, o, n, titleRow, fired + {RecordLifecycle})
    ensures var d := HistPartly(h, key, o, n, titleRow, fired);
            && d.lifeEvents == h.lifeEvents && d.lifeGuards == h.lifeGuards && key in d.pages && d.pages[key] == n
  {
  }

  lemma LifecycleFires(db: Db, key: PageKey, o: Page, n: Page, fired: set<PageTrigger>)
    requires HistoryInv(db.hist) && key in db.hist.pages && o == db.hist.pages[key]
    requires LifecycleGuarded(db.hist, key, o, n) && RecordLifecycle !in fired
    ensures FirePage(PagePartly(db, key, o, n, fired), key, o, n, RecordLifecycle)
         == Some(PagePartly(db, key, o, n, fired + {RecordLifecycle}))
  {
    hide HistoryInv, TitleRow, AcceptsHistory, Nested, Then, ApplyHistory;
    if n.deletedAt != o.deletedAt {
      LifecycleRecorded(db.hist, key, o, n);
      var d := PagePartly(db, key, o, n, fired);
      var e := db.hist.lifeGuards[key];
      LifePartly(db.hist, key, o, n, TitleRow(db.hist, key, o, n), fired);
      LifecycleConsumed(d.hist, d.content, key, e);
      BothAccepted(d, InsertLifeEvent(key, e), DeleteLifeGuard(key));
      hide LifeCheck, LifeSequences, LifecycleGuarded, HistPartly;
    }
  }

  lemma MoveRecorded(h: Hist, key: PageKey, o: Page, n: Page)
    requires HistoryInv(h) && key in h.pages && o == h.pages[key]
    requires MoveGuarded(h, key, o, n) && !SameSection(o, n)
    ensures var g := h.moveGuards[key];
            && MovePostState(n, g) && MoveCheck(g)
            && g.sequence !in MoveSequences(Rows(h.moveEvents, key))
            && !MoveAuditUsed(h, g.audit)
  {
    HistoryKept.PendingMoveGuard(h, key);
    HistoryKept.LedgerAt(h, key);
    MoveGuardChecked(LedgerOf(h, key), key, h.audits);
    UnusedMoveAudit(h, key);
    hide HistoryInv, LedgerOk, MoveCheck, MoveAuditUsed;
  }

  lemma MoveGuardChecked(l: Ledger, key: PageKey, audits: map<Id, Audit>)
    requires LedgerOk(l, key, audits) && l.moveGuard.Some?
    ensures MoveCheck(l.moveGuard.value) && l.moveGuard.value.at > l.moveGuard.value.oldUpdatedAt
  {
    hide LogsOk, PageCheck, OccGuardOk, LifeGuardOk;
  }

  lemma MoveConsumed(h: Hist, c: Content, key: PageKey, e: MoveEvent)
    requires key in h.pages && key in h.moveGuards && h.moveGuards[key] == e && MovePostState(h.pages[key], e)
    requires MoveCheck(e) && e.sequence !in MoveSequences(Rows(h.moveEvents, key)) && !MoveAuditUsed(h, e.audit)
    requires RevKey(key, e.atRevision) in c.revisions
    ensures AcceptsHistory(h, c, InsertMoveEvent(key, e))
    ensures AcceptsHistory(ApplyHistory(h, InsertMoveEvent(key, e)), c, DeleteMoveGuard(key))
  {
    hide MoveCheck, MoveAuditUsed;
    var log := Rows(ApplyHistory(h, InsertMoveEvent(key, e)).moveEvents, key);
    assert log[|log| - 1] == e;
  }

  lemma MovePartly(h: Hist, key: PageKey, o: Page, n: Page, titleRow: Option<TitleEvent>, fired: set<PageTrigger>)
    requires RecordMove !in fired && !SameSection(o, n) && key in h.moveGuards
    ensures ApplyHistory(ApplyHistory(HistPartly(h, key, o, n, titleRow, fired), InsertMoveEvent(key, h.moveGuards[key])), DeleteMoveGuard(key))
         == HistPartly(h, key, o, n, titleRow, fired + {RecordMove})
    ensures var d := HistPartly(h, key, o, n, titleRow, fired);
            && d.moveEvents == h.moveEvents && d.moveGuards == h.moveGuards && key in d.pages && d.pages[key] == n
  {
  }

  lemma MoveFires(db: Db, key: PageKey, o: Page, n: Page, fired: set<PageTrigger>)
    requires HistoryInv(db.hist) && key in db.hist.pages && o == db.hist.pages[key]
    requires MovesInv(db.hist.moveGuards, db.content.revisions)
    requires MoveGuarded(db.hist, key, o, n) && RecordMove !in fired
    ensures FirePage(PagePartly(db, key, o, n, fired), key, o, n, RecordMove)
         == Some(PagePartly(db, key, o, n, fired + {RecordMove}))
  {
    hide HistoryInv, TitleRow, AcceptsHistory, Nested, Then, ApplyHistory;
    if !SameSection(o, n) {
      MoveRecorded(db.hist, key, o, n);
      var d := PagePartly(db, key, o, n, fired);
      var e := db.hist.moveGuards[key];
      MovePartly(db.hist, key, o, n, TitleRow(db.hist, key, o, n), fired);
      MoveConsumed(d.hist, d.content, key, e);
      BothAccepted(d, InsertMoveEvent(key, e), DeleteMoveGuard(key));
      hide MoveCheck, MoveSequences, MoveAuditUsed, MoveGuarded, HistPartly;
    }
  }

  lemma SameTitleRow(h: Hist, d: Hist, key: PageKey, o: Page, n: Page)
    requires d.titleEvents == h.titleEvents && d.audits == h.audits
    ensures TitleRow(d, key, o, n) == TitleRow(h, key, o, n)
  {
    assert forall id :: TitleAuditUsed(d, id) <==> TitleAuditUsed(h, id);
    assert UnusedTitleAudits(d, key, n.updatedAt) == UnusedTitleAudits(h, key, n.updatedAt);
  }

  lemma TitleFits(h: Hist, key: PageKey, o: Page, n: Page)
    requires TitleAudited(h, key, o, n) && n.title != o.title
    requires key in h.pages && h.pages[key] == n
    ensures TitleRow(h, key, o, n).Some? && AcceptsTitleEvent(h, key, TitleRow(h, key, o, n).value)
  {
    hide TitleCheck;
  }

  lemma TitleUnfired(h: Hist, key: PageKey, o: Page, n: Page, titleRow: Option<TitleEvent>, fired: set<PageTrigger>)
    requires RecordTitle !in fired
    ensures var d := HistPartly(h, key, o, n, titleRow, fired);
            d.titleEvents == h.titleEvents && d.audits == h.audits && key in d.pages && d.pages[key] == n
  {
    hide Logging;
  }

  lemma TitlePartly(h: Hist, key: PageKey, o: Page, n: Page, titleRow: Option<TitleEvent>, fired: set<PageTrigger>)
    requires RecordTitle !in fired
    ensures var d := HistPartly(h, key, o, n, titleRow, fired);
            HistPartly(h, key, o, n, titleRow, fired + {RecordTitle})
            == d.(titleEvents := if n.title != o.title && titleRow.Some?
                                 then Appended(h.titleEvents, key, titleRow.value) else h.titleEvents)
  {
    hide Logging, Appended;
  }

  lemma TitleFires(db: Db, key: PageKey, o: Page, n: Page, fired: set<PageTrigger>)
    requires key in db.hist.pages && o == db.hist.pages[key]
    requires TitleAudited(db.hist, key, o, n) && RecordTitle !in fired
    ensures FirePage(PagePartly(db, key, o, n, fired), key, o, n, RecordTitle)
         == Some(PagePartly(db, key, o, n, fired + {RecordTitle}))
  {
    hide HistPartly, TitleRow;
    var d := PagePartly(db, key, o, n, fired);
    TitleUnfired(db.hist, key, o, n, TitleRow(db.hist, key, o, n), fired);
    TitlePartly(db.hist, key, o, n, TitleRow(db.hist, key, o, n), fired);
    SameTitleRow(db.hist, d.hist, key, o, n);
    if n.title != o.title {
      assert TitleAudited(d.hist, key, o, n);
      TitleFits(d.hist, key, o, n);
    }
    hide TitleAudited, AcceptsTitleEvent;
  }

  lemma ClearFires(db: Db, key: PageKey, o: Page, n: Page, fired: set<PageTrigger>)
    requires key in db.hist.pages && o == db.hist.pages[key]
    requires PointerAdvances(db.content.appendGuards, key, o, n) && ClearAppendGuard !in fired
    ensures FirePage(PagePartly(db, key, o, n, fired), key, o, n, ClearAppendGuard)
         == Some(PagePartly(db, key, o, n, fired + {ClearAppendGuard}))
  {
    hide TitleRow, HistPartly, SearchColumnsDiffer, Marked;
    var titleRow := TitleRow(db.hist, key, o, n);
    SameHistPartly(db.hist, key, o, n, titleRow, fired, ClearAppendGuard);
  }

  // The dirty mark and the append guard are outside the history tables.
  lemma SameHistPartly(h: Hist, key: PageKey, o: Page, n: Page, titleRow: Option<TitleEvent>, fired: set<PageTrigger>, t: PageTrigger)
    requires t == ClearAppendGuard || t == MarkPage
    ensures HistPartly(h, key, o, n, titleRow, fired + {t}) == HistPartly(h, key, o, n, titleRow, fired)
    ensures HistPartly(h, key, o, n, titleRow, fired).pages == h.pages[key := n]
  {
  }

  lemma MarkFires(db: Db, key: PageKey, o: Page, n: Page, fired: set<PageTrigger>)
    requires MarkPage !in fired
    ensures FirePage(PagePartly(db, key, o, n, fired), key, o, n, MarkPage) == Some(PagePartly(db, key, o, n, fired + {MarkPage}))
  {
    hide TitleRow, Marked, HistPartly;
    SameHistPartly(db.hist, key, o, n, TitleRow(db.hist, key, o, n), fired, MarkPage);
  }

  lemma PageTriggerFires(db: Db, key: PageKey, n: Page, fired: set<PageTrigger>, t: PageTrigger)
    requires Inv(db) && key in db.hist.pages && AcceptsPageUpdate(db, key, key, n) && t !in fired
    ensures FirePage(PagePartly(db, key, db.hist.pages[key], n, fired), key, db.hist.pages[key], n, t)
         == Some(PagePartly(db, key, db.hist.pages[key], n, fired + {t}))
  {
    var o := db.hist.pages[key];
    assert BigPositive(o.current.number) by {
      hide HistoryInv, SealsInv, DirtyInv, MovesInv, HistoryAllows;
      assert RevisionsOk(db.content, key, o.current);
    }
    hide HistoryInv, RevisionsInv, SealsInv, DirtyInv, MovesInv, FirePage, PagePartly;
    hide OccurrenceGuarded, LifecycleGuarded, MoveGuarded, TitleAudited, PointerAdvances, PageCheck;
    match t
    case RecordOccurrence => OccurrenceFires(db, key, o, n, fired);
    case RecordLifecycle => LifecycleFires(db, key, o, n, fired);
    case RecordMove => MoveFires(db, key, o, n, fired);
    case RecordTitle => TitleFires(db, key, o, n, fired);
    case ClearAppendGuard => ClearFires(db, key, o, n, fired);
    case MarkPage => MarkFires(db, key, o, n, fired);
  }

  lemma {:induction false} PageTriggersFire(db: Db, key: PageKey, n: Page, order: seq<PageTrigger>)
    requires Inv(db) && key in db.hist.pages && AcceptsPageUpdate(db, key, key, n) && NoneTwice(order)
    ensures FirePages(PageWritten(db, key, n), key, db.hist.pages[key], n, order)
         == Some(PagePartly(db, key, db.hist.pages[key], n, SetOf(order)))
  {
    hide Inv, AcceptsPageUpdate, FirePage;
    if order == [] {
      hide TitleRow;
    } else {
      hide PagePartly, PageWritten;
      OneMore(order);
      PageTriggersFire(db, key, n, order[..|order| - 1]);
      PageTriggerFires(db, key, n, SetOf(order[..|order| - 1]), order[|order| - 1]);
      hide NoneTwice, SetOf;
    }
  }

  // Whatever the order of its triggers, an accepted UPDATE of a Page leaves the same tables behind,
  // and no statement inside a trigger is ever refused.
  lemma AnyOrderOfPageTriggers(db: Db, key: PageKey, n: Page, order: seq<PageTrigger>)
    requires Inv(db) && key in db.hist.pages && AcceptsPageUpdate(db, key, key, n) && FiringOrder(order, PAGE_TRIGGERS)
    ensures FirePages(PageWritten(db, key, n), key, db.hist.pages[key], n, order) == Some(AfterPageUpdate(db, key, n))
  {
    hide Inv, AcceptsPageUpdate, TitleRow;
    PageTriggersFire(db, key, n, order);
  }
}
