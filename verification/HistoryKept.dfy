// Every statement keeps the history invariant.
module HistoryKept {
  import opened Common
  import opened Tables
  import opened Statements
  import opened History
  import opened Invariants

  // ---- sequence numbers ----

  ghost predicate Numbered(sequences: seq<int>) {
    forall i :: 0 <= i < |sequences| ==> sequences[i] == i + 1
  }

  lemma {:induction false} MaxOfNumbered(s: seq<int>)
    requires Numbered(s)
    ensures MaxOrZero(s) == |s| && NextSequence(s) == |s| + 1
  {
    if |s| > 1 {
      MaxOfNumbered(s[..|s| - 1]);
    }
  }

  // SQL's next sequence number is the length of the log plus one, and no row has it yet.
  lemma NextSequences(l: Ledger, key: PageKey, audits: map<Id, Audit>)
    requires LogsOk(l.logs, l.page, key, audits)
    ensures NextSequence(OccSequences(l.logs.occ)) == |l.logs.occ| + 1 && |l.logs.occ| + 1 !in OccSequences(l.logs.occ)
    ensures NextSequence(LifeSequences(l.logs.life)) == |l.logs.life| + 1 && |l.logs.life| + 1 !in LifeSequences(l.logs.life)
    ensures NextSequence(MoveSequences(l.logs.move)) == |l.logs.move| + 1 && |l.logs.move| + 1 !in MoveSequences(l.logs.move)
    ensures NextSequence(TitleSequences(l.logs.title)) == |l.logs.title| + 1 && |l.logs.title| + 1 !in TitleSequences(l.logs.title)
  {
    MaxOfNumbered(OccSequences(l.logs.occ));
    MaxOfNumbered(LifeSequences(l.logs.life));
    MaxOfNumbered(MoveSequences(l.logs.move));
    MaxOfNumbered(TitleSequences(l.logs.title));
  }

  // ---- one UPDATE of a Page logs at most one entry ----

  // The entry an accepted UPDATE adds to the logs of its Page.
  function Logged(h: Hist, key: PageKey, o: Page, n: Page, titleRow: Option<TitleEvent>): Option<Entry> {
    if n.occurredAt != o.occurredAt && key in h.occGuards then Some(OccEntry(NewOccEvent(o, h.occGuards[key])))
    else if n.deletedAt != o.deletedAt && key in h.lifeGuards then Some(LifeEntry(h.lifeGuards[key]))
    else if n.title != o.title && titleRow.Some? then Some(TitleEntry(titleRow.value))
    else if !SameSection(o, n) && key in h.moveGuards then Some(MoveEntry(h.moveGuards[key]))
    else None
  }

  ghost predicate LogsGrowBy(before: Logs, after: Logs, e: Option<Entry>) {
    after == match e case None => before case Some(e) => WithEntry(before, e)
  }

  // Of section and book, title, declared time and deletion an UPDATE changes at most one, and only
  // with its guard (or its audit) in place.
  ghost predicate OneChange(h: Hist, key: PageKey, o: Page, n: Page, titleRow: Option<TitleEvent>) {
    && (n.occurredAt != o.occurredAt ==>
          key in h.occGuards && n.deletedAt == o.deletedAt && n.title == o.title && SameSection(o, n))
    && (n.deletedAt != o.deletedAt ==>
          key in h.lifeGuards && LifePreState(o, h.lifeGuards[key]) && n.title == o.title && SameSection(o, n))
    && (n.deletedAt != o.deletedAt || o.deletedAt.Some? ==> n.occurredAt == o.occurredAt && n.current == o.current)
    && (n.title != o.title ==> titleRow.Some? && SameSection(o, n))
    && (!SameSection(o, n) ==> key in h.moveGuards)
  }

  // An accepted UPDATE adds at most one entry, later than every other, that replays its change.
  lemma UpdateIsLogged(h: Hist, key: PageKey, n: Page, titleRow: Option<TitleEvent>)
    requires key in h.pages && HistoryAllows(h, key, h.pages[key], n) && titleRow == TitleRow(h, key, h.pages[key], n)
    requires GuardsOk(LedgerOf(h, key), key, h.audits)
    ensures OneChange(h, key, h.pages[key], n, titleRow)
    ensures var o, e := h.pages[key], Logged(h, key, h.pages[key], n, titleRow);
            match e
            case None => ShownOf(n) == ShownOf(o)
            case Some(e) => At(e) == n.updatedAt > o.updatedAt && Step(ShownOf(o), e) == Some(ShownOf(n))
  {
  }

  lemma UpdateAppends(h: Hist, key: PageKey, n: Page, titleRow: Option<TitleEvent>)
    requires key in h.pages && OneChange(h, key, h.pages[key], n, titleRow)
    ensures LogsGrowBy(LogsOf(h, key), LogsOf(HistoryAfter(h, key, h.pages[key], n, titleRow), key), Logged(h, key, h.pages[key], n, titleRow))
  {
  }

  // What an accepted UPDATE does to the logs of its Page.
  ghost predicate LoggedAs(h: Hist, key: PageKey, n: Page, titleRow: Option<TitleEvent>, e: Option<Entry>)
    requires key in h.pages
  {
    var o, logs := h.pages[key], LogsOf(h, key);
    && AllBefore(logs, o.updatedAt + 1) && n.updatedAt >= o.updatedAt
    && LogsGrowBy(logs, LogsOf(HistoryAfter(h, key, o, n, titleRow), key), e)
    && match e
       case None => ShownOf(n) == ShownOf(o)
       case Some(f) => At(f) == n.updatedAt > o.updatedAt && Step(ShownOf(o), f) == Some(ShownOf(n))
  }

  lemma UpdateLogs(h: Hist, key: PageKey, n: Page, titleRow: Option<TitleEvent>)
    requires key in h.pages && HistoryAllows(h, key, h.pages[key], n) && titleRow == TitleRow(h, key, h.pages[key], n)
    requires LedgerOk(LedgerOf(h, key), key, h.audits)
    ensures LoggedAs(h, key, n, titleRow, Logged(h, key, h.pages[key], n, titleRow))
  {
    UpdateIsLogged(h, key, n, titleRow);
    UpdateAppends(h, key, n, titleRow);
    assert n.updatedAt >= h.pages[key].updatedAt by {
      hide TitleAudited, OccurrenceGuarded, LifecycleGuarded, MoveGuarded, PageCheck, LedgerOk, GuardsOk;
    }
    hide Logged, HistoryAfter, HistoryAllows, GuardsOk, OccLogOk, LifeLogOk, MoveLogOk, TitleLogOk, OneChange, PageCheck;
    assert LogsOk(LogsOf(h, key), h.pages[key], key, h.audits);
  }

  // ---- the history invariant is kept ----

  // What an entry must be for its log to stay numbered, audited and alternating.
  ghost predicate EntryFits(e: Entry, l: Ledger, key: PageKey, audits: map<Id, Audit>) {
    match e
    case OccEntry(o) => o.sequence == |l.logs.occ| + 1 && (o.actor.Master? ==> AuditIs(audits, o.actor.audit, OccurrenceCorrect, key, o.at))
    case LifeEntry(f) => f.sequence == |l.logs.life| + 1 && (f.action == Delete <==> l.page.deletedAt.None?) && LifePreState(l.page, f)
    case MoveEntry(m) => m.sequence == |l.logs.move| + 1 && AuditIs(audits, m.audit, PageMove, key, m.at)
    case TitleEntry(t) => t.sequence == |l.logs.title| + 1 && AuditIs(audits, t.audit, TitleEdit, key, t.at)
  }

  lemma IncreasingSnoc(entries: seq<Entry>, e: Entry)
    requires StrictlyIncreasing(entries)
    requires forall i :: 0 <= i < |entries| ==> At(entries[i]) < At(e)
    ensures StrictlyIncreasing(entries + [e])
  {
  }

  lemma LaterBound(logs: Logs, e: Entry)
    requires AllBefore(logs, At(e))
    ensures AllBefore(WithEntry(logs, e), At(e) + 1)
  {
  }

  lemma TimesExtend(logs: Logs, e: Entry, before: Time)
    requires TimesOk(logs, before) && before < At(e)
    ensures TimesOk(WithEntry(logs, e), At(e))
  {
    MergeLatest(logs, e);
    MergeBound(logs, At(e));
    IncreasingSnoc(Merge(logs), e);
    LaterBound(logs, e);
  }

  lemma OccSnoc(log: seq<OccEvent>, o: OccEvent, key: PageKey, audits: map<Id, Audit>)
    requires OccLogOk(log, key, audits) && o.sequence == |log| + 1
    requires o.actor.Master? ==> AuditIs(audits, o.actor.audit, OccurrenceCorrect, key, o.at)
    ensures OccLogOk(log + [o], key, audits)
  {
  }

  lemma LifeSnoc(log: seq<LifeEvent>, f: LifeEvent, o: Page, n: Page)
    requires LifeLogOk(log, o) && f.sequence == |log| + 1 && (f.action == Delete <==> o.deletedAt.None?)
    requires LifePreState(o, f) && Step(ShownOf(o), LifeEntry(f)) == Some(ShownOf(n)) && n.current == o.current
    ensures LifeLogOk(log + [f], n)
  {
  }

  lemma MoveSnoc(log: seq<MoveEvent>, m: MoveEvent, key: PageKey, audits: map<Id, Audit>)
    requires MoveLogOk(log, key, audits) && m.sequence == |log| + 1 && AuditIs(audits, m.audit, PageMove, key, m.at)
    ensures MoveLogOk(log + [m], key, audits)
  {
  }

  lemma TitleSnoc(log: seq<TitleEvent>, t: TitleEvent, key: PageKey, audits: map<Id, Audit>)
    requires TitleLogOk(log, key, audits) && t.sequence == |log| + 1 && AuditIs(audits, t.audit, TitleEdit, key, t.at)
    ensures TitleLogOk(log + [t], key, audits)
  {
  }

  lemma LogsGrow(l: Ledger, m: Ledger, e: Entry, key: PageKey, audits: map<Id, Audit>)
    requires LogsOk(l.logs, l.page, key, audits) && EntryFits(e, l, key, audits)
    requires m.logs == WithEntry(l.logs, e) && At(e) == m.page.updatedAt > l.page.updatedAt
    requires Step(ShownOf(l.page), e) == Some(ShownOf(m.page))
    requires e.LifeEntry? ==> m.page.current == l.page.current
    ensures LogsOk(m.logs, m.page, key, audits)
  {
    TimesExtend(l.logs, e, l.page.updatedAt);
    hide TimesOk;
    match e
    case OccEntry(o) => OccSnoc(l.logs.occ, o, key, audits);
    case LifeEntry(f) => LifeSnoc(l.logs.life, f, l.page, m.page);
    case MoveEntry(v) => MoveSnoc(l.logs.move, v, key, audits);
    case TitleEntry(t) => TitleSnoc(l.logs.title, t, key, audits);
  }

  lemma TitleRowFits(h: Hist, key: PageKey, n: Page)
    requires key in h.pages && LogsOk(LogsOf(h, key), h.pages[key], key, h.audits)
    requires TitleRow(h, key, h.pages[key], n).Some?
    ensures EntryFits(TitleEntry(TitleRow(h, key, h.pages[key], n).value), LedgerOf(h, key), key, h.audits)
  {
    NextSequences(LedgerOf(h, key), key, h.audits);
  }

  lemma LoggedFits(h: Hist, key: PageKey, n: Page, titleRow: Option<TitleEvent>)
    requires key in h.pages && OneChange(h, key, h.pages[key], n, titleRow)
    requires GuardsOk(LedgerOf(h, key), key, h.audits)
    requires titleRow.Some? ==> EntryFits(TitleEntry(titleRow.value), LedgerOf(h, key), key, h.audits)
    ensures var e := Logged(h, key, h.pages[key], n, titleRow);
            e.Some? ==> EntryFits(e.value, LedgerOf(h, key), key, h.audits)
  {
  }

  lemma SameLogsLaterPage(l: Ledger, m: Ledger, key: PageKey, audits: map<Id, Audit>)
    requires LogsOk(l.logs, l.page, key, audits)
    requires m.logs == l.logs && m.page.updatedAt >= l.page.updatedAt && ShownOf(m.page) == ShownOf(l.page)
    requires l.page.deletedAt.Some? ==> m.page.current == l.page.current
    ensures LogsOk(m.logs, m.page, key, audits)
  {
  }

  lemma UpdateKeepsLogs(h: Hist, key: PageKey, n: Page, titleRow: Option<TitleEvent>)
    requires key in h.pages && HistoryAllows(h, key, h.pages[key], n) && titleRow == TitleRow(h, key, h.pages[key], n)
    requires LedgerOk(LedgerOf(h, key), key, h.audits)
    ensures OneChange(h, key, h.pages[key], n, titleRow)
    ensures LogsOk(LogsOf(HistoryAfter(h, key, h.pages[key], n, titleRow), key), n, key, h.audits)
  {
    UpdateIsLogged(h, key, n, titleRow);
    UpdateAppends(h, key, n, titleRow);
    if titleRow.Some? {
      TitleRowFits(h, key, n);
    }
    LoggedFits(h, key, n, titleRow);
    LoggedKeepsLogs(h, key, n, titleRow);
  }

  // The same, from what the lemmas above say about the update.
  lemma LoggedKeepsLogs(h: Hist, key: PageKey, n: Page, titleRow: Option<TitleEvent>)
    requires key in h.pages && n.updatedAt >= h.pages[key].updatedAt && OneChange(h, key, h.pages[key], n, titleRow)
    requires LogsOk(LogsOf(h, key), h.pages[key], key, h.audits)
    requires LogsGrowBy(LogsOf(h, key), LogsOf(HistoryAfter(h, key, h.pages[key], n, titleRow), key), Logged(h, key, h.pages[key], n, titleRow))
    requires match Logged(h, key, h.pages[key], n, titleRow)
             case None => ShownOf(n) == ShownOf(h.pages[key])
             case Some(e) => && At(e) == n.updatedAt > h.pages[key].updatedAt
                             && Step(ShownOf(h.pages[key]), e) == Some(ShownOf(n))
                             && EntryFits(e, LedgerOf(h, key), key, h.audits)
    ensures LogsOk(LogsOf(HistoryAfter(h, key, h.pages[key], n, titleRow), key), n, key, h.audits)
  {
    var l, m := LedgerOf(h, key), LedgerOf(HistoryAfter(h, key, h.pages[key], n, titleRow), key);
    match Logged(h, key, h.pages[key], n, titleRow)
    case None => SameLogsLaterPage(l, m, key, h.audits);
    case Some(e) => LogsGrow(l, m, e, key, h.audits);
  }

  lemma UpdateKeepsGuards(h: Hist, key: PageKey, n: Page, titleRow: Option<TitleEvent>)
    requires key in h.pages && OneChange(h, key, h.pages[key], n, titleRow)
    requires GuardsOk(LedgerOf(h, key), key, h.audits)
    ensures GuardsOk(LedgerOf(HistoryAfter(h, key, h.pages[key], n, titleRow), key), key, h.audits)
  {
  }

  // ---- frames ----

  ghost predicate SameLedgersBut(h: Hist, d: Hist, key: PageKey) {
    && (forall k :: k in d.pages && k != key ==> k in h.pages && LedgerOf(d, k) == LedgerOf(h, k))
    && (forall id :: id in h.audits ==> id in d.audits && d.audits[id] == h.audits[id])
  }

  lemma AuditsGrow(l: Ledger, key: PageKey, before: map<Id, Audit>, after: map<Id, Audit>)
    requires LedgerOk(l, key, before)
    requires forall id :: id in before ==> id in after && after[id] == before[id]
    ensures LedgerOk(l, key, after)
  {
  }

  lemma OneLedgerChanges(h: Hist, d: Hist, key: PageKey)
    requires HistoryInv(h) && SameLedgersBut(h, d, key) && NoOrphans(d)
    requires key in d.pages ==> LedgerOk(LedgerOf(d, key), key, d.audits)
    ensures HistoryInv(d)
  {
    hide LedgerOk, LogsOf;
    forall k | k in d.pages ensures LedgerOk(LedgerOf(d, k), k, d.audits) {
      if k != key {
        AuditsGrow(LedgerOf(h, k), k, h.audits, d.audits);
      }
    }
  }

  // ---- statement by statement ----

  lemma LedgerAt(h: Hist, key: PageKey)
    requires HistoryInv(h) && key in h.pages
    ensures LedgerOk(LedgerOf(h, key), key, h.audits)
  {
    hide LedgerOk, LogsOf;
  }

  lemma FreshLedger(p: Page, key: PageKey, audits: map<Id, Audit>)
    requires PageCheck(p) && p.deletedAt.None?
    ensures LedgerOk(Ledger(p, Logs([], [], [], []), None, None, None), key, audits)
  {
  }

  // A Page that does not exist yet has no rows anywhere.
  lemma InsertedLedger(h: Hist, key: PageKey, p: Page)
    requires NoOrphans(h) && key !in h.pages
    ensures LedgerOf(h.(pages := h.pages[key := p]), key) == Ledger(p, Logs([], [], [], []), None, None, None)
  {
  }

  lemma PageInsertKept(h: Hist, key: PageKey, p: Page)
    requires HistoryInv(h) && PageCheck(p) && p.deletedAt.None? && key !in h.pages
    ensures HistoryInv(h.(pages := h.pages[key := p]))
  {
    hide LedgerOk, PageCheck;
    FreshLedger(p, key, h.audits);
    InsertedLedger(h, key, p);
    OneLedgerChanges(h, h.(pages := h.pages[key := p]), key);
  }

  lemma UpdatedLedger(h: Hist, key: PageKey, n: Page, titleRow: Option<TitleEvent>)
    requires key in h.pages && HistoryAllows(h, key, h.pages[key], n)
    requires LedgerOk(LedgerOf(h, key), key, h.audits)
    requires titleRow == TitleRow(h, key, h.pages[key], n)
    ensures var d := HistoryAfter(h, key, h.pages[key], n, titleRow);
            LedgerOk(LedgerOf(d, key), key, d.audits)
  {
    UpdateKeepsLogs(h, key, n, titleRow);
    UpdateKeepsGuards(h, key, n, titleRow);
    hide LogsOk, GuardsOk, LogsOf, TitleRow;
  }

  lemma UpdateFrame(h: Hist, key: PageKey, n: Page, titleRow: Option<TitleEvent>)
    requires key in h.pages && HistoryInv(h)
    ensures var d := HistoryAfter(h, key, h.pages[key], n, titleRow);
            NoOrphans(d) && SameLedgersBut(h, d, key) && key in d.pages && d.pages[key] == n
  {
    hide LedgerOk;
    var d := HistoryAfter(h, key, h.pages[key], n, titleRow);
    UpdateOrphans(h, key, n, titleRow);
    hide NoOrphans, HistoryInv;
    forall k | k in d.pages && k != key ensures k in h.pages && LedgerOf(d, k) == LedgerOf(h, k) {
      OtherLedger(h, key, n, titleRow, k);
    }
  }

  lemma UpdateOrphans(h: Hist, key: PageKey, n: Page, titleRow: Option<TitleEvent>)
    requires key in h.pages && NoOrphans(h)
    ensures NoOrphans(HistoryAfter(h, key, h.pages[key], n, titleRow))
  {
  }

  lemma UpdatedPages(h: Hist, key: PageKey, n: Page, titleRow: Option<TitleEvent>)
    requires key in h.pages
    ensures HistoryAfter(h, key, h.pages[key], n, titleRow).pages == h.pages[key := n]
  {
  }

  lemma OtherRows(h: Hist, key: PageKey, n: Page, titleRow: Option<TitleEvent>, k: PageKey)
    requires key in h.pages && k in h.pages && k != key
    ensures var d := HistoryAfter(h, key, h.pages[key], n, titleRow);
            k in d.pages && d.pages[k] == h.pages[k] && LogsOf(d, k) == LogsOf(h, k)
  {
  }

  lemma OtherLedger(h: Hist, key: PageKey, n: Page, titleRow: Option<TitleEvent>, k: PageKey)
    requires key in h.pages && k in h.pages && k != key
    ensures var d := HistoryAfter(h, key, h.pages[key], n, titleRow);
            k in d.pages && d.pages[k] == h.pages[k] && LogsOf(d, k) == LogsOf(h, k) && LedgerOf(d, k) == LedgerOf(h, k)
  {
    OtherRows(h, key, n, titleRow, k);
    hide LogsOf, Logging, Appended;
  }

  lemma PageUpdateKept(h: Hist, key: PageKey, n: Page, titleRow: Option<TitleEvent>)
    requires HistoryInv(h) && key in h.pages && HistoryAllows(h, key, h.pages[key], n)
    requires titleRow == TitleRow(h, key, h.pages[key], n)
    ensures HistoryInv(HistoryAfter(h, key, h.pages[key], n, titleRow))
  {
    hide LedgerOk, HistoryAllows, TitleRow, LogsOf, HistoryAfter, NoOrphans;
    LedgerAt(h, key);
    UpdatedLedger(h, key, n, titleRow);
    UpdateFrame(h, key, n, titleRow);
    OneLedgerChanges(h, HistoryAfter(h, key, h.pages[key], n, titleRow), key);
  }

  lemma OccGuardFits(l: Ledger, g: OccGuard, key: PageKey, audits: map<Id, Audit>)
    requires LedgerOk(l, key, audits)
    requires g.oldOccurred == l.page.occurredAt && OccCheck(g.sequence, g.oldOccurred, g.newOccurred, g.at)
    requires g.sequence == NextSequence(OccSequences(l.logs.occ))
    requires g.actor.Master? ==> AuditIs(audits, g.actor.audit, OccurrenceCorrect, key, g.at)
    ensures LedgerOk(l.(occGuard := Some(g)), key, audits)
  {
    NextSequences(l, key, audits);
    hide LogsOk, PageCheck, OccCheck, LifeGuardOk, MoveGuardOk;
  }

  lemma OccGuardKept(h: Hist, key: PageKey, g: OccGuard)
    requires HistoryInv(h) && AcceptsOccGuard(h, key, g)
    ensures HistoryInv(h.(occGuards := h.occGuards[key := g]))
  {
    hide LedgerOk, OccCheck;
    var d := h.(occGuards := h.occGuards[key := g]);
    LedgerAt(h, key);
    OccGuardFits(LedgerOf(h, key), g, key, h.audits);
    assert LedgerOf(d, key) == LedgerOf(h, key).(occGuard := Some(g));
    hide AcceptsOccGuard;
    OneLedgerChanges(h, d, key);
  }

  lemma LifeGuardFits(l: Ledger, g: LifeEvent, key: PageKey, audits: map<Id, Audit>)
    requires LedgerOk(l, key, audits)
    requires g.oldDeletedAt == l.page.deletedAt && LifeCheck(g)
    requires g.sequence == NextSequence(LifeSequences(l.logs.life))
    ensures LedgerOk(l.(lifeGuard := Some(g)), key, audits)
  {
    NextSequences(l, key, audits);
    hide LogsOk, PageCheck, LifeCheck, OccGuardOk, MoveGuardOk;
  }

  lemma LifeGuardKept(h: Hist, key: PageKey, g: LifeEvent)
    requires HistoryInv(h) && AcceptsLifeGuard(h, key, g)
    ensures HistoryInv(h.(lifeGuards := h.lifeGuards[key := g]))
  {
    hide LedgerOk, LifeCheck;
    var d := h.(lifeGuards := h.lifeGuards[key := g]);
    LedgerAt(h, key);
    LifeGuardFits(LedgerOf(h, key), g, key, h.audits);
    assert LedgerOf(d, key) == LedgerOf(h, key).(lifeGuard := Some(g));
    hide AcceptsLifeGuard;
    OneLedgerChanges(h, d, key);
  }

  lemma MoveGuardFits(l: Ledger, g: MoveEvent, key: PageKey, audits: map<Id, Audit>)
    requires LedgerOk(l, key, audits)
    requires g.oldSection == l.page.section && g.oldBook == l.page.book && MoveCheck(g)
    requires g.sequence == NextSequence(MoveSequences(l.logs.move))
    requires AuditIs(audits, g.audit, PageMove, key, g.at)
    requires forall i :: 0 <= i < |l.logs.move| ==> l.logs.move[i].audit != g.audit
    ensures LedgerOk(l.(moveGuard := Some(g)), key, audits)
  {
    NextSequences(l, key, audits);
    hide LogsOk, PageCheck, MoveCheck, OccGuardOk, LifeGuardOk;
  }

  lemma MoveAuditIsNew(h: Hist, key: PageKey, id: Id)
    requires !MoveAuditUsed(h, id)
    ensures forall i :: 0 <= i < |Rows(h.moveEvents, key)| ==> Rows(h.moveEvents, key)[i].audit != id
  {
    forall i | 0 <= i < |Rows(h.moveEvents, key)| ensures Rows(h.moveEvents, key)[i].audit != id {
      assert h.moveEvents[key][i].audit == id ==> MoveAuditUsed(h, id);
    }
  }

  lemma MoveGuardKept(h: Hist, c: Content, key: PageKey, g: MoveEvent)
    requires HistoryInv(h) && AcceptsMoveGuard(h, c, key, g)
    ensures HistoryInv(h.(moveGuards := h.moveGuards[key := g]))
  {
    hide LedgerOk, MoveCheck, MoveAuditUsed;
    var d := h.(moveGuards := h.moveGuards[key := g]);
    LedgerAt(h, key);
    MoveAuditIsNew(h, key, g.audit);
    MoveGuardFits(LedgerOf(h, key), g, key, h.audits);
    assert LedgerOf(d, key) == LedgerOf(h, key).(moveGuard := Some(g));
    hide AcceptsMoveGuard;
    OneLedgerChanges(h, d, key);
  }

  // ---- a guard and its log ----

  // A pending guard's sequence number is one its log does not have.
  lemma PendingOcc(l: Ledger, key: PageKey, audits: map<Id, Audit>)
    requires LedgerOk(l, key, audits) && l.occGuard.Some?
    ensures l.occGuard.value.sequence !in OccSequences(l.logs.occ)
    ensures l.occGuard.value.oldOccurred == l.page.occurredAt != l.occGuard.value.newOccurred
  {
    NextSequences(l, key, audits);
    hide LogsOk, PageCheck, LifeGuardOk, MoveGuardOk;
  }

  lemma PendingLife(l: Ledger, key: PageKey, audits: map<Id, Audit>)
    requires LedgerOk(l, key, audits) && l.lifeGuard.Some?
    ensures l.lifeGuard.value.sequence !in LifeSequences(l.logs.life)
    ensures l.lifeGuard.value.oldDeletedAt == l.page.deletedAt != DeletedAtAfter(l.lifeGuard.value)
  {
    NextSequences(l, key, audits);
    hide LogsOk, PageCheck, OccGuardOk, MoveGuardOk;
  }

  lemma PendingMove(l: Ledger, key: PageKey, audits: map<Id, Audit>)
    requires LedgerOk(l, key, audits) && l.moveGuard.Some?
    ensures var g := l.moveGuard.value;
            && g.sequence !in MoveSequences(l.logs.move)
            && g.oldSection == l.page.section && g.oldBook == l.page.book
            && (g.oldSection != g.newSection || g.oldBook != g.newBook)
  {
    NextSequences(l, key, audits);
    hide LogsOk, PageCheck, OccGuardOk, LifeGuardOk;
  }

  // A log row can never be inserted by hand: while its guard is pending the Page still shows the
  // values the guard calls old, and without a guard there is nothing to match.
  lemma NoHandWrittenOccEvent(h: Hist, key: PageKey, e: OccEvent)
    requires HistoryInv(h)
    ensures !AcceptsOccEvent(h, key, e)
  {
    hide LedgerOk, HistoryInv, OccCheck;
    if key in h.pages && key in h.occGuards {
      LedgerAt(h, key);
      PendingOcc(LedgerOf(h, key), key, h.audits);
    }
  }

  lemma NoHandWrittenLifeEvent(h: Hist, key: PageKey, e: LifeEvent)
    requires HistoryInv(h)
    ensures !AcceptsLifeEvent(h, key, e)
  {
    hide LedgerOk, HistoryInv, LifeCheck;
    if key in h.pages && key in h.lifeGuards {
      LedgerAt(h, key);
      PendingLife(LedgerOf(h, key), key, h.audits);
    }
  }

  lemma NoHandWrittenMoveEvent(h: Hist, c: Content, key: PageKey, e: MoveEvent)
    requires HistoryInv(h)
    ensures !AcceptsMoveEvent(h, c, key, e)
  {
    hide LedgerOk, HistoryInv, MoveCheck, MoveAuditUsed;
    if key in h.pages && key in h.moveGuards {
      LedgerAt(h, key);
      PendingMove(LedgerOf(h, key), key, h.audits);
    }
  }

  // A pending guard can never be discarded by hand, and a log never has its sequence number, so the
  // deferred foreign key of the guard fails at COMMIT.
  lemma PendingOccGuard(h: Hist, key: PageKey)
    requires HistoryInv(h) && key in h.occGuards
    ensures !AcceptsOccGuardDelete(h, key)
    ensures h.occGuards[key].sequence !in OccSequences(Rows(h.occEvents, key))
  {
    hide LedgerOk;
    LedgerAt(h, key);
    PendingOcc(LedgerOf(h, key), key, h.audits);
    hide HistoryInv;
    var log := Rows(h.occEvents, key);
    assert forall i :: 0 <= i < |log| ==> log[i].sequence == OccSequences(log)[i];
  }

  lemma PendingLifeGuard(h: Hist, key: PageKey)
    requires HistoryInv(h) && key in h.lifeGuards
    ensures !AcceptsLifeGuardDelete(h, key)
    ensures h.lifeGuards[key].sequence !in LifeSequences(Rows(h.lifeEvents, key))
  {
    hide LedgerOk;
    LedgerAt(h, key);
    PendingLife(LedgerOf(h, key), key, h.audits);
  }

  lemma PendingMoveGuard(h: Hist, key: PageKey)
    requires HistoryInv(h) && key in h.moveGuards
    ensures !AcceptsMoveGuardDelete(h, key)
    ensures h.moveGuards[key].sequence !in MoveSequences(Rows(h.moveEvents, key))
  {
    hide LedgerOk;
    LedgerAt(h, key);
    PendingMove(LedgerOf(h, key), key, h.audits);
  }

  lemma AuditsGrowKept(h: Hist, d: Hist)
    requires HistoryInv(h) && d == h.(audits := d.audits)
    requires forall id :: id in h.audits ==> id in d.audits && d.audits[id] == h.audits[id]
    ensures HistoryInv(d)
  {
    hide LedgerOk;
    forall k | k in d.pages ensures LedgerOk(LedgerOf(d, k), k, d.audits) {
      AuditsGrow(LedgerOf(h, k), k, h.audits, d.audits);
    }
  }

  lemma HistoryStmtKept(h: Hist, c: Content, s: Stmt)
    requires HistoryInv(h) && AcceptsHistory(h, c, s)
    ensures HistoryInv(ApplyHistory(h, s))
  {
    hide HistoryInv, AcceptsOccGuard, AcceptsLifeGuard, AcceptsMoveGuard;
    match s
    case InsertOccGuard(k, g) => OccGuardKept(h, k, g);
    case InsertLifeGuard(k, g) => LifeGuardKept(h, k, g);
    case InsertMoveGuard(k, g) => MoveGuardKept(h, c, k, g);
    case InsertOccEvent(k, e) => NoHandWrittenOccEvent(h, k, e);
    case InsertLifeEvent(k, e) => NoHandWrittenLifeEvent(h, k, e);
    case InsertMoveEvent(k, e) => NoHandWrittenMoveEvent(h, c, k, e);
    case DeleteOccGuard(k) =>
      if k in h.occGuards { PendingOccGuard(h, k); }
      assert ApplyHistory(h, s) == h;
    case DeleteLifeGuard(k) =>
      if k in h.lifeGuards { PendingLifeGuard(h, k); }
      assert ApplyHistory(h, s) == h;
    case DeleteMoveGuard(k) =>
      if k in h.moveGuards { PendingMoveGuard(h, k); }
      assert ApplyHistory(h, s) == h;
    case InsertAudit(id, a) => AuditsGrowKept(h, ApplyHistory(h, s));
  }

  lemma HistoryKept(db: Db, s: Stmt)
    requires HistoryInv(db.hist) && Accepts(db, s)
    ensures HistoryInv(Apply(db, s).hist)
  {
    hide HistoryInv, HistoryAllows, TitleRow, AcceptsContent, HistoryAfter, AcceptsHistory;
    if IsHistoryStmt(s) {
      HistoryStmtKept(db.hist, db.content, s);
    } else if s.InsertPage? {
      PageInsertKept(db.hist, s.key, s.row);
    } else if s.UpdatePage? && s.key in db.hist.pages {
      PageUpdateKept(db.hist, s.key, s.row, TitleRow(db.hist, s.key, db.hist.pages[s.key], s.row));
    }
  }
}
