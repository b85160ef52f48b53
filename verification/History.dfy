// Reading one Page's history back: its four event logs merged by change time, and replayed from
// the row the Page was inserted with.
module History {
  import opened Common
  import opened Tables

  datatype Entry = OccEntry(occ: OccEvent) | LifeEntry(life: LifeEvent) | MoveEntry(move: MoveEvent) | TitleEntry(title: TitleEvent)

  function At(e: Entry): Time {
    match e
    case OccEntry(o) => o.at
    case LifeEntry(l) => l.at
    case MoveEntry(m) => m.at
    case TitleEntry(t) => t.at
  }

  // The columns whose every change is logged.
  datatype Shown = Shown(section: Id, book: Id, title: string, occurredAt: Time, deletedAt: Option<Time>)

  function ShownOf(p: Page): Shown {
    Shown(p.section, p.book, p.title, p.occurredAt, p.deletedAt)
  }

  // Replays one entry. It fails unless everything the entry recorded about the state before it is
  // what the replay has reached, and unless the Page is live (or, for a restore, deleted).
  function Step(v: Shown, e: Entry): Option<Shown> {
    match e
    case OccEntry(o) =>
      if v.deletedAt.None? && o.oldOccurred == v.occurredAt then Some(v.(occurredAt := o.newOccurred)) else None
    case LifeEntry(l) =>
      if l.section != v.section || l.occurredAt != v.occurredAt || l.oldDeletedAt != v.deletedAt then None
      else if l.action == Delete then (if v.deletedAt.None? then Some(v.(deletedAt := Some(l.at))) else None)
      else (if v.deletedAt.Some? then Some(v.(deletedAt := None)) else None)
    case MoveEntry(m) =>
      if v.deletedAt.None? && m.oldSection == v.section && m.oldBook == v.book && m.occurredAt == v.occurredAt
      then Some(v.(section := m.newSection, book := m.newBook)) else None
    case TitleEntry(t) =>
      if v.deletedAt.None? && t.oldTitle == v.title then Some(v.(title := t.newTitle)) else None
  }

  function Replay(v: Shown, entries: seq<Entry>): Option<Shown> {
    if |entries| == 0 then Some(v)
    else match Replay(v, entries[..|entries| - 1])
         case None => None
         case Some(w) => Step(w, entries[|entries| - 1])
  }

  // The rows of the logs of one Page.
  datatype Logs = Logs(occ: seq<OccEvent>, life: seq<LifeEvent>, move: seq<MoveEvent>, title: seq<TitleEvent>) {
    function Size(): nat { |occ| + |life| + |move| + |title| }
  }

  function LastOcc(l: Logs): Option<Entry> {
    if l.occ == [] then None else Some(OccEntry(l.occ[|l.occ| - 1]))
  }

  function LastLife(l: Logs): Option<Entry> {
    if l.life == [] then None else Some(LifeEntry(l.life[|l.life| - 1]))
  }

  function LastMove(l: Logs): Option<Entry> {
    if l.move == [] then None else Some(MoveEntry(l.move[|l.move| - 1]))
  }

  function LastTitle(l: Logs): Option<Entry> {
    if l.title == [] then None else Some(TitleEntry(l.title[|l.title| - 1]))
  }

  function Later(a: Option<Entry>, b: Option<Entry>): Option<Entry> {
    if a.None? || (b.Some? && At(b.value) > At(a.value)) then b else a
  }

  // The entry with the latest change time among the last rows of the four logs.
  function Top(l: Logs): (r: Option<Entry>)
    ensures r.None? <==> l.Size() == 0
    ensures r.Some? ==> r in {LastOcc(l), LastLife(l), LastMove(l), LastTitle(l)}
  {
    Later(LastOcc(l), Later(LastLife(l), Later(LastMove(l), LastTitle(l))))
  }

  function Pop(l: Logs): Logs
    requires l.Size() > 0
  {
    match Top(l).value
    case OccEntry(_) => l.(occ := l.occ[..|l.occ| - 1])
    case LifeEntry(_) => l.(life := l.life[..|l.life| - 1])
    case MoveEntry(_) => l.(move := l.move[..|l.move| - 1])
    case TitleEntry(_) => l.(title := l.title[..|l.title| - 1])
  }

  // The four logs merged by change time, latest last.
  function Merge(l: Logs): seq<Entry>
    decreases l.Size()
  {
    if l.Size() == 0 then [] else Merge(Pop(l)) + [Top(l).value]
  }

  function WithEntry(l: Logs, e: Entry): Logs {
    match e
    case OccEntry(o) => l.(occ := l.occ + [o])
    case LifeEntry(f) => l.(life := l.life + [f])
    case MoveEntry(m) => l.(move := l.move + [m])
    case TitleEntry(t) => l.(title := l.title + [t])
  }

  // ---- Merge loses and invents nothing ----

  function OccPart(entries: seq<Entry>): seq<OccEvent> {
    if entries == [] then []
    else OccPart(entries[..|entries| - 1]) + (if entries[|entries| - 1].OccEntry? then [entries[|entries| - 1].occ] else [])
  }

  function LifePart(entries: seq<Entry>): seq<LifeEvent> {
    if entries == [] then []
    else LifePart(entries[..|entries| - 1]) + (if entries[|entries| - 1].LifeEntry? then [entries[|entries| - 1].life] else [])
  }

  function MovePart(entries: seq<Entry>): seq<MoveEvent> {
    if entries == [] then []
    else MovePart(entries[..|entries| - 1]) + (if entries[|entries| - 1].MoveEntry? then [entries[|entries| - 1].move] else [])
  }

  function TitlePart(entries: seq<Entry>): seq<TitleEvent> {
    if entries == [] then []
    else TitlePart(entries[..|entries| - 1]) + (if entries[|entries| - 1].TitleEntry? then [entries[|entries| - 1].title] else [])
  }

  function Parts(entries: seq<Entry>): Logs {
    Logs(OccPart(entries), LifePart(entries), MovePart(entries), TitlePart(entries))
  }

  lemma PartsSnoc(entries: seq<Entry>, e: Entry)
    ensures Parts(entries + [e]) == WithEntry(Parts(entries), e)
  {
    assert (entries + [e])[..|entries|] == entries;
  }

  lemma PopPush(l: Logs)
    requires l.Size() > 0
    ensures WithEntry(Pop(l), Top(l).value) == l
  {
    assert l.occ == [] || l.occ == l.occ[..|l.occ| - 1] + [l.occ[|l.occ| - 1]];
    assert l.life == [] || l.life == l.life[..|l.life| - 1] + [l.life[|l.life| - 1]];
    assert l.move == [] || l.move == l.move[..|l.move| - 1] + [l.move[|l.move| - 1]];
    assert l.title == [] || l.title == l.title[..|l.title| - 1] + [l.title[|l.title| - 1]];
  }

  // Splitting the merged sequence by kind gives the four logs back, in order.
  lemma {:induction false} MergeIsAnInterleaving(l: Logs)
    ensures Parts(Merge(l)) == l
    decreases l.Size()
  {
    if l.Size() > 0 {
      MergeIsAnInterleaving(Pop(l));
      PartsSnoc(Merge(Pop(l)), Top(l).value);
      PopPush(l);
    }
  }

  // ---- a later event goes last ----

  ghost predicate AllBefore(l: Logs, at: Time) {
    && (forall i :: 0 <= i < |l.occ| ==> l.occ[i].at < at)
    && (forall i :: 0 <= i < |l.life| ==> l.life[i].at < at)
    && (forall i :: 0 <= i < |l.move| ==> l.move[i].at < at)
    && (forall i :: 0 <= i < |l.title| ==> l.title[i].at < at)
  }

  predicate NoneAfter(last: Option<Entry>, at: Time) { last.None? || At(last.value) < at }

  lemma LastBefore(l: Logs, at: Time)
    requires AllBefore(l, at)
    ensures NoneAfter(LastOcc(l), at) && NoneAfter(LastLife(l), at) && NoneAfter(LastMove(l), at) && NoneAfter(LastTitle(l), at)
  {
  }

  lemma PushPop(l: Logs, e: Entry)
    requires Top(WithEntry(l, e)) == Some(e)
    ensures Pop(WithEntry(l, e)) == l
  {
    var w := WithEntry(l, e);
    match e
    case OccEntry(o) => assert w.occ[..|w.occ| - 1] == l.occ;
    case LifeEntry(f) => assert w.life[..|w.life| - 1] == l.life;
    case MoveEntry(m) => assert w.move[..|w.move| - 1] == l.move;
    case TitleEntry(t) => assert w.title[..|w.title| - 1] == l.title;
  }

  lemma PushTop(l: Logs, e: Entry)
    requires AllBefore(l, At(e))
    ensures Top(WithEntry(l, e)) == Some(e) && Pop(WithEntry(l, e)) == l
  {
    LastBefore(l, At(e));
    hide AllBefore;
    assert Top(WithEntry(l, e)) == Some(e);
    PushPop(l, e);
  }

  lemma {:induction false} MergeLatest(l: Logs, e: Entry)
    requires AllBefore(l, At(e))
    ensures Merge(WithEntry(l, e)) == Merge(l) + [e]
  {
    PushTop(l, e);
  }

  ghost predicate StrictlyIncreasing(entries: seq<Entry>) {
    forall i, j :: 0 <= i < j < |entries| ==> At(entries[i]) < At(entries[j])
  }

  lemma {:induction false} MergeBound(l: Logs, at: Time)
    requires AllBefore(l, at)
    ensures forall i :: 0 <= i < |Merge(l)| ==> At(Merge(l)[i]) < at
    decreases l.Size()
  {
    if l.Size() > 0 {
      MergeBound(Pop(l), at);
    }
  }

  lemma ReplaySnoc(v: Shown, entries: seq<Entry>, e: Entry)
    ensures Replay(v, entries + [e]) == match Replay(v, entries) case None => None case Some(w) => Step(w, e)
  {
    assert (entries + [e])[..|entries|] == entries;
  }

  // ---- what a successful replay says about the lifecycle ----

  lemma {:induction false} ReplayPrefix(v: Shown, entries: seq<Entry>, n: nat)
    requires n <= |entries| && Replay(v, entries).Some?
    ensures Replay(v, entries[..n]).Some?
  {
    if n < |entries| {
      ReplayPrefix(v, entries[..|entries| - 1], n);
      assert entries[..|entries| - 1][..n] == entries[..n];
    } else {
      assert entries[..n] == entries;
    }
  }

  // While a Page is deleted its merged history holds nothing but the restore that ends the deletion:
  // an entry that follows a delete is a restore, and that pair leaves section, book, title and
  // declared time as the delete found them.
  lemma DeleteThenRestore(v: Shown, entries: seq<Entry>, i: nat)
    requires Replay(v, entries).Some? && i + 1 < |entries|
    requires entries[i].LifeEntry? && entries[i].life.action == Delete
    ensures entries[i + 1].LifeEntry? && entries[i + 1].life.action == Restore
    ensures entries[i + 1].life.oldDeletedAt == Some(At(entries[i]))
    ensures Replay(v, entries[..i]).Some? && Replay(v, entries[..i]).value.deletedAt == None
    ensures Replay(v, entries[..i + 2]) == Replay(v, entries[..i])
  {
    ReplayPrefix(v, entries, i);
    ReplayPrefix(v, entries, i + 1);
    ReplayPrefix(v, entries, i + 2);
    ReplaySnoc(v, entries[..i], entries[i]);
    ReplaySnoc(v, entries[..i + 1], entries[i + 1]);
    assert entries[..i + 1] == entries[..i] + [entries[i]];
    assert entries[..i + 2] == entries[..i + 1] + [entries[i + 1]];
  }
}
