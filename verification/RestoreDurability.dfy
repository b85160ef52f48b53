// When the stored restore request is really there: while its outcome is unknown, and while the dialog
// shows it. One event breaks both: abandoning it, when the removal works and the check of it throws.
module RestoreDurability {
  import opened Common
  import opened RestoreRetry

  // ---- a request whose outcome is unknown ----

  // It is in the storage, and the screen does not offer anything else.
  ghost predicate Durable(w: World) {
    w.outstanding.Some? ==>
      && w.slot.Receipt? && SameOp(w.slot.op, w.outstanding.value)
      && w.client.phase != Fetching
      && (w.client.phase == Idle ==> w.client.unknown || w.client.blocked)
  }

  // The dialog reports that the abandoned request could not be cleared, and it is gone all the same.
  predicate Loses(w: World, e: Event) {
    e == Abandon(CheckThrows) && w.client.phase == Idle && (w.client.unknown || w.client.blocked) && w.outstanding.Some?
  }

  // Every event but that one keeps it.
  lemma DurableStep(w: World, e: Event)
    requires Inv(w) && Durable(w)
    ensures Durable(Next(w, e)) <==> !Loses(w, e)
  {
    hide OneRequestPerKey, ServerOk, FirstSendOk, EverSent;
  }

  // Between `w` and `v` only the outstanding request is sent, if there is one.
  ghost predicate SendsOutstanding(w: World, v: World) {
    v.sends == w.sends || exists op :: v.sends == w.sends + [op] && (w.outstanding.Some? ==> SameOp(op, w.outstanding.value))
  }

  lemma DurableSends(w: World, e: Event)
    requires Inv(w) && Durable(w)
    ensures SendsOutstanding(w, Next(w, e))
  {
    hide OneRequestPerKey, ServerOk, FirstSendOk, EverSent;
    match e
    case Click(throws, fault) =>
      var operation := if w.client.operation.Some? then w.client.operation else w.client.unused;
      if operation.Some? {
        SentOne(w, operation.value, w.client.operation.Some?, fault);
      }
      hide Sent;
    case Fetched(op, fault) =>
      SentOne(w.(client := w.client.(unused := Some(op), phase := Idle)), op, false, fault);
      hide Sent;
    case _ =>
  }

  lemma SentOne(w: World, op: Op, retrying: bool, fault: Fault)
    ensures var v := Sent(w, op, retrying, fault); v.sends == w.sends || v.sends == w.sends + [op]
  {
  }

  // ---- over runs ----

  function At(w: World, events: seq<Event>, n: nat): World
    requires n <= |events|
  {
    After(w, events[..n])
  }

  lemma AtNext(w: World, events: seq<Event>, n: nat)
    requires n < |events|
    ensures At(w, events, n + 1) == Next(At(w, events, n), events[n])
  {
    assert events[..n + 1][..n] == events[..n];
  }

  ghost predicate EverLoses(w: World, events: seq<Event>) {
    exists n :: 0 <= n < |events| && Loses(At(w, events, n), events[n])
  }

  ghost predicate AlwaysDurable(w: World, events: seq<Event>) {
    forall n :: 0 <= n <= |events| ==> Durable(At(w, events, n))
  }

  ghost predicate OnlyOutstandingSent(w: World, events: seq<Event>) {
    forall n :: 0 <= n < |events| ==> SendsOutstanding(At(w, events, n), At(w, events, n + 1))
  }

  lemma {:induction false} DurableUntil(w: World, events: seq<Event>, n: nat)
    requires Inv(w) && Durable(w) && n <= |events| && forall m :: 0 <= m < n ==> !Loses(At(w, events, m), events[m])
    ensures Inv(At(w, events, n)) && Durable(At(w, events, n))
  {
    hide Inv, Durable, Next, Loses, At;
    if n == 0 {
      StartsAt(w, events);
    } else {
      DurableUntil(w, events, n - 1);
      AtNext(w, events, n - 1);
      NextOk(At(w, events, n - 1), events[n - 1]);
      DurableStep(At(w, events, n - 1), events[n - 1]);
    }
  }

  lemma StartsAt(w: World, events: seq<Event>)
    ensures At(w, events, 0) == w
  {
  }

  // In every run the outstanding request is in the storage throughout exactly when no such abandoning
  // happens in it.
  lemma OutstandingIsStored(w: World, events: seq<Event>)
    requires Start(w)
    ensures AlwaysDurable(w, events) <==> !EverLoses(w, events)
  {
    StartOk(w);
    RunOkAt(w, events);
    hide Inv, Durable, Next, Loses, At, Start;
    if EverLoses(w, events) {
      var n :| 0 <= n < |events| && Loses(At(w, events, n), events[n]);
      AtNext(w, events, n);
      if AlwaysDurable(w, events) {
        DurableStep(At(w, events, n), events[n]);
      }
    } else {
      assert Durable(w) by { StartDurable(w); }
      forall n | 0 <= n <= |events| ensures Durable(At(w, events, n)) {
        DurableUntil(w, events, n);
      }
    }
  }

  lemma StartDurable(w: World)
    requires Inv(w) && w.outstanding.None?
    ensures Durable(w)
  {
  }

  lemma RunOkAt(w: World, events: seq<Event>)
    requires Inv(w)
    ensures forall n :: 0 <= n <= |events| ==> Inv(At(w, events, n))
  {
    hide Inv, After;
    forall n | 0 <= n <= |events| ensures Inv(At(w, events, n)) {
      RunOk(w, events[..n]);
    }
  }

  // As long as nothing is lost, no other request is sent while one is outstanding.
  lemma NoOtherIsSent(w: World, events: seq<Event>)
    requires Inv(w) && Durable(w) && !EverLoses(w, events)
    ensures OnlyOutstandingSent(w, events)
  {
    hide Inv, Durable, Next, Loses, At, SendsOutstanding;
    forall n | 0 <= n < |events| ensures SendsOutstanding(At(w, events, n), At(w, events, n + 1)) {
      DurableUntil(w, events, n);
      AtNext(w, events, n);
      DurableSends(At(w, events, n), events[n]);
    }
  }

  // ---- what losing it opens up ----

  function FreshKey(sends: seq<Op>, other: Key): (k: Key)
    ensures k > other && forall i :: 0 <= i < |sends| ==> sends[i].key < k
  {
    if sends == [] then other + 1
    else
      var k := FreshKey(sends[..|sends| - 1], other);
      if sends[|sends| - 1].key < k then k else sends[|sends| - 1].key + 1
  }

  // A reload, another version, a click and a working send.
  function Onward(op: Op): seq<Event> {
    [Reload(false), Choose(op.version), Click(false, NoFault), Fetched(op, NoFault)]
  }

  lemma FourSteps(v: World, a: Event, b: Event, c: Event, d: Event)
    ensures var e := [a, b, c, d];
            At(v, e, 3) == Next(Next(Next(v, a), b), c) && After(v, e) == At(v, e, 4) == Next(At(v, e, 3), d)
  {
    var e := [a, b, c, d];
    hide Next;
    StartsAt(v, e);
    AtNext(v, e, 0);
    AtNext(v, e, 1);
    AtNext(v, e, 2);
    AtNext(v, e, 3);
    assert e[..4] == e;
  }

  // A reload over an empty storage can fetch for another request.
  lemma FetchesAgain(v: World, version: int)
    requires v.slot == Empty
    ensures var w := Next(Next(Next(v, Reload(false)), Choose(version)), Click(false, NoFault));
            w == v.(client := Client(Some(version), false, false, None, None, Fetching))
  {
    hide Sent, EverSent;
  }

  lemma FetchedSends(w: World, op: Op)
    requires w.client.phase == Fetching && !EverSent(w, op.key)
    ensures Next(w, Fetched(op, NoFault)).sends == w.sends + [op]
  {
    hide EverSent;
  }

  lemma OnwardSends(v: World, op: Op)
    requires v.slot == Empty && !EverSent(v, op.key)
    ensures After(v, Onward(op)).sends == v.sends + [op]
    ensures At(v, Onward(op), 3).outstanding == v.outstanding && At(v, Onward(op), 3).sends == v.sends
  {
    FourSteps(v, Reload(false), Choose(op.version), Click(false, NoFault), Fetched(op, NoFault));
    FetchesAgain(v, op.version);
    hide Next, After, At, EverSent;
    var w := At(v, Onward(op), 3);
    SameSent(v, w, op.key);
    FetchedSends(w, op);
  }

  lemma SameSent(v: World, w: World, key: Key)
    requires v.sends == w.sends
    ensures EverSent(v, key) <==> EverSent(w, key)
  {
  }

  // After the loss another request can be sent although the outcome of the first is still unknown.
  lemma LostLetsAnotherGo(w: World, e: Event, op: Op)
    requires Loses(w, e) && !EverSent(w, op.key) && op.key != w.outstanding.value.key
    ensures var v := Next(w, e); !EverLoses(v, Onward(op)) && !OnlyOutstandingSent(v, Onward(op))
  {
    var v := Next(w, e);
    assert v.slot == Empty && v.outstanding == w.outstanding && v.sends == w.sends;
    SameSent(w, v, op.key);
    OnwardSends(v, op);
    assert Onward(op)[..4] == Onward(op);
    var before, after := At(v, Onward(op), 3), At(v, Onward(op), 4);
    assert after.sends == v.sends + [op];
    hide After, Next, EverSent, At;
    assert !SendsOutstanding(before, after) by {
      OtherSent(before, after, op);
    }
    forall n | 0 <= n < |Onward(op)| ensures !Onward(op)[n].Abandon? {
    }
  }

  lemma OtherSent(before: World, after: World, op: Op)
    requires after.sends == before.sends + [op] && before.outstanding.Some? && op.key != before.outstanding.value.key
    ensures !SendsOutstanding(before, after)
  {
    assert after.sends[|before.sends|] == op;
  }

  // From a state in which the outstanding request is stored, and for any event: every continuation that
  // loses nothing more sends no other request while one is outstanding, exactly when the event does not
  // lose it.
  lemma LossIsTheOnlyRisk(w: World, e: Event)
    requires Inv(w) && Durable(w)
    ensures (forall more :: !EverLoses(Next(w, e), more) ==> OnlyOutstandingSent(Next(w, e), more)) <==> !Loses(w, e)
  {
    var v := Next(w, e);
    if Loses(w, e) {
      var k := FreshKey(w.sends, w.outstanding.value.key);
      LostLetsAnotherGo(w, e, Op("", "", k, 0, true));
    } else {
      NextOk(w, e);
      DurableStep(w, e);
      hide Inv, Durable, Next, Loses, EverLoses, OnlyOutstandingSent;
      forall more | !EverLoses(v, more) ensures OnlyOutstandingSent(v, more) {
        NoOtherIsSent(v, more);
      }
    }
  }

  // ---- a request the dialog shows ----

  // While the dialog says that an outcome is unknown, and waits for nothing, the storage holds the
  // request it would repeat.
  predicate ShownIsStored(w: World) {
    w.client.unknown && w.client.phase == Idle ==>
      w.client.operation.Some? && w.slot.Receipt? && SameOp(w.slot.op, w.client.operation.value)
  }

  // The user abandons it, the removal works and the check of it throws.
  predicate HidesLoss(w: World, e: Event) {
    e == Abandon(CheckThrows) && w.client.phase == Idle && w.client.unknown
  }

  lemma ShownStep(w: World, e: Event)
    requires Inv(w) && ShownIsStored(w)
    ensures ShownIsStored(Next(w, e)) <==> !HidesLoss(w, e)
  {
    hide OneRequestPerKey, ServerOk, FirstSendOk, EverSent;
  }

  ghost predicate AlwaysShownIsStored(w: World, events: seq<Event>) {
    forall n :: 0 <= n <= |events| ==> ShownIsStored(At(w, events, n))
  }

  ghost predicate EverHidesLoss(w: World, events: seq<Event>) {
    exists n :: 0 <= n < |events| && HidesLoss(At(w, events, n), events[n])
  }

  lemma {:induction false} ShownUntil(w: World, events: seq<Event>, n: nat)
    requires Inv(w) && ShownIsStored(w) && n <= |events| && forall m :: 0 <= m < n ==> !HidesLoss(At(w, events, m), events[m])
    ensures Inv(At(w, events, n)) && ShownIsStored(At(w, events, n))
  {
    hide Inv, ShownIsStored, Next, HidesLoss, At;
    if n == 0 {
      StartsAt(w, events);
    } else {
      ShownUntil(w, events, n - 1);
      AtNext(w, events, n - 1);
      NextOk(At(w, events, n - 1), events[n - 1]);
      ShownStep(At(w, events, n - 1), events[n - 1]);
    }
  }

  lemma StartShown(w: World)
    requires Start(w)
    ensures ShownIsStored(w)
  {
  }

  // In every run what the dialog shows is stored throughout exactly when no such abandoning happens.
  lemma ShownIffNeverHidden(w: World, events: seq<Event>)
    requires Start(w)
    ensures AlwaysShownIsStored(w, events) <==> !EverHidesLoss(w, events)
  {
    StartOk(w);
    StartShown(w);
    RunOkAt(w, events);
    hide Inv, ShownIsStored, Next, HidesLoss, At, Start;
    if EverHidesLoss(w, events) {
      var n :| 0 <= n < |events| && HidesLoss(At(w, events, n), events[n]);
      AtNext(w, events, n);
      if AlwaysShownIsStored(w, events) {
        ShownStep(At(w, events, n), events[n]);
      }
    } else {
      forall n | 0 <= n <= |events| ensures ShownIsStored(At(w, events, n)) {
        ShownUntil(w, events, n);
      }
    }
  }

  // Such a run: a visit that finds a stored request, and the abandoning.
  lemma ShownButNotStored(op: Op)
    requires op.readable
    ensures var w := World(Mounted(Stored(op)), Receipt(op), Server(map[], map[]), map[], [], None);
            var v := After(w, [Abandon(CheckThrows)]);
            Start(w) && v.client.unknown && v.client.operation == Some(op) && v.slot == Empty
  {
    var w := World(Mounted(Stored(op)), Receipt(op), Server(map[], map[]), map[], [], None);
    assert w.client == Mounted(Read(w.slot, false));
    assert [Abandon(CheckThrows)][..0] == [];
  }

  // And one from an empty storage that sends a second request while the first one's outcome is unknown.
  lemma SecondRequestSent(first: Op, second: Op)
    requires first.key != second.key
    ensures var w := World(Mounted(Absent), Empty, Server(map[], map[]), map[], [], None);
            var events := [Choose(first.version), Click(false, NoFault), Fetched(first, NoFault), ResponseLost, Abandon(CheckThrows)];
            Start(w) && After(w, events).outstanding == Some(first) && After(After(w, events), Onward(second)).sends == [first, second]
  {
    var w := World(Mounted(Absent), Empty, Server(map[], map[]), map[], [], None);
    assert w.client == Mounted(Read(w.slot, false));
    var e := [Choose(first.version), Click(false, NoFault), Fetched(first, NoFault), ResponseLost, Abandon(CheckThrows)];
    FirstIsLost(w, first);
    var v := After(w, e);
    assert !EverSent(v, second.key);
    hide After;
    OnwardSends(v, second);
  }

  lemma FirstIsLost(w: World, first: Op)
    requires w == World(Mounted(Absent), Empty, Server(map[], map[]), map[], [], None)
    ensures var e := [Choose(first.version), Click(false, NoFault), Fetched(first, NoFault), ResponseLost, Abandon(CheckThrows)];
            var v := After(w, e);
            v.slot == Empty && v.outstanding == Some(first) && v.sends == [first]
  {
    var e := [Choose(first.version), Click(false, NoFault), Fetched(first, NoFault), ResponseLost, Abandon(CheckThrows)];
    AtNext(w, e, 0);
    AtNext(w, e, 1);
    AtNext(w, e, 2);
    AtNext(w, e, 3);
    AtNext(w, e, 4);
    assert e[..0] == [] && e[..5] == e;
    hide At, After;
    var w1 := w.(client := w.client.(restore := Some(first.version)));
    var w2 := w1.(client := w1.client.(phase := Fetching));
    assert Next(w1, e[1]) == w2;
    assert !EverSent(w2, first.key);
    var w3 := Next(w2, e[2]);
    assert w3.client.phase == Waiting(first, false, 0) && w3.sends == [first] && w3.outstanding == Some(first);
  }

  // A click with a working write puts the lost request back and sends the very same one.
  lemma ResendRestores(w: World)
    requires Inv(w) && w.client.unknown && w.client.phase == Idle && !w.client.blocked && w.slot == Empty
    ensures var v := Next(w, Click(false, NoFault));
            && v.slot == Receipt(w.client.operation.value) && v.sends == w.sends + [w.client.operation.value]
            && ShownIsStored(v) && Durable(v)
  {
    hide OneRequestPerKey, ServerOk, FirstSendOk;
  }

  // ---- a handler left behind ----

  // Leaving the screen inside the application unmounts the dialog, but not a handler of it that still
  // waits: its refs and state are nobody's any more, its storage and its requests are the new dialog's.

  // A reply reaches a handler that was left waiting.
  function LeftReplied(w: World, reply: Reply, retrying: bool, fault: Fault): World {
    if reply == Confirmed || (reply == Rejected && !retrying) then w.(slot := Clear(w.slot, fault).0) else w
  }

  // The current state reaches a handler that was left fetching: it stores its request over whatever is
  // there, and sends it if the write works.
  function LeftFetched(w: World, op: Op, fault: Fault): World {
    var (slot, ok) := Write(w.slot, op, fault);
    if !ok then w.(slot := slot)
    else w.(slot := slot, transit := w.transit[|w.sends| := op], sends := w.sends + [op])
  }

  // A final reply to a handler left behind takes the outstanding request of the new dialog out of the
  // storage, exactly when the removal works.
  lemma LeftReplyKeeps(w: World, reply: Reply, retrying: bool, fault: Fault)
    requires Inv(w) && Durable(w)
    ensures Durable(LeftReplied(w, reply, retrying, fault))
       <==> !(w.outstanding.Some? && (reply == Confirmed || (reply == Rejected && !retrying)) && (fault == NoFault || fault == CheckThrows))
  {
    hide Inv;
  }

  // A handler left fetching sends its own request although another is outstanding, exactly when its
  // write works.
  lemma LeftFetchSends(w: World, op: Op, fault: Fault)
    requires Inv(w) && Durable(w) && !EverSent(w, op.key) && (w.outstanding.Some? ==> op.key != w.outstanding.value.key)
    ensures SendsOutstanding(w, LeftFetched(w, op, fault))
       <==> !(w.outstanding.Some? && (fault == NoFault || (fault == Ignored && w.slot == Receipt(op))))
  {
    var v := LeftFetched(w, op, fault);
    hide Inv, EverSent;
    if v.sends != w.sends && w.outstanding.Some? {
      OtherSent(w, v, op);
    }
  }

  // Reached like this: the second dialog sends, its response is lost, and then the first one's state
  // arrives. Both requests are on their way, and only the later one is stored.
  lemma LeftFetchOverwrites(first: Op, second: Op)
    requires first.key != second.key
    ensures var w := World(Mounted(Absent), Empty, Server(map[], map[]), map[], [], None);
            var events := [Choose(second.version), Click(false, NoFault), Fetched(second, NoFault), ResponseLost];
            var v := LeftFetched(After(w, events), first, NoFault);
            && After(w, events).outstanding == Some(second) && After(w, events).client.unknown
            && v.sends == [second, first] && v.slot == Receipt(first)
  {
    var w := World(Mounted(Absent), Empty, Server(map[], map[]), map[], [], None);
    FourSteps(w, Choose(second.version), Click(false, NoFault), Fetched(second, NoFault), ResponseLost);
    hide After, At;
    var w2 := Next(Next(w, Choose(second.version)), Click(false, NoFault));
    assert w2.client.phase == Fetching && w2.sends == [];
    assert !EverSent(w2, second.key);
  }
}
