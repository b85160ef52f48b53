// Restoring an old Revision from the browser: the request is stored before it is sent, so that it can
// be repeated unchanged after a lost response or a reload, and the server keeps one immutable receipt
// per key.
module RestoreRetry {
  import opened Common

  type Key = int

  // A restore request. `readable` tells whether the stored text passes the checks made when it is
  // read back (they look at the key, the path, the body and the version).
  datatype Op = Op(path: string, body: string, key: Key, version: int, readable: bool)

  predicate SameOp(a: Op, b: Op) { a.key == b.key && a.path == b.path && a.body == b.body }

  // ---- session storage ----

  datatype Slot = Empty | Receipt(op: Op) | Garbage

  datatype Reading = Absent | Unreadable | Stored(op: Op)

  function Read(slot: Slot, throws: bool): Reading {
    if throws then Unreadable
    else match slot
         case Empty => Absent
         case Garbage => Unreadable
         case Receipt(op) => if op.readable then Stored(op) else Unreadable
  }

  // How a write or a removal fails, the reading that checks it included.
  datatype Fault = NoFault | Throws | Ignored | CheckThrows

  // The slot afterwards, and whether the check saw what it expected.
  function Write(slot: Slot, op: Op, fault: Fault): (Slot, bool) {
    match fault
    case NoFault => (Receipt(op), true)
    case Throws => (slot, false)
    case Ignored => (slot, slot == Receipt(op))
    case CheckThrows => (Receipt(op), false)
  }

  function Clear(slot: Slot, fault: Fault): (Slot, bool) {
    match fault
    case NoFault => (Empty, true)
    case Throws => (slot, false)
    case Ignored => (slot, slot == Empty)
    case CheckThrows => (Empty, false)
  }

  // ---- the component ----

  datatype Phase = Idle | Fetching | Waiting(op: Op, retrying: bool, id: nat)

  datatype Client = Client(
    restore: Option<int>, unknown: bool, blocked: bool, operation: Option<Op>, unused: Option<Op>, phase: Phase)

  // A component mounted over what the storage holds.
  function Mounted(reading: Reading): Client {
    match reading
    case Absent => Client(None, false, false, None, None, Idle)
    case Unreadable => Client(None, false, true, None, None, Idle)
    case Stored(op) => Client(Some(op.version), true, false, Some(op), None, Idle)
  }

  // ---- the server and the network ----

  // receipts: path and body first accepted under a key; revisions: how many Revisions a key created.
  datatype Server = Server(receipts: map<Key, (string, string)>, revisions: map<Key, nat>)

  datatype Effect = Creates | ChangesNothing | NoEffect
  datatype Reply = Confirmed | Garbled | Rejected | Unavailable

  function Created(s: Server, key: Key): nat { if key in s.revisions then s.revisions[key] else 0 }

  // A key already on record never has an effect again.
  function Processed(s: Server, op: Op, effect: Effect): Server {
    if op.key in s.receipts || effect == NoEffect then s
    else s.(receipts := s.receipts[op.key := (op.path, op.body)],
            revisions := if effect == Creates then s.revisions[op.key := Created(s, op.key) + 1] else s.revisions)
  }

  // A rejection (a client-error status other than 401) means nothing was done and nothing is on record
  // for this request; a confirmation means the request is on record. Anything may go unavailable.
  predicate Honest(s: Server, op: Op, effect: Effect, reply: Reply) {
    match reply
    case Confirmed => if op.key in s.receipts then s.receipts[op.key] == (op.path, op.body) else effect != NoEffect
    case Rejected => if op.key in s.receipts then s.receipts[op.key] != (op.path, op.body) else effect == NoEffect
    case _ => true
  }

  // ---- the whole world ----

  // transit: requests on their way, by number; sends: all requests sent so far, in order; outstanding:
  // a request that was sent, whose outcome is unknown to the client, and whose abandoning, if the user
  // tried it, was not reported to have worked.
  datatype World = World(
    client: Client, slot: Slot, server: Server, transit: map<nat, Op>, sends: seq<Op>, outstanding: Option<Op>)

  predicate EverSent(w: World, key: Key) { exists i :: 0 <= i < |w.sends| && w.sends[i].key == key }

  datatype Event =
    | Reload(readThrows: bool)
    | Choose(version: int)
    | Close(fault: Fault)
    | Abandon(fault: Fault)
    | Click(readThrows: bool, fault: Fault)
    | Fetched(op: Op, fault: Fault)
    | FetchFails
    | Deliver(id: nat, effect: Effect, reply: Reply, fault: Fault)
    | ResponseLost

  function Sent(w: World, op: Op, retrying: bool, fault: Fault): World {
    var (slot, ok) := Write(w.slot, op, fault);
    if !ok then w.(slot := slot, client := w.client.(phase := Idle))
    else
      w.(slot := slot,
         client := w.client.(operation := Some(op), unused := None, phase := Waiting(op, retrying, |w.sends|)),
         transit := w.transit[|w.sends| := op], sends := w.sends + [op], outstanding := Some(op))
  }

  // The restore button.
  function Clicked(w: World, readThrows: bool, fault: Fault): World {
    var c := w.client;
    if c.phase != Idle || c.blocked || c.restore.None? then w
    else
      var operation := if c.operation.Some? then c.operation else c.unused;
      match Read(w.slot, readThrows)
      case Unreadable => w.(client := c.(blocked := true))
      case Stored(s) =>
        if operation.None? || !SameOp(s, operation.value)
        then w.(client := c.(operation := Some(s), unused := None, restore := Some(s.version), unknown := true))
        else Sent(w, operation.value, c.operation.Some?, fault)
      case Absent =>
        if operation.None? then w.(client := c.(phase := Fetching))
        else Sent(w, operation.value, c.operation.Some?, fault)
  }

  // What the component makes of a reply to the request it waits for.
  function Replied(w: World, reply: Reply, fault: Fault): World
    requires w.client.phase.Waiting?
  {
    var c := w.client.(phase := Idle);
    var (slot, cleared) := Clear(w.slot, fault);
    match reply
    case Confirmed =>
      var done := c.(unknown := false, restore := None);
      w.(slot := slot, outstanding := None, client := if cleared then done.(operation := None) else done.(blocked := true))
    case Rejected =>
      if w.client.phase.retrying then w.(client := c.(unknown := true))
      else
        var known := c.(unknown := false);
        w.(slot := slot, outstanding := None,
           client := if cleared then known.(operation := None) else known.(blocked := true, restore := None))
    case _ => w.(client := c.(unknown := true))
  }

  function Delivered(w: World, id: nat, effect: Effect, reply: Reply, fault: Fault): World {
    if id !in w.transit || !Honest(w.server, w.transit[id], effect, reply) then w
    else
      var v := w.(server := Processed(w.server, w.transit[id], effect), transit := w.transit - {id});
      if w.client.phase.Waiting? && w.client.phase.id == id then Replied(v, reply, fault) else v
  }

  // Events that the screen does not allow in a state change nothing.
  function Next(w: World, e: Event): World {
    var c := w.client;
    match e
    case Reload(throws) => w.(client := Mounted(Read(w.slot, throws)))
    case Choose(version) =>
      if c.phase != Idle || c.unknown || c.blocked then w else w.(client := c.(restore := Some(version)))
    case Close(fault) =>
      var (slot, cleared) := Clear(w.slot, fault);
      if c.phase != Idle || c.unknown || c.blocked then w
      else if c.unused.Some? && !cleared then w.(slot := slot)
      else w.(slot := if c.unused.Some? then slot else w.slot, client := c.(unused := None, restore := None))
    case Abandon(fault) =>
      var (slot, cleared) := Clear(w.slot, fault);
      if c.phase != Idle || !(c.unknown || c.blocked) then w
      else if !cleared then w.(slot := slot)
      else w.(slot := slot, client := Client(None, false, false, None, None, Idle), outstanding := None)
    case Click(throws, fault) => Clicked(w, throws, fault)
    case Fetched(op, fault) =>
      // A new key is one nobody has used.
      if c.phase != Fetching || EverSent(w, op.key) then w
      else Sent(w.(client := c.(unused := Some(op), phase := Idle)), op, false, fault)
    case FetchFails => if c.phase == Fetching then w.(client := c.(phase := Idle)) else w
    case Deliver(id, effect, reply, fault) => Delivered(w, id, effect, reply, fault)
    case ResponseLost => if c.phase.Waiting? then w.(client := c.(phase := Idle, unknown := true)) else w
  }

  function After(w: World, events: seq<Event>): World {
    if events == [] then w else Next(After(w, events[..|events| - 1]), events[|events| - 1])
  }

  // A first visit: nothing sent, whatever unreadable text or unsent receipt the storage may hold.
  predicate Start(w: World) {
    && (exists throws :: w.client == Mounted(Read(w.slot, throws)))
    && w.server == Server(map[], map[]) && w.transit == map[] && w.sends == [] && w.outstanding.None?
  }

  // ---- invariants ----

  // Requests under one key are all the same request.
  ghost predicate Agrees(w: World, op: Op) {
    forall i :: 0 <= i < |w.sends| && w.sends[i].key == op.key ==> SameOp(w.sends[i], op)
  }

  ghost predicate OneRequestPerKey(w: World) {
    && (forall i :: 0 <= i < |w.sends| ==> Agrees(w, w.sends[i]))
    && (w.client.operation.Some? ==> Agrees(w, w.client.operation.value))
    && (w.slot.Receipt? ==> Agrees(w, w.slot.op))
    && (w.client.unused.Some? ==> !EverSent(w, w.client.unused.value.key))
  }

  ghost predicate ServerOk(w: World) {
    && (forall id :: id in w.transit ==> id < |w.sends| && w.transit[id] == w.sends[id])
    && (forall k :: k in w.server.receipts ==> EverSent(w, k))
    && (forall k :: Created(w.server, k) <= if k in w.server.receipts then 1 else 0)
  }

  // How refs, state and storage go together.
  ghost predicate ScreenOk(w: World) {
    var c := w.client;
    && (c.operation.Some? ==> c.unused.None?)
    && (c.unknown ==> c.operation.Some? && c.restore.Some?)
    && (c.phase == Fetching ==> c.operation.None? && c.unused.None? && !c.blocked && c.restore.Some?)
    && (c.phase.Waiting? ==>
          && c.operation == Some(c.phase.op) && w.outstanding == c.operation && !c.blocked && c.restore.Some?
          && w.slot.Receipt? && SameOp(w.slot.op, c.phase.op))
  }

  // A request sent for the first time is the only one under its key until it is answered.
  ghost predicate FirstSendOk(w: World) {
    var p := w.client.phase;
    p.Waiting? && !p.retrying ==>
      && (forall id :: id in w.transit && w.transit[id].key == p.op.key ==> id == p.id)
      && (p.id in w.transit ==> w.transit[p.id] == p.op && p.op.key !in w.server.receipts)
  }

  ghost predicate Inv(w: World) {
    OneRequestPerKey(w) && ServerOk(w) && ScreenOk(w) && FirstSendOk(w)
  }

  // ---- kept by every event ----

  lemma StartOk(w: World)
    requires Start(w)
    ensures Inv(w)
  {
  }

  // Nothing about requests and the server changes.
  ghost predicate SameTraffic(w: World, v: World) {
    v.sends == w.sends && v.transit == w.transit && v.server == w.server
  }

  lemma SameTrafficOk(w: World, v: World)
    requires Inv(w) && SameTraffic(w, v)
    requires v.client.operation.Some? ==> v.client.operation == w.client.operation || v.slot == Receipt(v.client.operation.value) || w.slot == Receipt(v.client.operation.value)
    requires v.slot.Receipt? ==> v.slot == w.slot
    requires v.client.unused.Some? ==> v.client.unused == w.client.unused
    requires v.client.phase.Waiting? ==> v.client.phase == w.client.phase
    ensures OneRequestPerKey(v) && ServerOk(v) && FirstSendOk(v)
  {
    hide ScreenOk;
  }

  // What holds when a request is about to be stored and sent.
  ghost predicate ReadyToSend(w: World, op: Op, retrying: bool) {
    && Agrees(w, op) && !w.client.blocked && !w.client.phase.Waiting? && w.client.restore.Some?
    && (if retrying then w.client.operation == Some(op) else !EverSent(w, op.key))
    && (w.client.unused.Some? ==> w.client.unused == Some(op))
  }

  lemma NotStoredOk(w: World, op: Op, retrying: bool, fault: Fault)
    requires Inv(w) && ReadyToSend(w, op, retrying) && !Write(w.slot, op, fault).1
    ensures Inv(Sent(w, op, retrying, fault))
  {
    var v := Sent(w, op, retrying, fault);
    assert forall o :: Agrees(w, o) ==> Agrees(v, o);
    assert forall k :: EverSent(w, k) <==> EverSent(v, k);
    hide Agrees, EverSent;
  }

  lemma SentKeys(w: World, op: Op, retrying: bool, fault: Fault)
    requires Write(w.slot, op, fault).1
    ensures var v := Sent(w, op, retrying, fault);
            && (forall k :: EverSent(v, k) <==> EverSent(w, k) || k == op.key)
            && (forall o :: Agrees(v, o) <==> Agrees(w, o) && (o.key == op.key ==> SameOp(op, o)))
  {
    var v := Sent(w, op, retrying, fault);
    assert v.sends[|w.sends|] == op;
    forall k | EverSent(w, k) ensures EverSent(v, k) {
      var i :| 0 <= i < |w.sends| && w.sends[i].key == k;
      assert v.sends[i] == w.sends[i];
    }
    forall o | Agrees(v, o) ensures Agrees(w, o) {
      assert forall i :: 0 <= i < |w.sends| ==> v.sends[i] == w.sends[i];
    }
  }

  lemma StoredOk(w: World, op: Op, retrying: bool, fault: Fault)
    requires Inv(w) && ReadyToSend(w, op, retrying) && Write(w.slot, op, fault).1
    ensures Inv(Sent(w, op, retrying, fault))
  {
    var v := Sent(w, op, retrying, fault);
    SentKeys(w, op, retrying, fault);
    assert ServerOk(v) by { hide Agrees, ScreenOk, FirstSendOk, OneRequestPerKey; }
    assert ScreenOk(v) by { hide Agrees, EverSent, ServerOk, FirstSendOk, OneRequestPerKey; }
    assert OneRequestPerKey(v) by {
      forall i | 0 <= i < |v.sends| ensures Agrees(v, v.sends[i]) {
        assert i < |w.sends| ==> v.sends[i] == w.sends[i] && Agrees(w, w.sends[i]);
        AgreesBack(w, op, i);
      }
      hide Agrees, EverSent, ServerOk, FirstSendOk, ScreenOk;
    }
    assert FirstSendOk(v) by { FirstSend(w, op, retrying, fault); }
    hide OneRequestPerKey, ServerOk, ScreenOk, FirstSendOk;
  }

  lemma AgreesBack(w: World, op: Op, i: nat)
    requires Agrees(w, op) && i <= |w.sends|
    ensures i < |w.sends| && w.sends[i].key == op.key ==> SameOp(op, w.sends[i])
  {
  }

  lemma FirstSend(w: World, op: Op, retrying: bool, fault: Fault)
    requires ServerOk(w) && (!retrying ==> !EverSent(w, op.key)) && Write(w.slot, op, fault).1
    ensures FirstSendOk(Sent(w, op, retrying, fault))
  {
    if !retrying {
      forall id | id in w.transit ensures w.transit[id].key != op.key {
        assert w.sends[id].key == op.key ==> EverSent(w, op.key);
      }
    }
  }

  lemma SentOk(w: World, op: Op, retrying: bool, fault: Fault)
    requires Inv(w) && ReadyToSend(w, op, retrying)
    ensures Inv(Sent(w, op, retrying, fault))
  {
    hide Inv, ReadyToSend;
    if Write(w.slot, op, fault).1 {
      StoredOk(w, op, retrying, fault);
    } else {
      NotStoredOk(w, op, retrying, fault);
    }
  }

  lemma ClickOk(w: World, throws: bool, fault: Fault)
    requires Inv(w)
    ensures Inv(Clicked(w, throws, fault))
  {
    var c := w.client;
    var operation := if c.operation.Some? then c.operation else c.unused;
    var reading := Read(w.slot, throws);
    if c.phase == Idle && !c.blocked && c.restore.Some? {
      if operation.Some? && (reading.Absent? || (reading.Stored? && SameOp(reading.op, operation.value))) {
        assert ReadyToSend(w, operation.value, c.operation.Some?) by {
          hide ServerOk, FirstSendOk;
          UnsentAgrees(w, operation.value);
        }
        hide Inv, Sent, ReadyToSend;
        SentOk(w, operation.value, c.operation.Some?, fault);
      } else {
        SameTrafficOk(w, Clicked(w, throws, fault));
        hide OneRequestPerKey, ServerOk, FirstSendOk, Sent;
      }
    }
  }

  lemma UnsentAgrees(w: World, op: Op)
    ensures !EverSent(w, op.key) ==> Agrees(w, op)
  {
  }

  lemma FetchedOk(w: World, op: Op, fault: Fault)
    requires Inv(w) && w.client.phase == Fetching && !EverSent(w, op.key)
    ensures Inv(Next(w, Fetched(op, fault)))
  {
    var v := w.(client := w.client.(unused := Some(op), phase := Idle));
    assert w.client.operation.None?;
    assert Inv(v) by {
      assert forall o :: Agrees(w, o) ==> Agrees(v, o);
      assert EverSent(v, op.key) <==> EverSent(w, op.key);
      hide Agrees, EverSent;
    }
    UnsentAgrees(v, op);
    assert ReadyToSend(v, op, false);
    SentOk(v, op, false, fault);
    hide Sent, Inv, ReadyToSend;
  }

  lemma DeliveredOk(w: World, id: nat, effect: Effect, reply: Reply, fault: Fault)
    requires Inv(w)
    ensures Inv(Delivered(w, id, effect, reply, fault))
  {
    if id in w.transit && Honest(w.server, w.transit[id], effect, reply) {
      var v := w.(server := Processed(w.server, w.transit[id], effect), transit := w.transit - {id});
      ProcessedOk(w, id, effect, v);
      if w.client.phase.Waiting? && w.client.phase.id == id {
        hide ServerOk, OneRequestPerKey, FirstSendOk;
        RepliedOk(v, reply, fault);
      }
    }
  }

  lemma ProcessedOk(w: World, id: nat, effect: Effect, v: World)
    requires Inv(w) && id in w.transit
    requires v == w.(server := Processed(w.server, w.transit[id], effect), transit := w.transit - {id})
    ensures Inv(v)
  {
    assert EverSent(w, w.transit[id].key) by {
      assert w.sends[id].key == w.transit[id].key;
    }
    assert forall k :: EverSent(v, k) <==> EverSent(w, k);
    assert forall o :: Agrees(v, o) <==> Agrees(w, o);
    assert OneRequestPerKey(v) && ScreenOk(v) by { hide Agrees, EverSent, ServerOk, FirstSendOk; }
    assert ServerOk(v) by { hide Agrees, EverSent, OneRequestPerKey, ScreenOk, FirstSendOk; }
    assert FirstSendOk(v) by { hide Agrees, EverSent, OneRequestPerKey, ScreenOk, ServerOk; }
    hide OneRequestPerKey, ServerOk, ScreenOk, FirstSendOk, Processed;
  }

  lemma RepliedOk(w: World, reply: Reply, fault: Fault)
    requires Inv(w) && w.client.phase.Waiting?
    ensures Inv(Replied(w, reply, fault))
  {
    SameTrafficOk(w, Replied(w, reply, fault));
    hide OneRequestPerKey, ServerOk, FirstSendOk;
  }

  lemma NextOk(w: World, e: Event)
    requires Inv(w)
    ensures Inv(Next(w, e))
  {
    match e
    case Click(throws, fault) => ClickOk(w, throws, fault);
    case Fetched(op, fault) => if w.client.phase == Fetching && !EverSent(w, op.key) { FetchedOk(w, op, fault); }
    case Deliver(id, effect, reply, fault) => DeliveredOk(w, id, effect, reply, fault);
    case _ => LocalOk(w, e);
  }

  // Events that concern the screen and the storage only.
  lemma LocalOk(w: World, e: Event)
    requires Inv(w) && !e.Click? && !e.Fetched? && !e.Deliver?
    ensures Inv(Next(w, e))
  {
    SameTrafficOk(w, Next(w, e));
    hide OneRequestPerKey, ServerOk, FirstSendOk;
    assert ScreenOk(Next(w, e));
  }

  lemma {:induction false} RunOk(w: World, events: seq<Event>)
    requires Inv(w)
    ensures Inv(After(w, events))
  {
    hide Inv, Next;
    if events != [] {
      RunOk(w, events[..|events| - 1]);
      NextOk(After(w, events[..|events| - 1]), events[|events| - 1]);
    }
  }

  // ---- what holds of every run ----

  // A step from `w` to `v` sends at most one request, and that request then stands in the storage.
  ghost predicate SendsStored(w: World, v: World) {
    v.sends == w.sends || exists op :: v.sends == w.sends + [op] && v.slot == Receipt(op)
  }

  // Whatever happens, a request that is sent is in the storage, identical in key, path and body.
  lemma SendIsStored(w: World, e: Event)
    ensures SendsStored(w, Next(w, e))
  {
    match e
    case Click(throws, fault) =>
      var operation := if w.client.operation.Some? then w.client.operation else w.client.unused;
      if operation.Some? {
        SentSends(w, operation.value, w.client.operation.Some?, fault);
      }
      hide Sent;
    case Fetched(op, fault) =>
      SentSends(w.(client := w.client.(unused := Some(op), phase := Idle)), op, false, fault);
      hide Sent;
    case _ =>
  }

  lemma SentSends(w: World, op: Op, retrying: bool, fault: Fault)
    ensures SendsStored(w, Sent(w, op, retrying, fault))
  {
  }

  // Every request sent under one key has the same path and body, so the server, which never acts twice
  // on one key, creates at most one Revision for each operation, whatever is lost, repeated or reloaded.
  lemma OneRevisionPerOperation(w: World, events: seq<Event>)
    requires Start(w)
    ensures var v := After(w, events);
            && (forall i, j :: 0 <= i < j < |v.sends| && v.sends[i].key == v.sends[j].key ==> SameOp(v.sends[i], v.sends[j]))
            && (forall k :: Created(v.server, k) <= 1)
            && (forall k :: Created(v.server, k) == 1 ==> k in v.server.receipts && EverSent(v, k))
  {
    StartOk(w);
    RunOk(w, events);
    var v := After(w, events);
    hide After, ScreenOk, FirstSendOk;
    forall i, j | 0 <= i < j < |v.sends| && v.sends[i].key == v.sends[j].key ensures SameOp(v.sends[i], v.sends[j]) {
      assert Agrees(v, v.sends[j]);
    }
  }

  // Where the screen takes a rejection as final, it is: the request is not on record, created nothing,
  // and no copy of it is still on its way.
  lemma RejectionIsFinal(w: World, id: nat, effect: Effect, fault: Fault)
    requires Inv(w) && w.client.phase.Waiting? && w.client.phase.id == id && id in w.transit
    requires Honest(w.server, w.transit[id], effect, Rejected)
    requires Delivered(w, id, effect, Rejected, fault).outstanding.None?
    ensures var v, key := Delivered(w, id, effect, Rejected, fault), w.client.phase.op.key;
            key !in v.server.receipts && Created(v.server, key) == 0 && forall i :: i in v.transit ==> v.transit[i].key != key
  {
    hide OneRequestPerKey;
    assert !w.client.phase.retrying;
  }
}
