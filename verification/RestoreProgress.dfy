// What a restore comes to when the storage works: the request is stored, sent, recorded once and
// cleared away, after a lost response and a reload as well.
module RestoreProgress {
  import opened Common
  import opened RestoreRetry

  lemma FromHere(w: World, events: seq<Event>, a: Event, b: Event)
    ensures After(w, events + [a]) == Next(After(w, events), a)
    ensures After(w, events + [a, b]) == Next(Next(After(w, events), a), b)
  {
    hide Next;
    assert (events + [a])[..|events|] == events;
    assert (events + [a, b])[..|events| + 1] == events + [a];
  }

  // A dialog is open on a Revision, and nothing is stored or remembered.
  predicate Open(w: World, version: int) {
    w.client == Client(Some(version), false, false, None, None, Idle) && w.slot == Empty
  }

  // A click and the fetched state send a new request: it is in the storage, on its way, and awaited.
  lemma NewRequestGoes(w: World, events: seq<Event>, version: int, op: Op)
    requires Start(w) && Open(After(w, events), version) && forall i :: 0 <= i < |After(w, events).sends| ==> After(w, events).sends[i].key != op.key
    ensures var v, id := After(w, events), |After(w, events).sends|;
            After(w, events + [Click(false, NoFault), Fetched(op, NoFault)])
            == v.(client := Client(Some(version), false, false, Some(op), None, Waiting(op, false, id)), slot := Receipt(op),
                  transit := v.transit[id := op], sends := v.sends + [op], outstanding := Some(op))
  {
    FromHere(w, events, Click(false, NoFault), Fetched(op, NoFault));
  }

  // The dialog waits for a request that is on its way.
  predicate Awaits(w: World, version: int, op: Op, retrying: bool, id: nat) {
    && w.client == Client(Some(version), retrying, false, Some(op), None, Waiting(op, retrying, id))
    && id in w.transit && w.transit[id] == op
  }

  // Once the server confirms, the request is on record under its key, its effect has happened if it had
  // not before, and dialog and storage are empty.
  lemma ConfirmedRequest(w: World, version: int, op: Op, retrying: bool, id: nat, effect: Effect)
    requires Awaits(w, version, op, retrying, id)
    requires if op.key in w.server.receipts then w.server.receipts[op.key] == (op.path, op.body) else effect != NoEffect
    ensures var v := Next(w, Deliver(id, effect, Confirmed, NoFault));
            && v.client == Client(None, false, false, None, None, Idle) && v.slot == Empty && v.outstanding == None
            && v.transit == w.transit - {id} && v.sends == w.sends
            && v.server.receipts == w.server.receipts[op.key := (op.path, op.body)]
            && (forall k :: Created(v.server, k) ==
                  Created(w.server, k) + if k == op.key && k !in w.server.receipts && effect == Creates then 1 else 0)
  {
  }

  // A rejected first send leaves the dialog open for another try, with nothing stored, and changes nothing
  // on the server.
  lemma RejectedRequest(w: World, version: int, op: Op, id: nat)
    requires Awaits(w, version, op, false, id) && op.key !in w.server.receipts
    ensures var v := Next(w, Deliver(id, NoEffect, Rejected, NoFault));
            v == w.(client := Client(Some(version), false, false, None, None, Idle), slot := Empty, outstanding := None, transit := w.transit - {id})
  {
  }

  // A rejected repetition proves nothing about the first send: the request stays remembered and stored.
  lemma RejectedRepetition(w: World, version: int, op: Op, id: nat)
    requires Awaits(w, version, op, true, id) && op.key !in w.server.receipts
    ensures Next(w, Deliver(id, NoEffect, Rejected, NoFault))
         == w.(client := Client(Some(version), true, false, Some(op), None, Idle), transit := w.transit - {id})
  {
  }

  // After a lost response, or one that cannot be used, the request is still remembered and stored.
  lemma LostResponse(w: World, version: int, op: Op, retrying: bool, id: nat, effect: Effect, reply: Reply)
    requires Awaits(w, version, op, retrying, id) && (reply.Garbled? || reply.Unavailable?)
    ensures Next(w, ResponseLost) == w.(client := Client(Some(version), true, false, Some(op), None, Idle))
    ensures Next(w, Deliver(id, effect, reply, NoFault))
         == w.(client := Client(Some(version), true, false, Some(op), None, Idle), transit := w.transit - {id}, server := Processed(w.server, op, effect))
  {
  }

  // A reload then shows the stored request again, and a click sends it unchanged.
  lemma ReloadedRequest(w: World, op: Op)
    requires w.slot == Receipt(op) && op.readable
    ensures Next(w, Reload(false)) == w.(client := Client(Some(op.version), true, false, Some(op), None, Idle))
  {
  }

  lemma ResentRequest(w: World, version: int, op: Op)
    requires w.client == Client(Some(version), true, false, Some(op), None, Idle)
    requires w.slot.Receipt? && w.slot.op.readable && w.slot.op.key == op.key && w.slot.op.path == op.path && w.slot.op.body == op.body
    ensures Next(w, Click(false, NoFault))
         == w.(client := Client(Some(version), true, false, Some(op), None, Waiting(op, true, |w.sends|)), slot := Receipt(op),
               transit := w.transit[|w.sends| := op], sends := w.sends + [op], outstanding := Some(op))
  {
  }

  // A run in which the response is lost after the server acted, the page is reloaded, and the request is
  // sent again and confirmed: the Revision was created once, and nothing is left stored.
  function LostAndRepeated(id: nat, op: Op, effect: Effect): seq<Event> {
    [Click(false, NoFault), Fetched(op, NoFault), Deliver(id, effect, Unavailable, NoFault), Reload(false),
     Click(false, NoFault), Deliver(id + 1, Creates, Confirmed, NoFault)]
  }

  lemma RepeatedRestore(w: World, events: seq<Event>, version: int, op: Op, effect: Effect)
    requires Start(w) && Open(After(w, events), version) && op.readable && op.version == version && effect != ChangesNothing
    requires forall i :: 0 <= i < |After(w, events).sends| ==> After(w, events).sends[i].key != op.key
    ensures var v, u := After(w, events), After(w, events + LostAndRepeated(|After(w, events).sends|, op, effect));
            && u.client == Client(None, false, false, None, None, Idle) && u.slot == Empty && u.outstanding == None
            && u.sends == v.sends + [op, op]
            && op.key !in v.server.receipts && u.server.receipts == v.server.receipts[op.key := (op.path, op.body)]
            && Created(u.server, op.key) == 1
  {
    hide Next, Clicked, Delivered, Sent;
    var v, id := After(w, events), |After(w, events).sends|;
    StartOk(w);
    RunOk(w, events);
    Unrecorded(v, op.key);
    var e := LostAndRepeated(id, op, effect);
    NewRequestGoes(w, events, version, op);
    var first := events + [e[0], e[1]];
    FromHere(w, first, e[2], e[3]);
    FromHere(w, first + [e[2], e[3]], e[4], e[5]);
    assert first + [e[2], e[3]] + [e[4], e[5]] == events + e;
    var sent := After(w, first);
    LostResponse(sent, version, op, false, id, effect, Unavailable);
    var lost := Next(sent, e[2]);
    ReloadedRequest(lost, op);
    var reloaded := Next(lost, e[3]);
    ResentRequest(reloaded, version, op);
    var resent := Next(reloaded, e[4]);
    ConfirmedRequest(resent, version, op, true, id + 1, Creates);
    ActedOnce(v.server, op, effect);
  }

  lemma ActedOnce(s: Server, op: Op, effect: Effect)
    requires op.key !in s.receipts && Created(s, op.key) == 0 && effect != ChangesNothing
    ensures var t := Processed(s, op, effect);
            && (op.key in t.receipts ==> t.receipts == s.receipts[op.key := (op.path, op.body)] && Created(t, op.key) == 1)
            && (op.key !in t.receipts ==> t == s)
  {
  }

  lemma Unrecorded(w: World, key: Key)
    requires Inv(w) && forall i :: 0 <= i < |w.sends| ==> w.sends[i].key != key
    ensures key !in w.server.receipts && Created(w.server, key) == 0
  {
    assert !EverSent(w, key);
  }
}
