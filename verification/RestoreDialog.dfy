// The restore dialog as a program: refs, component state and session storage updated statement by
// statement, each handler proved to make exactly the step of the protocol it stands for.
module RestoreDialog {
  import opened Common
  import opened RestoreRetry

  class Dialog {
    // component state and refs
    var restore: Option<int>
    var restoreUnknown: bool
    var receiptBlocked: bool
    var restoreOperation: Option<Op>
    var unusedOperation: Option<Op>
    var phase: Phase
    // session storage
    var slot: Slot
    // what is sent, and what the rest of the world does with it
    ghost var server: Server
    ghost var transit: map<nat, Op>
    var sends: seq<Op>
    ghost var outstanding: Option<Op>

    ghost function View(): World reads this {
      World(Client(restore, restoreUnknown, receiptBlocked, restoreOperation, unusedOperation, phase),
            slot, server, transit, sends, outstanding)
    }

    ghost predicate Valid() reads this { Inv(View()) }

    // A first visit over whatever the storage holds.
    constructor (slot: Slot, readThrows: bool)
      ensures Valid() && Start(View()) && this.slot == slot
    {
      var reading := Read(slot, readThrows);
      restore := if reading.Stored? then Some(reading.op.version) else None;
      restoreUnknown := reading.Stored?;
      receiptBlocked := reading.Unreadable?;
      restoreOperation := if reading.Stored? then Some(reading.op) else None;
      unusedOperation, phase := None, Idle;
      this.slot := slot;
      server, transit, sends, outstanding := Server(map[], map[]), map[], [], None;
      new;
      assert View().client == Mounted(Read(slot, readThrows));
      StartOk(View());
    }

    // A full reload: everything but the storage starts again.
    method Reload(readThrows: bool)
      requires Valid()
      modifies this
      ensures Valid() && View() == Next(old(View()), Event.Reload(readThrows))
    {
      NextOk(View(), Event.Reload(readThrows));
      hide Inv;
      var reading := Read(slot, readThrows);
      restore := if reading.Stored? then Some(reading.op.version) else None;
      restoreUnknown := reading.Stored?;
      receiptBlocked := reading.Unreadable?;
      restoreOperation := if reading.Stored? then Some(reading.op) else None;
      unusedOperation, phase := None, Idle;
    }

    // Removes the stored request and checks that it is gone.
    method ClearReceipt(fault: Fault) returns (cleared: bool)
      modifies this`slot
      ensures (slot, cleared) == Clear(old(slot), fault)
    {
      if fault == Throws {
        return false;
      }
      if fault != Ignored {
        slot := Empty;
      }
      cleared := fault != CheckThrows && slot == Empty;
    }

    // Stores the request and checks that it reads back.
    method StoreReceipt(op: Op, fault: Fault) returns (stored: bool)
      modifies this`slot
      ensures (slot, stored) == Write(old(slot), op, fault)
    {
      if fault == Throws {
        return false;
      }
      if fault != Ignored {
        slot := Receipt(op);
      }
      stored := fault != CheckThrows && slot == Receipt(op);
    }

    method Abandon(fault: Fault)
      requires Valid()
      modifies this
      ensures Valid() && View() == Next(old(View()), Event.Abandon(fault))
    {
      NextOk(View(), Event.Abandon(fault));
      hide Inv;
      if phase != Idle || !(restoreUnknown || receiptBlocked) {
        return;
      }
      var cleared := ClearReceipt(fault);
      if !cleared {
        return;
      }
      outstanding := None;
      restoreOperation, unusedOperation := None, None;
      receiptBlocked, restoreUnknown, restore := false, false, None;
    }

    method CloseModal(fault: Fault)
      requires Valid()
      modifies this
      ensures Valid() && View() == Next(old(View()), Event.Close(fault))
    {
      NextOk(View(), Event.Close(fault));
      hide Inv;
      if phase != Idle || restoreUnknown || receiptBlocked {
        return;
      }
      if unusedOperation.Some? {
        var cleared := ClearReceipt(fault);
        if !cleared {
          return;
        }
      }
      unusedOperation, restore := None, None;
    }

    // The restore button.
    method OnClick(readThrows: bool, fault: Fault)
      requires Valid()
      modifies this
      ensures Valid() && View() == Next(old(View()), Event.Click(readThrows, fault))
    {
      NextOk(View(), Event.Click(readThrows, fault));
      hide Inv;
      if phase != Idle || receiptBlocked || restore.None? {
        return;
      }
      var retrying := restoreOperation.Some?;
      var operation := if restoreOperation.Some? then restoreOperation else unusedOperation;
      var stored := Read(slot, readThrows);
      if stored == Unreadable {
        receiptBlocked := true;
        return;
      }
      if stored.Stored? && (operation.None? || !SameOp(stored.op, operation.value)) {
        restoreOperation, unusedOperation := Some(stored.op), None;
        restore, restoreUnknown := Some(stored.op.version), true;
        return;
      }
      if operation.None? {
        phase := Fetching;
        return;
      }
      StoreAndSend(operation.value, retrying, fault);
    }

    // The current state of the resource has arrived, and the request was made from it.
    method OnFetched(op: Op, fault: Fault)
      requires Valid() && phase == Fetching && !EverSent(View(), op.key)
      modifies this
      ensures Valid() && View() == Next(old(View()), Event.Fetched(op, fault))
    {
      NextOk(View(), Event.Fetched(op, fault));
      hide Inv, EverSent;
      unusedOperation := Some(op);
      StoreAndSend(op, false, fault);
    }

    method StoreAndSend(op: Op, retrying: bool, fault: Fault)
      modifies this
      ensures View() == Sent(old(View()), op, retrying, fault)
    {
      phase := Idle;
      var stored := StoreReceipt(op, fault);
      if !stored {
        return;
      }
      restoreOperation, unusedOperation := Some(op), None;
      phase := Waiting(op, retrying, |sends|);
      transit := transit[|sends| := op];
      sends := sends + [op];
      outstanding := Some(op);
    }

    // The reply to the request the dialog waits for, after the server did its part.
    method OnReply(effect: Effect, reply: Reply, fault: Fault)
      requires Valid() && phase.Waiting? && phase.id in transit && Honest(server, transit[phase.id], effect, reply)
      modifies this
      ensures Valid() && View() == Next(old(View()), Event.Deliver(old(phase.id), effect, reply, fault))
    {
      NextOk(View(), Event.Deliver(phase.id, effect, reply, fault));
      hide Inv, Processed;
      server := Processed(server, transit[phase.id], effect);
      transit := transit - {phase.id};
      HandleReply(reply, fault);
    }

    method HandleReply(reply: Reply, fault: Fault)
      requires phase.Waiting?
      modifies this
      ensures View() == Replied(old(View()), reply, fault)
    {
      var retrying := phase.retrying;
      phase := Idle;
      if reply == Confirmed {
        Confirm(fault);
      } else if reply == Rejected && !retrying {
        Refuse(fault);
      } else {
        restoreUnknown := true;
      }
    }

    method Confirm(fault: Fault)
      modifies this`restoreUnknown, this`restore, this`outstanding, this`slot, this`receiptBlocked, this`restoreOperation
      ensures restoreUnknown == false && restore == None && outstanding == None
      ensures slot == Clear(old(slot), fault).0
      ensures if Clear(old(slot), fault).1 then restoreOperation == None && receiptBlocked == old(receiptBlocked)
              else restoreOperation == old(restoreOperation) && receiptBlocked
    {
      restoreUnknown, restore := false, None;
      outstanding := None;
      var cleared := ClearReceipt(fault);
      if !cleared {
        receiptBlocked := true;
        return;
      }
      restoreOperation := None;
    }

    method Refuse(fault: Fault)
      modifies this`restoreUnknown, this`restore, this`outstanding, this`slot, this`receiptBlocked, this`restoreOperation
      ensures restoreUnknown == false && outstanding == None && slot == Clear(old(slot), fault).0
      ensures if Clear(old(slot), fault).1 then restoreOperation == None && receiptBlocked == old(receiptBlocked) && restore == old(restore)
              else restoreOperation == old(restoreOperation) && receiptBlocked && restore == None
    {
      restoreUnknown := false;
      outstanding := None;
      var cleared := ClearReceipt(fault);
      if cleared {
        restoreOperation := None;
      } else {
        receiptBlocked, restore := true, None;
      }
    }

    method OnLost()
      requires Valid()
      modifies this
      ensures Valid() && View() == Next(old(View()), ResponseLost)
    {
      NextOk(View(), ResponseLost);
      hide Inv;
      if phase.Waiting? {
        phase, restoreUnknown := Idle, true;
      }
    }
  }
}
