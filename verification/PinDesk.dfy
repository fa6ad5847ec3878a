/** How a PIN gets from the user to the session: the session makes a one-use sender for each
    request, a task moves these senders into a slot, and `send_pin` takes what is in the slot. */
module PinDesk {
  import opened Prelude

  datatype Sent = Ok | AlreadySent | ChannelClosed

  /** Requests are numbered; `queue` holds the sender that is on its way to the slot. The
      methods are the atomic steps of the session, of the forwarding task and of the user. */
  class Desk {
    var alive: bool
    var asked: nat
    var waiting: bool
    var queue: Option<nat>
    var slot: Option<nat>
    var answer: Option<string>
    ghost var accepted: seq<string>
    ghost var delivered: seq<string>

    /** While the session waits, its sender is in exactly one place or has been used; otherwise
        no sender of it is left. What the user was told is accepted is what the session gets. */
    ghost predicate Valid()
      reads this
    {
      && (if alive then accepted == delivered + (if answer.Some? then [answer.value] else [])
          else delivered <= accepted && |accepted| <= |delivered| + 1 && !waiting)
      && |delivered| <= asked
      && (waiting ==> alive && asked > 0 && |delivered| == asked - 1)
      && (answer.Some? ==> waiting && queue == slot == None)
      && (alive && !waiting ==> |delivered| == asked && queue == slot == None)
      && (waiting && answer.None?
          ==> (queue == Some(asked - 1) && slot == None) || (queue == None && slot == Some(asked - 1)))
    }

    /** The request that the user can answer now. */
    ghost predicate Open()
      reads this
    {
      waiting && slot == Some(asked - 1)
    }

    constructor ()
      ensures Valid() && alive && !waiting && accepted == [] && delivered == []
    {
      alive, asked, waiting := true, 0, false;
      queue, slot, answer := None, None, None;
      accepted, delivered := [], [];
    }

    /** The session asks, at the top of its loop. */
    method Ask()
      requires Valid() && alive && !waiting
      modifies this
      ensures Valid() && alive && waiting && asked == old(asked) + 1 && queue == Some(old(asked))
      ensures accepted == old(accepted) && delivered == old(delivered)
    {
      queue, asked, waiting := Some(asked), asked + 1, true;
    }

    /** The forwarding task; a sender already in the slot would be dropped, but there is none
        while the session lives. */
    method Forward()
      requires Valid() && queue.Some?
      modifies this`queue, this`slot
      ensures Valid() && slot == old(queue) && queue == None
      ensures alive ==> old(slot) == None && Open()
    {
      slot, queue := queue, None;
    }

    /** The user's PIN. It is accepted exactly if there is an open request, and then that
        request, and no other, gets it. */
    method SendPin(pin: string) returns (r: Sent)
      requires Valid()
      modifies this
      ensures Valid() && slot == None
      ensures r == Ok <==> old(Open())
      ensures r == AlreadySent <==> old(slot) == None
      ensures accepted == old(accepted) + if r == Ok then [pin] else []
      ensures answer == if r == Ok then Some(pin) else old(answer)
      ensures asked == old(asked) && waiting == old(waiting) && delivered == old(delivered) && queue == old(queue)
    {
      if slot == None {
        return AlreadySent;
      }
      slot := None;
      if !alive || !waiting {
        return ChannelClosed;
      }
      answer := Some(pin);
      accepted := accepted + [pin];
      return Ok;
    }

    /** The session reads its answer: answer number n goes to request number n. */
    method Receive() returns (pin: string)
      requires Valid() && answer.Some?
      modifies this
      ensures Valid() && alive && !waiting && delivered == old(delivered) + [pin] == accepted == old(accepted)
      ensures |delivered| == asked == old(asked)
    {
      pin := answer.value;
      delivered := delivered + [pin];
      answer, waiting := None, false;
    }

    /** The session ends; an answer it has not read is lost with it, the only one that can be. */
    method End()
      requires Valid()
      modifies this
      ensures Valid() && !alive && delivered == old(delivered) && accepted == old(accepted)
      ensures accepted == delivered || (old(answer).Some? && accepted == delivered + [old(answer).value]) || !old(alive)
    {
      alive, waiting, answer := false, false, None;
    }
  }
}
