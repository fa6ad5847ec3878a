/** Whether a session contains a message that its reader cannot read. */
module Conformity {
  import opened Prelude
  import opened Messages
  import opened Network
  import opened Session
  import opened Transfer
  import opened Honest
  import opened SessionOutcome
  import opened Fidelity

  /** The program has met a message, or the end of the channel, in place of what it can read. */
  predicate Garbled(s: Peer)
  {
    s.pc == Fail(ParseError) || s.pc == Fail(WrongKind)
  }

  /** The configurations in which that happens: the sender rejects the receiver's token while
      the receiver, without a PIN to ask for, waits for the file list; or the receiver's PIN is
      empty; or all is well up to the offer, and then the receiver's user goes away or no file
      is open at the end. */
  ghost predicate Misread(e: Env, r: Env)
    requires e.role.Sending? && r.role.Receiving?
  {
    var nonce := e.nonce + r.nonce;
    Trusts(r, e, nonce) &&
    if !Trusts(e, r, nonce) then Unguarded(r)
    else if r.pin.Some? && r.pin.value.pin == "" then true
    else
      && (r.pin.None? || PinMet(r, e.guesses))
      && (Unguarded(e) || PinMet(e, r.guesses))
      && (r.role.selection.Abandoned?
          || (r.role.selection.Chosen? && !EndsOpen(e.role.files, r.role.selection.ids, e.role.queue, false)))
  }

  ghost predicate EndsGarbled(o: Outcome)
  {
    || o.sender == Failed(ParseError) || o.sender == Failed(WrongKind)
    || o.receiver == Failed(ParseError) || o.receiver == Failed(WrongKind)
  }

  lemma ExpectedGarbled(e: Env, r: Env)
    requires Setting(e, r)
    ensures EndsGarbled(Expected(e, r)) <==> Misread(e, r)
  {
    hide Trusts, EndsOpen, Skipped, Deliveries;
  }

  /** Wherever an honest session comes to rest, one of the programs has met something it could
      not read exactly in these configurations. */
  lemma MisreadExactly(e: Env, r: Env, n: Net<Peer, Message>)
    requires Setting(e, r)
    requires Reachable(e, r, n) && n.left.pc.Halt? && n.right.pc.Halt?
    ensures Garbled(n.left) || Garbled(n.right) <==> Misread(e, r)
  {
    hide Reachable, Expected, Misread;
    Conformance(e, r, n);
    ExpectedGarbled(e, r);
  }

  /** In all others no program has met such a thing at any reachable point ... */
  lemma NeverGarbled(e: Env, r: Env, n: Net<Peer, Message>)
    requires Setting(e, r) && Reachable(e, r, n) && !Misread(e, r)
    ensures !Garbled(n.left) && !Garbled(n.right)
  {
    hide Reachable, Expected, Misread;
    Conformance(e, r, n);
    ExpectedGarbled(e, r);
  }

  lemma OneMore(e: Env, r: Env, n: Net<Peer, Message>, side: Side)
    requires Reachable(e, r, n) && Step(Program(e), Program(r), n, side).Some?
    ensures Reachable(e, r, Step(Program(e), Program(r), n, side).value)
  {
    var n' := Step(Program(e), Program(r), n, side).value;
    assert Run(Program(e), Program(r), n, [side]) == Some(n') by { assert [side][1..] == []; }
    ReachTrans(Program(e), Program(r), Begin(e, r), n, n');
  }

  /** ... and at every reachable point a program that waits for a message can read the one at
      the head of its queue, and the end of the channel where it has come to that. */
  lemma HeadsAreReadable(e: Env, r: Env, n: Net<Peer, Message>)
    requires Setting(e, r) && Reachable(e, r, n) && !Misread(e, r)
    ensures Act(e, n.left) == Receive && n.toLeft != [] ==> !Garbled(Take(e, n.left, Some(n.toLeft[0])))
    ensures Act(r, n.right) == Receive && n.toRight != [] ==> !Garbled(Take(r, n.right, Some(n.toRight[0])))
    ensures Act(e, n.left) == Receive && n.toLeft == [] && n.right.pc.Halt? ==> !Garbled(Take(e, n.left, None))
    ensures Act(r, n.right) == Receive && n.toRight == [] && n.left.pc.Halt? ==> !Garbled(Take(r, n.right, None))
  {
    hide Reachable, Misread, Take;
    if Act(e, n.left) == Receive && (n.toLeft != [] || n.right.pc.Halt?) {
      OneMore(e, r, n, Left);
      NeverGarbled(e, r, Step(Program(e), Program(r), n, Left).value);
    }
    if Act(r, n.right) == Receive && (n.toRight != [] || n.left.pc.Halt?) {
      OneMore(e, r, n, Right);
      NeverGarbled(e, r, Step(Program(e), Program(r), n, Right).value);
    }
  }
}
