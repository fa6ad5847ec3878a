/** Two honest programs together: how stretches of their runs add up to a session, and the
    file phase. */
module Honest {
  import opened Prelude
  import opened Messages
  import opened Network
  import opened Session
  import opened Legs
  import opened Transfer

  datatype Outcome = Outcome(sender: Result, receiver: Result, senderLog: seq<Event>, receiverLog: seq<Event>)

  /** What both programs take for granted; users, keys, PINs and files are arbitrary. */
  ghost predicate Setting(e: Env, r: Env)
  {
    && e.role.Sending? && r.role.Receiving?
    && e.json == r.json && Faithful(e.json)
    && e.scheme == r.scheme
    && |e.nonce| == 32 && |r.nonce| == 32
  }

  ghost predicate Leads(e: Env, r: Env, n: Net<Peer, Message>, n': Net<Peer, Message>)
  {
    Reach(Program(e), Program(r), n, n')
  }

  /** The session can run from `n` to a standstill with this outcome. */
  ghost predicate Completes(e: Env, r: Env, n: Net<Peer, Message>, o: Outcome)
  {
    exists toRight, toLeft ::
      Leads(e, r, n, Net(Peer(Halt(o.sender), o.senderLog), Peer(Halt(o.receiver), o.receiverLog), toRight, toLeft))
  }

  lemma Here(e: Env, r: Env, n: Net<Peer, Message>)
    ensures Leads(e, r, n, n)
  {
    ReachRefl(Program(e), Program(r), n);
  }

  lemma SenderMoves(e: Env, r: Env, n0: Net<Peer, Message>, n: Net<Peer, Message>,
                    ins: seq<Message>, closed: bool, outs: seq<Message>, s: Peer, behind: seq<Message>)
    requires Leads(e, r, n0, n)
    requires Walk(e, n.left, ins, closed, outs, s)
    requires n.toLeft == ins + behind
    requires closed ==> n.right.pc.Halt? && behind == []
    ensures Leads(e, r, n0, Net(s, n.right, n.toRight + outs, behind))
  {
    LiftLeft(Program(e), Program(r), n, ins, closed, outs, s, behind);
    ReachTrans(Program(e), Program(r), n0, n, Net(s, n.right, n.toRight + outs, behind));
  }

  lemma ReceiverMoves(e: Env, r: Env, n0: Net<Peer, Message>, n: Net<Peer, Message>,
                      ins: seq<Message>, closed: bool, outs: seq<Message>, s: Peer, behind: seq<Message>)
    requires Leads(e, r, n0, n)
    requires Walk(r, n.right, ins, closed, outs, s)
    requires n.toRight == ins + behind
    requires closed ==> n.left.pc.Halt? && behind == []
    ensures Leads(e, r, n0, Net(n.left, s, behind, n.toLeft + outs))
  {
    LiftRight(Program(e), Program(r), n, ins, closed, outs, s, behind);
    ReachTrans(Program(e), Program(r), n0, n, Net(n.left, s, behind, n.toLeft + outs));
  }

  lemma Continues(e: Env, r: Env, n0: Net<Peer, Message>, n: Net<Peer, Message>, o: Outcome)
    requires Leads(e, r, n0, n) && Completes(e, r, n, o)
    ensures Completes(e, r, n0, o)
  {
    var toRight, toLeft :|
      Leads(e, r, n, Net(Peer(Halt(o.sender), o.senderLog), Peer(Halt(o.receiver), o.receiverLog), toRight, toLeft));
    ReachTrans(Program(e), Program(r), n0, n,
      Net(Peer(Halt(o.sender), o.senderLog), Peer(Halt(o.receiver), o.receiverLog), toRight, toLeft));
  }

  lemma Ends(e: Env, r: Env, n0: Net<Peer, Message>, n: Net<Peer, Message>)
    requires Leads(e, r, n0, n) && n.left.pc.Halt? && n.right.pc.Halt?
    ensures Completes(e, r, n0, Outcome(n.left.pc.result, n.right.pc.result, n.left.log, n.right.log))
  {
  }

  // ----- Files -----

  /** The delimiter ends the session, cleanly only while a file is open. */
  lemma AfterDelimiter(r: Env, s: Peer)
    requires Faithful(r.json) && s.pc.Files?
    ensures AfterText(r, s, DELIMITER.data) ==
      s.(pc := Halt(if s.pc.open.Some? then Done else Failed(ParseError)))
  {
    assert |DELIMITER.data| == 1;
  }

  /** The end of the queue: delimiter, last response, and both programs stop. */
  lemma EndOfFiles(e: Env, r: Env, n: Net<Peer, Message>)
    requires Setting(e, r)
    requires n.left.pc.Queue? && n.left.pc.rest == []
    requires n.right.pc.Files? && n.toRight == []
    ensures Completes(e, r, n, Outcome(Done, if n.right.pc.open.Some? then Done else Failed(ParseError),
                                       n.left.log, n.right.log))
  {
    hide Walk, Leads, AfterText;
    var s1 := QueueTop(e, n.left.pc.tokens, [], n.left.log);
    var s2 := n.left.(pc := AwaitLast);
    Here(e, r, n);
    Stay(e, n.left);
    ThenInternal(e, n.left, [], false, [], n.left, s1);
    ThenSend(e, n.left, [], false, [], s1);
    SenderMoves(e, r, n, n, [], false, [] + [DELIMITER], s2, n.toLeft);
    var n1 := Net(s2, n.right, [] + ([] + [DELIMITER]), n.toLeft);

    var t1 := AfterText(r, n.right, DELIMITER.data);
    HearText(r, n.right, DELIMITER.data);
    AfterDelimiter(r, n.right);
    ReceiverMoves(e, r, n, n1, [DELIMITER], false, Reply(r, n.right), t1, []);
    var n2 := Net(s2, t1, [], n.toLeft + Reply(r, n.right));

    Stay(e, s2);
    if n2.toLeft != [] {
      ThenTake(e, s2, [], [], s2, n2.toLeft[0]);
      SenderMoves(e, r, n, n2, [] + [n2.toLeft[0]], false, [], s2.(pc := Halt(Done)), n2.toLeft[1..]);
      Ends(e, r, n, Net(s2.(pc := Halt(Done)), t1, [] + [], n2.toLeft[1..]));
    } else {
      ThenEnd(e, s2, [], false, [], s2);
      SenderMoves(e, r, n, n2, [], true, [], s2.(pc := Halt(Done)), []);
      Ends(e, r, n, Net(s2.(pc := Halt(Done)), t1, [] + [], []));
    }
  }

  lemma TransmitFile(e: Env, r: Env, n: Net<Peer, Message>) returns (n': Net<Peer, Message>)
    requires Setting(e, r)
    requires n.left.pc.Queue? && n.right.pc.Files? && n.toRight == []
    requires n.left.pc.tokens == n.right.pc.tokens
    requires n.left.pc.rest != [] && n.left.pc.rest[0].id in n.left.pc.tokens
    ensures Leads(e, r, n, n')
    ensures n'.toRight == [] && n'.left == n.left.(pc := Queue(n.left.pc.tokens, n.left.pc.rest[1..]))
    ensures n'.right.log == n.right.log + FileEvents(n.right.pc.files, n.left.pc.rest[0])
    ensures n'.right.pc.Files? && n'.right.pc.tokens == n.right.pc.tokens && n'.right.pc.files == n.right.pc.files
    ensures n'.right.pc.open.Some? <==> InOffer(n.right.pc.files, n.left.pc.rest[0].id)
  {
    hide Walk, Leads;
    var f := n.left.pc.rest[0];
    var ms := FileMessages(e.json, n.left.pc.tokens, f);
    var s := n.left.(pc := Queue(n.left.pc.tokens, n.left.pc.rest[1..]));
    Here(e, r, n);
    SendFile(e, n.left.pc.tokens, n.left.pc.rest, n.left.log);
    SenderMoves(e, r, n, n, [], false, ms, s, n.toLeft);
    assert [] + ms == ms;
    HearFile(r, n.right, f);
    var open := if InOffer(n.right.pc.files, f.id) then Some(f.id) else None;
    var used := n.right.pc.used + (if n.right.pc.open.Some? then 1 else 0);
    var t := Peer(Files(n.right.pc.tokens, n.right.pc.files, open, used),
                  n.right.log + FileEvents(n.right.pc.files, f));
    assert ms == ms + [];
    ReceiverMoves(e, r, n, Net(s, n.right, ms, n.toLeft), ms, false, Reply(r, n.right), t, []);
    n' := Net(s, t, [], n.toLeft + Reply(r, n.right));
  }

  lemma SkipFile(e: Env, r: Env, n: Net<Peer, Message>) returns (n': Net<Peer, Message>)
    requires n.left.pc.Queue? && n.left.pc.rest != [] && n.left.pc.rest[0].id !in n.left.pc.tokens
    ensures Leads(e, r, n, n')
    ensures n' == n.(left := Peer(Queue(n.left.pc.tokens, n.left.pc.rest[1..]),
                                  n.left.log + [FileError(n.left.pc.rest[0].id, "Failed to get file token")]))
  {
    hide Walk, Leads;
    var s := QueueTop(e, n.left.pc.tokens, n.left.pc.rest, n.left.log);
    Here(e, r, n);
    Stay(e, n.left);
    ThenInternal(e, n.left, [], false, [], n.left, s);
    assert n.toLeft == [] + n.toLeft && n.toRight + [] == n.toRight;
    SenderMoves(e, r, n, n, [], false, [], s, n.toLeft);
    n' := Net(s, n.right, n.toRight, n.toLeft);
  }

  function FilesOutcome(files: seq<FileDto>, ids: set<string>, queue: seq<OutFile>, open: bool,
                        senderLog: seq<Event>, receiverLog: seq<Event>): Outcome
  {
    Outcome(Done, if EndsOpen(files, ids, queue, open) then Done else Failed(ParseError),
            senderLog + Skipped(ids, queue), receiverLog + Deliveries(files, ids, queue))
  }

  lemma FilesOutcomeStep(files: seq<FileDto>, ids: set<string>, queue: seq<OutFile>, open: bool,
                         senderLog: seq<Event>, receiverLog: seq<Event>)
    requires queue != []
    ensures var f := queue[0];
            FilesOutcome(files, ids, queue, open, senderLog, receiverLog)
            == if f.id in ids
               then FilesOutcome(files, ids, queue[1..], InOffer(files, f.id), senderLog,
                                 receiverLog + FileEvents(files, f))
               else FilesOutcome(files, ids, queue[1..], open,
                                 senderLog + [FileError(f.id, "Failed to get file token")], receiverLog)
  {
    var f := queue[0];
    if f.id in ids {
      Assoc(receiverLog, FileEvents(files, f), Deliveries(files, ids, queue[1..]));
      assert [] + Skipped(ids, queue[1..]) == Skipped(ids, queue[1..]);
    } else {
      Assoc(senderLog, [FileError(f.id, "Failed to get file token")], Skipped(ids, queue[1..]));
      assert [] + Deliveries(files, ids, queue[1..]) == Deliveries(files, ids, queue[1..]);
    }
  }

  /** All queued files, in any number and with any content. */
  lemma {:induction false} FilePhase(e: Env, r: Env, n: Net<Peer, Message>)
    requires Setting(e, r)
    requires n.left.pc.Queue? && n.right.pc.Files? && n.toRight == []
    requires n.left.pc.tokens == n.right.pc.tokens
    ensures Completes(e, r, n, FilesOutcome(n.right.pc.files, n.left.pc.tokens.Keys, n.left.pc.rest,
                                            n.right.pc.open.Some?, n.left.log, n.right.log))
    decreases |n.left.pc.rest|
  {
    hide Walk, Leads;
    var ids, files, queue := n.left.pc.tokens.Keys, n.right.pc.files, n.left.pc.rest;
    var o := FilesOutcome(files, ids, queue, n.right.pc.open.Some?, n.left.log, n.right.log);
    if queue == [] {
      EndOfFiles(e, r, n);
      assert Skipped(ids, queue) == [] && Deliveries(files, ids, queue) == [];
      assert o.senderLog == n.left.log && o.receiverLog == n.right.log;
    } else {
      var n' := n;
      if queue[0].id in ids {
        n' := TransmitFile(e, r, n);
      } else {
        n' := SkipFile(e, r, n);
      }
      FilesOutcomeStep(files, ids, queue, n.right.pc.open.Some?, n.left.log, n.right.log);
      FilePhase(e, r, n');
      Continues(e, r, n, n', o);
    }
  }
}
