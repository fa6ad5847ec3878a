/** Stretches of a single program's run, the building blocks of whole sessions. */
module Legs {
  import opened Prelude
  import opened Chunks
  import opened Messages
  import opened Network
  import opened Session

  ghost predicate Walk(env: Env, s: Peer, ins: seq<Message>, closed: bool, outs: seq<Message>, s': Peer)
  {
    Leg(Program(env), s, ins, closed, outs, s')
  }

  lemma Stay(env: Env, s: Peer)
    ensures Walk(env, s, [], false, [], s)
  {
    LegRefl(Program(env), s, false);
  }

  lemma Close(env: Env, s: Peer, ins: seq<Message>, outs: seq<Message>, s': Peer)
    requires Walk(env, s, ins, false, outs, s')
    ensures Walk(env, s, ins, true, outs, s')
  {
    LegRefl(Program(env), s', true);
    LegTrans(Program(env), s, ins, false, outs, s', [], true, [], s');
    assert ins + [] == ins && outs + [] == outs;
  }

  lemma Join(env: Env, s0: Peer, i1: seq<Message>, c1: bool, o1: seq<Message>, s1: Peer,
             i2: seq<Message>, c2: bool, o2: seq<Message>, s2: Peer)
    requires Walk(env, s0, i1, c1, o1, s1) && Walk(env, s1, i2, c2, o2, s2)
    requires c1 ==> i2 == []
    ensures Walk(env, s0, i1 + i2, c1 || c2, o1 + o2, s2)
  {
    LegJoin(Program(env), s0, i1, c1, o1, s1, i2, c2, o2, s2);
  }

  lemma ThenInternal(env: Env, s0: Peer, ins: seq<Message>, c: bool, outs: seq<Message>, s1: Peer, s2: Peer)
    requires Walk(env, s0, ins, c, outs, s1)
    requires Act(env, s1) == Internal(s2)
    ensures Walk(env, s0, ins, c, outs, s2)
  {
    LegInternal(Program(env), s1, s2);
    Join(env, s0, ins, c, outs, s1, [], false, [], s2);
    assert ins + [] == ins && outs + [] == outs;
  }

  lemma ThenEmit(env: Env, s0: Peer, ins: seq<Message>, c: bool, outs: seq<Message>, s1: Peer, m: Message, s2: Peer)
    requires Walk(env, s0, ins, c, outs, s1)
    requires Act(env, s1) == Emit(m, s2)
    ensures Walk(env, s0, ins, c, outs + [m], s2)
  {
    LegEmit(Program(env), s1, m, s2);
    Join(env, s0, ins, c, outs, s1, [], false, [m], s2);
    assert ins + [] == ins;
  }

  lemma ThenTake(env: Env, s0: Peer, ins: seq<Message>, outs: seq<Message>, s1: Peer, m: Message)
    requires Walk(env, s0, ins, false, outs, s1)
    requires Act(env, s1) == Receive
    ensures Walk(env, s0, ins + [m], false, outs, Take(env, s1, Some(m)))
  {
    LegTake(Program(env), s1, m);
    Join(env, s0, ins, false, outs, s1, [m], false, [], Take(env, s1, Some(m)));
    assert outs + [] == outs;
  }

  lemma ThenEnd(env: Env, s0: Peer, ins: seq<Message>, c: bool, outs: seq<Message>, s1: Peer)
    requires Walk(env, s0, ins, c, outs, s1)
    requires Act(env, s1) == Receive
    ensures Walk(env, s0, ins, true, outs, Take(env, s1, None))
  {
    LegEnd(Program(env), s1);
    Join(env, s0, ins, c, outs, s1, [], true, [], Take(env, s1, None));
    assert ins + [] == ins && outs + [] == outs;
  }

  lemma NothingAdded(ms: seq<Message>)
    ensures [] + ms == ms && ms + [] == ms
  {
  }

  lemma {:induction false} SendAll(env: Env, msgs: seq<Message>, next: Pc, log: seq<Event>)
    ensures Walk(env, Peer(Out(msgs, next), log), [], false, msgs, Peer(next, log))
    decreases |msgs|
  {
    hide Walk;
    var s := Peer(Out(msgs, next), log);
    Stay(env, s);
    if msgs == [] {
      ThenInternal(env, s, [], false, [], s, Peer(next, log));
    } else {
      var s1 := Peer(Out(msgs[1..], next), log);
      ThenEmit(env, s, [], false, [], s, msgs[0], s1);
      SendAll(env, msgs[1..], next, log);
      Join(env, s, [], false, [] + [msgs[0]], s1, [], false, msgs[1..], Peer(next, log));
      assert [] + [msgs[0]] + msgs[1..] == msgs;
      NothingAdded([]);
    }
  }

  lemma ThenSend(env: Env, s0: Peer, ins: seq<Message>, c: bool, outs: seq<Message>, s1: Peer)
    requires Walk(env, s0, ins, c, outs, s1)
    requires s1.pc.Out?
    ensures Walk(env, s0, ins, c, outs + s1.pc.msgs, Peer(s1.pc.next, s1.log))
  {
    hide Walk;
    SendAll(env, s1.pc.msgs, s1.pc.next, s1.log);
    Join(env, s0, ins, c, outs, s1, [], false, s1.pc.msgs, Peer(s1.pc.next, s1.log));
    assert ins + [] == ins;
  }

  // ----- Reading framed messages -----

  /** The states that gather binary messages until a text message. */
  predicate Gathers(env: Env, s: Peer)
  {
    s.pc.Collect? || s.pc.AwaitSelection? || (s.pc.Answer? && env.role.Receiving?)
  }

  function Gathered(pc: Pc, more: Bytes): Pc
    requires pc.Collect? || pc.AwaitSelection? || pc.Answer?
  {
    match pc
    case Collect(buffer, who) => Collect(buffer + more, who)
    case AwaitSelection(buffer, paired, who) => AwaitSelection(buffer + more, paired, who)
    case Answer(used, buffer, who) => Answer(used, buffer + more, who)
  }

  lemma NothingGathered(pc: Pc)
    requires pc.Collect? || pc.AwaitSelection? || pc.Answer?
    ensures Gathered(pc, []) == pc
  {
    var buffer := match pc { case Collect(x, _) => x case AwaitSelection(x, _, _) => x case Answer(_, x, _) => x };
    assert buffer + [] == buffer;
  }

  lemma {:induction false} GatherChunks(env: Env, s: Peer, chunks: seq<Bytes>)
    requires Gathers(env, s)
    ensures Walk(env, s, Binaries(chunks), false, [], s.(pc := Gathered(s.pc, Flatten(chunks))))
    decreases |chunks|
  {
    hide Walk;
    Stay(env, s);
    if chunks == [] {
      assert s.(pc := Gathered(s.pc, [])) == s;
      assert Binaries(chunks) == [];
    } else {
      var s1 := s.(pc := Gathered(s.pc, chunks[0]));
      ThenTake(env, s, [], [], s, Binary(chunks[0]));
      assert Take(env, s, Some(Binary(chunks[0]))) == s1;
      GatherChunks(env, s1, chunks[1..]);
      var s2 := s.(pc := Gathered(s.pc, Flatten(chunks)));
      assert s1.(pc := Gathered(s1.pc, Flatten(chunks[1..]))) == s2 by {
        GatherTwice(s.pc, chunks[0], Flatten(chunks[1..]));
      }
      Join(env, s, [] + [Binary(chunks[0])], false, [], s1, Binaries(chunks[1..]), false, [], s2);
      assert [] + [Binary(chunks[0])] + Binaries(chunks[1..]) == Binaries(chunks);
      NothingAdded([]);
    }
  }

  lemma GatherTwice(pc: Pc, a: Bytes, b: Bytes)
    requires pc.Collect? || pc.AwaitSelection? || pc.Answer?
    ensures Gathered(Gathered(pc, a), b) == Gathered(pc, a + b)
  {
    var buffer := match pc { case Collect(x, _) => x case AwaitSelection(x, _, _) => x case Answer(_, x, _) => x };
    assert buffer + a + b == buffer + (a + b);
  }

  /** A gathering program reads, and a binary message only makes its buffer longer. */
  lemma GatherOne(env: Env, s: Peer, held: Bytes, more: Bytes)
    requires Gathers(env, s)
    ensures Gathers(env, s.(pc := Gathered(s.pc, held)))
    ensures Act(env, s.(pc := Gathered(s.pc, held))) == Receive
    ensures Take(env, s.(pc := Gathered(s.pc, held)), Some(Binary(more))) == s.(pc := Gathered(s.pc, held + more))
  {
    GatherTwice(s.pc, held, more);
  }

  /** Reading a whole framed payload, delimiter included. */
  lemma ThenGather(env: Env, s0: Peer, ins: seq<Message>, outs: seq<Message>, s1: Peer, payload: Bytes)
    requires Walk(env, s0, ins, false, outs, s1)
    requires Gathers(env, s1)
    ensures Walk(env, s0, ins + Framed(payload), false, outs,
                 Take(env, s1.(pc := Gathered(s1.pc, payload)), Some(DELIMITER)))
  {
    hide Walk;
    var chunks := Split(payload, CHUNK_SIZE);
    SplitIsCanonical(payload, CHUNK_SIZE);
    GatherChunks(env, s1, chunks);
    var s2 := s1.(pc := Gathered(s1.pc, payload));
    Join(env, s0, ins, false, outs, s1, Binaries(chunks), false, [], s2);
    assert outs + [] == outs;
    ThenTake(env, s0, ins + Binaries(chunks), outs, s2, DELIMITER);
    assert ins + Binaries(chunks) + [DELIMITER] == ins + Framed(payload);
  }
}
