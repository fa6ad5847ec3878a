/** Two sequential programs joined by a pair of ordered, reliable message queues.

    Each program reads only its own queue and blocks until a message is there, or until
    its partner has stopped and the queue is empty. The scheduler picks freely who moves.
    The module shows that the scheduler cannot matter: if one schedule runs both programs
    to a standstill, then every schedule stops, after the same number of steps and in the
    same state. */
module Network {
  import opened Prelude

  datatype Action<S, M> =
    | Stop
    | Internal(next: S)
    | Emit(msg: M, next: S)
    | Receive

  /** `take` gets `None` when the queue is empty for good. */
  datatype Process<!S, !M> = Process(act: S -> Action<S, M>, take: (S, Option<M>) -> S)

  /** One program with its own queue; `closed` says no more messages will come. */
  datatype Local<S, M> = Local(st: S, inbox: seq<M>, closed: bool, outs: seq<M>)

  function LocalStep<S, M>(p: Process<S, M>, l: Local<S, M>): Option<Local<S, M>>
  {
    match p.act(l.st)
    case Stop => None
    case Internal(next) => Some(l.(st := next))
    case Emit(msg, next) => Some(l.(st := next, outs := l.outs + [msg]))
    case Receive =>
      if l.inbox != [] then Some(l.(st := p.take(l.st, Some(l.inbox[0])), inbox := l.inbox[1..]))
      else if l.closed then Some(l.(st := p.take(l.st, None)))
      else None
  }

  /** The state after `n` steps on its own, if that many are possible. */
  function Go<S, M>(p: Process<S, M>, l: Local<S, M>, n: nat): Option<Local<S, M>>
    decreases n
  {
    if n == 0 then Some(l)
    else match LocalStep(p, l)
      case None => None
      case Some(l') => Go(p, l', n - 1)
  }

  lemma {:induction false} GoAdd<S, M>(p: Process<S, M>, l: Local<S, M>, m: nat, n: nat)
    requires Go(p, l, m).Some?
    ensures Go(p, l, m + n) == Go(p, Go(p, l, m).value, n)
    decreases m
  {
    if m > 0 {
      GoAdd(p, LocalStep(p, l).value, m - 1, n);
    }
  }

  lemma GoFirst<S, M>(p: Process<S, M>, l: Local<S, M>, n: nat, l': Local<S, M>) returns (next: Local<S, M>)
    requires n > 0 && Go(p, l, n) == Some(l')
    ensures LocalStep(p, l) == Some(next) && Go(p, next, n - 1) == Some(l')
  {
    next := LocalStep(p, l).value;
  }

  // ----- Legs: stretches of one program's run -----

  /** From `s`, reading exactly `ins` and writing exactly `outs`, to `s'`;
      with `closed` also reading the end of the queue. */
  ghost predicate Leg<S(!new), M(!new)>(p: Process<S, M>, s: S, ins: seq<M>, closed: bool, outs: seq<M>, s': S)
  {
    exists n: nat :: Go(p, Local(s, ins, closed, []), n) == Some(Local(s', [], closed, outs))
  }

  /** A leg does not depend on what is already written, nor on what lies behind its input. */
  lemma {:induction false} GoFrame<S, M>(
    p: Process<S, M>, l: Local<S, M>, n: nat, before: seq<M>, behind: seq<M>, closed: bool)
    requires Go(p, l, n).Some?
    requires l.closed ==> closed && behind == []
    ensures var e := Go(p, l, n).value;
            Go(p, Local(l.st, l.inbox + behind, closed, before + l.outs), n)
              == Some(Local(e.st, e.inbox + behind, closed, before + e.outs))
    decreases n
  {
    if n > 0 {
      var next := LocalStep(p, l).value;
      var framed := Local(l.st, l.inbox + behind, closed, before + l.outs);
      var framedNext := Local(next.st, next.inbox + behind, closed, before + next.outs);
      assert LocalStep(p, framed) == Some(framedNext) by {
        match p.act(l.st)
        case Internal(_) =>
        case Emit(msg, _) => assert before + (l.outs + [msg]) == before + l.outs + [msg];
        case Receive =>
          if l.inbox != [] { assert (l.inbox + behind)[1..] == l.inbox[1..] + behind; }
      }
      GoFrame(p, next, n - 1, before, behind, closed);
    }
  }

  lemma LegRefl<S(!new), M(!new)>(p: Process<S, M>, s: S, closed: bool)
    ensures Leg(p, s, [], closed, [], s)
  {
    assert Go(p, Local(s, [], closed, []), 0) == Some(Local(s, [], closed, []));
  }

  /** Legs compose; once a leg has seen the end of the queue, later ones have no input. */
  lemma LegTrans<S(!new), M(!new)>(
    p: Process<S, M>, s0: S, i1: seq<M>, c1: bool, o1: seq<M>, s1: S, i2: seq<M>, c2: bool, o2: seq<M>, s2: S)
    requires Leg(p, s0, i1, c1, o1, s1)
    requires Leg(p, s1, i2, c2, o2, s2)
    requires c1 ==> c2 && i2 == []
    ensures Leg(p, s0, i1 + i2, c2, o1 + o2, s2)
  {
    var m: nat :| Go(p, Local(s0, i1, c1, []), m) == Some(Local(s1, [], c1, o1));
    var n: nat :| Go(p, Local(s1, i2, c2, []), n) == Some(Local(s2, [], c2, o2));
    var none: seq<M> := [];
    assert none + none == none && none + o1 == o1 && none + i2 == i2 && i2 + none == i2 && o1 + none == o1;
    GoFrame(p, Local(s0, i1, c1, []), m, [], i2, c2);
    GoFrame(p, Local(s1, i2, c2, []), n, o1, [], c2);
    GoAdd(p, Local(s0, i1 + i2, c2, []), m, n);
    assert Go(p, Local(s0, i1 + i2, c2, []), m + n) == Some(Local(s2, [], c2, o1 + o2));
  }

  lemma LegInternal<S(!new), M(!new)>(p: Process<S, M>, s: S, s': S)
    requires p.act(s) == Internal(s')
    ensures Leg(p, s, [], false, [], s')
  {
    var l: Local<S, M> := Local(s, [], false, []);
    assert LocalStep(p, l) == Some(l.(st := s'));
    assert Go(p, l, 1) == Go(p, l.(st := s'), 0);
  }

  lemma LegEmit<S(!new), M(!new)>(p: Process<S, M>, s: S, m: M, s': S)
    requires p.act(s) == Emit(m, s')
    ensures Leg(p, s, [], false, [m], s')
  {
    var l: Local<S, M> := Local(s, [], false, []);
    assert [] + [m] == [m];
    assert LocalStep(p, l) == Some(l.(st := s', outs := [m]));
    assert Go(p, l, 1) == Go(p, l.(st := s', outs := [m]), 0);
  }

  lemma LegTake<S(!new), M(!new)>(p: Process<S, M>, s: S, m: M)
    requires p.act(s) == Receive
    ensures Leg(p, s, [m], false, [], p.take(s, Some(m)))
  {
    var l: Local<S, M> := Local(s, [m], false, []);
    assert [m][1..] == [];
    assert LocalStep(p, l) == Some(Local(p.take(s, Some(m)), [], false, []));
    assert Go(p, l, 1) == Go(p, Local(p.take(s, Some(m)), [], false, []), 0);
  }

  lemma LegEnd<S(!new), M(!new)>(p: Process<S, M>, s: S)
    requires p.act(s) == Receive
    ensures Leg(p, s, [], true, [], p.take(s, None))
  {
    var l: Local<S, M> := Local(s, [], true, []);
    assert LocalStep(p, l) == Some(l.(st := p.take(s, None)));
    assert Go(p, l, 1) == Go(p, l.(st := p.take(s, None)), 0);
  }

  // ----- The product of two programs -----

  /** `toRight` holds what the left program wrote and the right one has not read yet. */
  datatype Net<S, M> = Net(left: S, right: S, toRight: seq<M>, toLeft: seq<M>)

  datatype Side = Left | Right

  function Flip<S, M>(n: Net<S, M>): Net<S, M>
  {
    Net(n.right, n.left, n.toLeft, n.toRight)
  }

  function StepLeft<S, M>(p: Process<S, M>, q: Process<S, M>, n: Net<S, M>): Option<Net<S, M>>
  {
    match LocalStep(p, Local(n.left, n.toLeft, q.act(n.right).Stop?, n.toRight))
    case None => None
    case Some(l) => Some(Net(l.st, n.right, l.outs, l.inbox))
  }

  function Step<S, M>(p: Process<S, M>, q: Process<S, M>, n: Net<S, M>, side: Side): Option<Net<S, M>>
  {
    match side
    case Left => StepLeft(p, q, n)
    case Right =>
      match StepLeft(q, p, Flip(n))
      case None => None
      case Some(n') => Some(Flip(n'))
  }

  /** The state after the schedule, if every move in it was possible. */
  function Run<S, M>(p: Process<S, M>, q: Process<S, M>, n: Net<S, M>, schedule: seq<Side>): Option<Net<S, M>>
    decreases |schedule|
  {
    if schedule == [] then Some(n)
    else match Step(p, q, n, schedule[0])
      case None => None
      case Some(n') => Run(p, q, n', schedule[1..])
  }

  ghost predicate Terminal<S, M>(p: Process<S, M>, q: Process<S, M>, n: Net<S, M>)
  {
    Step(p, q, n, Left).None? && Step(p, q, n, Right).None?
  }

  ghost predicate Reach<S(!new), M(!new)>(p: Process<S, M>, q: Process<S, M>, n: Net<S, M>, n': Net<S, M>)
  {
    exists schedule :: Run(p, q, n, schedule) == Some(n')
  }

  lemma {:induction false} RunAppend<S, M>(
    p: Process<S, M>, q: Process<S, M>, n: Net<S, M>, a: seq<Side>, b: seq<Side>)
    requires Run(p, q, n, a).Some?
    ensures Run(p, q, n, a + b) == Run(p, q, Run(p, q, n, a).value, b)
    decreases |a|
  {
    if a == [] {
      assert a + b == b;
    } else {
      assert (a + b)[1..] == a[1..] + b;
      RunAppend(p, q, Step(p, q, n, a[0]).value, a[1..], b);
    }
  }

  lemma ReachRefl<S(!new), M(!new)>(p: Process<S, M>, q: Process<S, M>, n: Net<S, M>)
    ensures Reach(p, q, n, n)
  {
    assert Run(p, q, n, []) == Some(n);
  }

  lemma ReachTrans<S(!new), M(!new)>(
    p: Process<S, M>, q: Process<S, M>, a: Net<S, M>, b: Net<S, M>, c: Net<S, M>)
    requires Reach(p, q, a, b) && Reach(p, q, b, c)
    ensures Reach(p, q, a, c)
  {
    var s :| Run(p, q, a, s) == Some(b);
    var t :| Run(p, q, b, t) == Some(c);
    RunAppend(p, q, a, s, t);
  }

  /** Moves of the two sides that are possible in the same state do not interfere:
      they can be made in either order and lead to the same state. */
  lemma Diamond<S, M>(p: Process<S, M>, q: Process<S, M>, n: Net<S, M>)
    requires Step(p, q, n, Left).Some? && Step(p, q, n, Right).Some?
    ensures Step(p, q, Step(p, q, n, Left).value, Right).Some?
    ensures Step(p, q, Step(p, q, n, Left).value, Right) == Step(p, q, Step(p, q, n, Right).value, Left)
  {
    var a, b := Step(p, q, n, Left).value, Step(p, q, n, Right).value;
    assert !p.act(n.left).Stop? && !q.act(n.right).Stop?;
    match p.act(n.left)
    case Emit(m, _) =>
      if q.act(n.right).Receive? {
        assert n.toRight != [];
        assert (n.toRight + [m])[1..] == n.toRight[1..] + [m];
      }
    case Receive =>
      assert n.toLeft != [];
      if q.act(n.right).Emit? {
        var m := q.act(n.right).msg;
        assert (n.toLeft + [m])[1..] == n.toLeft[1..] + [m];
      }
    case Internal(_) =>
  }

  function Other(side: Side): Side
  {
    if side.Left? then Right else Left
  }

  lemma DiamondAt<S, M>(p: Process<S, M>, q: Process<S, M>, n: Net<S, M>, side: Side)
    requires Step(p, q, n, side).Some? && Step(p, q, n, Other(side)).Some?
    ensures Step(p, q, Step(p, q, n, side).value, Other(side)).Some?
    ensures Step(p, q, Step(p, q, n, side).value, Other(side))
         == Step(p, q, Step(p, q, n, Other(side)).value, side)
  {
    Diamond(p, q, n);
  }

  /** Any possible move can be brought to the front of a run that ends in a standstill,
      which makes the rest one move shorter. */
  lemma {:induction false} MoveFirst<S, M>(
    p: Process<S, M>, q: Process<S, M>, n: Net<S, M>, schedule: seq<Side>, side: Side)
    returns (rest: seq<Side>)
    requires Run(p, q, n, schedule).Some? && Terminal(p, q, Run(p, q, n, schedule).value)
    requires Step(p, q, n, side).Some?
    ensures |rest| + 1 == |schedule|
    ensures Run(p, q, Step(p, q, n, side).value, rest) == Run(p, q, n, schedule)
    decreases |schedule|
  {
    var m := Step(p, q, n, side).value;
    if schedule[0] == side {
      rest := schedule[1..];
    } else {
      DiamondAt(p, q, n, side);
      var n1 := Step(p, q, n, schedule[0]).value;
      var tail := MoveFirst(p, q, n1, schedule[1..], side);
      rest := [schedule[0]] + tail;
      assert rest[1..] == tail;
    }
  }

  /** Determinacy: when one schedule ends in a standstill `f`, every other schedule can be
      completed to reach that same `f`, in the same total number of moves. */
  lemma {:induction false} Determinacy<S, M>(
    p: Process<S, M>, q: Process<S, M>, n: Net<S, M>, full: seq<Side>, other: seq<Side>)
    returns (rest: seq<Side>)
    requires Run(p, q, n, full).Some? && Terminal(p, q, Run(p, q, n, full).value)
    requires Run(p, q, n, other).Some?
    ensures |other| + |rest| == |full|
    ensures Run(p, q, Run(p, q, n, other).value, rest) == Run(p, q, n, full)
    decreases |other|
  {
    if other == [] {
      rest := full;
    } else {
      var shorter := MoveFirst(p, q, n, full, other[0]);
      rest := Determinacy(p, q, Step(p, q, n, other[0]).value, shorter, other[1..]);
    }
  }

  /** Every reachable state either is the one standstill or can move on towards it;
      so there is no deadlock short of it, and no run is longer than the full one. */
  lemma NoDeadlock<S, M>(p: Process<S, M>, q: Process<S, M>, n: Net<S, M>, full: seq<Side>, other: seq<Side>)
    requires Run(p, q, n, full).Some? && Terminal(p, q, Run(p, q, n, full).value)
    requires Run(p, q, n, other).Some?
    ensures |other| <= |full|
    ensures |other| == |full| <==> Terminal(p, q, Run(p, q, n, other).value)
    ensures Terminal(p, q, Run(p, q, n, other).value) ==> Run(p, q, n, other) == Run(p, q, n, full)
  {
    var rest := Determinacy(p, q, n, full, other);
    if rest != [] {
      assert Step(p, q, Run(p, q, n, other).value, rest[0]).Some?;
    }
  }

  /** A stopped program stays as it is, whatever the other one does. */
  lemma {:induction false} StoppedStays<S, M>(
    p: Process<S, M>, q: Process<S, M>, n: Net<S, M>, schedule: seq<Side>)
    requires Run(p, q, n, schedule).Some?
    ensures p.act(n.left).Stop? ==> Run(p, q, n, schedule).value.left == n.left
    ensures q.act(n.right).Stop? ==> Run(p, q, n, schedule).value.right == n.right
    decreases |schedule|
  {
    if schedule != [] {
      StoppedStays(p, q, Step(p, q, n, schedule[0]).value, schedule[1..]);
    }
  }

  /** Under every schedule: no run is longer than `moves`, a run stops exactly when it has
      made that many moves, and it has then arrived at `end`. */
  ghost predicate AlwaysEnds<S(!new), M(!new)>(
    p: Process<S, M>, q: Process<S, M>, n: Net<S, M>, moves: nat, end: Net<S, M>)
  {
    forall schedule, m | Run(p, q, n, schedule) == Some(m) ::
      && |schedule| <= moves
      && (Terminal(p, q, m) <==> |schedule| == moves)
      && (Terminal(p, q, m) ==> m == end)
  }

  /** One complete run speaks for all. */
  lemma AllRuns<S(!new), M(!new)>(
    p: Process<S, M>, q: Process<S, M>, n: Net<S, M>, full: seq<Side>, end: Net<S, M>)
    requires Run(p, q, n, full) == Some(end) && Terminal(p, q, end)
    ensures AlwaysEnds(p, q, n, |full|, end)
  {
    forall schedule, m | Run(p, q, n, schedule) == Some(m)
      ensures |schedule| <= |full|
      ensures Terminal(p, q, m) <==> |schedule| == |full|
      ensures Terminal(p, q, m) ==> m == end
    {
      NoDeadlock(p, q, n, full, schedule);
    }
  }

  /** A program found stopped anywhere has stopped as it does at the end. */
  lemma StoppedAsAtEnd<S(!new), M(!new)>(
    p: Process<S, M>, q: Process<S, M>, n: Net<S, M>, full: seq<Side>, end: Net<S, M>, m: Net<S, M>)
    requires Run(p, q, n, full) == Some(end) && Terminal(p, q, end)
    requires Reach(p, q, n, m)
    ensures p.act(m.left).Stop? ==> m.left == end.left
    ensures q.act(m.right).Stop? ==> m.right == end.right
  {
    var schedule :| Run(p, q, n, schedule) == Some(m);
    var rest := Determinacy(p, q, n, full, schedule);
    StoppedStays(p, q, m, rest);
  }

  // ----- Lifting legs into the product -----

  lemma {:induction false} RunLeft<S, M>(p: Process<S, M>, q: Process<S, M>, n: Net<S, M>, k: nat)
    returns (schedule: seq<Side>)
    requires Go(p, Local(n.left, n.toLeft, q.act(n.right).Stop?, n.toRight), k).Some?
    ensures var e := Go(p, Local(n.left, n.toLeft, q.act(n.right).Stop?, n.toRight), k).value;
            Run(p, q, n, schedule) == Some(Net(e.st, n.right, e.outs, e.inbox))
    decreases k
  {
    schedule := [];
    if k > 0 {
      var next := StepLeft(p, q, n).value;
      var tail := RunLeft(p, q, next, k - 1);
      schedule := [Left] + tail;
      assert schedule[1..] == tail;
    }
  }

  lemma {:induction false} RunFlip<S, M>(p: Process<S, M>, q: Process<S, M>, n: Net<S, M>, schedule: seq<Side>)
    returns (mirrored: seq<Side>)
    requires Run(p, q, n, schedule).Some?
    ensures Run(q, p, Flip(n), mirrored) == Some(Flip(Run(p, q, n, schedule).value))
    decreases |schedule|
  {
    mirrored := [];
    if schedule != [] {
      var next := Step(p, q, n, schedule[0]).value;
      assert Flip(Flip(n)) == n;
      assert Step(q, p, Flip(n), Other(schedule[0])) == Some(Flip(next));
      var tail := RunFlip(p, q, next, schedule[1..]);
      mirrored := [Other(schedule[0])] + tail;
      assert mirrored[1..] == tail;
    }
  }

  lemma LiftLeft<S(!new), M(!new)>(
    p: Process<S, M>, q: Process<S, M>, n: Net<S, M>, ins: seq<M>, closed: bool, outs: seq<M>, s': S, behind: seq<M>)
    requires Leg(p, n.left, ins, closed, outs, s')
    requires n.toLeft == ins + behind
    requires closed ==> q.act(n.right).Stop? && behind == []
    ensures Reach(p, q, n, Net(s', n.right, n.toRight + outs, behind))
  {
    var k: nat :| Go(p, Local(n.left, ins, closed, []), k) == Some(Local(s', [], closed, outs));
    GoFrame(p, Local(n.left, ins, closed, []), k, n.toRight, behind, q.act(n.right).Stop?);
    assert n.toRight + [] == n.toRight && [] + behind == behind;
    var schedule := RunLeft(p, q, n, k);
  }

  lemma LiftRight<S(!new), M(!new)>(
    p: Process<S, M>, q: Process<S, M>, n: Net<S, M>, ins: seq<M>, closed: bool, outs: seq<M>, s': S, behind: seq<M>)
    requires Leg(q, n.right, ins, closed, outs, s')
    requires n.toRight == ins + behind
    requires closed ==> p.act(n.left).Stop? && behind == []
    ensures Reach(p, q, n, Net(n.left, s', behind, n.toLeft + outs))
  {
    LiftLeft(q, p, Flip(n), ins, closed, outs, s', behind);
    var flipped := Net(s', n.left, n.toLeft + outs, behind);
    var schedule :| Run(q, p, Flip(n), schedule) == Some(flipped);
    var back := RunFlip(q, p, Flip(n), schedule);
    assert Flip(Flip(n)) == n;
  }

  // ----- Reading one side off a run of the product -----

  /** In any run, with any partner, the right program does what it does alone when fed with
      the messages it has read. */
  lemma {:induction false} RightAlone<S(!new), M(!new)>(
    p: Process<S, M>, q: Process<S, M>, n: Net<S, M>, schedule: seq<Side>)
    returns (ins: seq<M>, closed: bool, outs: seq<M>, sent: seq<M>)
    requires Run(p, q, n, schedule).Some?
    ensures var m := Run(p, q, n, schedule).value;
      && Leg(q, n.right, ins, closed, outs, m.right)
      && n.toRight + sent == ins + m.toRight
      && (p.act(n.left).Stop? ==> sent == [])
    decreases |schedule|
  {
    if schedule == [] {
      ins, closed, outs, sent := [], false, [], [];
      LegRefl(q, n.right, false);
      assert n.toRight + [] == [] + n.toRight;
    } else {
      var next := Step(p, q, n, schedule[0]).value;
      var m := Run(p, q, n, schedule).value;
      var i, c, o, t := RightAlone(p, q, next, schedule[1..]);
      if schedule[0] == Left {
        ins, closed, outs := i, c, o;
        if p.act(n.left).Emit? {
          sent := [p.act(n.left).msg] + t;
          assert n.toRight + sent == next.toRight + t;
        } else {
          sent := t;
        }
      } else {
        sent := t;
        var first, end, word := RightStep(p, q, n);
        assert end ==> i + m.toRight == [];
        LegJoin(q, n.right, first, end, word, next.right, i, c, o, m.right);
        ins, closed, outs := first + i, end || c, word + o;
        Assoc(first, next.toRight, t);
        Assoc(first, i, m.toRight);
      }
    }
  }

  lemma LegJoin<S(!new), M(!new)>(
    p: Process<S, M>, s0: S, i1: seq<M>, c1: bool, o1: seq<M>, s1: S, i2: seq<M>, c2: bool, o2: seq<M>, s2: S)
    requires Leg(p, s0, i1, c1, o1, s1) && Leg(p, s1, i2, c2, o2, s2)
    requires c1 ==> i2 == []
    ensures Leg(p, s0, i1 + i2, c1 || c2, o1 + o2, s2)
  {
    hide Leg;
    if c1 && !c2 { LegClose(p, s1, i2, o2, s2); }
    LegTrans(p, s0, i1, c1, o1, s1, i2, c1 || c2, o2, s2);
  }

  lemma LegClose<S(!new), M(!new)>(p: Process<S, M>, s: S, ins: seq<M>, outs: seq<M>, s': S)
    requires Leg(p, s, ins, false, outs, s')
    ensures Leg(p, s, ins, true, outs, s')
  {
    LegRefl(p, s', true);
    LegTrans(p, s, ins, false, outs, s', [], true, [], s');
    assert ins + [] == ins && outs + [] == outs;
  }

  lemma RightStep<S(!new), M(!new)>(p: Process<S, M>, q: Process<S, M>, n: Net<S, M>)
    returns (first: seq<M>, end: bool, word: seq<M>)
    requires Step(p, q, n, Right).Some?
    ensures var next := Step(p, q, n, Right).value;
      && Leg(q, n.right, first, end, word, next.right)
      && n.toRight == first + next.toRight
      && next.left == n.left
      && (end ==> p.act(n.left).Stop? && next.toRight == [])
  {
    var next := Step(p, q, n, Right).value;
    first, end, word := [], false, [];
    match q.act(n.right)
    case Internal(s') => LegInternal(q, n.right, s');
    case Emit(msg, s') => LegEmit(q, n.right, msg, s'); word := [msg];
    case Receive =>
      if n.toRight != [] {
        LegTake(q, n.right, n.toRight[0]);
        first := [n.toRight[0]];
      } else {
        LegEnd(q, n.right);
        end := true;
      }
  }
}
