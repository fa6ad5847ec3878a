/** Runs that leave a client with a wrong list, step by step. */
module ListWitnesses {
  import opened Prelude
  import opened Signaling
  import opened Registry
  import opened IpGroup
  import opened RoomServer
  import opened Isolation
  import opened Convergence
  import opened ClientList
  import opened ListEntries

  const ADDRESS: IpAddr := V4((192, 0, 2, 1))
  const INFO: ClientInfoWithoutId := ClientInfoWithoutId("a", "2.3", None, None, "t")
  const RENAMED: ClientInfoWithoutId := ClientInfoWithoutId("b", "2.3", None, None, "t")
  const FIRST: Uuid := Uuid([1])
  const SECOND: Uuid := Uuid([2])
  const DEFAULTS: Config := Config(10, 1000)

  const A: ClientInfo := ClientInfo(FIRST, INFO)
  const B: ClientInfo := ClientInfo(SECOND, INFO)

  function Group0(): string { GetIpGroup(ADDRESS) }

  /** Both clients in the room, after `n` requests. */
  function Two(first: Conn, second: Conn, n: nat): State
  {
    State(map[Group0() := map[FIRST := INFO, SECOND := INFO]],
          map[Group0() := n], map[FIRST := first, SECOND := second])
  }

  /** The same, the first one under another description. */
  function TwoAs(info: ClientInfoWithoutId, first: Conn, second: Conn, n: nat): State
  {
    State(map[Group0() := map[FIRST := info, SECOND := INFO]],
          map[Group0() := n], map[FIRST := first, SECOND := second])
  }

  /** Only the second one left in the room. */
  function Left0(first: Conn, second: Conn, n: nat): State
  {
    State(map[Group0() := map[SECOND := INFO]], map[Group0() := n], map[FIRST := first, SECOND := second])
  }

  function Arriving(main: seq<Send>, inbox: seq<WsServerMessage>): Conn
  {
    Conn(ADDRESS, INFO, Joining, main, Idle, true, inbox, [])
  }

  function GreetA(): Send { Send(FIRST, Hello(A, [])) }

  function GreetB(): Send { Send(SECOND, Hello(B, [A])) }

  function JoinB(): Send { Send(FIRST, Join(B)) }

  // ----- Steps -----

  lemma Then(run: seq<Step>, s: State, step: Step, s': State)
    requires After(DEFAULTS, run) == Some(s) && Enabled(s, step) && s' == Apply(DEFAULTS, s, step)
    ensures After(DEFAULTS, run + [step]) == Some(s')
  {
    assert (run + [step])[..|run|] == run;
  }

  /** A connect that is let in, from its parts. */
  lemma Joined(s: State, id: Uuid, order: seq<Uuid>, room: Room, n: nat, c: Conn)
    requires id !in s.conns && Lists(order, room) && room == Members(s.rooms, Group0())
    requires |room| < 10 && n == Count(s.counts, Group0()) < 1000
    requires c == Newcomer(id, ADDRESS, INFO, room, order)
    ensures var step := Connect(id, ADDRESS, INFO, order);
      && Enabled(s, step)
      && Apply(DEFAULTS, s, step)
           == State(s.rooms[Group0() := room[id := INFO]], s.counts[Group0() := n + 1], s.conns[id := c])
  {
    hide GetIpGroup, Newcomer;
  }

  lemma BothConnect()
    ensures After(DEFAULTS, [Connect(FIRST, ADDRESS, INFO, []), Connect(SECOND, ADDRESS, INFO, [FIRST])]) ==
      Some(Two(Arriving([GreetA()], []), Arriving([JoinB(), GreetB()], []), 2))
  {
    hide GetIpGroup, Apply, Enabled, Newcomer;
    var one: Room := map[FIRST := INFO];
    var s1 := State(map[Group0() := one], map[Group0() := 1], map[FIRST := Arriving([GreetA()], [])]);
    NewcomerA();
    NewcomerB(one);
    Joined(EMPTY, FIRST, [], map[], 0, Arriving([GreetA()], []));
    Then([], EMPTY, Connect(FIRST, ADDRESS, INFO, []), s1);
    Joined(s1, SECOND, [FIRST], one, 1, Arriving([JoinB(), GreetB()], []));
    assert one[SECOND := INFO] == map[FIRST := INFO, SECOND := INFO];
    Then([] + [Connect(FIRST, ADDRESS, INFO, [])], s1, Connect(SECOND, ADDRESS, INFO, [FIRST]),
         Two(Arriving([GreetA()], []), Arriving([JoinB(), GreetB()], []), 2));
    assert [] + [Connect(FIRST, ADDRESS, INFO, [])] + [Connect(SECOND, ADDRESS, INFO, [FIRST])]
        == [Connect(FIRST, ADDRESS, INFO, []), Connect(SECOND, ADDRESS, INFO, [FIRST])];
  }

  lemma NewcomerA()
    ensures Newcomer(FIRST, ADDRESS, INFO, map[], []) == Arriving([GreetA()], [])
  {
    assert Broadcast([], Join(A)) == [] && Infos([], map[]) == [];
    assert [] + [GreetA()] == [GreetA()];
  }

  lemma NewcomerB(one: Room)
    requires one == map[FIRST := INFO]
    ensures |one| == 1 && Newcomer(SECOND, ADDRESS, INFO, one, [FIRST]) == Arriving([JoinB(), GreetB()], [])
  {
    assert Broadcast([FIRST], Join(B)) == [JoinB()] && Infos([FIRST], one) == [A];
    assert [JoinB()] + [GreetB()] == [JoinB(), GreetB()];
  }

  /** A connection after a message to it. */
  function Got(c: Conn, m: WsServerMessage): Conn
  {
    if c.open then c.(inbox := c.inbox + [m]) else c
  }

  /** The first client's task sends its next message, to either client. */
  lemma SendsFirst(run: seq<Step>, s: State, c1: Conn, c2: Conn, send: Send, rest: seq<Send>, c1': Conn, c2': Conn)
    requires After(DEFAULTS, run) == Some(s) && s.conns == map[FIRST := c1, SECOND := c2]
    requires c1.main == [send] + rest
    requires send.to == FIRST || send.to == SECOND
    requires c1' == if send.to == FIRST then Got(c1.(main := rest), send.msg) else c1.(main := rest)
    requires c2' == if send.to == SECOND then Got(c2, send.msg) else c2
    ensures After(DEFAULTS, run + [SendNext(FIRST)]) == Some(s.(conns := map[FIRST := c1', SECOND := c2']))
  {
    hide After;
    assert c1.main[1..] == rest;
    Then(run, s, SendNext(FIRST), s.(conns := map[FIRST := c1', SECOND := c2']));
  }

  lemma SendsSecond(run: seq<Step>, s: State, c1: Conn, c2: Conn, send: Send, rest: seq<Send>, c1': Conn, c2': Conn)
    requires After(DEFAULTS, run) == Some(s) && s.conns == map[FIRST := c1, SECOND := c2]
    requires c2.main == [send] + rest
    requires send.to == FIRST || send.to == SECOND
    requires c1' == if send.to == FIRST then Got(c1, send.msg) else c1
    requires c2' == if send.to == SECOND then Got(c2.(main := rest), send.msg) else c2.(main := rest)
    ensures After(DEFAULTS, run + [SendNext(SECOND)]) == Some(s.(conns := map[FIRST := c1', SECOND := c2']))
  {
    hide After;
    assert c2.main[1..] == rest;
    Then(run, s, SendNext(SECOND), s.(conns := map[FIRST := c1', SECOND := c2']));
  }

  lemma FirstServes(run: seq<Step>, c1: Conn, c2: Conn, n: nat)
    requires After(DEFAULTS, run) == Some(Two(c1, c2, n)) && c1.phase == Joining && c1.main == []
    ensures After(DEFAULTS, run + [Serve(FIRST)]) == Some(Two(c1.(phase := Serving), c2, n))
  {
    hide After, GetIpGroup;
    Then(run, Two(c1, c2, n), Serve(FIRST), Two(c1.(phase := Serving), c2, n));
  }

  lemma FirstLeaves(run: seq<Step>, c1: Conn, c2: Conn, n: nat)
    requires After(DEFAULTS, run) == Some(Two(c1, c2, n)) && c1.phase == Serving && c1.address == ADDRESS
    ensures After(DEFAULTS, run + [CloseQueue(FIRST)] + [Disconnect(FIRST, [SECOND])]) == Some(Left0(
      c1.(phase := Leaving, open := false, main := [Send(SECOND, Left(FIRST))]), c2, n))
  {
    hide After, GetIpGroup;
    var s1 := Two(c1.(open := false), c2, n);
    Then(run, Two(c1, c2, n), CloseQueue(FIRST), s1);
    Takes(c1.(open := false), c2, n);
    Then(run + [CloseQueue(FIRST)], s1, Disconnect(FIRST, [SECOND]), Left0(
      c1.(phase := Leaving, open := false, main := [Send(SECOND, Left(FIRST))]), c2, n));
  }

  lemma Takes(c1: Conn, c2: Conn, n: nat)
    requires c1.phase == Serving && c1.address == ADDRESS && !c1.open
    ensures Enabled(Two(c1, c2, n), Disconnect(FIRST, [SECOND]))
    ensures Apply(DEFAULTS, Two(c1, c2, n), Disconnect(FIRST, [SECOND])) ==
      Left0(c1.(phase := Leaving, main := [Send(SECOND, Left(FIRST))]), c2, n)
  {
    hide GetIpGroup;
    var s := Two(c1, c2, n);
    var rest: Room := map[SECOND := INFO];
    assert map[FIRST := INFO, SECOND := INFO] - {FIRST} == rest && SECOND in rest;
    assert s.rooms[Group0() := rest] == map[Group0() := rest];
    assert Broadcast([SECOND], Left(FIRST)) == [Send(SECOND, Left(FIRST))];
  }

  // ----- A departure overtakes the greeting -----

  /** The counts add up, but the report of its leaving reaches the second client before the
      greeting that names the first one: it goes on showing a client that is gone. */
  lemma GreetingOvertaken() returns (run: seq<Step>, s: State)
    ensures After(DEFAULTS, run) == Some(s)
    ensures SECOND in s.conns && Listens(s.conns[SECOND]) && NothingInFlight(s.conns, SECOND)
    ensures s.conns[SECOND].inbox == [Left(FIRST), Hello(B, [A])]
    ensures Shown(s.conns[SECOND].inbox) == {FIRST} && Members(s.rooms, Group0()).Keys == {SECOND}
  {
    hide After, GetIpGroup, Shown;
    BothConnect();
    run := [Connect(FIRST, ADDRESS, INFO, []), Connect(SECOND, ADDRESS, INFO, [FIRST])];
    var a1, a2 := Arriving([GreetA()], []), Arriving([], [Hello(A, [])]);
    var a3 := a2.(phase := Serving);
    var gone := a3.(phase := Leaving, open := false);
    var b1, b2 := Arriving([JoinB(), GreetB()], []), Arriving([JoinB(), GreetB()], [Left(FIRST)]);
    var b3, b4 := Arriving([GreetB()], [Left(FIRST)]), Arriving([], [Left(FIRST), Hello(B, [A])]);
    Inboxes();
    SendsFirst(run, Two(a1, b1, 2), a1, b1, GreetA(), [], a2, b1);
    run := run + [SendNext(FIRST)];
    FirstServes(run, a2, b1, 2);
    run := run + [Serve(FIRST)];
    FirstLeaves(run, a3, b1, 2);
    run := run + [CloseQueue(FIRST)] + [Disconnect(FIRST, [SECOND])];
    var report := Send(SECOND, Left(FIRST));
    SendsFirst(run, Left0(gone.(main := [report]), b1, 2), gone.(main := [report]), b1, report, [], gone, b2);
    run := run + [SendNext(FIRST)];
    SendsSecond(run, Left0(gone, b2, 2), gone, b2, JoinB(), [GreetB()], gone, b3);
    run := run + [SendNext(SECOND)];
    SendsSecond(run, Left0(gone, b3, 2), gone, b3, GreetB(), [], gone, b4);
    run := run + [SendNext(SECOND)];
    s := Left0(gone, b4, 2);
    ShownGone();
  }

  /** Queues, one message longer. */
  lemma Inboxes()
    ensures forall m: WsServerMessage :: [] + [m] == [m]
    ensures forall m: WsServerMessage, m': WsServerMessage :: [m] + [m'] == [m, m']
    ensures forall m: WsServerMessage, m': WsServerMessage, m'': WsServerMessage :: [m, m'] + [m''] == [m, m', m'']
    ensures forall x: Send :: [x] + [] == [x]
    ensures forall x: Send, y: Send :: [x] + [y] == [x, y]
  {
  }

  lemma ShownGone()
    ensures Shown([Left(FIRST), Hello(B, [A])]) == {FIRST}
  {
    var inbox := [Left(FIRST), Hello(B, [A])];
    assert inbox[..1] == [Left(FIRST)] && [Left(FIRST)][..0] == [];
    assert [A][0] == A;
    assert Ids([A]) == {FIRST};
    assert Shown([Left(FIRST)]) == {};
  }

  // ----- A join overtakes the greeting -----

  /** Nobody leaves, but the second client's join reaches the first one before its greeting and
      is ignored: the first client does not show one that is there. */
  lemma JoinOvertaken() returns (run: seq<Step>, s: State)
    ensures After(DEFAULTS, run) == Some(s)
    ensures s.conns.Keys == {FIRST, SECOND} && Listens(s.conns[FIRST]) && Listens(s.conns[SECOND])
    ensures NothingInFlight(s.conns, FIRST) && NothingInFlight(s.conns, SECOND)
    ensures s.conns[FIRST].inbox == [Join(B), Hello(A, [])]
    ensures Shown(s.conns[FIRST].inbox) == {} && Members(s.rooms, Group0()).Keys == {FIRST, SECOND}
  {
    hide After, GetIpGroup, Shown;
    BothConnect();
    run := [Connect(FIRST, ADDRESS, INFO, []), Connect(SECOND, ADDRESS, INFO, [FIRST])];
    var a1, a2, a3 := Arriving([GreetA()], []), Arriving([GreetA()], [Join(B)]), Arriving([], [Join(B), Hello(A, [])]);
    var b1, b2, b3 := Arriving([JoinB(), GreetB()], []), Arriving([GreetB()], []), Arriving([], [Hello(B, [A])]);
    Inboxes();
    SendsSecond(run, Two(a1, b1, 2), a1, b1, JoinB(), [GreetB()], a2, b2);
    run := run + [SendNext(SECOND)];
    SendsFirst(run, Two(a2, b2, 2), a2, b2, GreetA(), [], a3, b2);
    run := run + [SendNext(FIRST)];
    SendsSecond(run, Two(a3, b2, 2), a3, b2, GreetB(), [], a3, b3);
    run := run + [SendNext(SECOND)];
    s := Two(a3, b3, 2);
    ShownNobody();
  }

  lemma ShownNobody()
    ensures Shown([Join(B), Hello(A, [])]) == {}
  {
    var inbox := [Join(B), Hello(A, [])];
    assert inbox[..1] == [Join(B)] && [Join(B)][..0] == [];
    assert Ids([]) == {};
    assert Shown([Join(B)]) == {};
  }

  // ----- An update behind the departure -----

  lemma FirstUpdates(run: seq<Step>, c1: Conn, c2: Conn, info: ClientInfoWithoutId)
    requires After(DEFAULTS, run) == Some(Two(c1, c2, 2))
    requires c1.phase == Serving && c1.reader == Idle && c1.address == ADDRESS && c1.said == []
    ensures After(DEFAULTS, run + [Receive(FIRST, ClientUpdate(info))] + [Handle(FIRST, [SECOND])]) == Some(TwoAs(info,
      c1.(reader := Busy([Send(SECOND, Update(ClientInfo(FIRST, info)))], false), said := [ClientUpdate(info)]), c2, 3))
  {
    hide After, GetIpGroup;
    var s, u := Two(c1, c2, 2), ClientUpdate(info);
    var c1' := c1.(reader := Handling(u), said := [u]);
    assert [] + [u] == [u];
    Then(run, s, Receive(FIRST, u), Two(c1', c2, 3));
    HandlesUpdate(c1', c2, info);
    Then(run + [Receive(FIRST, u)], Two(c1', c2, 3), Handle(FIRST, [SECOND]), TwoAs(info,
      c1'.(reader := Busy([Send(SECOND, Update(ClientInfo(FIRST, info)))], false)), c2, 3));
  }

  lemma HandlesUpdate(c1: Conn, c2: Conn, info: ClientInfoWithoutId)
    requires c1.reader == Handling(ClientUpdate(info)) && c1.address == ADDRESS
    ensures Enabled(Two(c1, c2, 3), Handle(FIRST, [SECOND]))
    ensures Apply(DEFAULTS, Two(c1, c2, 3), Handle(FIRST, [SECOND])) == TwoAs(info,
      c1.(reader := Busy([Send(SECOND, Update(ClientInfo(FIRST, info)))], false)), c2, 3)
  {
    hide GetIpGroup;
    var s := Two(c1, c2, 3);
    var both: Room := map[FIRST := INFO, SECOND := INFO];
    var now: Room := map[FIRST := info, SECOND := INFO];
    assert both[FIRST := info] == now && both - {FIRST} == map[SECOND := INFO];
    assert s.rooms[Group0() := now] == map[Group0() := now];
    assert Broadcast([SECOND], Update(ClientInfo(FIRST, info))) == [Send(SECOND, Update(ClientInfo(FIRST, info)))];
  }

  lemma FirstReplies(run: seq<Step>, s: State, c1: Conn, c2: Conn, send: Send)
    requires After(DEFAULTS, run) == Some(s) && s.conns == map[FIRST := c1, SECOND := c2]
    requires c1.reader == Busy([send], false) && send.to == SECOND
    ensures After(DEFAULTS, run + [Reply(FIRST)]) == Some(s.(
      conns := map[FIRST := c1.(reader := Idle), SECOND := Got(c2, send.msg)]))
  {
    hide After;
    assert [send][1..] == [];
    Then(run, s, Reply(FIRST), s.(conns := map[FIRST := c1.(reader := Idle), SECOND := Got(c2, send.msg)]));
  }

  /** The first client updates its description and leaves; its task that reads messages has
      been told to stop, but sends the update after its other task has reported the leaving. */
  lemma UpdateBehindDeparture() returns (run: seq<Step>, s: State)
    ensures After(DEFAULTS, run) == Some(s)
    ensures SECOND in s.conns && Listens(s.conns[SECOND]) && NothingInFlight(s.conns, SECOND)
    ensures s.conns[SECOND].inbox == [Hello(B, [A]), Left(FIRST), Update(A)]
    ensures Shown(s.conns[SECOND].inbox) == {FIRST} && Members(s.rooms, Group0()).Keys == {SECOND}
  {
    hide After, GetIpGroup, Shown;
    BothConnect();
    run := [Connect(FIRST, ADDRESS, INFO, []), Connect(SECOND, ADDRESS, INFO, [FIRST])];
    var a1, a2 := Arriving([GreetA()], []), Arriving([], [Hello(A, [])]);
    var a3 := a2.(phase := Serving);
    var a4 := a3.(inbox := [Hello(A, []), Join(B)]);
    var update, report := Send(SECOND, Update(A)), Send(SECOND, Left(FIRST));
    var a5 := a4.(reader := Busy([update], false), said := [ClientUpdate(INFO)]);
    var gone := a5.(phase := Leaving, open := false);
    var b1, b2 := Arriving([JoinB(), GreetB()], []), Arriving([GreetB()], []);
    var b3, b4 := Arriving([], [Hello(B, [A])]), Arriving([], [Hello(B, [A]), Left(FIRST)]);
    Inboxes();
    SendsFirst(run, Two(a1, b1, 2), a1, b1, GreetA(), [], a2, b1);
    run := run + [SendNext(FIRST)];
    FirstServes(run, a2, b1, 2);
    run := run + [Serve(FIRST)];
    SendsSecond(run, Two(a3, b1, 2), a3, b1, JoinB(), [GreetB()], a4, b2);
    run := run + [SendNext(SECOND)];
    SendsSecond(run, Two(a4, b2, 2), a4, b2, GreetB(), [], a4, b3);
    run := run + [SendNext(SECOND)];
    FirstUpdates(run, a4, b3, INFO);
    run := run + [Receive(FIRST, ClientUpdate(INFO))] + [Handle(FIRST, [SECOND])];
    FirstLeaves(run, a5, b3, 3);
    run := run + [CloseQueue(FIRST)] + [Disconnect(FIRST, [SECOND])];
    SendsFirst(run, Left0(gone.(main := [report]), b3, 3), gone.(main := [report]), b3, report, [], gone, b4);
    run := run + [SendNext(FIRST)];
    FirstReplies(run, Left0(gone, b4, 3), gone, b4, update);
    run := run + [Reply(FIRST)];
    s := Left0(gone.(reader := Idle), Arriving([], [Hello(B, [A]), Left(FIRST), Update(A)]), 3);
    ShownAgain();
  }

  lemma ShownAgain()
    ensures Shown([Hello(B, [A]), Left(FIRST), Update(A)]) == {FIRST}
  {
    var inbox := [Hello(B, [A]), Left(FIRST), Update(A)];
    assert inbox[..2] == [Hello(B, [A]), Left(FIRST)] && inbox[..2][0].Hello?;
    assert inbox[..2][..1] == [Hello(B, [A])] && [Hello(B, [A])][..0] == [];
    assert [A][0] == A;
    assert Ids([A]) == {FIRST};
    assert Shown([Hello(B, [A])]) == {FIRST};
    assert Shown(inbox[..2]) == {};
  }

  // ----- An update overtakes the greeting -----

  /** The first client changes its description after the second one's greeting has been made up
      and before it is sent: the second client goes on showing the old description. */
  lemma UpdateOvertaken() returns (run: seq<Step>, s: State)
    ensures After(DEFAULTS, run) == Some(s)
    ensures s.conns.Keys == {FIRST, SECOND} && Listens(s.conns[SECOND]) && NothingInFlight(s.conns, SECOND)
    ensures Present(s.conns[FIRST]) && s.conns[FIRST].reader == Idle
    ensures Listed(s.conns[SECOND].inbox) == {A}
    ensures Members(s.rooms, Group0()) == map[FIRST := RENAMED, SECOND := INFO]
  {
    hide After, GetIpGroup, Listed;
    BothConnect();
    run := [Connect(FIRST, ADDRESS, INFO, []), Connect(SECOND, ADDRESS, INFO, [FIRST])];
    var a1, a2 := Arriving([GreetA()], []), Arriving([], [Hello(A, [])]);
    var a3 := a2.(phase := Serving);
    var update := Send(SECOND, Update(ClientInfo(FIRST, RENAMED)));
    var a4 := a3.(reader := Busy([update], false), said := [ClientUpdate(RENAMED)]);
    var a5, a6 := a4.(reader := Idle), a4.(reader := Idle, inbox := [Hello(A, []), Join(B)]);
    var b1, b2 := Arriving([JoinB(), GreetB()], []), Arriving([JoinB(), GreetB()], [update.msg]);
    var b3, b4 := Arriving([GreetB()], [update.msg]), Arriving([], [update.msg, Hello(B, [A])]);
    Inboxes();
    SendsFirst(run, Two(a1, b1, 2), a1, b1, GreetA(), [], a2, b1);
    run := run + [SendNext(FIRST)];
    FirstServes(run, a2, b1, 2);
    run := run + [Serve(FIRST)];
    FirstUpdates(run, a3, b1, RENAMED);
    run := run + [Receive(FIRST, ClientUpdate(RENAMED))] + [Handle(FIRST, [SECOND])];
    FirstReplies(run, TwoAs(RENAMED, a4, b1, 3), a4, b1, update);
    run := run + [Reply(FIRST)];
    SendsSecond(run, TwoAs(RENAMED, a5, b2, 3), a5, b2, JoinB(), [GreetB()], a6, b3);
    run := run + [SendNext(SECOND)];
    SendsSecond(run, TwoAs(RENAMED, a6, b3, 3), a6, b3, GreetB(), [], a6, b4);
    run := run + [SendNext(SECOND)];
    s := TwoAs(RENAMED, a6, b4, 3);
    ListedOld();
  }

  lemma ListedOld()
    ensures Listed([Update(ClientInfo(FIRST, RENAMED)), Hello(B, [A])]) == {A}
  {
    var inbox := [Update(ClientInfo(FIRST, RENAMED)), Hello(B, [A])];
    assert inbox[..1] == [Update(ClientInfo(FIRST, RENAMED))] && inbox[..1][..0] == [];
    assert Listed(inbox[..1]) == {};
    assert (set i | 0 <= i < |[A]| :: [A][i]) == {A} by {
      assert [A][0] == A;
    }
  }
}
