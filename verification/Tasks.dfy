/** The tasks of the signaling server as programs over the shared maps and the queues. Here one
    runs without being interrupted; `run` records, as ghost state, the steps of the concurrent
    model that this takes, so whatever holds of every run holds here too. */
module Tasks {
  import opened Prelude
  import opened Signaling
  import opened Registry
  import opened IpGroup
  import opened RoomServer
  import opened Isolation

  class Hub {
    const shared: SharedState
    var conns: map<Uuid, Conn>
    ghost var run: seq<Step>

    ghost function Now(): State
      reads this, shared
    {
      State(shared.rooms, shared.counts, conns)
    }

    ghost predicate Valid()
      reads this, shared
    {
      After(shared.cfg, run) == Some(Now())
    }

    constructor (cfg: Config)
      ensures Valid() && shared.cfg == cfg && fresh(shared) && conns == map[]
    {
      shared := new SharedState(cfg);
      conns, run := map[], [];
    }

    /** Records a step whose effect has just been made. */
    ghost method Record(before: State, step: Step)
      requires After(shared.cfg, run) == Some(before) && Enabled(before, step)
      requires Now() == Apply(shared.cfg, before, step)
      modifies this`run
      ensures Valid() && run == old(run) + [step]
    {
      assert (run + [step])[..|run|] == run;
      run := run + [step];
    }

    method Connected(id: Uuid, address: IpAddr, info: ClientInfoWithoutId) returns (admitted: bool)
      requires Valid() && id !in conns
      modifies this, shared
      ensures Valid() && Extends(old(run), run, id) && conns.Keys == old(conns).Keys + {id}
      ensures conns[id].phase == (if admitted then Joining else Phase.Refused) && conns[id].said == []
      ensures if admitted then conns[id].reader == Idle else conns[id].main == []
      ensures admitted
           == Enter(shared.cfg, old(shared.rooms), old(shared.counts), GetIpGroup(address), id, info).others.Some?
    {
      hide After, GetIpGroup, Apply, Enter, Lists, Enabled;
      ghost var before := Now();
      var targets, peers;
      admitted, targets, peers := shared.Connect(GetIpGroup(address), id, info);
      if admitted {
        MayEnter(shared.cfg, before, id, address, info, targets);
        LetIn(id, address, info, targets, peers, before);
      } else {
        TurnAway(id, address, info, before);
      }
    }

    method LetIn(
      id: Uuid, address: IpAddr, info: ClientInfoWithoutId, targets: seq<Uuid>, peers: seq<ClientInfo>,
      ghost before: State)
      requires After(shared.cfg, run) == Some(before) && before.conns == conns
      requires Enabled(before, Connect(id, address, info, targets))
      requires var e := Enter(shared.cfg, before.rooms, before.counts, GetIpGroup(address), id, info);
        && e.others.Some? && (forall x :: x in targets ==> x in e.others.value)
        && peers == Infos(targets, e.others.value)
        && shared.rooms == e.rooms && shared.counts == e.counts
      modifies this
      ensures Valid() && Extends(old(run), run, id)
      ensures exists main :: conns == old(conns)[id := Conn(address, info, Joining, main, Idle, true, [], [])]
    {
      hide After, GetIpGroup, Apply, Enter, Enabled;
      var self := ClientInfo(id, info);
      var main := Broadcast(targets, Join(self)) + [Send(id, Hello(self, peers))];
      conns := conns[id := Conn(address, info, Joining, main, Idle, true, [], [])];
      ConnectEffect(shared.cfg, before, id, address, info, targets);
      Record(before, Connect(id, address, info, targets));
    }

    method TurnAway(id: Uuid, address: IpAddr, info: ClientInfoWithoutId, ghost before: State)
      requires After(shared.cfg, run) == Some(before) && before.conns == conns && id !in conns
      requires var e := Enter(shared.cfg, before.rooms, before.counts, GetIpGroup(address), id, info);
        e.others.None? && shared.rooms == e.rooms && shared.counts == e.counts
      modifies this
      ensures Valid() && Extends(old(run), run, id)
      ensures conns == old(conns)[id := Conn(address, info, Phase.Refused, [], Stopped, false, [], [])]
    {
      hide After, GetIpGroup, Apply, Enter, Lists;
      ghost var order := Listing(Members(before.rooms, GetIpGroup(address)));
      ConnectEffect(shared.cfg, before, id, address, info, order);
      conns := conns[id := Conn(address, info, Phase.Refused, [], Stopped, false, [], [])];
      Record(before, Connect(id, address, info, order));
    }

    /** The loop over the senders collected under the lock. */
    method SendAll(id: Uuid)
      requires Valid() && id in conns
      modifies this
      ensures Valid() && Extends(old(run), run, id) && conns.Keys == old(conns).Keys
      ensures conns[id] == old(conns[id]).(main := [], inbox := conns[id].inbox)
      ensures conns == DeliverAll(old(conns)[id := old(conns[id]).(main := [])], old(conns[id].main))
    {
      hide After, DeliverAll;
      while conns[id].main != []
        invariant Valid() && Extends(old(run), run, id) && conns.Keys == old(conns).Keys
        invariant conns[id] == old(conns[id]).(main := conns[id].main, inbox := conns[id].inbox)
        invariant DeliverAll(conns[id := conns[id].(main := [])], conns[id].main)
               == DeliverAll(old(conns)[id := old(conns[id]).(main := [])], old(conns[id].main))
        decreases |conns[id].main|
      {
        ghost var before := Now();
        SendNextOfAll(conns, id);
        var c := conns[id];
        conns := Deliver(conns[id := c.(main := c.main[1..])], c.main[0]);
        Record(before, SendNext(id));
      }
      assert conns[id := conns[id].(main := [])] == conns;
      AllSent(conns);
    }

    /** The same loop in the task that reads the client's messages. */
    method ReplyAll(id: Uuid)
      requires Valid() && id in conns && Sendable(conns[id].reader)
      modifies this
      ensures Valid() && Extends(old(run), run, id) && conns.Keys == old(conns).Keys
      ensures conns[id] == old(conns[id]).(reader := Over(old(conns[id].reader)), inbox := conns[id].inbox)
      ensures conns == DeliverAll(
        old(conns)[id := old(conns[id]).(reader := Over(old(conns[id].reader)))], ToSend(old(conns[id].reader)))
    {
      hide After, DeliverAll;
      while conns[id].reader.Busy?
        invariant Valid() && Extends(old(run), run, id) && conns.Keys == old(conns).Keys
        invariant conns[id] == old(conns[id]).(reader := conns[id].reader, inbox := conns[id].inbox)
        invariant Sendable(conns[id].reader) && Over(conns[id].reader) == Over(old(conns[id].reader))
        invariant DeliverAll(conns[id := conns[id].(reader := Over(conns[id].reader))], ToSend(conns[id].reader))
               == DeliverAll(old(conns)[id := old(conns[id]).(reader := Over(old(conns[id].reader)))],
                             ToSend(old(conns[id].reader)))
        decreases if conns[id].reader.Busy? then |conns[id].reader.sends| else 0
      {
        ghost var before := Now();
        var c := conns[id];
        var sends, last := c.reader.sends, c.reader.last;
        conns := Deliver(conns[id := c.(reader := Busied(sends[1..], last))], sends[0]);
        ReplyEffect(before, id);
        ReplyNextOfAll(before.conns, id);
        Record(before, Reply(id));
      }
      assert conns[id := conns[id].(reader := Over(conns[id].reader))] == conns;
      AllSent(conns);
    }

    /** One message of the client: the rate limiter, the section under the lock, the sends.
        `order` is the one in which the section has walked the room. */
    method HandleMessage(id: Uuid, msg: WsClientMessage) returns (ghost order: seq<Uuid>)
      requires Valid() && id in conns && conns[id].phase == Serving && conns[id].reader == Idle
      modifies this, shared
      ensures Valid() && Extends(old(run), run, id) && conns.Keys == old(conns).Keys
      ensures conns[id] == old(conns[id]).(
        reader := conns[id].reader, said := old(conns[id].said) + [msg], inbox := conns[id].inbox)
      ensures conns[id].reader ==
        if Count(old(shared.counts), Group(old(conns[id]))) >= shared.cfg.maxRequests then Stopped else Idle
      ensures var s1 := OnReceive(shared.cfg, old(Now()), id, msg);
        var c1 := s1.conns[id];
        if c1.reader.Busy? then
          && shared.rooms == s1.rooms && shared.counts == s1.counts
          && conns == DeliverAll(s1.conns[id := c1.(reader := Stopped)], [Send(id, Error(TOO_MANY_REQUESTS))])
        else
          && Lists(order, Told(s1, id))
          && var s2 := OnHandle(s1, id, order);
             var c2 := s2.conns[id];
             && shared.rooms == s2.rooms && shared.counts == s2.counts
             && conns == DeliverAll(s2.conns[id := c2.(reader := Idle)], ToSend(c2.reader))
    {
      hide After, Apply, Enabled, Enter, GetIpGroup, DeliverAll;
      order := [];
      var ok := Admit(id, msg);
      if ok {
        order := Act(id, msg);
      }
      ReplyAll(id);
    }

    method Admit(id: Uuid, msg: WsClientMessage) returns (ok: bool)
      requires Valid() && id in conns && conns[id].phase == Serving && conns[id].reader == Idle
      modifies this, shared`counts
      ensures Valid() && Extends(old(run), run, id) && conns.Keys == old(conns).Keys
      ensures ok <==> Count(old(shared.counts), Group(old(conns[id]))) < shared.cfg.maxRequests
      ensures conns[id] == old(conns[id]).(reader := conns[id].reader, said := old(conns[id].said) + [msg])
      ensures conns[id].reader ==
        if ok then Handling(msg) else Busy([Send(id, Error(TOO_MANY_REQUESTS))], true)
      ensures Now() == OnReceive(shared.cfg, old(Now()), id, msg)
    {
      hide After;
      ghost var before := Now();
      var c := conns[id];
      ok := shared.ProtectRequestCount(Group(c));
      var reader := if ok then Handling(msg) else Busy([Send(id, Error(TOO_MANY_REQUESTS))], true);
      conns := conns[id := c.(reader := reader, said := c.said + [msg])];
      Record(before, Receive(id, msg));
    }

    /** The section under the lock of the shared map. */
    method Act(id: Uuid, msg: WsClientMessage) returns (ghost order: seq<Uuid>)
      requires Valid() && id in conns && conns[id].reader == Handling(msg)
      modifies this, shared`rooms
      ensures Valid() && Extends(old(run), run, id) && conns.Keys == old(conns).Keys
      ensures conns[id] == old(conns[id]).(reader := conns[id].reader)
      ensures Sendable(conns[id].reader) && Over(conns[id].reader) == Idle
      ensures Lists(order, Told(old(Now()), id)) && Now() == OnHandle(old(Now()), id, order)
    {
      hide After;
      ghost var before := Now();
      var c := conns[id];
      var group := Group(c);
      var targets: seq<Uuid> := [];
      var sends: seq<Send>;
      match msg {
        case ClientUpdate(info) =>
          targets := shared.UpdateInfo(group, id, info);
          sends := Broadcast(targets, Update(ClientInfo(id, info)));
        case ClientOffer(sdp) =>
          var found := shared.Find(group, sdp.target);
          sends := if found
            then [Send(sdp.target, Offer(WsServerSdpMessage(ClientInfo(id, c.info), sdp.sessionId, sdp.sdp)))] else [];
        case ClientAnswer(sdp) =>
          var found := shared.Find(group, sdp.target);
          sends := if found
            then [Send(sdp.target, Answer(WsServerSdpMessage(ClientInfo(id, c.info), sdp.sessionId, sdp.sdp)))] else [];
      }
      conns := conns[id := c.(reader := Busied(sends, false))];
      order := targets;
      Record(before, Handle(id, targets));
    }

    method Disconnected(id: Uuid)
      requires Valid() && id in conns && conns[id].phase == Serving && (conns[id].reader.Stopped? || !conns[id].open)
      modifies this, shared`rooms
      ensures Valid() && Extends(old(run), run, id) && conns.Keys == old(conns).Keys
      ensures conns[id] == old(conns[id]).(phase := Leaving, main := conns[id].main)
    {
      hide After;
      ghost var before := Now();
      var c := conns[id];
      var targets := shared.Disconnect(Group(c), id);
      conns := conns[id := c.(phase := Leaving, main := Broadcast(targets, Left(id)))];
      Record(before, Disconnect(id, targets));
    }

    method StartTasks(id: Uuid)
      requires Valid() && id in conns && conns[id].phase == Joining && conns[id].main == []
      modifies this
      ensures Valid() && Extends(old(run), run, id) && conns == old(conns)[id := old(conns[id]).(phase := Serving)]
    {
      hide After;
      ghost var before := Now();
      conns := conns[id := conns[id].(phase := Serving)];
      Record(before, Serve(id));
    }

    /** The socket closes: first the reader of the client's messages ends, then the task that
        writes to it is aborted. */
    method EndTasks(id: Uuid)
      requires Valid() && id in conns && conns[id].phase == Serving
      requires conns[id].reader.Idle? || conns[id].reader.Stopped?
      modifies this
      ensures Valid() && Extends(old(run), run, id)
      ensures conns == old(conns)[id := old(conns[id]).(reader := Stopped, open := false)]
    {
      hide After;
      ghost var before := Now();
      if conns[id].reader.Idle? {
        conns := conns[id := conns[id].(reader := Stopped)];
        Record(before, StopReader(id));
      }
      ghost var between := Now();
      conns := conns[id := conns[id].(open := false)];
      Record(between, CloseQueue(id));
    }

    /** One connection from its start to its end, the client's messages being given. In the end
        it is in no room. */
    method HandleSocket(id: Uuid, address: IpAddr, info: ClientInfoWithoutId, messages: seq<WsClientMessage>)
      requires Valid() && id !in conns
      modifies this, shared
      ensures Valid() && Extends(old(run), run, id) && id in conns
      ensures conns[id].phase == (
        if Enter(shared.cfg, old(shared.rooms), old(shared.counts), GetIpGroup(address), id, info).others.Some?
        then Leaving else Phase.Refused)
      ensures conns[id].main == [] && conns[id].said <= messages
      ensures forall g :: id !in Members(shared.rooms, g)
    {
      hide After, Apply, Enabled, Enter, GetIpGroup;
      var admitted := Connected(id, address, info);
      if admitted {
        Converse(id, messages);
      }
      NotInRooms(id);
    }

    method Converse(id: Uuid, messages: seq<WsClientMessage>)
      requires Valid() && id in conns && conns[id].phase == Joining && conns[id].reader == Idle && conns[id].said == []
      modifies this, shared
      ensures Valid() && Extends(old(run), run, id) && id in conns
      ensures conns[id].phase == Leaving && conns[id].main == [] && conns[id].said <= messages
    {
      hide After, Apply, GetIpGroup, Enabled;
      SendAll(id);
      StartTasks(id);
      ReadAll(id, messages);
      EndTasks(id);
      Disconnected(id);
      SendAll(id);
    }

    /** The loop over the client's messages; it ends early when the group's budget is used up. */
    method ReadAll(id: Uuid, messages: seq<WsClientMessage>)
      requires Valid() && id in conns && conns[id].phase == Serving
      requires conns[id].reader == Idle && conns[id].said == []
      modifies this, shared
      ensures Valid() && Extends(old(run), run, id) && id in conns
      ensures conns[id].phase == Serving && conns[id].main == old(conns[id].main) && conns[id].said <= messages
      ensures conns[id].reader.Idle? || conns[id].reader.Stopped?
      ensures conns[id].said == messages || conns[id].reader.Stopped?
    {
      hide After, Apply, GetIpGroup, Enabled;
      var i := 0;
      while i < |messages| && conns[id].reader.Idle?
        invariant Valid() && Extends(old(run), run, id) && id in conns && 0 <= i <= |messages|
        invariant conns[id].phase == Serving && conns[id].main == old(conns[id].main)
        invariant conns[id].said == messages[..i]
        invariant conns[id].reader.Idle? || conns[id].reader.Stopped?
      {
        ghost var order := HandleMessage(id, messages[i]);
        i := i + 1;
      }
    }

    lemma NotInRooms(id: Uuid)
      requires Valid() && id in conns && !Present(conns[id])
      ensures forall g :: id !in Members(shared.rooms, g)
    {
      AlwaysSafe(shared.cfg, run);
      forall g ensures id !in Members(shared.rooms, g) {
        assert Fits(shared.rooms, conns, g, id);
      }
    }
  }

  lemma MayEnter(cfg: Config, s: State, id: Uuid, address: IpAddr, info: ClientInfoWithoutId, targets: seq<Uuid>)
    requires id !in s.conns
    requires Enter(cfg, s.rooms, s.counts, GetIpGroup(address), id, info).others.Some?
    requires Lists(targets, Enter(cfg, s.rooms, s.counts, GetIpGroup(address), id, info).others.value)
    ensures Enabled(s, Connect(id, address, info, targets))
    ensures var others := Enter(cfg, s.rooms, s.counts, GetIpGroup(address), id, info).others.value;
      forall x :: x in targets ==> x in others
  {
    hide GetIpGroup, Enter;
    EnterAdds(cfg, s.rooms, s.counts, GetIpGroup(address), id, info);
  }

  /** The run has gone on with steps of this connection only. */
  predicate Extends(was: seq<Step>, now: seq<Step>, id: Uuid)
  {
    was <= now && forall k :: |was| <= k < |now| ==> now[k] != Clear && now[k].id == id
  }

  /** What a reader has to send. */
  function ToSend(r: Reader): seq<Send>
  {
    if r.Busy? then r.sends else []
  }

  lemma AllSent(conns: map<Uuid, Conn>)
    ensures DeliverAll(conns, []) == conns
  {
  }

  /** The next send leaves what all of them come to as it was. */
  lemma SendNextOfAll(conns: map<Uuid, Conn>, id: Uuid)
    requires id in conns && conns[id].main != []
    ensures var c := conns[id];
      var conns' := Deliver(conns[id := c.(main := c.main[1..])], c.main[0]);
      && id in conns'
      && DeliverAll(conns'[id := conns'[id].(main := [])], c.main[1..])
      == DeliverAll(conns[id := c.(main := [])], c.main)
  {
    var c := conns[id];
    var conns' := Deliver(conns[id := c.(main := c.main[1..])], c.main[0]);
    assert conns'[id := conns'[id].(main := [])] == Deliver(conns[id := c.(main := [])], c.main[0]);
  }

  lemma ReplyNextOfAll(conns: map<Uuid, Conn>, id: Uuid)
    requires id in conns && conns[id].reader.Busy? && conns[id].reader.sends != []
    ensures var c := conns[id];
      var over := Over(c.reader);
      var conns' := Deliver(
        conns[id := c.(reader := Busied(c.reader.sends[1..], c.reader.last))], c.reader.sends[0]);
      && id in conns'
      && DeliverAll(conns'[id := conns'[id].(reader := over)], c.reader.sends[1..])
         == DeliverAll(conns[id := c.(reader := over)], c.reader.sends)
  {
    var c := conns[id];
    var over := Over(c.reader);
    var conns' := Deliver(conns[id := c.(reader := Busied(c.reader.sends[1..], c.reader.last))], c.reader.sends[0]);
    assert conns'[id := conns'[id].(reader := over)] == Deliver(conns[id := c.(reader := over)], c.reader.sends[0]);
  }

  /** A reader with something to send has it in its list. */
  predicate Sendable(r: Reader) { r.Busy? ==> r.sends != [] }

  /** A reader once it has sent everything. */
  function Over(r: Reader): Reader
  {
    if r.Busy? then (if r.last then Stopped else Idle) else r
  }

  lemma ConnectEffect(cfg: Config, s: State, id: Uuid, address: IpAddr, info: ClientInfoWithoutId, order: seq<Uuid>)
    requires Enabled(s, Connect(id, address, info, order))
    ensures var e := Enter(cfg, s.rooms, s.counts, GetIpGroup(address), id, info);
      var self := ClientInfo(id, info);
      Apply(cfg, s, Connect(id, address, info, order)) == State(e.rooms, e.counts, s.conns[id :=
        if e.others.Some?
        then Conn(address, info, Joining,
          Broadcast(order, Join(self)) + [Send(id, Hello(self, Infos(order, e.others.value)))], Idle, true, [], [])
        else Conn(address, info, Phase.Refused, [], Stopped, false, [], [])])
  {
    hide GetIpGroup;
    EnterAdds(cfg, s.rooms, s.counts, GetIpGroup(address), id, info);
  }

  lemma ReplyEffect(s: State, id: Uuid)
    requires id in s.conns && s.conns[id].reader.Busy? && s.conns[id].reader.sends != []
    ensures var c := s.conns[id];
      var r' := Busied(c.reader.sends[1..], c.reader.last);
      var conns' := Deliver(s.conns[id := c.(reader := r')], c.reader.sends[0]);
      && conns'.Keys == s.conns.Keys
      && conns'[id] == c.(reader := r', inbox := conns'[id].inbox)
      && Sendable(r') && Over(r') == Over(c.reader)
  {
  }

  /** Some listing of a room; for a refused connect the order is never looked at. */
  ghost function Listing(room: Room): (order: seq<Uuid>)
    ensures Lists(order, room)
    decreases |room|
  {
    if room == map[] then []
    else
      var id :| id in room;
      Shrinks(room, id);
      Listing(room - {id}) + [id]
  }
}
