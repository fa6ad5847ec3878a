/** What the signaling server keeps in every reachable state: its limits, its accounts, and
    that nobody hears of anyone outside the own group or anything its origin did not say. */
module Isolation {
  import opened Prelude
  import opened Signaling
  import opened Registry
  import opened IpGroup
  import opened RoomServer

  predicate Present(c: Conn) { c.phase == Joining || c.phase == Serving }

  predicate SameGroup(conns: map<Uuid, Conn>, a: Uuid, b: Uuid)
  {
    a in conns && b in conns && Group(conns[a]) == Group(conns[b])
  }

  /** A description its owner gave, at connect or later. */
  predicate Described(conns: map<Uuid, Conn>, p: ClientInfo)
  {
    p.id in conns && (p.info == conns[p.id].info || ClientUpdate(p.info) in conns[p.id].said)
  }

  /** A message that may stand in the queue of `o`. */
  predicate Genuine(conns: map<Uuid, Conn>, o: Uuid, m: WsServerMessage)
  {
    o in conns &&
    match m
    case Hello(client, peers) =>
      && client == ClientInfo(o, conns[o].info)
      && forall i :: 0 <= i < |peers| ==>
           peers[i].id != o && SameGroup(conns, o, peers[i].id) && Described(conns, peers[i])
    case Join(p) => p.id != o && SameGroup(conns, o, p.id) && p.info == conns[p.id].info
    case Update(p) => p.id != o && SameGroup(conns, o, p.id) && ClientUpdate(p.info) in conns[p.id].said
    case Left(p) => p != o && SameGroup(conns, o, p) && conns[p].phase == Leaving
    case Offer(x) =>
      && SameGroup(conns, o, x.peer.id) && x.peer.info == conns[x.peer.id].info
      && ClientOffer(WsClientSdpMessage(x.sessionId, o, x.sdp)) in conns[x.peer.id].said
    case Answer(x) =>
      && SameGroup(conns, o, x.peer.id) && x.peer.info == conns[x.peer.id].info
      && ClientAnswer(WsClientSdpMessage(x.sessionId, o, x.sdp)) in conns[x.peer.id].said
    case Error(code) => code == 429
  }

  predicate AllGenuine(conns: map<Uuid, Conn>, sends: seq<Send>)
  {
    forall k :: 0 <= k < |sends| ==> Genuine(conns, sends[k].to, sends[k].msg)
  }

  /** Everything queued for one connection, and everything it has still to send. */
  predicate MailOf(conns: map<Uuid, Conn>, id: Uuid, c: Conn)
  {
    && (forall k :: 0 <= k < |c.inbox| ==> Genuine(conns, id, c.inbox[k]))
    && AllGenuine(conns, c.main)
    && (c.reader.Busy? ==> AllGenuine(conns, c.reader.sends))
    && (c.reader.Handling? ==> c.reader.msg in c.said)
  }

  predicate Mail(conns: map<Uuid, Conn>)
  {
    forall id :: id in conns ==> MailOf(conns, id, conns[id])
  }

  /** A connection is in a room exactly if the room is its group's and it is present, and it
      stands there with a description of its own. */
  predicate Fits(rooms: Rooms, conns: map<Uuid, Conn>, g: string, id: Uuid)
  {
    && (id in Members(rooms, g) <==> id in conns && Group(conns[id]) == g && Present(conns[id]))
    && (id in Members(rooms, g) ==> Described(conns, ClientInfo(id, Members(rooms, g)[id])))
  }

  ghost predicate RoomsFit(rooms: Rooms, conns: map<Uuid, Conn>)
  {
    forall g, id :: Fits(rooms, conns, g, id)
  }

  ghost predicate WithinLimits(cfg: Config, s: State)
  {
    forall g :: |Members(s.rooms, g)| <= cfg.maxConnections && Count(s.counts, g) <= cfg.maxRequests
  }

  ghost predicate Safe(cfg: Config, s: State)
  {
    Mail(s.conns) && RoomsFit(s.rooms, s.conns) && WithinLimits(cfg, s)
  }

  /** What never changes about a connection, and what can only be added to. */
  predicate Grown(c: Conn, c': Conn)
  {
    && c'.address == c.address && c'.info == c.info && c.said <= c'.said
    && (c.phase == Leaving ==> c'.phase == Leaving)
  }

  predicate Grows(conns: map<Uuid, Conn>, conns': map<Uuid, Conn>)
  {
    forall id :: id in conns ==> id in conns' && Grown(conns[id], conns'[id])
  }

  lemma StillDescribed(conns: map<Uuid, Conn>, conns': map<Uuid, Conn>, p: ClientInfo)
    requires Grows(conns, conns') && Described(conns, p)
    ensures Described(conns', p)
  {
    StillSaid(conns, conns', p.id, ClientUpdate(p.info));
  }

  lemma StillSaid(conns: map<Uuid, Conn>, conns': map<Uuid, Conn>, id: Uuid, msg: WsClientMessage)
    requires Grows(conns, conns') && id in conns
    ensures msg in conns[id].said ==> msg in conns'[id].said
  {
    assert Grown(conns[id], conns'[id]);
    var a, b := conns[id].said, conns'[id].said;
    if msg in a {
      var k :| 0 <= k < |a| && a[k] == msg;
      assert b[k] == msg;
    }
  }

  lemma StillGenuine(conns: map<Uuid, Conn>, conns': map<Uuid, Conn>, o: Uuid, m: WsServerMessage)
    requires Grows(conns, conns') && Genuine(conns, o, m)
    ensures Genuine(conns', o, m)
  {
    match m
    case Hello(_, peers) =>
      forall i | 0 <= i < |peers| ensures SameGroup(conns', o, peers[i].id) && Described(conns', peers[i]) {
        assert SameGroup(conns, o, peers[i].id);
        StillDescribed(conns, conns', peers[i]);
      }
    case Update(p) => StillSaid(conns, conns', p.id, ClientUpdate(p.info));
    case Offer(x) =>
      StillSaid(conns, conns', x.peer.id, ClientOffer(WsClientSdpMessage(x.sessionId, o, x.sdp)));
    case Answer(x) =>
      StillSaid(conns, conns', x.peer.id, ClientAnswer(WsClientSdpMessage(x.sessionId, o, x.sdp)));
    case _ =>
  }

  lemma StillMail(conns: map<Uuid, Conn>, conns': map<Uuid, Conn>, id: Uuid, c: Conn)
    requires Grows(conns, conns') && MailOf(conns, id, c)
    ensures MailOf(conns', id, c)
  {
    hide Genuine, Grows;
    forall k | 0 <= k < |c.inbox| ensures Genuine(conns', id, c.inbox[k]) {
      StillGenuine(conns, conns', id, c.inbox[k]);
    }
    StillAllGenuine(conns, conns', c.main);
    if c.reader.Busy? {
      StillAllGenuine(conns, conns', c.reader.sends);
    }
  }

  lemma StillAllGenuine(conns: map<Uuid, Conn>, conns': map<Uuid, Conn>, sends: seq<Send>)
    requires Grows(conns, conns') && AllGenuine(conns, sends)
    ensures AllGenuine(conns', sends)
  {
    hide Genuine, Grows;
    forall k | 0 <= k < |sends| ensures Genuine(conns', sends[k].to, sends[k].msg) {
      StillGenuine(conns, conns', sends[k].to, sends[k].msg);
    }
  }

  /** One connection changes. */
  lemma OneChanges(conns: map<Uuid, Conn>, id: Uuid, c: Conn)
    requires Mail(conns) && (id in conns ==> Grown(conns[id], c))
    requires MailOf(conns[id := c], id, c)
    ensures Grows(conns, conns[id := c]) && Mail(conns[id := c])
  {
    hide Genuine, MailOf;
    var conns' := conns[id := c];
    forall x | x in conns' ensures MailOf(conns', x, conns'[x]) {
      if x != id {
        StillMail(conns, conns', x, conns[x]);
      }
    }
  }

  lemma DeliverKeeps(conns: map<Uuid, Conn>, send: Send)
    requires Mail(conns) && Genuine(conns, send.to, send.msg)
    ensures Grows(conns, Deliver(conns, send)) && Mail(Deliver(conns, send))
  {
    hide Genuine;
    if send.to in conns && conns[send.to].open {
      var c := conns[send.to];
      var c' := c.(inbox := c.inbox + [send.msg]);
      assert MailOf(conns, send.to, c);
      assert MailOf(conns, send.to, c');
      StillMail(conns, conns[send.to := c'], send.to, c');
      OneChanges(conns, send.to, c');
    }
  }

  /** The rooms are as before and so is who is present. */
  lemma SameRooms(s: State, conns': map<Uuid, Conn>)
    requires RoomsFit(s.rooms, s.conns) && Grows(s.conns, conns')
    requires forall id :: id in conns' && Present(conns'[id]) ==> id in s.conns
    requires forall id :: id in s.conns ==> Present(s.conns[id]) == Present(conns'[id])
    ensures RoomsFit(s.rooms, conns')
  {
    hide Described;
    forall g, id ensures Fits(s.rooms, conns', g, id) {
      assert Fits(s.rooms, s.conns, g, id);
      if id in Members(s.rooms, g) {
        StillDescribed(s.conns, conns', ClientInfo(id, Members(s.rooms, g)[id]));
      }
    }
  }

  /** One connection changes something other than its presence. */
  lemma Aside(s: State, id: Uuid, c: Conn)
    requires Mail(s.conns) && RoomsFit(s.rooms, s.conns)
    requires id in s.conns && Grown(s.conns[id], c) && Present(c) == Present(s.conns[id])
    requires MailOf(s.conns[id := c], id, c)
    ensures Mail(s.conns[id := c]) && RoomsFit(s.rooms, s.conns[id := c])
  {
    hide Genuine, MailOf;
    OneChanges(s.conns, id, c);
    SameRooms(s, s.conns[id := c]);
  }

  /** A connection takes one of its sends off its list and makes it. */
  lemma SendKeeps(s: State, id: Uuid, c: Conn, send: Send)
    requires Mail(s.conns) && RoomsFit(s.rooms, s.conns)
    requires id in s.conns && Grown(s.conns[id], c) && Present(c) == Present(s.conns[id])
    requires MailOf(s.conns, id, c) && Genuine(s.conns, send.to, send.msg)
    ensures var conns' := Deliver(s.conns[id := c], send);
      Mail(conns') && RoomsFit(s.rooms, conns')
  {
    hide Genuine, MailOf;
    var conns1 := s.conns[id := c];
    StillMail(s.conns, conns1, id, c);
    Aside(s, id, c);
    StillGenuine(s.conns, conns1, send.to, send.msg);
    DeliverKeeps(conns1, send);
    SameRooms(s.(conns := conns1), Deliver(conns1, send));
  }

  lemma MembersDescribed(s: State, g: string, order: seq<Uuid>)
    requires RoomsFit(s.rooms, s.conns) && Lists(order, Members(s.rooms, g))
    ensures forall k :: 0 <= k < |order| ==>
      && order[k] in s.conns && Group(s.conns[order[k]]) == g
      && Described(s.conns, Infos(order, Members(s.rooms, g))[k])
  {
    forall k | 0 <= k < |order|
      ensures order[k] in s.conns && Group(s.conns[order[k]]) == g
      ensures Described(s.conns, Infos(order, Members(s.rooms, g))[k])
    {
      assert Fits(s.rooms, s.conns, g, order[k]);
    }
  }

  /** Everything a newcomer is about to send is about itself and goes to its own group. */
  lemma NewcomerMail(s: State, id: Uuid, address: IpAddr, info: ClientInfoWithoutId, order: seq<Uuid>)
    requires RoomsFit(s.rooms, s.conns) && id !in s.conns && Lists(order, Members(s.rooms, GetIpGroup(address)))
    ensures var c := Newcomer(id, address, info, Members(s.rooms, GetIpGroup(address)), order);
      MailOf(s.conns[id := c], id, c)
  {
    var others := Members(s.rooms, GetIpGroup(address));
    var c := Newcomer(id, address, info, others, order);
    var conns' := s.conns[id := c];
    var self := ClientInfo(id, info);
    assert Grows(s.conns, conns');
    MembersDescribed(s, GetIpGroup(address), order);
    forall k | 0 <= k < |order|
      ensures order[k] != id && SameGroup(conns', id, order[k])
      ensures Described(conns', Infos(order, others)[k])
    {
      StillDescribed(s.conns, conns', Infos(order, others)[k]);
    }
    forall k | 0 <= k < |c.main| ensures Genuine(conns', c.main[k].to, c.main[k].msg) {
      if k < |order| {
        assert c.main[k] == Send(order[k], Join(self));
      } else {
        assert c.main[k] == Send(id, Hello(self, Infos(order, others)));
      }
    }
  }

  lemma ConnectRooms(cfg: Config, s: State, id: Uuid, address: IpAddr, info: ClientInfoWithoutId, order: seq<Uuid>)
    requires RoomsFit(s.rooms, s.conns) && WithinLimits(cfg, s) && Enabled(s, Connect(id, address, info, order))
    ensures RoomsFit(OnConnect(cfg, s, id, address, info, order).rooms,
                     OnConnect(cfg, s, id, address, info, order).conns)
    ensures WithinLimits(cfg, OnConnect(cfg, s, id, address, info, order))
  {
    var s' := OnConnect(cfg, s, id, address, info, order);
    EnterAdds(cfg, s.rooms, s.counts, GetIpGroup(address), id, info);
    assert Grows(s.conns, s'.conns);
    forall g, x ensures Fits(s'.rooms, s'.conns, g, x) {
      assert Fits(s.rooms, s.conns, g, x);
      if x != id && x in Members(s.rooms, g) {
        StillDescribed(s.conns, s'.conns, ClientInfo(x, Members(s.rooms, g)[x]));
      }
    }
    forall g ensures |Members(s'.rooms, g)| <= cfg.maxConnections && Count(s'.counts, g) <= cfg.maxRequests {
      assert Fits(s.rooms, s.conns, g, id);
      AddOne(Members(s.rooms, g), id, info);
    }
  }

  lemma AddOne(room: Room, id: Uuid, info: ClientInfoWithoutId)
    ensures |room[id := info]| == |room| + if id in room then 0 else 1
  {
    assert room[id := info].Keys == room.Keys + {id};
    assert |room[id := info]| == |room[id := info].Keys| && |room| == |room.Keys|;
  }

  lemma ConnectKeeps(cfg: Config, s: State, id: Uuid, address: IpAddr, info: ClientInfoWithoutId, order: seq<Uuid>)
    requires Safe(cfg, s) && Enabled(s, Connect(id, address, info, order))
    ensures Safe(cfg, OnConnect(cfg, s, id, address, info, order))
  {
    hide Genuine;
    ConnectRooms(cfg, s, id, address, info, order);
    EnterAdds(cfg, s.rooms, s.counts, GetIpGroup(address), id, info);
    var c := OnConnect(cfg, s, id, address, info, order).conns[id];
    if c.phase == Joining {
      NewcomerMail(s, id, address, info, order);
    }
    OneChanges(s.conns, id, c);
  }

  /** A change of rooms and counters that takes nobody in and out keeps the limits. */
  lemma ChargeKeeps(cfg: Config, s: State, group: string)
    requires WithinLimits(cfg, s)
    ensures WithinLimits(cfg, s.(counts := Charge(cfg, s.counts, group).0))
  {
  }

  lemma ReceiveKeeps(cfg: Config, s: State, id: Uuid, msg: WsClientMessage)
    requires Safe(cfg, s) && Enabled(s, Receive(id, msg))
    ensures Safe(cfg, OnReceive(cfg, s, id, msg))
  {
    var c := s.conns[id];
    var s' := OnReceive(cfg, s, id, msg);
    var c' := s'.conns[id];
    assert MailOf(s.conns, id, c);
    assert Grown(c, c');
    assert Grows(s.conns, s'.conns);
    StillMail(s.conns, s'.conns, id, c);
    assert MailOf(s'.conns, id, c');
    Aside(s, id, c');
    ChargeKeeps(cfg, s, Group(c));
  }

  /** What the handling of a message will send is genuine. */
  lemma HandledMail(s: State, id: Uuid, order: seq<Uuid>)
    requires Mail(s.conns) && RoomsFit(s.rooms, s.conns) && Enabled(s, Handle(id, order))
    ensures var r := OnHandle(s, id, order).conns[id].reader;
      r.Busy? ==> AllGenuine(s.conns, r.sends)
  {
    var c := s.conns[id];
    assert MailOf(s.conns, id, c);
    match c.reader.msg
    case ClientUpdate(info) => UpdateGenuine(s, id, info, order);
    case ClientOffer(sdp) => ForwardGenuine(s, id, sdp);
    case ClientAnswer(sdp) => ForwardGenuine(s, id, sdp);
  }

  lemma ForwardGenuine(s: State, id: Uuid, sdp: WsClientSdpMessage)
    requires RoomsFit(s.rooms, s.conns) && id in s.conns
    ensures ClientOffer(sdp) in s.conns[id].said ==> AllGenuine(s.conns, Forward(s, id, sdp, x => Offer(x)))
    ensures ClientAnswer(sdp) in s.conns[id].said ==> AllGenuine(s.conns, Forward(s, id, sdp, x => Answer(x)))
  {
    assert Fits(s.rooms, s.conns, Group(s.conns[id]), sdp.target);
    assert sdp == WsClientSdpMessage(sdp.sessionId, sdp.target, sdp.sdp);
  }

  lemma UpdateGenuine(s: State, id: Uuid, info: ClientInfoWithoutId, order: seq<Uuid>)
    requires RoomsFit(s.rooms, s.conns) && id in s.conns && ClientUpdate(info) in s.conns[id].said
    requires Lists(order, Amend(s.rooms, Group(s.conns[id]), id, info).1)
    ensures AllGenuine(s.conns, Broadcast(order, Update(ClientInfo(id, info))))
  {
    AmendKeeps(s.rooms, Group(s.conns[id]), id, info);
    forall k | 0 <= k < |order| ensures Genuine(s.conns, order[k], Update(ClientInfo(id, info))) {
      assert order[k] in Amend(s.rooms, Group(s.conns[id]), id, info).1;
      assert Fits(s.rooms, s.conns, Group(s.conns[id]), order[k]);
    }
  }

  lemma HandleKeeps(cfg: Config, s: State, id: Uuid, order: seq<Uuid>)
    requires Safe(cfg, s) && Enabled(s, Handle(id, order))
    ensures Safe(cfg, OnHandle(s, id, order))
  {
    hide Genuine;
    var c := s.conns[id];
    var s' := OnHandle(s, id, order);
    var c' := s'.conns[id];
    assert MailOf(s.conns, id, c);
    HandledMail(s, id, order);
    StillMail(s.conns, s'.conns, id, c') by { assert Grows(s.conns, s'.conns); assert MailOf(s.conns, id, c'); }
    Aside(s, id, c');
    if c.reader.msg.ClientUpdate? {
      AmendedRooms(cfg, s.(conns := s'.conns), id, c.reader.msg.info);
    }
  }

  lemma AmendedRooms(cfg: Config, s: State, id: Uuid, info: ClientInfoWithoutId)
    requires RoomsFit(s.rooms, s.conns) && WithinLimits(cfg, s)
    requires id in s.conns && ClientUpdate(info) in s.conns[id].said
    ensures var s' := s.(rooms := Amend(s.rooms, Group(s.conns[id]), id, info).0);
      RoomsFit(s'.rooms, s'.conns) && WithinLimits(cfg, s')
  {
    var group := Group(s.conns[id]);
    var s' := s.(rooms := Amend(s.rooms, group, id, info).0);
    AmendKeeps(s.rooms, group, id, info);
    AddOne(Members(s.rooms, group), id, info);
    forall g, x ensures Fits(s'.rooms, s'.conns, g, x) {
      assert Fits(s.rooms, s.conns, g, x);
    }
  }

  lemma DisconnectKeeps(cfg: Config, s: State, id: Uuid, order: seq<Uuid>)
    requires Safe(cfg, s) && Enabled(s, Disconnect(id, order))
    ensures Safe(cfg, Apply(cfg, s, Disconnect(id, order)))
  {
    var c := s.conns[id];
    var c' := c.(phase := Leaving, main := Broadcast(order, Left(id)));
    var conns' := s.conns[id := c'];
    LeaveRemoves(s.rooms, Group(c), id);
    assert MailOf(s.conns, id, c);
    assert Grows(s.conns, conns');
    StillMail(s.conns, conns', id, c);
    LeftGenuine(s, id, order, conns');
    assert MailOf(conns', id, c');
    OneChanges(s.conns, id, c');
    DisconnectRooms(cfg, s, id, conns');
  }

  lemma LeftGenuine(s: State, id: Uuid, order: seq<Uuid>, conns': map<Uuid, Conn>)
    requires RoomsFit(s.rooms, s.conns) && id in s.conns && Grows(s.conns, conns') && conns'[id].phase == Leaving
    requires Lists(order, Members(s.rooms, Group(s.conns[id])) - {id})
    ensures AllGenuine(conns', Broadcast(order, Left(id)))
  {
    forall k | 0 <= k < |order| ensures Genuine(conns', order[k], Left(id)) {
      assert order[k] in Members(s.rooms, Group(s.conns[id])) - {id};
      assert Fits(s.rooms, s.conns, Group(s.conns[id]), order[k]);
    }
  }

  lemma DisconnectRooms(cfg: Config, s: State, id: Uuid, conns': map<Uuid, Conn>)
    requires RoomsFit(s.rooms, s.conns) && WithinLimits(cfg, s) && id in s.conns && Grows(s.conns, conns')
    requires conns'.Keys == s.conns.Keys && !Present(conns'[id])
    requires forall x :: x in s.conns && x != id ==> Present(conns'[x]) == Present(s.conns[x])
    ensures var s' := s.(rooms := Leave(s.rooms, Group(s.conns[id]), id).0, conns := conns');
      RoomsFit(s'.rooms, s'.conns) && WithinLimits(cfg, s')
  {
    hide Described, Leave, Grows, Members, Group;
    var s' := s.(rooms := Leave(s.rooms, Group(s.conns[id]), id).0, conns := conns');
    LeaveRemoves(s.rooms, Group(s.conns[id]), id);
    forall g, x ensures Fits(s'.rooms, s'.conns, g, x) {
      assert Fits(s.rooms, s.conns, g, x);
      if x in s.conns {
        SameGroupStill(s.conns, conns', x);
      }
      if x in Members(s.rooms, g) {
        StillDescribed(s.conns, conns', ClientInfo(x, Members(s.rooms, g)[x]));
      }
    }
    forall g ensures |Members(s'.rooms, g)| <= |Members(s.rooms, g)| {
      Shrinks(Members(s.rooms, g), id);
    }
  }

  lemma SameGroupStill(conns: map<Uuid, Conn>, conns': map<Uuid, Conn>, id: Uuid)
    requires Grows(conns, conns') && id in conns
    ensures Group(conns'[id]) == Group(conns[id])
  {
    assert Grown(conns[id], conns'[id]);
  }

  lemma Shrinks(room: Room, id: Uuid)
    ensures |room - {id}| == |room| - if id in room then 1 else 0
  {
    assert (room - {id}).Keys == room.Keys - {id};
    assert |room - {id}| == |(room - {id}).Keys| && |room| == |room.Keys|;
  }

  /** Every step keeps all of it. */
  lemma StepKeeps(cfg: Config, s: State, step: Step)
    requires Safe(cfg, s) && Enabled(s, step)
    ensures Safe(cfg, Apply(cfg, s, step))
  {
    hide Genuine, MailOf;
    match step
    case Connect(id, address, info, order) => ConnectKeeps(cfg, s, id, address, info, order);
    case Receive(id, msg) => ReceiveKeeps(cfg, s, id, msg);
    case Handle(id, order) => HandleKeeps(cfg, s, id, order);
    case Disconnect(id, order) => DisconnectKeeps(cfg, s, id, order);
    case Clear =>
    case SendNext(id) =>
      var c := s.conns[id];
      FirstSend(s.conns, id);
      SendKeeps(s, id, c.(main := c.main[1..]), c.main[0]);
    case Reply(id) =>
      var c := s.conns[id];
      FirstReply(s.conns, id);
      SendKeeps(s, id, c.(reader := Busied(c.reader.sends[1..], c.reader.last)), c.reader.sends[0]);
    case Serve(id) => Quieter(s, id, s.conns[id].(phase := Serving));
    case StopReader(id) => Quieter(s, id, s.conns[id].(reader := Stopped));
    case CloseQueue(id) => Quieter(s, id, s.conns[id].(open := false));
  }

  lemma FirstSend(conns: map<Uuid, Conn>, id: Uuid)
    requires Mail(conns) && id in conns && conns[id].main != []
    ensures var c := conns[id];
      MailOf(conns, id, c.(main := c.main[1..])) && Genuine(conns, c.main[0].to, c.main[0].msg)
  {
    hide Genuine;
    assert MailOf(conns, id, conns[id]);
  }

  lemma FirstReply(conns: map<Uuid, Conn>, id: Uuid)
    requires Mail(conns) && id in conns && conns[id].reader.Busy? && conns[id].reader.sends != []
    ensures var c := conns[id];
      && MailOf(conns, id, c.(reader := Busied(c.reader.sends[1..], c.reader.last)))
      && Genuine(conns, c.reader.sends[0].to, c.reader.sends[0].msg)
  {
    hide Genuine;
    assert MailOf(conns, id, conns[id]);
  }

  lemma Quieter(s: State, id: Uuid, c: Conn)
    requires Mail(s.conns) && RoomsFit(s.rooms, s.conns) && id in s.conns
    requires Grown(s.conns[id], c) && Present(c) == Present(s.conns[id])
    requires c.inbox == s.conns[id].inbox && c.main == s.conns[id].main && c.said == s.conns[id].said
    requires c.reader == s.conns[id].reader || c.reader == Stopped
    ensures Mail(s.conns[id := c]) && RoomsFit(s.rooms, s.conns[id := c])
  {
    hide Genuine;
    assert MailOf(s.conns, id, s.conns[id]);
    assert MailOf(s.conns, id, c);
    StillMail(s.conns, s.conns[id := c], id, c);
    Aside(s, id, c);
  }

  lemma {:induction false} AlwaysSafe(cfg: Config, run: seq<Step>)
    requires After(cfg, run).Some?
    ensures Safe(cfg, After(cfg, run).value)
  {
    if run != [] {
      AlwaysSafe(cfg, run[..|run| - 1]);
      StepKeeps(cfg, After(cfg, run[..|run| - 1]).value, run[|run| - 1]);
    }
  }

  // ----- What follows for every run -----

  /** The connections a message tells its reader about. */
  function Mentioned(m: WsServerMessage): set<Uuid>
  {
    match m
    case Hello(_, peers) => set i | 0 <= i < |peers| :: peers[i].id
    case Join(p) => {p.id}
    case Update(p) => {p.id}
    case Left(p) => {p}
    case Offer(x) => {x.peer.id}
    case Answer(x) => {x.peer.id}
    case Error(_) => {}
  }

  /** Whatever stands in a client's queue is true, and is about clients on its own network:
      one IPv4 address, or one IPv6 /64. */
  lemma RoomIsolation(cfg: Config, run: seq<Step>, s: State, o: Uuid, k: nat)
    requires After(cfg, run) == Some(s) && o in s.conns && k < |s.conns[o].inbox|
    ensures var m := s.conns[o].inbox[k];
      && Genuine(s.conns, o, m)
      && forall p :: p in Mentioned(m) ==> p in s.conns && SameNetwork(s.conns[o].address, s.conns[p].address)
  {
    AlwaysSafe(cfg, run);
    var m := s.conns[o].inbox[k];
    assert MailOf(s.conns, o, s.conns[o]);
    forall p | p in Mentioned(m) ensures p in s.conns && SameNetwork(s.conns[o].address, s.conns[p].address) {
      assert SameGroup(s.conns, o, p);
      GroupSeparates(s.conns[o].address, s.conns[p].address);
    }
  }

  /** The requests of a group that were let through since the counters were last cleared. */
  function Admitted(cfg: Config, run: seq<Step>, g: string): nat
    requires After(cfg, run).Some?
  {
    if run == [] then 0
    else
      var before := run[..|run| - 1];
      var conns := After(cfg, run).value.conns;
      match run[|run| - 1]
      case Clear => 0
      case Connect(id, address, _, _) =>
        Admitted(cfg, before, g) + if GetIpGroup(address) == g && Present(conns[id]) then 1 else 0
      case Receive(id, _) =>
        Admitted(cfg, before, g) + if Group(conns[id]) == g && conns[id].reader.Handling? then 1 else 0
      case _ => Admitted(cfg, before, g)
  }

  /** Every room stays within the connection limit, and every counter says how many requests
      were let through, which is never more than the hourly limit. */
  lemma {:induction false} LimitsHold(cfg: Config, run: seq<Step>, g: string)
    requires After(cfg, run).Some?
    ensures var s := After(cfg, run).value;
      && |Members(s.rooms, g)| <= cfg.maxConnections
      && Count(s.counts, g) == Admitted(cfg, run, g) <= cfg.maxRequests
  {
    hide Mail, RoomsFit, Deliver, Told, Leave, Broadcast;
    AlwaysSafe(cfg, run);
    if run != [] {
      var before := run[..|run| - 1];
      LimitsHold(cfg, before, g);
      var s := After(cfg, before).value;
      match run[|run| - 1]
      case Connect(id, address, info, _) =>
        EnterAdds(cfg, s.rooms, s.counts, GetIpGroup(address), id, info);
      case Receive(id, _) =>
      case _ =>
    }
  }

  /** A request is turned away exactly when its group has used up its budget; a connect also
      when its room is full. */
  lemma TurnedAwayExactly(cfg: Config, run: seq<Step>, s: State, step: Step)
    requires After(cfg, run) == Some(s) && Enabled(s, step)
    ensures var conns' := Apply(cfg, s, step).conns;
      && (step.Connect? ==>
            var g := GetIpGroup(step.address);
            !Present(conns'[step.id]) <==>
              |Members(s.rooms, g)| == cfg.maxConnections || Admitted(cfg, run, g) == cfg.maxRequests)
      && (step.Receive? ==>
            (conns'[step.id].reader == Busy([Send(step.id, Error(429))], true) <==>
              Admitted(cfg, run, Group(s.conns[step.id])) == cfg.maxRequests))
  {
    hide After, Admitted;
    if step.Connect? {
      LimitsHold(cfg, run, GetIpGroup(step.address));
      EnterAdds(cfg, s.rooms, s.counts, GetIpGroup(step.address), step.id, step.info);
    } else if step.Receive? {
      LimitsHold(cfg, run, Group(s.conns[step.id]));
    }
  }

  /** An entry without members is only ever left behind by a connect that was refused. */
  lemma {:induction false} EmptyRooms(cfg: Config, run: seq<Step>, s: State, g: string) returns (i: nat)
    requires After(cfg, run) == Some(s) && g in s.rooms && s.rooms[g] == map[]
    ensures i < |run| && run[i].Connect? && GetIpGroup(run[i].address) == g
    ensures After(cfg, run[..i + 1]).Some?
    ensures var conns := After(cfg, run[..i + 1]).value.conns;
      run[i].id in conns && conns[run[i].id].phase == Phase.Refused
  {
    hide Apply, Enabled;
    var before, step := run[..|run| - 1], run[|run| - 1];
    var s0 := After(cfg, before).value;
    assert run[..|run|] == run;
    if g in s0.rooms && s0.rooms[g] == map[] {
      i := EmptyRooms(cfg, before, s0, g);
      assert before[..i + 1] == run[..i + 1];
    } else {
      EmptiedBy(cfg, s0, step, g);
      i := |run| - 1;
    }
  }

  lemma EmptiedBy(cfg: Config, s: State, step: Step, g: string)
    requires Enabled(s, step) && g in Apply(cfg, s, step).rooms && Apply(cfg, s, step).rooms[g] == map[]
    requires g in s.rooms ==> s.rooms[g] != map[]
    ensures step.Connect? && GetIpGroup(step.address) == g
    ensures step.id in Apply(cfg, s, step).conns && Apply(cfg, s, step).conns[step.id].phase == Phase.Refused
  {
    hide Deliver, Broadcast, Charge, Told, GetIpGroup;
    match step
    case Connect(id, address, info, _) => HasMember(Members(s.rooms, g), id, info);
    case _ =>
  }

  lemma HasMember(room: Room, id: Uuid, info: ClientInfoWithoutId)
    ensures room[id := info] != map[]
  {
    assert id in room[id := info];
  }

  /** Once a request of a client has been refused, nothing more is heard from it, and as long as it
      listens it is told why. */
  lemma {:induction false} RefusedForGood(cfg: Config, run: seq<Step>, s: State, i: nat, id: Uuid)
    requires After(cfg, run) == Some(s) && i <= |run| && After(cfg, run[..i]).Some?
    requires var conns := After(cfg, run[..i]).value.conns;
      id in conns && conns[id].reader == Busy([Send(id, Error(429))], true)
    ensures id in s.conns && s.conns[id].said == After(cfg, run[..i]).value.conns[id].said
    ensures s.conns[id].reader == Busy([Send(id, Error(429))], true)
      || (s.conns[id].reader == Stopped && (s.conns[id].open ==> Error(429) in s.conns[id].inbox))
    decreases |run|
  {
    hide Apply, Enabled;
    assert run[..|run|] == run;
    if i < |run| {
      var before := run[..|run| - 1];
      assert before[..i] == run[..i];
      var s0 := After(cfg, before).value;
      RefusedForGood(cfg, before, s0, i, id);
      RefusedStep(cfg, s0, run[|run| - 1], id);
    }
  }

  lemma RefusedStep(cfg: Config, s: State, step: Step, id: Uuid)
    requires Enabled(s, step) && id in s.conns
    requires s.conns[id].reader == Busy([Send(id, Error(429))], true)
      || (s.conns[id].reader == Stopped && (s.conns[id].open ==> Error(429) in s.conns[id].inbox))
    ensures var conns' := Apply(cfg, s, step).conns;
      && id in conns' && conns'[id].said == s.conns[id].said
      && (conns'[id].reader == Busy([Send(id, Error(429))], true)
          || (conns'[id].reader == Stopped && (conns'[id].open ==> Error(429) in conns'[id].inbox)))
  {
    hide Enter, Charge, Told, Amend, Leave, Broadcast;
  }
}
