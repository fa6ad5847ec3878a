/** What a client is told about its room adds up, whatever order the messages come in. */
module Convergence {
  import opened Prelude
  import opened Signaling
  import opened Registry
  import opened IpGroup
  import opened RoomServer
  import opened Isolation

  datatype News = Arrived(id: Uuid) | Departed(id: Uuid)

  function Occurs(peers: seq<ClientInfo>, id: Uuid): nat
  {
    if peers == [] then 0 else (if peers[0].id == id then 1 else 0) + Occurs(peers[1..], id)
  }

  /** How often one message says a piece of news. */
  function Tells(m: WsServerMessage, n: News): nat
  {
    match (m, n)
    case (Hello(_, peers), Arrived(id)) => Occurs(peers, id)
    case (Join(p), Arrived(id)) => if p.id == id then 1 else 0
    case (Left(p), Departed(id)) => if p == id then 1 else 0
    case _ => 0
  }

  /** How often a queue says it. */
  function In(inbox: seq<WsServerMessage>, n: News): nat
  {
    if inbox == [] then 0 else In(inbox[..|inbox| - 1], n) + Tells(inbox[|inbox| - 1], n)
  }

  /** How often a list of sends will say it to `o`. */
  function To(sends: seq<Send>, o: Uuid, n: News): nat
  {
    if sends == [] then 0
    else (if sends[0].to == o then Tells(sends[0].msg, n) else 0) + To(sends[1..], o, n)
  }

  /** Said to `o`, or still to be said by `o`'s own task (its Hello) or by that of the client
      the news is about (its Join and Left). No other task says either. */
  function Total(conns: map<Uuid, Conn>, o: Uuid, n: News): nat
    requires o in conns
  {
    In(conns[o].inbox, n) + To(conns[o].main, o, n)
      + if n.id in conns && n.id != o then To(conns[n.id].main, o, n) else 0
  }

  /** Between a present observer and anyone else: who is present has been announced once and
      not been reported gone, who has left has been reported gone as often as announced. */
  predicate Pair(conns: map<Uuid, Conn>, o: Uuid, p: Uuid)
  {
    o in conns && Present(conns[o]) && conns[o].open ==>
      var a := Total(conns, o, Arrived(p));
      var l := Total(conns, o, Departed(p));
      if p == o || !SameGroup(conns, o, p) || conns[p].phase == Refused then a == 0 && l == 0
      else if Present(conns[p]) then a == 1 && l == 0
      else a == l <= 1
  }

  ghost predicate Pairs(conns: map<Uuid, Conn>)
  {
    forall o, p :: Pair(conns, o, p)
  }

  /** What the two tasks of a connection have to send, by phase. */
  predicate Own(id: Uuid, c: Conn)
  {
    && (c.phase == Serving || c.phase == Refused ==> c.main == [])
    && (forall k :: 0 <= k < |c.main| ==>
          match c.main[k].msg
          case Hello(_, _) => c.phase == Joining && c.main[k].to == id
          case Join(p) => c.phase == Joining && p.id == id && c.main[k].to != id
          case Left(p) => c.phase == Leaving && p == id
          case _ => false)
    && (c.reader.Busy? ==> forall k :: 0 <= k < |c.reader.sends| ==> !News?(c.reader.sends[k].msg))
  }

  predicate News?(m: WsServerMessage) { m.Hello? || m.Join? || m.Left? }

  ghost predicate AllOwn(conns: map<Uuid, Conn>)
  {
    forall id :: id in conns ==> Own(id, conns[id])
  }

  // ----- Counting -----

  lemma InSnoc(inbox: seq<WsServerMessage>, m: WsServerMessage, n: News)
    ensures In(inbox + [m], n) == In(inbox, n) + Tells(m, n)
  {
    assert (inbox + [m])[..|inbox|] == inbox;
  }

  lemma {:induction false} ToAppend(a: seq<Send>, b: seq<Send>, o: Uuid, n: News)
    ensures To(a + b, o, n) == To(a, o, n) + To(b, o, n)
  {
    if a == [] {
      assert a + b == b;
    } else {
      ToAppend(a[1..], b, o, n);
      assert (a + b)[1..] == a[1..] + b;
    }
  }

  lemma {:induction false} NothingTo(sends: seq<Send>, o: Uuid, n: News)
    requires forall k :: 0 <= k < |sends| ==> sends[k].to != o || Tells(sends[k].msg, n) == 0
    ensures To(sends, o, n) == 0
  {
    if sends != [] {
      forall k | 0 <= k < |sends[1..]| ensures sends[1..][k].to != o || Tells(sends[1..][k].msg, n) == 0 {
        assert sends[1..][k] == sends[k + 1];
      }
      NothingTo(sends[1..], o, n);
    }
  }

  lemma {:induction false} NothingIn(inbox: seq<WsServerMessage>, n: News)
    requires forall k :: 0 <= k < |inbox| ==> Tells(inbox[k], n) == 0
    ensures In(inbox, n) == 0
  {
    if inbox != [] {
      NothingIn(inbox[..|inbox| - 1], n);
    }
  }

  lemma {:induction false} BroadcastTo(order: seq<Uuid>, msg: WsServerMessage, o: Uuid, n: News)
    requires forall i, j :: 0 <= i < j < |order| ==> order[i] != order[j]
    ensures To(Broadcast(order, msg), o, n) == if o in order then Tells(msg, n) else 0
  {
    if order != [] {
      BroadcastTo(order[1..], msg, o, n);
      assert Broadcast(order, msg)[1..] == Broadcast(order[1..], msg);
      assert order == [order[0]] + order[1..];
    }
  }

  lemma OccursCons(peers: seq<ClientInfo>, id: Uuid)
    requires peers != []
    ensures Occurs(peers, id) == (if peers[0].id == id then 1 else 0) + Occurs(peers[1..], id)
  {
  }

  lemma {:induction false} OccursInfos(order: seq<Uuid>, room: Room, id: Uuid)
    requires forall i, j :: 0 <= i < j < |order| ==> order[i] != order[j]
    requires forall x :: x in order ==> x in room
    ensures Occurs(Infos(order, room), id) == if id in order then 1 else 0
  {
    if order != [] {
      hide Occurs;
      var rest := order[1..];
      assert order == [order[0]] + rest;
      assert forall x :: x in rest ==> x in order;
      OccursInfos(rest, room, id);
      OccursCons(Infos(order, room), id);
      assert Infos(order, room)[1..] == Infos(rest, room);
    }
  }

  lemma {:induction false} OccursPositive(peers: seq<ClientInfo>, id: Uuid)
    ensures Occurs(peers, id) > 0 ==> exists i :: 0 <= i < |peers| && peers[i].id == id
  {
    if peers != [] {
      OccursPositive(peers[1..], id);
      if Occurs(peers[1..], id) > 0 {
        var i :| 0 <= i < |peers[1..]| && peers[1..][i].id == id;
        assert peers[i + 1].id == id;
      }
    }
  }

  /** A genuine message is news only of others, known and in the group. */
  lemma GenuineNews(conns: map<Uuid, Conn>, o: Uuid, m: WsServerMessage, n: News)
    requires Genuine(conns, o, m) && Tells(m, n) > 0
    ensures n.id != o && SameGroup(conns, o, n.id)
  {
    if m.Hello? {
      OccursPositive(m.peers, n.id);
    }
  }

  /** Nobody has been told anything about a client that is not known, or about itself. */
  lemma NoNews(conns: map<Uuid, Conn>, o: Uuid, c: Conn, n: News)
    requires MailOf(conns, o, c) && (n.id == o || !SameGroup(conns, o, n.id))
    ensures In(c.inbox, n) == 0
    ensures To(c.main, o, n) == 0
  {
    hide Genuine, SameGroup;
    forall k | 0 <= k < |c.inbox| ensures Tells(c.inbox[k], n) == 0 {
      if Tells(c.inbox[k], n) > 0 { GenuineNews(conns, o, c.inbox[k], n); }
    }
    NothingIn(c.inbox, n);
    forall k | 0 <= k < |c.main| ensures c.main[k].to != o || Tells(c.main[k].msg, n) == 0 {
      if c.main[k].to == o && Tells(c.main[k].msg, n) > 0 { GenuineNews(conns, o, c.main[k].msg, n); }
    }
    NothingTo(c.main, o, n);
  }

  // ----- One step at a time -----

  /** What the count between two clients depends on. */
  predicate Alike(conns: map<Uuid, Conn>, conns': map<Uuid, Conn>, id: Uuid)
  {
    && (id in conns <==> id in conns')
    && (id in conns ==>
          && conns'[id].address == conns[id].address && conns'[id].main == conns[id].main
          && Present(conns'[id]) == Present(conns[id])
          && (conns'[id].phase == Refused <==> conns[id].phase == Refused))
  }

  lemma PairAlike(conns: map<Uuid, Conn>, conns': map<Uuid, Conn>, o: Uuid, p: Uuid)
    requires Pair(conns, o, p) && Alike(conns, conns', o) && Alike(conns, conns', p)
    requires o in conns && conns'[o].open ==>
      conns[o].open && forall n :: In(conns'[o].inbox, n) == In(conns[o].inbox, n)
    ensures Pair(conns', o, p)
  {
    if o in conns && Present(conns'[o]) && conns'[o].open {
      assert Total(conns', o, Arrived(p)) == Total(conns, o, Arrived(p));
      assert Total(conns', o, Departed(p)) == Total(conns, o, Departed(p));
    }
  }

  lemma TotalAlike(conns: map<Uuid, Conn>, conns': map<Uuid, Conn>, o: Uuid, n: News)
    requires o in conns && o in conns' && conns'[o].main == conns[o].main
    requires In(conns'[o].inbox, n) == In(conns[o].inbox, n)
    requires n.id in conns && n.id in conns' && conns'[n.id].main == conns[n.id].main
    ensures Total(conns', o, n) == Total(conns, o, n)
  {
  }

  /** Sending a message moves its news from the list of the sender to the queue. */
  lemma SendTotal(conns: map<Uuid, Conn>, id: Uuid, o: Uuid, n: News)
    requires id in conns && conns[id].main != [] && Own(id, conns[id])
    requires o in conns && conns[o].open
    ensures var c := conns[id];
      var conns' := Deliver(conns[id := c.(main := c.main[1..])], c.main[0]);
      o in conns' && Total(conns', o, n) == Total(conns, o, n)
  {
    hide Own, Tells, In, To, Deliver;
    var c := conns[id];
    var send := c.main[0];
    FirstTells(id, c, o, n);
    InSnoc(conns[o].inbox, send.msg, n);
    ToFirst(c.main, o, n);
    Delivered(conns, id, c.(main := c.main[1..]), send, o);
    if n.id in conns {
      Delivered(conns, id, c.(main := c.main[1..]), send, n.id);
    }
  }

  lemma ToFirst(sends: seq<Send>, o: Uuid, n: News)
    requires sends != []
    ensures To(sends, o, n) == (if sends[0].to == o then Tells(sends[0].msg, n) else 0) + To(sends[1..], o, n)
  {
  }

  lemma Delivered(conns: map<Uuid, Conn>, id: Uuid, c: Conn, send: Send, x: Uuid)
    requires id in conns && c == conns[id].(main := c.main, reader := c.reader) && x in conns
    ensures var conns' := Deliver(conns[id := c], send);
      && conns'.Keys == conns.Keys
      && conns'[x] == (if x == id then c else conns[x]).(
           inbox := if x == send.to && conns[x].open then conns[x].inbox + [send.msg] else conns[x].inbox)
  {
  }

  lemma FirstTells(id: Uuid, c: Conn, o: Uuid, n: News)
    requires Own(id, c) && c.main != []
    ensures c.main[0].to == o && Tells(c.main[0].msg, n) > 0 ==> id == o || id == n.id
  {
  }

  lemma SendPairs(conns: map<Uuid, Conn>, id: Uuid)
    requires id in conns && conns[id].main != [] && Own(id, conns[id]) && Pairs(conns)
    ensures var c := conns[id];
      Pairs(Deliver(conns[id := c.(main := c.main[1..])], c.main[0]))
  {
    hide Own, Total;
    var c := conns[id];
    var conns' := Deliver(conns[id := c.(main := c.main[1..])], c.main[0]);
    forall o, p ensures Pair(conns', o, p) {
      assert Pair(conns, o, p);
      if o in conns' && Present(conns'[o]) && conns'[o].open {
        SendTotal(conns, id, o, Arrived(p));
        SendTotal(conns, id, o, Departed(p));
      }
    }
  }

  /** Steps that send no news and let nobody in or out. */
  lemma QuietPairs(conns: map<Uuid, Conn>, conns': map<Uuid, Conn>)
    requires Pairs(conns) && forall id :: Alike(conns, conns', id)
    requires forall o :: o in conns' && conns'[o].open ==>
      o in conns && conns[o].open && forall n :: In(conns'[o].inbox, n) == In(conns[o].inbox, n)
    ensures Pairs(conns')
  {
    hide Pair, Alike;
    forall o, p ensures Pair(conns', o, p) {
      assert Pair(conns, o, p) && Alike(conns, conns', o) && Alike(conns, conns', p);
      assert o in conns <==> o in conns' by { InBoth(conns, conns', o); }
      PairAlike(conns, conns', o, p);
    }
  }

  lemma InBoth(conns: map<Uuid, Conn>, conns': map<Uuid, Conn>, id: Uuid)
    requires Alike(conns, conns', id)
    ensures id in conns <==> id in conns'
  {
  }

  lemma ReplyPairs(conns: map<Uuid, Conn>, id: Uuid, c: Conn, send: Send)
    requires Pairs(conns) && id in conns && !News?(send.msg)
    requires c == conns[id].(reader := c.reader)
    ensures Pairs(Deliver(conns[id := c], send))
  {
    hide Pair;
    var conns' := Deliver(conns[id := c], send);
    forall o | o in conns' && conns'[o].open
      ensures conns[o].open && forall n :: In(conns'[o].inbox, n) == In(conns[o].inbox, n)
    {
      forall n ensures In(conns'[o].inbox, n) == In(conns[o].inbox, n) {
        InSnoc(conns[o].inbox, send.msg, n);
      }
    }
    forall x ensures Alike(conns, conns', x) {
    }
    QuietPairs(conns, conns');
  }

  lemma NewcomerTo(
    id: Uuid, address: IpAddr, info: ClientInfoWithoutId, others: Room, order: seq<Uuid>, o: Uuid, n: News)
    requires Lists(order, others) && id !in others
    ensures To(Newcomer(id, address, info, others, order).main, o, n) ==
      if n.Departed? then 0
      else (if n.id == id && o in others then 1 else 0) + (if o == id && n.id in others then 1 else 0)
  {
    var self := ClientInfo(id, info);
    var hello := [Send(id, Hello(self, Infos(order, others)))];
    ToAppend(Broadcast(order, Join(self)), hello, o, n);
    BroadcastTo(order, Join(self), o, n);
    assert hello[1..] == [];
    OccursInfos(order, others, n.id);
  }

  /** No message is on its way to a client that is not there. */
  lemma NothingToStranger(conns: map<Uuid, Conn>, p: Uuid, o: Uuid, n: News)
    requires Mail(conns) && p in conns && o !in conns
    ensures To(conns[p].main, o, n) == 0
  {
    assert MailOf(conns, p, conns[p]);
    forall k | 0 <= k < |conns[p].main| ensures conns[p].main[k].to != o {
      assert Genuine(conns, conns[p].main[k].to, conns[p].main[k].msg);
    }
    NothingTo(conns[p].main, o, n);
  }

  /** The counts of and about a newcomer. */
  lemma NewcomerTotal(
    conns: map<Uuid, Conn>, id: Uuid, address: IpAddr, info: ClientInfoWithoutId, others: Room, order: seq<Uuid>,
    o: Uuid, n: News)
    requires Mail(conns) && id !in conns && id !in others && Lists(order, others)
    requires o == id || (n.id == id && o in conns)
    ensures var conns' := conns[id := Newcomer(id, address, info, others, order)];
      Total(conns', o, n) == if n.Arrived? && ((n.id == id && o in others) || (o == id && n.id in others)) then 1 else 0
  {
    hide Newcomer, Genuine;
    var c := Newcomer(id, address, info, others, order);
    NewcomerTo(id, address, info, others, order, o, n);
    assert c.inbox == [] by { NewcomerInbox(id, address, info, others, order); }
    if o == id {
      if n.id in conns {
        NothingToStranger(conns, n.id, id, n);
      }
    } else {
      assert MailOf(conns, o, conns[o]);
      NoNews(conns, o, conns[o], n);
    }
  }

  lemma NewcomerInbox(id: Uuid, address: IpAddr, info: ClientInfoWithoutId, others: Room, order: seq<Uuid>)
    requires Lists(order, others)
    ensures var c := Newcomer(id, address, info, others, order);
      c.inbox == [] && c.phase == Joining && c.open && c.address == address
  {
  }

  lemma AdmittedPairs(s: State, id: Uuid, address: IpAddr, info: ClientInfoWithoutId, order: seq<Uuid>)
    requires Mail(s.conns) && RoomsFit(s.rooms, s.conns) && Pairs(s.conns)
    requires id !in s.conns && Lists(order, Members(s.rooms, GetIpGroup(address)))
    ensures Fits(s.rooms, s.conns, GetIpGroup(address), id)
    ensures Pairs(s.conns[id := Newcomer(id, address, info, Members(s.rooms, GetIpGroup(address)), order)])
  {
    hide Newcomer, Mail, Total;
    var g := GetIpGroup(address);
    var others := Members(s.rooms, g);
    var conns' := s.conns[id := Newcomer(id, address, info, others, order)];
    NewcomerInbox(id, address, info, others, order);
    assert Fits(s.rooms, s.conns, g, id);
    forall o, p ensures Pair(conns', o, p) {
      assert Pair(s.conns, o, p) && Fits(s.rooms, s.conns, g, o) && Fits(s.rooms, s.conns, g, p);
      if o in conns' && (o == id || p == id) {
        NewcomerTotal(s.conns, id, address, info, others, order, o, Arrived(p));
        NewcomerTotal(s.conns, id, address, info, others, order, o, Departed(p));
      } else if o in s.conns {
        PairAlike(s.conns, conns', o, p);
      }
    }
  }

  lemma RefusedPairs(conns: map<Uuid, Conn>, id: Uuid, c: Conn)
    requires Mail(conns) && Pairs(conns) && id !in conns && c.phase == Refused && c.main == []
    ensures Pairs(conns[id := c])
  {
    hide Mail;
    var conns' := conns[id := c];
    forall o, p ensures Pair(conns', o, p) {
      assert Pair(conns, o, p);
      if p == id && o in conns {
        assert MailOf(conns, o, conns[o]) by { MailAt(conns, o); }
        NoNews(conns, o, conns[o], Arrived(p));
        NoNews(conns, o, conns[o], Departed(p));
      } else if o in conns && o != id && p != id {
        PairAlike(conns, conns', o, p);
      }
    }
  }

  lemma MailAt(conns: map<Uuid, Conn>, id: Uuid)
    requires Mail(conns) && id in conns
    ensures MailOf(conns, id, conns[id])
  {
  }

  /** The count of departures about one that leaves. */
  lemma LeaverTotal(s: State, id: Uuid, order: seq<Uuid>, o: Uuid)
    requires id in s.conns && s.conns[id].main == [] && o in s.conns && o != id
    requires Lists(order, Members(s.rooms, Group(s.conns[id])) - {id})
    ensures var conns' := s.conns[id := s.conns[id].(phase := Leaving, main := Broadcast(order, Left(id)))];
      && Total(conns', o, Arrived(id)) == Total(s.conns, o, Arrived(id))
      && Total(conns', o, Departed(id)) == Total(s.conns, o, Departed(id))
           + if o in Members(s.rooms, Group(s.conns[id])) then 1 else 0
  {
    BroadcastTo(order, Left(id), o, Arrived(id));
    BroadcastTo(order, Left(id), o, Departed(id));
  }

  lemma LeaverPairs(s: State, id: Uuid, order: seq<Uuid>)
    requires RoomsFit(s.rooms, s.conns) && Pairs(s.conns)
    requires id in s.conns && s.conns[id].phase == Serving && s.conns[id].main == []
    requires Lists(order, Members(s.rooms, Group(s.conns[id])) - {id})
    ensures Pairs(s.conns[id := s.conns[id].(phase := Leaving, main := Broadcast(order, Left(id)))])
  {
    hide Total, Lists;
    var c := s.conns[id];
    var conns' := s.conns[id := c.(phase := Leaving, main := Broadcast(order, Left(id)))];
    forall o, p ensures Pair(conns', o, p) {
      assert Pair(s.conns, o, p) && Fits(s.rooms, s.conns, Group(c), o);
      if o in s.conns && o != id && p == id {
        LeaverTotal(s, id, order, o);
      } else if o in s.conns && o != id && p != id {
        PairAlike(s.conns, conns', o, p);
      }
    }
  }

  lemma NewcomerOwn(s: State, id: Uuid, address: IpAddr, info: ClientInfoWithoutId, order: seq<Uuid>)
    requires RoomsFit(s.rooms, s.conns) && id !in s.conns && Lists(order, Members(s.rooms, GetIpGroup(address)))
    ensures Own(id, Newcomer(id, address, info, Members(s.rooms, GetIpGroup(address)), order))
  {
    assert Fits(s.rooms, s.conns, GetIpGroup(address), id);
    var c := Newcomer(id, address, info, Members(s.rooms, GetIpGroup(address)), order);
    var self := ClientInfo(id, info);
    forall k | 0 <= k < |order| ensures c.main[k] == Send(order[k], Join(self)) && order[k] != id {
      assert order[k] in Members(s.rooms, GetIpGroup(address));
    }
  }

  lemma DeliverOwn(conns: map<Uuid, Conn>, id: Uuid, c: Conn, send: Send)
    requires AllOwn(conns) && Own(id, c)
    ensures AllOwn(Deliver(conns[id := c], send))
  {
    var conns' := Deliver(conns[id := c], send);
    forall x | x in conns' ensures Own(x, conns'[x]) {
      assert x != id ==> Own(x, conns[x]);
    }
  }

  lemma HandledOwn(s: State, id: Uuid, order: seq<Uuid>)
    requires AllOwn(s.conns) && Enabled(s, Handle(id, order))
    ensures Own(id, OnHandle(s, id, order).conns[id])
  {
    assert Own(id, s.conns[id]);
  }

  /** The parts of the state the counts are about, together. */
  ghost predicate Settled(cfg: Config, s: State)
  {
    Safe(cfg, s) && AllOwn(s.conns) && Pairs(s.conns)
  }

  lemma OwnKeeps(cfg: Config, s: State, step: Step)
    requires Settled(cfg, s) && Enabled(s, step)
    ensures AllOwn(Apply(cfg, s, step).conns)
  {
    hide Own, Pairs, Mail, WithinLimits, Newcomer;
    match step
    case Connect(id, address, info, order) =>
      EnterAdds(cfg, s.rooms, s.counts, GetIpGroup(address), id, info);
      NewcomerOwn(s, id, address, info, order);
      EmptyOwn(id, Apply(cfg, s, step).conns[id]);
    case SendNext(id) =>
      var c := s.conns[id];
      LessOwn(id, c, c.(main := c.main[1..]));
      DeliverOwn(s.conns, id, c.(main := c.main[1..]), c.main[0]);
    case Reply(id) =>
      var c := s.conns[id];
      var c' := c.(reader := Busied(c.reader.sends[1..], c.reader.last));
      LessOwn(id, c, c');
      DeliverOwn(s.conns, id, c', c.reader.sends[0]);
    case Receive(id, msg) => ErrorOwn(id, s.conns[id], OnReceive(cfg, s, id, msg).conns[id]);
    case Handle(id, order) => HandledOwn(s, id, order);
    case Disconnect(id, order) => LeaverOwn(id, s.conns[id], order);
    case Serve(id) => EmptyServing(id, s.conns[id]);
    case StopReader(id) => LessOwn(id, s.conns[id], s.conns[id].(reader := Stopped));
    case CloseQueue(id) => LessOwn(id, s.conns[id], s.conns[id].(open := false));
    case Clear =>
  }

  lemma EmptyOwn(id: Uuid, c: Conn)
    ensures c.main == [] && !c.reader.Busy? ==> Own(id, c)
  {
  }

  lemma LessOwn(id: Uuid, c: Conn, c': Conn)
    requires Own(id, c) && c'.phase == c.phase && (c'.main == c.main || (c.main != [] && c'.main == c.main[1..]))
    requires c'.reader == c.reader || !c'.reader.Busy?
      || (c.reader.Busy? && c.reader.sends != [] && c'.reader.sends == c.reader.sends[1..])
    ensures Own(id, c')
  {
    forall k | 0 <= k < |c'.main| ensures c'.main[k] in c.main {
    }
  }

  lemma ErrorOwn(id: Uuid, c: Conn, c': Conn)
    requires Own(id, c) && c'.phase == c.phase && c'.main == c.main
    requires c'.reader.Busy? ==> c'.reader.sends == [Send(id, Error(TOO_MANY_REQUESTS))]
    ensures Own(id, c')
  {
  }

  lemma LeaverOwn(id: Uuid, c: Conn, order: seq<Uuid>)
    requires Own(id, c)
    ensures Own(id, c.(phase := Leaving, main := Broadcast(order, Left(id))))
  {
  }

  lemma EmptyServing(id: Uuid, c: Conn)
    requires Own(id, c) && c.main == []
    ensures Own(id, c.(phase := Serving))
  {
  }

  lemma ReplyIsNoNews(id: Uuid, c: Conn)
    requires Own(id, c) && c.reader.Busy? && c.reader.sends != []
    ensures !News?(c.reader.sends[0].msg)
  {
  }

  lemma ServingIsQuiet(id: Uuid, c: Conn)
    requires Own(id, c) && c.phase == Serving
    ensures c.main == []
  {
  }

  lemma ConnectPairs(cfg: Config, s: State, id: Uuid, address: IpAddr, info: ClientInfoWithoutId, order: seq<Uuid>)
    requires Mail(s.conns) && RoomsFit(s.rooms, s.conns) && Pairs(s.conns)
    requires Enabled(s, Connect(id, address, info, order))
    ensures Pairs(OnConnect(cfg, s, id, address, info, order).conns)
  {
    hide Mail, RoomsFit, Pairs;
    AdmittedPairs(s, id, address, info, order);
    var conns' := OnConnect(cfg, s, id, address, info, order).conns;
    if Enter(cfg, s.rooms, s.counts, GetIpGroup(address), id, info).others.None? {
      RefusedPairs(s.conns, id, conns'[id]);
    }
  }

  lemma PairsKeep(cfg: Config, s: State, step: Step)
    requires Settled(cfg, s) && Enabled(s, step)
    ensures Pairs(Apply(cfg, s, step).conns)
  {
    hide Own, Pair, Mail, WithinLimits, Newcomer, Total, In, To;
    var conns' := Apply(cfg, s, step).conns;
    match step
    case Connect(id, address, info, order) =>
      ConnectPairs(cfg, s, id, address, info, order);
    case SendNext(id) => SendPairs(s.conns, id);
    case Reply(id) =>
      var c := s.conns[id];
      ReplyIsNoNews(id, c);
      ReplyPairs(s.conns, id, c.(reader := Busied(c.reader.sends[1..], c.reader.last)), c.reader.sends[0]);
    case Disconnect(id, order) =>
      LeaveRemoves(s.rooms, Group(s.conns[id]), id);
      assert s.conns[id].main == [] by { ServingIsQuiet(id, s.conns[id]); }
      LeaverPairs(s, id, order);
    case Clear =>
    case _ => QuietStep(cfg, s, step);
  }

  lemma QuietStep(cfg: Config, s: State, step: Step)
    requires Pairs(s.conns) && Enabled(s, step)
    requires step.Serve? || step.Receive? || step.Handle? || step.StopReader? || step.CloseQueue?
    ensures Pairs(Apply(cfg, s, step).conns)
  {
    hide Pair, Total, In, To;
    QuietPairs(s.conns, Apply(cfg, s, step).conns);
  }

  lemma {:induction false} AlwaysSettled(cfg: Config, run: seq<Step>)
    requires After(cfg, run).Some?
    ensures Settled(cfg, After(cfg, run).value)
  {
    hide Safe, AllOwn, Pairs, Apply, Enabled;
    if run == [] {
      NothingYet(cfg);
    } else {
      var before := run[..|run| - 1];
      AlwaysSettled(cfg, before);
      StepKeeps(cfg, After(cfg, before).value, run[|run| - 1]);
      OwnKeeps(cfg, After(cfg, before).value, run[|run| - 1]);
      PairsKeep(cfg, After(cfg, before).value, run[|run| - 1]);
    }
  }

  lemma NothingYet(cfg: Config)
    ensures Settled(cfg, EMPTY)
  {
    AlwaysSafe(cfg, []);
  }

  // ----- What follows for every run -----

  /** Nobody has anything left to send to `o`. */
  predicate NothingInFlight(conns: map<Uuid, Conn>, o: Uuid)
  {
    forall id, k :: id in conns && 0 <= k < |conns[id].main| ==> conns[id].main[k].to != o
  }

  /** Room convergence. Once nothing is on its way to a client that is in its room and still
      listening, the others it was told of, less those it was told had left, are exactly the
      other members; each was announced once, and each that left was reported once. */
  lemma RoomConvergence(cfg: Config, run: seq<Step>, s: State, o: Uuid, p: Uuid)
    requires After(cfg, run) == Some(s)
    requires o in s.conns && Present(s.conns[o]) && s.conns[o].open && NothingInFlight(s.conns, o)
    ensures var announced := In(s.conns[o].inbox, Arrived(p));
      var left := In(s.conns[o].inbox, Departed(p));
      && left <= announced <= 1
      && (announced - left == 1 <==> p != o && p in Members(s.rooms, Group(s.conns[o])))
  {
    hide Safe, AllOwn, Own;
    AlwaysSettled(cfg, run);
    assert Pair(s.conns, o, p);
    assert RoomsFit(s.rooms, s.conns) by { SafeRooms(cfg, s); }
    assert Fits(s.rooms, s.conns, Group(s.conns[o]), p);
    NothingTo(s.conns[o].main, o, Arrived(p));
    NothingTo(s.conns[o].main, o, Departed(p));
    if p in s.conns {
      NothingTo(s.conns[p].main, o, Arrived(p));
      NothingTo(s.conns[p].main, o, Departed(p));
    }
  }

  lemma SafeRooms(cfg: Config, s: State)
    requires Safe(cfg, s)
    ensures RoomsFit(s.rooms, s.conns)
  {
  }

  // ----- Clients that have shared the room -----

  lemma ReplyTotal(conns: map<Uuid, Conn>, id: Uuid, c: Conn, send: Send, o: Uuid, n: News)
    requires id in conns && !News?(send.msg) && c == conns[id].(reader := c.reader) && o in conns && n.id in conns
    ensures Total(Deliver(conns[id := c], send), o, n) == Total(conns, o, n)
  {
    hide Deliver, Total, In;
    Delivered(conns, id, c, send, o);
    Delivered(conns, id, c, send, n.id);
    InSnoc(conns[o].inbox, send.msg, n);
    TotalAlike(conns, Deliver(conns[id := c], send), o, n);
  }

  lemma GrowthKept(conns: map<Uuid, Conn>, conns': map<Uuid, Conn>, o: Uuid, p: Uuid)
    requires Grows(conns, conns') && o in conns && p in conns
    ensures SameGroup(conns, o, p) ==> SameGroup(conns', o, p)
  {
    assert Grown(conns[o], conns'[o]) && Grown(conns[p], conns'[p]);
  }

  /** No step changes how often a client has been or will be announced to one that stays. */
  lemma ArrivedKept(cfg: Config, s: State, step: Step, o: Uuid, p: Uuid)
    requires Settled(cfg, s) && Enabled(s, step) && o in s.conns && p in s.conns && o != p
    requires var conns' := Apply(cfg, s, step).conns; o in conns' && Present(conns'[o]) && conns'[o].open
    ensures Present(s.conns[o]) && s.conns[o].open
    ensures var conns' := Apply(cfg, s, step).conns;
      p in conns' && Total(conns', o, Arrived(p)) == Total(s.conns, o, Arrived(p))
  {
    hide Mail, RoomsFit, WithinLimits, Own, Pairs, Newcomer, Total, In, To;
    var conns' := Apply(cfg, s, step).conns;
    match step
    case SendNext(id) =>
      var c := s.conns[id];
      Delivered(s.conns, id, c.(main := c.main[1..]), c.main[0], o);
      SendTotal(s.conns, id, o, Arrived(p));
    case Reply(id) =>
      var c := s.conns[id];
      var c' := c.(reader := Busied(c.reader.sends[1..], c.reader.last));
      ReplyIsNoNews(id, c);
      Delivered(s.conns, id, c', c.reader.sends[0], o);
      ReplyTotal(s.conns, id, c', c.reader.sends[0], o, Arrived(p));
    case Disconnect(id, order) =>
      ServingIsQuiet(id, s.conns[id]);
      if id == p {
        LeaveRemoves(s.rooms, Group(s.conns[id]), id);
        LeaverTotal(s, id, order, o);
      } else {
        TotalAlike(s.conns, conns', o, Arrived(p));
      }
    case Clear =>
    case _ =>
      TotalAlike(s.conns, conns', o, Arrived(p));
  }

  /** Two clients have been in one room at some point of the run, and one of them is still
      there and listening: the other has been, or will be, announced to it once. */
  lemma {:induction false} OnceTogether(cfg: Config, run: seq<Step>, s: State, i: nat, s0: State, o: Uuid, p: Uuid)
    requires i <= |run| && After(cfg, run[..i]) == Some(s0) && After(cfg, run) == Some(s)
    requires o != p && SameGroup(s0.conns, o, p) && Present(s0.conns[o]) && Present(s0.conns[p])
    requires o in s.conns && Present(s.conns[o]) && s.conns[o].open
    ensures SameGroup(s.conns, o, p) && Total(s.conns, o, Arrived(p)) == 1
    decreases |run|
  {
    hide Total, Apply, Enabled, Settled;
    if i == |run| {
      assert run[..i] == run;
      AlwaysSettled(cfg, run);
      assert Pair(s.conns, o, p) by { SettledPair(cfg, s, o, p); }
    } else {
      var before, step := run[..|run| - 1], run[|run| - 1];
      var t := After(cfg, before).value;
      assert before[..i] == run[..i];
      AlwaysSettled(cfg, before);
      StaysKnown(cfg, before, t, i, s0, o);
      StaysKnown(cfg, before, t, i, s0, p);
      ArrivedKept(cfg, t, step, o, p);
      OnceTogether(cfg, before, t, i, s0, o, p);
      StepGrows(cfg, t, step);
      GrowthKept(t.conns, s.conns, o, p);
    }
  }

  lemma SettledPair(cfg: Config, s: State, o: Uuid, p: Uuid)
    requires Settled(cfg, s)
    ensures Pair(s.conns, o, p)
  {
  }

  lemma StepGrows(cfg: Config, s: State, step: Step)
    requires Enabled(s, step)
    ensures Grows(s.conns, Apply(cfg, s, step).conns)
  {
    hide Newcomer;
    forall id | id in s.conns
      ensures id in Apply(cfg, s, step).conns && Grown(s.conns[id], Apply(cfg, s, step).conns[id])
    {
    }
  }

  /** A connection, once made, is never forgotten. */
  lemma {:induction false} StaysKnown(cfg: Config, run: seq<Step>, s: State, i: nat, s0: State, id: Uuid)
    requires i <= |run| && After(cfg, run[..i]) == Some(s0) && After(cfg, run) == Some(s) && id in s0.conns
    ensures id in s.conns
    decreases |run|
  {
    hide Apply, Enabled;
    if i == |run| {
      assert run[..i] == run;
    } else {
      var before := run[..|run| - 1];
      assert before[..i] == run[..i];
      StaysKnown(cfg, before, After(cfg, before).value, i, s0, id);
      StepGrows(cfg, After(cfg, before).value, run[|run| - 1]);
    }
  }

  /** Room convergence for clients that have shared the room: with nothing on its way, the
      other was announced exactly once, and reported gone exactly once if it is gone. */
  lemma ToldExactlyOnce(cfg: Config, run: seq<Step>, s: State, i: nat, s0: State, o: Uuid, p: Uuid)
    requires i <= |run| && After(cfg, run[..i]) == Some(s0) && After(cfg, run) == Some(s)
    requires o != p && SameGroup(s0.conns, o, p) && Present(s0.conns[o]) && Present(s0.conns[p])
    requires o in s.conns && Present(s.conns[o]) && s.conns[o].open && NothingInFlight(s.conns, o)
    ensures In(s.conns[o].inbox, Arrived(p)) == 1
    ensures In(s.conns[o].inbox, Departed(p)) == if p in Members(s.rooms, Group(s.conns[o])) then 0 else 1
  {
    hide After, Group, Members;
    OnceTogether(cfg, run, s, i, s0, o, p);
    RoomConvergence(cfg, run, s, o, p);
    NothingTo(s.conns[o].main, o, Arrived(p));
    NothingTo(s.conns[p].main, o, Arrived(p));
  }
}
