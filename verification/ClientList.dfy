/** The list a client keeps of its room, which does depend on the order of its messages. */
module ClientList {
  import opened Prelude
  import opened Signaling
  import opened Registry
  import opened IpGroup
  import opened RoomServer
  import opened Isolation
  import opened Convergence

  function Ids(peers: seq<ClientInfo>): set<Uuid>
  {
    set i | 0 <= i < |peers| :: peers[i].id
  }

  predicate Greeted(inbox: seq<WsServerMessage>)
  {
    exists k :: 0 <= k < |inbox| && inbox[k].Hello?
  }

  /** The list after the messages of a queue, in order: joins and updates are ignored until
      the client has been greeted, departures are not. */
  function Shown(inbox: seq<WsServerMessage>): set<Uuid>
  {
    if inbox == [] then {}
    else
      var before := inbox[..|inbox| - 1];
      match inbox[|inbox| - 1]
      case Hello(_, peers) => Shown(before) + Ids(peers)
      case Join(p) => if Greeted(before) then Shown(before) + {p.id} else Shown(before)
      case Update(p) => if Greeted(before) then Shown(before) + {p.id} else Shown(before)
      case Left(p) => Shown(before) - {p}
      case _ => Shown(before)
  }

  /** Message `j` puts `p` on the list: a greeting that names it, or a join or update of it
      behind the greeting. */
  predicate Adds(inbox: seq<WsServerMessage>, j: nat, p: Uuid)
  {
    j < |inbox| &&
    match inbox[j]
    case Hello(_, peers) => p in Ids(peers)
    case Join(x) => x.id == p && Greeted(inbox[..j])
    case Update(x) => x.id == p && Greeted(inbox[..j])
    case _ => false
  }

  /** The client is put on the list behind the report that it has left. */
  predicate Revived(inbox: seq<WsServerMessage>, p: Uuid)
  {
    exists i, j :: 0 <= i < j < |inbox| && inbox[i] == Left(p) && Adds(inbox, j, p)
  }

  /** The client's join stands before the greeting, nothing behind the greeting makes up for
      it, and it has not left. */
  predicate Overlooked(inbox: seq<WsServerMessage>, p: Uuid)
  {
    && (exists k :: 0 <= k < |inbox| && inbox[k].Join? && inbox[k].peer.id == p && !Greeted(inbox[..k]))
    && (forall j :: 0 <= j < |inbox| && inbox[j].Update? && inbox[j].peer.id == p ==> !Greeted(inbox[..j]))
    && Left(p) !in inbox
  }

  predicate About(m: WsServerMessage, p: Uuid)
  {
    m == Left(p) || (m.Update? && m.peer.id == p)
  }

  /** Behind the greeting nobody is reported gone or updated before it has been announced. */
  predicate InOrder(inbox: seq<WsServerMessage>, p: Uuid)
  {
    forall k :: 0 <= k < |inbox| && About(inbox[k], p) && Greeted(inbox[..k]) ==> In(inbox[..k], Arrived(p)) == 1
  }

  // ----- From queues to lists -----

  lemma {:induction false} InGrows(inbox: seq<WsServerMessage>, k: nat, n: News)
    requires k <= |inbox|
    ensures In(inbox[..k], n) <= In(inbox, n)
    decreases |inbox|
  {
    if k == |inbox| {
      assert inbox[..k] == inbox;
    } else {
      var before := inbox[..|inbox| - 1];
      InGrows(before, k, n);
      assert before[..k] == inbox[..k];
    }
  }

  lemma {:induction false} LeftIsIn(inbox: seq<WsServerMessage>, p: Uuid)
    ensures In(inbox, Departed(p)) > 0 <==> Left(p) in inbox
  {
    if inbox != [] {
      var before := inbox[..|inbox| - 1];
      LeftIsIn(before, p);
      assert inbox == before + [inbox[|inbox| - 1]];
    }
  }

  lemma {:induction false} OccursIn(peers: seq<ClientInfo>, p: Uuid)
    ensures Occurs(peers, p) > 0 <==> p in Ids(peers)
  {
    if peers != [] {
      OccursIn(peers[1..], p);
      assert forall i :: 0 <= i < |peers[1..]| ==> peers[1..][i] == peers[i + 1];
      if p in Ids(peers) && peers[0].id != p {
        var i :| 0 <= i < |peers| && peers[i].id == p;
        assert peers[1..][i - 1].id == p;
      }
      if p in Ids(peers[1..]) {
        var i :| 0 <= i < |peers[1..]| && peers[1..][i].id == p;
        assert peers[i + 1].id == p;
      }
    }
  }

  lemma GreetedSnoc(inbox: seq<WsServerMessage>, m: WsServerMessage)
    ensures Greeted(inbox + [m]) <==> Greeted(inbox) || m.Hello?
  {
    var longer := inbox + [m];
    if Greeted(inbox) {
      var k :| 0 <= k < |inbox| && inbox[k].Hello?;
      assert longer[k].Hello?;
    }
    if m.Hello? {
      assert longer[|inbox|].Hello?;
    }
  }

  /** Who is on the list, for any queue at all: whoever some message puts there that no report
      of its leaving follows. */
  lemma {:induction false} ShownExactly(inbox: seq<WsServerMessage>, p: Uuid)
    ensures p in Shown(inbox) <==> exists j: nat :: Adds(inbox, j, p) && Left(p) !in inbox[j..]
  {
    if inbox != [] {
      var before, n := inbox[..|inbox| - 1], |inbox| - 1;
      var m := inbox[n];
      ShownExactly(before, p);
      forall j: nat | j < n
        ensures Adds(inbox, j, p) == Adds(before, j, p)
        ensures Left(p) in inbox[j..] <==> Left(p) in before[j..] || m == Left(p)
      {
        assert inbox[..j] == before[..j] && inbox[j..] == before[j..] + [m];
      }
      assert inbox[n..] == [m] && inbox[..n] == before;
      if p in Shown(before) && m != Left(p) {
        var j: nat :| Adds(before, j, p) && Left(p) !in before[j..];
        assert Adds(inbox, j, p) && Left(p) !in inbox[j..];
      }
      if Adds(inbox, n, p) {
        assert Left(p) !in inbox[n..];
      }
      if j: nat :| Adds(inbox, j, p) && Left(p) !in inbox[j..] {
        assert j < n ==> Adds(before, j, p) && Left(p) !in before[j..];
      }
    }
  }

  lemma TellsIsIn(inbox: seq<WsServerMessage>, k: nat, n: News)
    requires k < |inbox|
    ensures In(inbox, n) >= In(inbox[..k], n) + Tells(inbox[k], n)
  {
    InGrows(inbox, k + 1, n);
    InSnoc(inbox[..k], inbox[k], n);
    assert inbox[..k + 1] == inbox[..k] + [inbox[k]];
  }

  /** What is said in two places is said twice. */
  lemma SaidTwice(inbox: seq<WsServerMessage>, i: nat, j: nat, n: News)
    requires i < |inbox| && j < |inbox| && Tells(inbox[i], n) > 0 && Tells(inbox[j], n) > 0 && In(inbox, n) == 1
    ensures i == j
  {
    TellsIsIn(inbox, i, n);
    TellsIsIn(inbox, j, n);
    if i < j {
      TellsIsIn(inbox[..j], i, n);
    } else if j < i {
      TellsIsIn(inbox[..i], j, n);
    }
  }

  lemma {:induction false} SomeTells(inbox: seq<WsServerMessage>, n: News) returns (k: nat)
    requires In(inbox, n) > 0
    ensures k < |inbox| && Tells(inbox[k], n) > 0
  {
    k := |inbox| - 1;
    if Tells(inbox[k], n) == 0 {
      k := SomeTells(inbox[..k], n);
    }
  }

  /** Whoever is put on the list other than by an update is announced there. */
  lemma AddsTells(inbox: seq<WsServerMessage>, j: nat, p: Uuid)
    requires Adds(inbox, j, p) && !inbox[j].Update?
    ensures Tells(inbox[j], Arrived(p)) > 0
  {
    if inbox[j].Hello? {
      OccursIn(inbox[j].peers, p);
    }
  }

  /** Whoever is put on the list was announced. */
  lemma AddsAnnounced(inbox: seq<WsServerMessage>, j: nat, p: Uuid)
    requires Adds(inbox, j, p) && InOrder(inbox, p)
    ensures In(inbox, Arrived(p)) > 0
  {
    TellsIsIn(inbox, j, Arrived(p));
    if !inbox[j].Update? {
      AddsTells(inbox, j, p);
    }
  }

  /** A client that was announced once and has not left. */
  lemma StayerShown(inbox: seq<WsServerMessage>, p: Uuid)
    requires In(inbox, Arrived(p)) == 1 && Left(p) !in inbox
    ensures p in Shown(inbox) <==> !Overlooked(inbox, p)
  {
    hide Greeted;
    ShownExactly(inbox, p);
    var k := SomeTells(inbox, Arrived(p));
    if Overlooked(inbox, p) {
      var k' :| 0 <= k' < |inbox| && inbox[k'].Join? && inbox[k'].peer.id == p && !Greeted(inbox[..k']);
      SaidTwice(inbox, k, k', Arrived(p));
      forall j: nat ensures !Adds(inbox, j, p) {
        if Adds(inbox, j, p) && !inbox[j].Update? {
          AddsTells(inbox, j, p);
          SaidTwice(inbox, k, j, Arrived(p));
        }
      }
    } else if inbox[k].Hello? {
      OccursIn(inbox[k].peers, p);
      assert Adds(inbox, k, p) && Left(p) !in inbox[k..];
    } else if Greeted(inbox[..k]) {
      assert Adds(inbox, k, p) && Left(p) !in inbox[k..];
    } else {
      var j :| 0 <= j < |inbox| && inbox[j].Update? && inbox[j].peer.id == p && Greeted(inbox[..j]);
      assert Adds(inbox, j, p) && Left(p) !in inbox[j..];
    }
  }

  /** A client that was reported gone once. */
  lemma LeaverShown(inbox: seq<WsServerMessage>, p: Uuid)
    requires In(inbox, Departed(p)) == 1
    ensures p in Shown(inbox) <==> Revived(inbox, p)
    ensures !Overlooked(inbox, p)
  {
    hide Greeted;
    ShownExactly(inbox, p);
    var i := SomeTells(inbox, Departed(p));
    assert inbox[i] == Left(p);
    forall j: nat | j <= i ensures Left(p) in inbox[j..] {
      assert inbox[j..][i - j] == Left(p);
    }
    if Revived(inbox, p) {
      var i', j :| 0 <= i' < j < |inbox| && inbox[i'] == Left(p) && Adds(inbox, j, p);
      SaidTwice(inbox, i, i', Departed(p));
      if d: nat :| d < |inbox[j..]| && inbox[j..][d] == Left(p) {
        SaidTwice(inbox, i, j + d, Departed(p));
      }
    }
  }

  // ----- What the server keeps about the order -----

  /** The greeting is the last thing a newcomer sends, and its reader starts after it. */
  predicate Polite(c: Conn)
  {
    && (c.phase == Joining ==> c.reader == Idle)
    && (forall k :: 0 <= k < |c.main| - 1 ==> !c.main[k].msg.Hello?)
    && (Present(c) && Greeted(c.inbox) ==> c.main == [])
  }

  ghost predicate AllPolite(conns: map<Uuid, Conn>)
  {
    forall id :: id in conns ==> Polite(conns[id])
  }

  /** An update on its way to a present observer is about its sender, whom the observer has
      been or will be told of. */
  predicate Known(conns: map<Uuid, Conn>, q: Uuid, o: Uuid)
  {
    q in conns && conns[q].reader.Busy? && o in conns && Present(conns[o]) && conns[o].open ==>
      forall k :: 0 <= k < |conns[q].reader.sends| ==>
        var send := conns[q].reader.sends[k];
        send.to == o && send.msg.Update? ==> send.msg.peer.id == q && Total(conns, o, Arrived(q)) == 1
  }

  ghost predicate AllKnown(conns: map<Uuid, Conn>)
  {
    forall q, o :: Known(conns, q, o)
  }

  /** A present client that still listens. */
  predicate Listens(c: Conn) { Present(c) && c.open }

  predicate Ordered(conns: map<Uuid, Conn>, o: Uuid, p: Uuid)
  {
    o in conns && Listens(conns[o]) ==> InOrder(conns[o].inbox, p)
  }

  ghost predicate AllOrdered(conns: map<Uuid, Conn>)
  {
    forall o, p :: Ordered(conns, o, p)
  }

  lemma InOrderSnoc(inbox: seq<WsServerMessage>, m: WsServerMessage, p: Uuid)
    requires InOrder(inbox, p) && (About(m, p) && Greeted(inbox) ==> In(inbox, Arrived(p)) == 1)
    ensures InOrder(inbox + [m], p)
  {
    var longer := inbox + [m];
    forall k | 0 <= k < |longer| && About(longer[k], p) && Greeted(longer[..k])
      ensures In(longer[..k], Arrived(p)) == 1
    {
      assert k < |inbox| ==> longer[k] == inbox[k];
      assert longer[..k] == inbox[..k];
      assert inbox[..|inbox|] == inbox;
    }
  }

  // ----- Politeness -----

  lemma PoliteSend(conns: map<Uuid, Conn>, id: Uuid)
    requires AllPolite(conns) && id in conns && conns[id].main != [] && Own(id, conns[id])
    ensures var c := conns[id];
      AllPolite(Deliver(conns[id := c.(main := c.main[1..])], c.main[0]))
  {
    hide Own;
    var c := conns[id];
    var send := c.main[0];
    var conns' := Deliver(conns[id := c.(main := c.main[1..])], send);
    FirstHello(id, c);
    forall x | x in conns' ensures Polite(conns'[x]) {
      assert Polite(conns[x]) && Polite(c);
      GreetedSnoc(conns[x].inbox, send.msg);
    }
  }

  lemma FirstHello(id: Uuid, c: Conn)
    requires c.main != [] && Own(id, c) && Polite(c)
    ensures c.main[0].msg.Hello? ==> c.main[0].to == id && c.main[1..] == []
  {
  }

  lemma PoliteReply(conns: map<Uuid, Conn>, id: Uuid, c: Conn, send: Send)
    requires AllPolite(conns) && id in conns && Polite(c) && c == conns[id].(reader := c.reader) && !News?(send.msg)
    ensures AllPolite(Deliver(conns[id := c], send))
  {
    var conns' := Deliver(conns[id := c], send);
    forall x | x in conns' ensures Polite(conns'[x]) {
      assert Polite(conns[x]);
      GreetedSnoc(conns[x].inbox, send.msg);
    }
  }

  lemma PoliteStep(cfg: Config, s: State, step: Step)
    requires Settled(cfg, s) && AllPolite(s.conns) && Enabled(s, step)
    ensures AllPolite(Apply(cfg, s, step).conns)
  {
    hide Pairs, Safe, Own, News?;
    match step
    case SendNext(id) => PoliteSend(s.conns, id);
    case Reply(id) =>
      var c := s.conns[id];
      assert Polite(c);
      ReplyIsNoNews(id, c);
      PoliteReply(s.conns, id, c.(reader := Busied(c.reader.sends[1..], c.reader.last)), c.reader.sends[0]);
    case Connect(id, address, info, order) =>
      PoliteNewcomer(id, address, info, Members(s.rooms, GetIpGroup(address)), order);
    case Disconnect(id, order) => assert Polite(s.conns[id]);
    case _ =>
  }

  lemma PoliteNewcomer(id: Uuid, address: IpAddr, info: ClientInfoWithoutId, others: Room, order: seq<Uuid>)
    requires Lists(order, others)
    ensures Polite(Newcomer(id, address, info, others, order))
  {
  }

  // ----- Updates are about clients already announced -----

  predicate Fewer(r: Reader, r': Reader)
  {
    r' == r || !r'.Busy? || (r.Busy? && r.sends != [] && r'.sends == r.sends[1..])
  }

  lemma KnownSame(conns: map<Uuid, Conn>, conns': map<Uuid, Conn>, q: Uuid, o: Uuid)
    requires Known(conns, q, o) && q in conns && o in conns && q in conns' && o in conns'
    requires Fewer(conns[q].reader, conns'[q].reader)
    requires Present(conns'[o]) && conns'[o].open ==>
      Present(conns[o]) && conns[o].open && Total(conns', o, Arrived(q)) == Total(conns, o, Arrived(q))
    ensures Known(conns', q, o)
  {
    hide Total;
    if conns'[q].reader.Busy? && conns'[q].reader != conns[q].reader {
      forall k | 0 <= k < |conns'[q].reader.sends|
        ensures conns'[q].reader.sends[k] == conns[q].reader.sends[k + 1]
      {
      }
    }
  }

  lemma KnownSend(conns: map<Uuid, Conn>, id: Uuid)
    requires AllKnown(conns) && id in conns && conns[id].main != [] && Own(id, conns[id])
    ensures var c := conns[id];
      AllKnown(Deliver(conns[id := c.(main := c.main[1..])], c.main[0]))
  {
    hide Known, Own, Total;
    var c := conns[id];
    var conns' := Deliver(conns[id := c.(main := c.main[1..])], c.main[0]);
    forall q, o ensures Known(conns', q, o) {
      assert Known(conns, q, o);
      if q in conns && o in conns {
        if conns[o].open {
          SendTotal(conns, id, o, Arrived(q));
        }
        KnownSame(conns, conns', q, o);
      } else {
        Unknown(conns', q, o);
      }
    }
  }

  lemma Unknown(conns: map<Uuid, Conn>, q: Uuid, o: Uuid)
    requires q !in conns || o !in conns || !conns[q].reader.Busy?
    ensures Known(conns, q, o)
  {
  }

  lemma KnownReply(conns: map<Uuid, Conn>, id: Uuid, c: Conn, send: Send)
    requires AllKnown(conns) && id in conns && !News?(send.msg)
    requires c == conns[id].(reader := c.reader) && Fewer(conns[id].reader, c.reader)
    ensures AllKnown(Deliver(conns[id := c], send))
  {
    hide Known, Total, Deliver, In;
    var conns' := Deliver(conns[id := c], send);
    Delivered(conns, id, c, send, id);
    forall q, o ensures Known(conns', q, o) {
      assert Known(conns, q, o);
      if q in conns && o in conns {
        Delivered(conns, id, c, send, o);
        Delivered(conns, id, c, send, q);
        InSnoc(conns[o].inbox, send.msg, Arrived(q));
        TotalAlike(conns, conns', o, Arrived(q));
        KnownSame(conns, conns', q, o);
      } else {
        Unknown(conns', q, o);
      }
    }
  }

  /** A connection changes without sending; what its reader has to send does not grow. */
  lemma KnownQuiet(conns: map<Uuid, Conn>, id: Uuid, c: Conn)
    requires AllKnown(conns) && id in conns && Fewer(conns[id].reader, c.reader)
    requires c.main == conns[id].main && c.inbox == conns[id].inbox
    requires (Present(c) ==> Present(conns[id])) && (c.open ==> conns[id].open)
    ensures AllKnown(conns[id := c])
  {
    hide Known, Total;
    var conns' := conns[id := c];
    forall q, o ensures Known(conns', q, o) {
      assert Known(conns, q, o);
      if q in conns && o in conns {
        TotalAlike(conns, conns', o, Arrived(q));
        KnownSame(conns, conns', q, o);
      } else {
        Unknown(conns', q, o);
      }
    }
  }

  lemma NoReplyToStranger(conns: map<Uuid, Conn>, q: Uuid, o: Uuid)
    requires Mail(conns) && q in conns && o !in conns && conns[q].reader.Busy?
    ensures forall k :: 0 <= k < |conns[q].reader.sends| ==> conns[q].reader.sends[k].to != o
  {
    assert MailOf(conns, q, conns[q]);
    forall k | 0 <= k < |conns[q].reader.sends| ensures conns[q].reader.sends[k].to != o {
      assert Genuine(conns, conns[q].reader.sends[k].to, conns[q].reader.sends[k].msg);
    }
  }

  lemma KnownConnect(conns: map<Uuid, Conn>, id: Uuid, c: Conn)
    requires AllKnown(conns) && Mail(conns) && id !in conns && !c.reader.Busy?
    ensures AllKnown(conns[id := c])
  {
    hide Total, Mail;
    var conns' := conns[id := c];
    forall q, o ensures Known(conns', q, o) {
      assert Known(conns, q, o);
      if q == id || q !in conns || !conns[q].reader.Busy? {
        Unknown(conns', q, o);
      } else if o == id {
        NoReplyToStranger(conns, q, o);
      } else if o in conns {
        TotalAlike(conns, conns', o, Arrived(q));
        KnownSame(conns, conns', q, o);
      }
    }
  }

  lemma KnownLeave(s: State, id: Uuid, order: seq<Uuid>)
    requires AllKnown(s.conns) && id in s.conns && s.conns[id].main == []
    requires Lists(order, Members(s.rooms, Group(s.conns[id])) - {id})
    ensures AllKnown(s.conns[id := s.conns[id].(phase := Leaving, main := Broadcast(order, Left(id)))])
  {
    hide Known, Total, Lists;
    var conns' := s.conns[id := s.conns[id].(phase := Leaving, main := Broadcast(order, Left(id)))];
    forall q, o ensures Known(conns', q, o) {
      assert Known(s.conns, q, o);
      if q in s.conns && o in s.conns {
        if o != id {
          if q == id {
            LeaverTotal(s, id, order, o);
          } else {
            TotalAlike(s.conns, conns', o, Arrived(q));
          }
        }
        KnownSame(s.conns, conns', q, o);
      } else {
        Unknown(conns', q, o);
      }
    }
  }

  lemma KnownHandle(s: State, id: Uuid, order: seq<Uuid>)
    requires AllKnown(s.conns) && Pairs(s.conns) && RoomsFit(s.rooms, s.conns) && Enabled(s, Handle(id, order))
    ensures AllKnown(OnHandle(s, id, order).conns)
  {
    hide Total, Pair, Forward, Fits, Lists, Amend;
    var c := s.conns[id];
    var conns' := OnHandle(s, id, order).conns;
    forall q, o ensures Known(conns', q, o) {
      assert Known(s.conns, q, o);
      if q !in s.conns || o !in s.conns {
        Unknown(conns', q, o);
      } else {
        TotalAlike(s.conns, conns', o, Arrived(q));
        if q != id {
          KnownSame(s.conns, conns', q, o);
        } else {
          HandledKnown(s, id, order, o);
        }
      }
    }
  }

  lemma HandledKnown(s: State, id: Uuid, order: seq<Uuid>, o: Uuid)
    requires Pairs(s.conns) && RoomsFit(s.rooms, s.conns) && Enabled(s, Handle(id, order)) && o in s.conns
    ensures var r := OnHandle(s, id, order).conns[id].reader;
      r.Busy? && Present(s.conns[o]) && s.conns[o].open ==>
        forall k :: 0 <= k < |r.sends| && r.sends[k].to == o && r.sends[k].msg.Update? ==>
          r.sends[k].msg.peer.id == id && Total(s.conns, o, Arrived(id)) == 1
  {
    hide Total;
    var c := s.conns[id];
    if c.reader.msg.ClientUpdate? && o in order && Present(s.conns[o]) && s.conns[o].open {
      AmendKeeps(s.rooms, Group(c), id, c.reader.msg.info);
      assert o in Told(s, id);
      assert Fits(s.rooms, s.conns, Group(c), o) && Fits(s.rooms, s.conns, Group(c), id);
      assert o != id && SameGroup(s.conns, o, id) && Present(s.conns[id]);
      assert Pair(s.conns, o, id);
    }
  }

  lemma KnownStep(cfg: Config, s: State, step: Step)
    requires Settled(cfg, s) && AllKnown(s.conns) && Enabled(s, step)
    ensures AllKnown(Apply(cfg, s, step).conns)
  {
    hide Pairs, Mail, RoomsFit, WithinLimits, Own, News?, AllKnown, Newcomer;
    match step
    case SendNext(id) => KnownSend(s.conns, id);
    case Reply(id) =>
      var c := s.conns[id];
      ReplyIsNoNews(id, c);
      KnownReply(s.conns, id, c.(reader := Busied(c.reader.sends[1..], c.reader.last)), c.reader.sends[0]);
    case Connect(id, address, info, order) =>
      var c := Apply(cfg, s, step).conns[id];
      NewcomerInbox(id, address, info, Members(s.rooms, GetIpGroup(address)), order);
      PoliteNewcomer(id, address, info, Members(s.rooms, GetIpGroup(address)), order);
      KnownConnect(s.conns, id, c);
    case Disconnect(id, order) =>
      LeaveRemoves(s.rooms, Group(s.conns[id]), id);
      ServingIsQuiet(id, s.conns[id]);
      KnownLeave(s, id, order);
    case Handle(id, order) => KnownHandle(s, id, order);
    case Receive(id, msg) =>
      KnownReceive(cfg, s, id, msg);
    case Serve(id) => KnownQuiet(s.conns, id, s.conns[id].(phase := Serving));
    case StopReader(id) => KnownQuiet(s.conns, id, s.conns[id].(reader := Stopped));
    case CloseQueue(id) => KnownQuiet(s.conns, id, s.conns[id].(open := false));
    case Clear =>
  }

  lemma KnownReceive(cfg: Config, s: State, id: Uuid, msg: WsClientMessage)
    requires AllKnown(s.conns) && id in s.conns && s.conns[id].reader.Idle?
    ensures AllKnown(OnReceive(cfg, s, id, msg).conns)
  {
    hide Known, Total;
    var conns' := OnReceive(cfg, s, id, msg).conns;
    forall q, o ensures Known(conns', q, o) {
      assert Known(s.conns, q, o);
      if q == id {
        NothingKnown(conns', id, o);
      } else if q in s.conns && o in s.conns {
        TotalAlike(s.conns, conns', o, Arrived(q));
        KnownSame(s.conns, conns', q, o);
      } else {
        Unknown(conns', q, o);
      }
    }
  }

  lemma NothingKnown(conns: map<Uuid, Conn>, q: Uuid, o: Uuid)
    requires q in conns
    requires conns[q].reader.Busy? ==> conns[q].reader.sends == [Send(q, Error(TOO_MANY_REQUESTS))]
    ensures Known(conns, q, o)
  {
  }

  // ----- Departures and updates come after the announcement -----

  lemma NoArrivalsLeft(id: Uuid, c: Conn, o: Uuid, n: News)
    requires Own(id, c) && c.phase != Joining && n.Arrived?
    ensures To(c.main, o, n) == 0
  {
    NothingTo(c.main, o, n);
  }

  lemma GreetedFirst(c: Conn)
    requires Polite(c) && Listens(c) && Greeted(c.inbox)
    ensures c.main == []
  {
  }

  /** Once the observer has been greeted, all that is said of a client is in its queue. */
  lemma AllSaid(conns: map<Uuid, Conn>, id: Uuid, o: Uuid)
    requires id in conns && Own(id, conns[id]) && conns[id].phase != Joining
    requires o in conns && o != id && Polite(conns[o]) && Listens(conns[o]) && Greeted(conns[o].inbox)
    ensures Total(conns, o, Arrived(id)) == In(conns[o].inbox, Arrived(id))
  {
    hide Own, Polite;
    GreetedFirst(conns[o]);
    NoArrivalsLeft(id, conns[id], o, Arrived(id));
  }

  lemma LeftInOrder(conns: map<Uuid, Conn>, id: Uuid, o: Uuid, p: Uuid)
    requires id in conns && Own(id, conns[id]) && conns[id].main != [] && conns[id].main[0] == Send(o, Left(p))
    requires o in conns && Polite(conns[o]) && Listens(conns[o]) && Greeted(conns[o].inbox)
    requires Genuine(conns, o, Left(p)) && Pair(conns, o, p)
    ensures In(conns[o].inbox, Arrived(p)) == 1
  {
    LeftIsOwn(id, conns[id], o, p);
    AllSaid(conns, id, o);
    ToFirst(conns[id].main, o, Departed(p));
  }

  lemma LeftIsOwn(id: Uuid, c: Conn, o: Uuid, p: Uuid)
    requires Own(id, c) && c.main != [] && c.main[0] == Send(o, Left(p))
    ensures p == id && c.phase == Leaving
  {
  }

  lemma UpdateInOrder(conns: map<Uuid, Conn>, id: Uuid, o: Uuid, x: ClientInfo)
    requires id in conns && Own(id, conns[id]) && Polite(conns[id])
    requires conns[id].reader.Busy? && conns[id].reader.sends != []
    requires conns[id].reader.sends[0] == Send(o, Update(x))
    requires o in conns && Polite(conns[o]) && Listens(conns[o]) && Greeted(conns[o].inbox)
    requires Genuine(conns, o, Update(x)) && Known(conns, id, o)
    ensures In(conns[o].inbox, Arrived(x.id)) == 1
  {
    assert conns[id].reader.sends[0].to == o;
    AllSaid(conns, id, o);
  }

  lemma OrderedDelivered(conns: map<Uuid, Conn>, id: Uuid, c: Conn, send: Send, o: Uuid, p: Uuid)
    requires id in conns && c == conns[id].(main := c.main, reader := c.reader)
    requires o in conns && Ordered(conns, o, p)
    requires send.to == o && Listens(conns[o]) && Greeted(conns[o].inbox) && About(send.msg, p) ==>
      In(conns[o].inbox, Arrived(p)) == 1
    ensures Ordered(Deliver(conns[id := c], send), o, p)
  {
    hide Deliver;
    Delivered(conns, id, c, send, o);
    if Listens(conns[o]) && send.to == o {
      InOrderSnoc(conns[o].inbox, send.msg, p);
    }
  }

  /** A message of its own task is about its own departure, or no departure and no update. */
  lemma OwnAbout(id: Uuid, c: Conn, p: Uuid)
    requires Own(id, c) && c.main != [] && About(c.main[0].msg, p)
    ensures c.main[0].msg == Left(p)
  {
  }

  lemma ReplyAbout(id: Uuid, c: Conn, p: Uuid)
    requires Own(id, c) && c.reader.Busy? && c.reader.sends != [] && About(c.reader.sends[0].msg, p)
    ensures c.reader.sends[0].msg.Update?
  {
  }

  lemma OrderedSend(conns: map<Uuid, Conn>, id: Uuid)
    requires Mail(conns) && AllOwn(conns) && Pairs(conns) && AllPolite(conns) && AllOrdered(conns)
    requires id in conns && conns[id].main != []
    ensures var c := conns[id];
      AllOrdered(Deliver(conns[id := c.(main := c.main[1..])], c.main[0]))
  {
    hide Own, Polite, Pair, Genuine, MailOf, Ordered, About, Deliver;
    var c := conns[id];
    var send := c.main[0];
    var conns' := Deliver(conns[id := c.(main := c.main[1..])], send);
    FirstSend(conns, id);
    Delivered(conns, id, c.(main := c.main[1..]), send, id);
    forall o, p ensures Ordered(conns', o, p) {
      assert Ordered(conns, o, p) && Pair(conns, o, p);
      if o !in conns {
        UnknownOrdered(conns', o, p);
      } else {
        if About(send.msg, p) && send.to == o && Listens(conns[o]) && Greeted(conns[o].inbox) {
          OwnAbout(id, c, p);
          LeftInOrder(conns, id, o, p);
        }
        OrderedDelivered(conns, id, c.(main := c.main[1..]), send, o, p);
      }
    }
  }

  lemma UnknownOrdered(conns: map<Uuid, Conn>, o: Uuid, p: Uuid)
    requires o !in conns
    ensures Ordered(conns, o, p)
  {
  }

  lemma OrderedReply(conns: map<Uuid, Conn>, id: Uuid)
    requires Mail(conns) && AllOwn(conns) && AllKnown(conns) && AllPolite(conns) && AllOrdered(conns)
    requires id in conns && conns[id].reader.Busy? && conns[id].reader.sends != []
    ensures var c := conns[id];
      AllOrdered(Deliver(conns[id := c.(reader := Busied(c.reader.sends[1..], c.reader.last))], c.reader.sends[0]))
  {
    hide Own, Polite, Known, Genuine, MailOf, Ordered, Deliver;
    var c := conns[id];
    var c' := c.(reader := Busied(c.reader.sends[1..], c.reader.last));
    var send := c.reader.sends[0];
    var conns' := Deliver(conns[id := c'], send);
    FirstReply(conns, id);
    Delivered(conns, id, c', send, id);
    forall o, p ensures Ordered(conns', o, p) {
      assert Ordered(conns, o, p) && Known(conns, id, o);
      if o !in conns {
        UnknownOrdered(conns', o, p);
      } else {
        if About(send.msg, p) && send.to == o && Listens(conns[o]) && Greeted(conns[o].inbox) {
          ReplyAbout(id, c, p);
          UpdateInOrder(conns, id, o, send.msg.peer);
        }
        OrderedDelivered(conns, id, c', send, o, p);
      }
    }
  }

  lemma OrderedQuiet(conns: map<Uuid, Conn>, id: Uuid, c: Conn)
    requires AllOrdered(conns)
    requires c.inbox == [] || (id in conns && c.inbox == conns[id].inbox
      && (Present(c) ==> Present(conns[id])) && (c.open ==> conns[id].open))
    ensures AllOrdered(conns[id := c])
  {
    var conns' := conns[id := c];
    forall o, p ensures Ordered(conns', o, p) {
      assert Ordered(conns, o, p);
    }
  }

  lemma OrderedStep(cfg: Config, s: State, step: Step)
    requires Settled(cfg, s) && AllPolite(s.conns) && AllKnown(s.conns) && AllOrdered(s.conns) && Enabled(s, step)
    ensures AllOrdered(Apply(cfg, s, step).conns)
  {
    hide AllOrdered, AllKnown, AllPolite, Pairs, AllOwn, Mail, RoomsFit, WithinLimits, Deliver, Newcomer, Lists;
    var conns' := Apply(cfg, s, step).conns;
    match step
    case Clear =>
    case SendNext(id) => OrderedSend(s.conns, id);
    case Reply(id) => OrderedReply(s.conns, id);
    case Connect(id, address, info, order) =>
      NewcomerInbox(id, address, info, Members(s.rooms, GetIpGroup(address)), order);
      OrderedQuiet(s.conns, id, conns'[id]);
    case _ => OrderedQuiet(s.conns, step.id, conns'[step.id]);
  }

  ghost predicate Orderly(cfg: Config, s: State)
  {
    Settled(cfg, s) && AllPolite(s.conns) && AllKnown(s.conns) && AllOrdered(s.conns)
  }

  lemma {:induction false} AlwaysOrderly(cfg: Config, run: seq<Step>)
    requires After(cfg, run).Some?
    ensures Orderly(cfg, After(cfg, run).value)
  {
    hide Settled, AllPolite, AllKnown, AllOrdered, Apply, Enabled;
    AlwaysSettled(cfg, run);
    if run == [] {
      NobodyYet();
    } else {
      var before := run[..|run| - 1];
      AlwaysOrderly(cfg, before);
      PoliteStep(cfg, After(cfg, before).value, run[|run| - 1]);
      KnownStep(cfg, After(cfg, before).value, run[|run| - 1]);
      OrderedStep(cfg, After(cfg, before).value, run[|run| - 1]);
    }
  }

  lemma NobodyYet()
    ensures AllPolite(EMPTY.conns) && AllKnown(EMPTY.conns) && AllOrdered(EMPTY.conns)
  {
  }

  // ----- What follows for every run -----

  /** Who is on the list of a client to which nothing is on its way: the others in its room
      but for those it overlooked, and those that were revived. */
  lemma OnTheList(cfg: Config, run: seq<Step>, s: State, o: Uuid, p: Uuid)
    requires After(cfg, run) == Some(s)
    requires o in s.conns && Listens(s.conns[o]) && NothingInFlight(s.conns, o)
    ensures var inbox := s.conns[o].inbox;
      var other := p != o && p in Members(s.rooms, Group(s.conns[o]));
      && (p in Shown(inbox) <==> (other && !Overlooked(inbox, p)) || Revived(inbox, p))
      && (Overlooked(inbox, p) ==> other)
      && (Revived(inbox, p) ==> !other)
  {
    hide Shown, Members, Group, After, Adds, InOrder, Greeted;
    var inbox := s.conns[o].inbox;
    RoomConvergence(cfg, run, s, o, p);
    InOrderAtEnd(cfg, run, s, o, p);
    LeftIsIn(inbox, p);
    if In(inbox, Departed(p)) == 1 {
      LeaverShown(inbox, p);
    } else if In(inbox, Arrived(p)) == 1 {
      StayerShown(inbox, p);
    } else {
      NeverShown(inbox, p);
    }
  }

  /** A client that was never announced. */
  lemma NeverShown(inbox: seq<WsServerMessage>, p: Uuid)
    requires InOrder(inbox, p) && In(inbox, Arrived(p)) == 0
    ensures p !in Shown(inbox) && !Overlooked(inbox, p) && !Revived(inbox, p)
  {
    hide Adds, Greeted;
    ShownExactly(inbox, p);
    forall j: nat ensures !Adds(inbox, j, p) {
      if Adds(inbox, j, p) {
        AddsAnnounced(inbox, j, p);
      }
    }
    forall k | 0 <= k < |inbox| ensures !(inbox[k].Join? && inbox[k].peer.id == p) {
      TellsIsIn(inbox, k, Arrived(p));
    }
  }

  /** The list of a client to which nothing is on its way is right exactly if nobody is put on
      it behind the report of its leaving, and nobody's join stands before the greeting
      without an update behind it. */
  lemma ListIsRightExactly(cfg: Config, run: seq<Step>, s: State, o: Uuid)
    requires After(cfg, run) == Some(s)
    requires o in s.conns && Listens(s.conns[o]) && NothingInFlight(s.conns, o)
    ensures var inbox := s.conns[o].inbox;
      var others := Members(s.rooms, Group(s.conns[o])).Keys - {o};
      Shown(inbox) == others <==> forall p :: !Revived(inbox, p) && !Overlooked(inbox, p)
  {
    hide Overlooked, Revived, Shown, Members, Group, After;
    var inbox := s.conns[o].inbox;
    var others := Members(s.rooms, Group(s.conns[o])).Keys - {o};
    forall p
      ensures p in Shown(inbox) <==> (p in others && !Overlooked(inbox, p)) || Revived(inbox, p)
      ensures Overlooked(inbox, p) ==> p in others
      ensures Revived(inbox, p) ==> p !in others
    {
      OnTheList(cfg, run, s, o, p);
    }
  }

  lemma InOrderAtEnd(cfg: Config, run: seq<Step>, s: State, o: Uuid, p: Uuid)
    requires After(cfg, run) == Some(s) && o in s.conns && Listens(s.conns[o])
    ensures InOrder(s.conns[o].inbox, p)
  {
    hide Settled, AllPolite, AllKnown, After;
    AlwaysOrderly(cfg, run);
    assert Ordered(s.conns, o, p);
  }
}
