/** What the last word is that a client has about another one in its room. */
module Descriptions {
  import opened Prelude
  import opened Signaling
  import opened Registry
  import opened IpGroup
  import opened RoomServer
  import opened Isolation
  import opened Convergence
  import opened ClientList

  type Info = ClientInfoWithoutId

  predicate Updates(m: WsServerMessage, p: Uuid) { m.Update? && m.peer.id == p }

  /** What the last update of a client in a queue says. */
  function LastUpdate(inbox: seq<WsServerMessage>, p: Uuid): Option<Info>
  {
    if inbox == [] then None
    else
      var m := inbox[|inbox| - 1];
      if Updates(m, p) then Some(m.peer.info) else LastUpdate(inbox[..|inbox| - 1], p)
  }

  /** A greeting or join that tells of the client under this description. */
  predicate Announces(m: WsServerMessage, p: Uuid, info: Info)
  {
    match m
    case Hello(_, peers) => ClientInfo(p, info) in peers
    case Join(x) => x == ClientInfo(p, info)
    case _ => false
  }

  predicate AnnouncedIn(inbox: seq<WsServerMessage>, p: Uuid, info: Info)
  {
    exists k :: 0 <= k < |inbox| && Announces(inbox[k], p, info)
  }

  predicate AnnouncedTo(sends: seq<Send>, o: Uuid, p: Uuid, info: Info)
  {
    exists k :: 0 <= k < |sends| && sends[k].to == o && Announces(sends[k].msg, p, info)
  }

  /** The client's reader still has an update to send to `o`. */
  predicate Pending(r: Reader, o: Uuid)
  {
    r.Busy? && exists k :: 0 <= k < |r.sends| && r.sends[k].to == o && r.sends[k].msg.Update?
  }

  /** The last that `o` has been or will be told of `p` is this description. */
  ghost predicate Fresh(co: Conn, cp: Conn, o: Uuid, p: Uuid, info: Info)
  {
    if Pending(cp.reader, o) then
      forall k :: 0 <= k < |cp.reader.sends| && cp.reader.sends[k].to == o && cp.reader.sends[k].msg.Update? ==>
        cp.reader.sends[k].msg.peer.info == info
    else
      match LastUpdate(co.inbox, p)
      case Some(last) => last == info
      case None =>
        forall i ::
          AnnouncedIn(co.inbox, p, i) || AnnouncedTo(co.main, o, p, i) || AnnouncedTo(cp.main, o, p, i) ==> i == info
  }

  /** Between two present clients: the last word is the description in the room. A reader that
      was stopped may have dropped an update. */
  ghost predicate Current(s: State, o: Uuid, p: Uuid)
  {
    SameGroup(s.conns, o, p) && o != p && Listens(s.conns[o]) && Present(s.conns[p]) && s.conns[p].reader != Stopped ==>
      var room := Members(s.rooms, Group(s.conns[p]));
      p in room && Fresh(s.conns[o], s.conns[p], o, p, room[p])
  }

  ghost predicate AllCurrent(s: State)
  {
    forall o, p :: Current(s, o, p)
  }

  /** Nobody has heard from a client whose reader has not started. */
  predicate Silent(c: Conn) { c.phase == Joining ==> c.said == [] }

  ghost predicate AllSilent(conns: map<Uuid, Conn>)
  {
    forall id :: id in conns ==> Silent(conns[id])
  }

  /** A client's join stands before all its updates. */
  predicate JoinFirst(inbox: seq<WsServerMessage>, p: Uuid)
  {
    forall j, k :: 0 <= k < j < |inbox| && Updates(inbox[k], p) && inbox[j].Join? ==> inbox[j].peer.id != p
  }

  ghost predicate AllJoinFirst(conns: map<Uuid, Conn>)
  {
    forall o, p :: o in conns ==> JoinFirst(conns[o].inbox, p)
  }

  // ----- Small steps -----

  lemma LastUpdateSnoc(inbox: seq<WsServerMessage>, m: WsServerMessage, p: Uuid)
    ensures LastUpdate(inbox + [m], p) == if Updates(m, p) then Some(m.peer.info) else LastUpdate(inbox, p)
  {
    assert (inbox + [m])[..|inbox|] == inbox;
  }

  lemma {:induction false} NoUpdate(inbox: seq<WsServerMessage>, p: Uuid)
    ensures LastUpdate(inbox, p).None? <==> forall k :: 0 <= k < |inbox| ==> !Updates(inbox[k], p)
  {
    if inbox != [] {
      var before, n := inbox[..|inbox| - 1], |inbox| - 1;
      NoUpdate(before, p);
      assert forall k :: 0 <= k < n ==> before[k] == inbox[k];
    }
  }

  lemma {:induction false} LastUpdateAt(inbox: seq<WsServerMessage>, p: Uuid) returns (k: nat)
    requires LastUpdate(inbox, p).Some?
    ensures k < |inbox| && Updates(inbox[k], p) && inbox[k].peer.info == LastUpdate(inbox, p).value
    ensures forall j :: k < j < |inbox| ==> !Updates(inbox[j], p)
  {
    k := |inbox| - 1;
    if !Updates(inbox[k], p) {
      var before := inbox[..k];
      k := LastUpdateAt(before, p);
      assert forall j :: k < j < |before| ==> before[j] == inbox[j];
    }
  }

  lemma AnnouncedSnoc(inbox: seq<WsServerMessage>, m: WsServerMessage, p: Uuid, info: Info)
    ensures AnnouncedIn(inbox + [m], p, info) <==> AnnouncedIn(inbox, p, info) || Announces(m, p, info)
  {
    var longer := inbox + [m];
    if AnnouncedIn(inbox, p, info) {
      var k :| 0 <= k < |inbox| && Announces(inbox[k], p, info);
      assert Announces(longer[k], p, info);
    }
    if Announces(m, p, info) {
      assert Announces(longer[|inbox|], p, info);
    }
    if AnnouncedIn(longer, p, info) {
      var k :| 0 <= k < |longer| && Announces(longer[k], p, info);
      assert k < |inbox| ==> Announces(inbox[k], p, info);
    }
  }

  lemma AnnouncedRest(sends: seq<Send>, o: Uuid, p: Uuid, info: Info)
    requires sends != []
    ensures AnnouncedTo(sends, o, p, info) <==>
      AnnouncedTo(sends[1..], o, p, info) || (sends[0].to == o && Announces(sends[0].msg, p, info))
  {
    if AnnouncedTo(sends[1..], o, p, info) {
      var k :| 0 <= k < |sends[1..]| && sends[1..][k].to == o && Announces(sends[1..][k].msg, p, info);
      assert sends[k + 1] == sends[1..][k];
    }
    if AnnouncedTo(sends, o, p, info) {
      var k :| 0 <= k < |sends| && sends[k].to == o && Announces(sends[k].msg, p, info);
      assert k > 0 ==> sends[1..][k - 1] == sends[k];
    }
  }

  /** A task sends the first message of its list; the announcements go with it. */
  lemma FreshSend(co: Conn, cp: Conn, co': Conn, cp': Conn, o: Uuid, p: Uuid, m: WsServerMessage, info: Info)
    requires Fresh(co, cp, o, p, info) && cp'.reader == cp.reader && !m.Update?
    requires co'.inbox == co.inbox || co'.inbox == co.inbox + [m]
    requires forall i :: AnnouncedTo(co'.main, o, p, i) ==> AnnouncedTo(co.main, o, p, i)
    requires forall i :: AnnouncedTo(cp'.main, o, p, i) ==> AnnouncedTo(cp.main, o, p, i)
    requires co'.inbox == co.inbox + [m] ==> forall i :: Announces(m, p, i) ==>
      AnnouncedIn(co.inbox, p, i) || AnnouncedTo(co.main, o, p, i) || AnnouncedTo(cp.main, o, p, i)
    ensures Fresh(co', cp', o, p, info)
  {
    hide AnnouncedIn, AnnouncedTo, Announces, Pending;
    if co'.inbox == co.inbox + [m] {
      LastUpdateSnoc(co.inbox, m, p);
      forall i ensures AnnouncedIn(co'.inbox, p, i) <==> AnnouncedIn(co.inbox, p, i) || Announces(m, p, i) {
        AnnouncedSnoc(co.inbox, m, p, i);
      }
    }
  }

  /** Nothing about the two changes that matters. */
  lemma FreshSame(co: Conn, cp: Conn, co': Conn, cp': Conn, o: Uuid, p: Uuid, info: Info)
    requires Fresh(co, cp, o, p, info)
    requires co'.inbox == co.inbox && co'.main == co.main && cp'.main == cp.main
    requires cp'.reader == cp.reader || (!Pending(cp.reader, o) && !Pending(cp'.reader, o))
    ensures Fresh(co', cp', o, p, info)
  {
    hide AnnouncedIn, AnnouncedTo, LastUpdate, Pending;
  }

  // ----- One step at a time -----

  /** What all the steps can rely on. */
  ghost predicate Base(cfg: Config, s: State)
  {
    Orderly(cfg, s) && AllSilent(s.conns)
  }

  /** A message of a client's own task says something of the client itself, or greets it. */
  lemma OwnAnnounces(id: Uuid, c: Conn, p: Uuid, info: Info)
    requires Own(id, c) && c.main != [] && Announces(c.main[0].msg, p, info)
    ensures p == id || c.main[0].to == id
    ensures !c.main[0].msg.Update?
  {
  }

  lemma OwnNoUpdate(id: Uuid, c: Conn)
    requires Own(id, c) && c.main != []
    ensures !c.main[0].msg.Update?
  {
  }

  lemma SendCurrent(s: State, id: Uuid, o: Uuid, p: Uuid)
    requires id in s.conns && s.conns[id].main != [] && Own(id, s.conns[id])
    requires Current(s, o, p)
    ensures var c := s.conns[id];
      Current(s.(conns := Deliver(s.conns[id := c.(main := c.main[1..])], c.main[0])), o, p)
  {
    hide Own, Fresh, Deliver, Members, Group;
    var c := s.conns[id];
    var c' := c.(main := c.main[1..]);
    var send := c.main[0];
    var conns' := Deliver(s.conns[id := c'], send);
    Delivered(s.conns, id, c', send, id);
    OwnNoUpdate(id, c);
    if o in conns' && p in conns' {
      Delivered(s.conns, id, c', send, o);
      Delivered(s.conns, id, c', send, p);
      assert Group(conns'[o]) == Group(s.conns[o]) && Group(conns'[p]) == Group(s.conns[p]) by {
        SameAddress(s.conns[o], conns'[o]);
        SameAddress(s.conns[p], conns'[p]);
      }
      if SameGroup(conns', o, p) && o != p && Listens(conns'[o]) && Present(conns'[p]) && conns'[p].reader != Stopped {
        var room := Members(s.rooms, Group(s.conns[p]));
        MainsShrink(s.conns, id, o, p, conns'[o], conns'[p]);
        FreshSend(s.conns[o], s.conns[p], conns'[o], conns'[p], o, p, send.msg, room[p]);
      }
    }
  }

  lemma SameAddress(c: Conn, c': Conn)
    requires c'.address == c.address
    ensures Group(c') == Group(c)
  {
  }

  /** Where the announcement that is sent now was before. */
  lemma MainsShrink(conns: map<Uuid, Conn>, id: Uuid, o: Uuid, p: Uuid, co': Conn, cp': Conn)
    requires id in conns && conns[id].main != [] && Own(id, conns[id]) && o in conns && p in conns && o != p
    requires co'.main == if o == id then conns[o].main[1..] else conns[o].main
    requires cp'.main == if p == id then conns[p].main[1..] else conns[p].main
    ensures forall i :: AnnouncedTo(co'.main, o, p, i) ==> AnnouncedTo(conns[o].main, o, p, i)
    ensures forall i :: AnnouncedTo(cp'.main, o, p, i) ==> AnnouncedTo(conns[p].main, o, p, i)
    ensures conns[id].main[0].to == o ==> forall i :: Announces(conns[id].main[0].msg, p, i) ==>
      AnnouncedTo(conns[o].main, o, p, i) || AnnouncedTo(conns[p].main, o, p, i)
  {
    hide Own, Announces, AnnouncedTo;
    forall i
      ensures AnnouncedTo(co'.main, o, p, i) ==> AnnouncedTo(conns[o].main, o, p, i)
      ensures AnnouncedTo(cp'.main, o, p, i) ==> AnnouncedTo(conns[p].main, o, p, i)
      ensures conns[id].main[0].to == o && Announces(conns[id].main[0].msg, p, i) ==>
        AnnouncedTo(conns[o].main, o, p, i) || AnnouncedTo(conns[p].main, o, p, i)
    {
      AnnouncedRest(conns[id].main, o, p, i);
      if Announces(conns[id].main[0].msg, p, i) {
        OwnAnnounces(id, conns[id], p, i);
      }
    }
  }

  /** A reader sends the first message of its list. */
  lemma ReplyFresh(co: Conn, cp: Conn, co': Conn, o: Uuid, p: Uuid, info: Info)
    requires Fresh(co, cp, o, p, info) && cp.reader.Busy? && cp.reader.sends != []
    requires co'.main == co.main
    requires var send := cp.reader.sends[0];
      && co'.inbox == (if send.to == o then co.inbox + [send.msg] else co.inbox)
      && !News?(send.msg) && (send.to == o && send.msg.Update? ==> send.msg.peer.id == p)
    ensures Fresh(co', cp.(reader := Busied(cp.reader.sends[1..], cp.reader.last)), o, p, info)
  {
    hide AnnouncedTo;
    var r, r' := cp.reader, Busied(cp.reader.sends[1..], cp.reader.last);
    var send := r.sends[0];
    assert forall k :: 0 <= k < |r.sends[1..]| ==> r.sends[1..][k] == r.sends[k + 1];
    if send.to == o {
      LastUpdateSnoc(co.inbox, send.msg, p);
      forall i ensures AnnouncedIn(co'.inbox, p, i) <==> AnnouncedIn(co.inbox, p, i) {
        AnnouncedSnoc(co.inbox, send.msg, p, i);
      }
    }
    if Pending(r, o) && !(send.to == o && send.msg.Update?) {
      var k :| 0 <= k < |r.sends| && r.sends[k].to == o && r.sends[k].msg.Update?;
      assert r.sends[1..][k - 1] == r.sends[k];
    }
  }

  /** A message that is neither an announcement nor an update of this client. */
  lemma AsideFresh(co: Conn, cp: Conn, co': Conn, o: Uuid, p: Uuid, m: WsServerMessage, info: Info)
    requires Fresh(co, cp, o, p, info) && !News?(m)
    requires co'.main == co.main && (co'.inbox == co.inbox || (co'.inbox == co.inbox + [m] && !Updates(m, p)))
    ensures Fresh(co', cp, o, p, info)
  {
    hide AnnouncedTo, Pending;
    if co'.inbox == co.inbox + [m] {
      LastUpdateSnoc(co.inbox, m, p);
      forall i ensures AnnouncedIn(co'.inbox, p, i) <==> AnnouncedIn(co.inbox, p, i) {
        AnnouncedSnoc(co.inbox, m, p, i);
      }
    }
  }

  lemma ReplyCurrent(s: State, id: Uuid, o: Uuid, p: Uuid)
    requires id in s.conns && s.conns[id].reader.Busy? && s.conns[id].reader.sends != []
    requires Own(id, s.conns[id]) && Known(s.conns, id, o) && Current(s, o, p)
    ensures var c := s.conns[id];
      var c' := c.(reader := Busied(c.reader.sends[1..], c.reader.last));
      Current(s.(conns := Deliver(s.conns[id := c'], c.reader.sends[0])), o, p)
  {
    hide Own, Fresh, Deliver, Members, Group, Busied, Total;
    var c := s.conns[id];
    var c' := c.(reader := Busied(c.reader.sends[1..], c.reader.last));
    var send := c.reader.sends[0];
    var conns' := Deliver(s.conns[id := c'], send);
    Delivered(s.conns, id, c', send, id);
    ReplyIsNoNews(id, c);
    if o in conns' && p in conns' {
      Delivered(s.conns, id, c', send, o);
      Delivered(s.conns, id, c', send, p);
      assert Group(conns'[o]) == Group(s.conns[o]) && Group(conns'[p]) == Group(s.conns[p]) by {
        SameAddress(s.conns[o], conns'[o]);
        SameAddress(s.conns[p], conns'[p]);
      }
      if SameGroup(conns', o, p) && o != p && Listens(conns'[o]) && Present(conns'[p]) && conns'[p].reader != Stopped {
        var room := Members(s.rooms, Group(s.conns[p]));
        if p == id {
          ReplyFresh(s.conns[o], c, conns'[o], o, p, room[p]);
          FreshSame(conns'[o], c', conns'[o], conns'[p], o, p, room[p]);
        } else {
          AsideFresh(s.conns[o], s.conns[p], conns'[o], o, p, send.msg, room[p]);
          FreshSame(conns'[o], s.conns[p], conns'[o], conns'[p], o, p, room[p]);
        }
      }
    }
  }

  /** A present client that has just updated itself has the update to send to all others. */
  lemma HandleCurrent(cfg: Config, s: State, id: Uuid, order: seq<Uuid>, o: Uuid, p: Uuid)
    requires RoomsFit(s.rooms, s.conns) && Enabled(s, Handle(id, order)) && Current(s, o, p)
    ensures Current(OnHandle(s, id, order), o, p)
  {
    hide Forward;
    var c := s.conns[id];
    var s' := OnHandle(s, id, order);
    if SameGroup(s'.conns, o, p) && o != p && Listens(s'.conns[o])
       && Present(s'.conns[p]) && s'.conns[p].reader != Stopped {
      assert Fits(s.rooms, s.conns, Group(s.conns[o]), o) && Fits(s.rooms, s.conns, Group(s.conns[p]), p);
      if c.reader.msg.ClientUpdate? {
        AmendKeeps(s.rooms, Group(c), id, c.reader.msg.info);
      }
      var room := Members(s.rooms, Group(s.conns[p]));
      if p == id && c.reader.msg.ClientUpdate? {
        UpdatePending(s, id, order, o, c.reader.msg.info);
      } else if p == id {
        assert !Pending(c.reader, o);
        NoUpdatesForwarded(s, id, order, o);
        FreshSame(s.conns[o], s.conns[p], s'.conns[o], s'.conns[p], o, p, room[p]);
      } else {
        FreshSame(s.conns[o], s.conns[p], s'.conns[o], s'.conns[p], o, p, room[p]);
      }
    }
  }

  lemma UpdatePending(s: State, id: Uuid, order: seq<Uuid>, o: Uuid, info: Info)
    requires Enabled(s, Handle(id, order)) && s.conns[id].reader.msg == ClientUpdate(info)
    requires o != id && o in Members(s.rooms, Group(s.conns[id])) && id in Members(s.rooms, Group(s.conns[id]))
    ensures var s' := OnHandle(s, id, order);
      forall co :: Fresh(co, s'.conns[id], o, id, info)
  {
    AmendKeeps(s.rooms, Group(s.conns[id]), id, info);
    assert o in Told(s, id);
    var r := OnHandle(s, id, order).conns[id].reader;
    var k :| 0 <= k < |order| && order[k] == o;
    assert r.sends[k] == Send(o, Update(ClientInfo(id, info)));
  }

  lemma NoUpdatesForwarded(s: State, id: Uuid, order: seq<Uuid>, o: Uuid)
    requires Enabled(s, Handle(id, order)) && !s.conns[id].reader.msg.ClientUpdate?
    ensures !Pending(OnHandle(s, id, order).conns[id].reader, o)
  {
  }

  lemma ReceiveCurrent(cfg: Config, s: State, id: Uuid, msg: WsClientMessage, o: Uuid, p: Uuid)
    requires Enabled(s, Receive(id, msg)) && Current(s, o, p)
    ensures Current(OnReceive(cfg, s, id, msg), o, p)
  {
    hide LastUpdate, AnnouncedIn, AnnouncedTo, Members, Charge;
    var s' := OnReceive(cfg, s, id, msg);
    if SameGroup(s'.conns, o, p) && o != p && Listens(s'.conns[o])
       && Present(s'.conns[p]) && s'.conns[p].reader != Stopped {
      SameAddress(s.conns[id], s'.conns[id]);
      var room := Members(s.rooms, Group(s.conns[p]));
      FreshSame(s.conns[o], s.conns[p], s'.conns[o], s'.conns[p], o, p, room[p]);
    }
  }

  /** A connection only changes its phase, loses its queue's reader, or stops reading. */
  lemma MarkCurrent(s: State, id: Uuid, c: Conn, o: Uuid, p: Uuid)
    requires id in s.conns && Current(s, o, p)
    requires c == s.conns[id].(phase := c.phase, reader := c.reader, open := c.open)
    requires (Present(c) ==> Present(s.conns[id])) && (c.open ==> s.conns[id].open)
    requires c.reader == s.conns[id].reader || c.reader == Stopped
    ensures Current(s.(conns := s.conns[id := c]), o, p)
  {
    hide LastUpdate, AnnouncedIn, AnnouncedTo, Members;
    var conns' := s.conns[id := c];
    SameAddress(s.conns[id], c);
    if SameGroup(conns', o, p) && o != p && Listens(conns'[o]) && Present(conns'[p]) && conns'[p].reader != Stopped {
      var room := Members(s.rooms, Group(s.conns[p]));
      FreshSame(s.conns[o], s.conns[p], conns'[o], conns'[p], o, p, room[p]);
    }
  }

  lemma LeaveCurrent(s: State, s': State, id: Uuid, c: Conn, o: Uuid, p: Uuid)
    requires id in s.conns && Current(s, o, p)
    requires s'.rooms == Leave(s.rooms, Group(s.conns[id]), id).0
    requires s'.conns == s.conns[id := c] && !Present(c)
    ensures Current(s', o, p)
  {
    hide LastUpdate, AnnouncedIn, AnnouncedTo, Leave, Members;
    LeaveRemoves(s.rooms, Group(s.conns[id]), id);
    if SameGroup(s'.conns, o, p) && o != p && Listens(s'.conns[o])
       && Present(s'.conns[p]) && s'.conns[p].reader != Stopped {
      var room := Members(s.rooms, Group(s.conns[p]));
      FreshSame(s.conns[o], s.conns[p], s'.conns[o], s'.conns[p], o, p, room[p]);
    }
  }

  // ----- Newcomers -----

  /** The newcomer as observer: its greeting carries the descriptions in the room. */
  lemma NewcomerSees(s: State, id: Uuid, address: IpAddr, info: Info, order: seq<Uuid>, p: Uuid)
    requires Mail(s.conns) && id !in s.conns && id !in Members(s.rooms, GetIpGroup(address))
    requires Lists(order, Members(s.rooms, GetIpGroup(address)))
    requires p in s.conns && p in Members(s.rooms, GetIpGroup(address))
    ensures Fresh(Newcomer(id, address, info, Members(s.rooms, GetIpGroup(address)), order), s.conns[p], id, p,
                  Members(s.rooms, GetIpGroup(address))[p])
  {
    hide GetIpGroup;
    var others := Members(s.rooms, GetIpGroup(address));
    var c := Newcomer(id, address, info, others, order);
    assert MailOf(s.conns, p, s.conns[p]);
    if s.conns[p].reader.Busy? {
      NoReplyToStranger(s.conns, p, id);
    }
    assert forall k :: 0 <= k < |order| ==> order[k] in others;
    assert forall k :: 0 <= k < |order| ==> c.main[k].to == order[k];
    forall i | AnnouncedTo(c.main, id, p, i) ensures i == others[p] {
      var k :| 0 <= k < |c.main| && c.main[k].to == id && Announces(c.main[k].msg, p, i);
      assert k == |order|;
    }
    forall i ensures !AnnouncedTo(s.conns[p].main, id, p, i) {
      NoSendToStranger(s.conns, p, id);
    }
  }

  lemma NoSendToStranger(conns: map<Uuid, Conn>, p: Uuid, o: Uuid)
    requires Mail(conns) && p in conns && o !in conns
    ensures forall k :: 0 <= k < |conns[p].main| ==> conns[p].main[k].to != o
  {
    assert MailOf(conns, p, conns[p]);
    forall k | 0 <= k < |conns[p].main| ensures conns[p].main[k].to != o {
      assert Genuine(conns, conns[p].main[k].to, conns[p].main[k].msg);
    }
  }

  /** Nothing is said of a client that is not known. */
  lemma StrangerUnsaid(conns: map<Uuid, Conn>, o: Uuid, p: Uuid)
    requires Mail(conns) && o in conns && p !in conns
    ensures LastUpdate(conns[o].inbox, p) == None
    ensures forall i :: !AnnouncedIn(conns[o].inbox, p, i) && !AnnouncedTo(conns[o].main, o, p, i)
  {
    var c := conns[o];
    assert MailOf(conns, o, c);
    forall k | 0 <= k < |c.inbox| ensures !Updates(c.inbox[k], p) && forall i :: !Announces(c.inbox[k], p, i) {
      assert Genuine(conns, o, c.inbox[k]);
      GenuineKnows(conns, o, c.inbox[k], p);
    }
    NoUpdate(c.inbox, p);
    forall k | 0 <= k < |c.main| && c.main[k].to == o ensures forall i :: !Announces(c.main[k].msg, p, i) {
      assert Genuine(conns, o, c.main[k].msg);
      GenuineKnows(conns, o, c.main[k].msg, p);
    }
  }

  lemma GenuineKnows(conns: map<Uuid, Conn>, o: Uuid, m: WsServerMessage, p: Uuid)
    requires Genuine(conns, o, m) && p !in conns
    ensures !Updates(m, p) && forall i :: !Announces(m, p, i)
  {
  }

  /** The newcomer as the one observed: its joins carry its description. */
  lemma NewcomerSeen(s: State, id: Uuid, address: IpAddr, info: Info, order: seq<Uuid>, o: Uuid)
    requires Mail(s.conns) && id !in s.conns && o in s.conns
    requires Lists(order, Members(s.rooms, GetIpGroup(address)))
    ensures Fresh(s.conns[o], Newcomer(id, address, info, Members(s.rooms, GetIpGroup(address)), order), o, id, info)
  {
    hide GetIpGroup;
    var others := Members(s.rooms, GetIpGroup(address));
    var c := Newcomer(id, address, info, others, order);
    StrangerUnsaid(s.conns, o, id);
    forall i | AnnouncedTo(c.main, o, id, i) ensures i == info {
      var k :| 0 <= k < |c.main| && c.main[k].to == o && Announces(c.main[k].msg, id, i);
      assert k < |order| ==> c.main[k].msg == Join(ClientInfo(id, info));
    }
  }

  lemma ConnectCurrent(cfg: Config, s: State, id: Uuid, address: IpAddr, info: Info, order: seq<Uuid>, o: Uuid, p: Uuid)
    requires Mail(s.conns) && RoomsFit(s.rooms, s.conns) && Current(s, o, p)
    requires Enabled(s, Connect(id, address, info, order))
    ensures Current(OnConnect(cfg, s, id, address, info, order), o, p)
  {
    hide LastUpdate, AnnouncedIn, AnnouncedTo, Members, GetIpGroup, Fresh, Newcomer, Enter, Lists;
    var g := GetIpGroup(address);
    var s' := OnConnect(cfg, s, id, address, info, order);
    EnterAdds(cfg, s.rooms, s.counts, g, id, info);
    if SameGroup(s'.conns, o, p) && o != p && Listens(s'.conns[o])
       && Present(s'.conns[p]) && s'.conns[p].reader != Stopped {
      assert Fits(s.rooms, s.conns, Group(s'.conns[o]), o) && Fits(s.rooms, s.conns, Group(s'.conns[p]), p);
      if o == id {
        NewcomerGroup(s, id, address, info, order);
        NewcomerSees(s, id, address, info, order, p);
      } else if p == id {
        NewcomerGroup(s, id, address, info, order);
        NewcomerSeen(s, id, address, info, order, o);
      } else {
        var room := Members(s.rooms, Group(s.conns[p]));
        FreshSame(s.conns[o], s.conns[p], s'.conns[o], s'.conns[p], o, p, room[p]);
      }
    }
  }

  lemma NewcomerGroup(s: State, id: Uuid, address: IpAddr, info: Info, order: seq<Uuid>)
    requires Lists(order, Members(s.rooms, GetIpGroup(address)))
    ensures Group(Newcomer(id, address, info, Members(s.rooms, GetIpGroup(address)), order)) == GetIpGroup(address)
  {
  }

  lemma CurrentStep(cfg: Config, s: State, step: Step)
    requires Base(cfg, s) && AllCurrent(s) && Enabled(s, step)
    ensures AllCurrent(Apply(cfg, s, step))
  {
    hide Current, Own, Known, Mail, RoomsFit, WithinLimits, Pairs, AllOrdered, AllPolite, AllSilent, Deliver, Lists;
    forall o, p ensures Current(Apply(cfg, s, step), o, p) {
      assert Current(s, o, p);
      match step
      case Connect(id, address, info, order) => ConnectCurrent(cfg, s, id, address, info, order, o, p);
      case SendNext(id) => SendCurrent(s, id, o, p);
      case Reply(id) =>
        assert Known(s.conns, id, o);
        ReplyCurrent(s, id, o, p);
      case Receive(id, msg) => ReceiveCurrent(cfg, s, id, msg, o, p);
      case Handle(id, order) => HandleCurrent(cfg, s, id, order, o, p);
      case Disconnect(id, order) => 
        var s' := Apply(cfg, s, step);
        LeaveCurrent(s, s', id, s'.conns[id], o, p);
      case Clear => ClearCurrent(s, o, p);
      case Serve(id) => MarkCurrent(s, id, s.conns[id].(phase := Serving), o, p);
      case StopReader(id) => MarkCurrent(s, id, s.conns[id].(reader := Stopped), o, p);
      case CloseQueue(id) => MarkCurrent(s, id, s.conns[id].(open := false), o, p);
    }
  }

  lemma ClearCurrent(s: State, o: Uuid, p: Uuid)
    requires Current(s, o, p)
    ensures Current(s.(counts := map[]), o, p)
  {
  }

  lemma SilentStep(cfg: Config, s: State, step: Step)
    requires Orderly(cfg, s) && AllSilent(s.conns) && Enabled(s, step)
    ensures AllSilent(Apply(cfg, s, step).conns)
  {
    hide Pairs, Mail, RoomsFit, WithinLimits, AllOrdered, AllKnown, Own, Lists, GetIpGroup;
    var conns' := Apply(cfg, s, step).conns;
    forall id | id in conns' ensures Silent(conns'[id]) {
      assert id in s.conns ==> Silent(s.conns[id]) && Polite(s.conns[id]);
    }
  }

  // ----- Joins come before updates -----

  lemma JoinFirstSnoc(inbox: seq<WsServerMessage>, m: WsServerMessage, p: Uuid)
    requires JoinFirst(inbox, p)
    requires m.Join? && m.peer.id == p ==> forall k :: 0 <= k < |inbox| ==> !Updates(inbox[k], p)
    ensures JoinFirst(inbox + [m], p)
  {
    var longer := inbox + [m];
    forall j, k | 0 <= k < j < |longer| && Updates(longer[k], p) && longer[j].Join? ensures longer[j].peer.id != p {
      assert longer[k] == inbox[k];
      if j < |inbox| {
        assert longer[j] == inbox[j];
      }
    }
  }

  /** A join is sent by a newcomer, of whom nobody has had an update. */
  lemma JoinBeforeUpdates(conns: map<Uuid, Conn>, id: Uuid, o: Uuid)
    requires Mail(conns) && id in conns && o in conns && Own(id, conns[id]) && Silent(conns[id])
    requires conns[id].main != [] && conns[id].main[0].msg.Join?
    ensures conns[id].main[0].msg.peer.id == id
    ensures forall k :: 0 <= k < |conns[o].inbox| ==> !Updates(conns[o].inbox[k], id)
  {
    JoinIsOwn(id, conns[id]);
    assert MailOf(conns, o, conns[o]);
    forall k | 0 <= k < |conns[o].inbox| ensures !Updates(conns[o].inbox[k], id) {
      assert Genuine(conns, o, conns[o].inbox[k]);
    }
  }

  lemma JoinIsOwn(id: Uuid, c: Conn)
    requires Own(id, c) && c.main != [] && c.main[0].msg.Join?
    ensures c.phase == Joining && c.main[0].msg.peer.id == id
  {
  }

  lemma DeliveredJoinFirst(conns: map<Uuid, Conn>, id: Uuid, c: Conn, send: Send, o: Uuid, p: Uuid)
    requires AllJoinFirst(conns) && id in conns && o in conns && c == conns[id].(main := c.main, reader := c.reader)
    requires send.msg.Join? ==>
      send.msg.peer.id == id && forall k :: 0 <= k < |conns[o].inbox| ==> !Updates(conns[o].inbox[k], id)
    ensures JoinFirst(Deliver(conns[id := c], send)[o].inbox, p)
  {
    hide JoinFirst, Deliver;
    Delivered(conns, id, c, send, o);
    assert JoinFirst(conns[o].inbox, p);
    JoinFirstSnoc(conns[o].inbox, send.msg, p);
  }

  lemma JoinFirstStep(cfg: Config, s: State, step: Step)
    requires Base(cfg, s) && AllJoinFirst(s.conns) && Enabled(s, step)
    ensures AllJoinFirst(Apply(cfg, s, step).conns)
  {
    hide JoinFirst, Own, Mail, RoomsFit, WithinLimits, Pairs, AllOrdered, AllKnown, AllPolite, Silent;
    hide Deliver, Lists, Newcomer;
    var conns' := Apply(cfg, s, step).conns;
    forall o, p | o in conns' ensures JoinFirst(conns'[o].inbox, p) {
      match step
      case SendNext(id) =>
        var c := s.conns[id];
        Delivered(s.conns, id, c.(main := c.main[1..]), c.main[0], id);
        if c.main[0].msg.Join? {
          JoinBeforeUpdates(s.conns, id, o);
        }
        DeliveredJoinFirst(s.conns, id, c.(main := c.main[1..]), c.main[0], o, p);
      case Reply(id) =>
        var c := s.conns[id];
        var c' := c.(reader := Busied(c.reader.sends[1..], c.reader.last));
        Delivered(s.conns, id, c', c.reader.sends[0], id);
        ReplyIsNoNews(id, c);
        DeliveredJoinFirst(s.conns, id, c', c.reader.sends[0], o, p);
      case Connect(id, address, info, order) =>
        if o == id {
          NewcomerInbox(id, address, info, Members(s.rooms, GetIpGroup(address)), order);
          NothingFirst(p);
        } else {
          assert JoinFirst(s.conns[o].inbox, p);
        }
      case _ => assert JoinFirst(s.conns[o].inbox, p);
    }
  }

  lemma NothingFirst(p: Uuid)
    ensures JoinFirst([], p)
  {
  }

  lemma {:induction false} AlwaysCurrent(cfg: Config, run: seq<Step>, s: State)
    requires After(cfg, run) == Some(s)
    ensures Base(cfg, s) && AllCurrent(s) && AllJoinFirst(s.conns)
  {
    hide Orderly, AllSilent, AllCurrent, AllJoinFirst, Apply, Enabled;
    AlwaysOrderly(cfg, run);
    if run == [] {
      NobodySpoke();
    } else {
      var before, step := run[..|run| - 1], run[|run| - 1];
      var t := After(cfg, before).value;
      AlwaysCurrent(cfg, before, t);
      CurrentStep(cfg, t, step);
      SilentStep(cfg, t, step);
      JoinFirstStep(cfg, t, step);
    }
  }

  lemma NobodySpoke()
    ensures AllSilent(EMPTY.conns) && AllCurrent(EMPTY) && AllJoinFirst(EMPTY.conns)
  {
  }

  /** With nothing on its way between them, the last word a listening client has about another
      one is the description that stands in the room: the last update, or, without any, the
      announcement. */
  lemma LastWordIsCurrent(cfg: Config, run: seq<Step>, s: State, o: Uuid, p: Uuid)
    requires After(cfg, run) == Some(s) && SameGroup(s.conns, o, p) && o != p
    requires Listens(s.conns[o]) && NothingInFlight(s.conns, o) && Present(s.conns[p]) && s.conns[p].reader == Idle
    ensures p in Members(s.rooms, Group(s.conns[p]))
    ensures var info := Members(s.rooms, Group(s.conns[p]))[p];
      match LastUpdate(s.conns[o].inbox, p)
      case Some(last) => last == info
      case None => forall i :: AnnouncedIn(s.conns[o].inbox, p, i) ==> i == info
  {
    hide Base, AllJoinFirst, LastUpdate, AnnouncedIn, AnnouncedTo, Members, Group, After;
    AlwaysCurrent(cfg, run, s);
    assert Current(s, o, p);
  }
}
