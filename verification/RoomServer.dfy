/** The signaling server as many tasks at once: every section under a lock is one step, and so
    is every single message a task sends after it has let go of the lock. */
module RoomServer {
  import opened Prelude
  import opened Signaling
  import opened Registry
  import opened IpGroup

  datatype Send = Send(to: Uuid, msg: WsServerMessage)

  datatype Phase = Joining | Serving | Leaving | Refused

  /** The task that reads a client's messages: waiting for one, let through by the rate limit,
      sending what it has to send, or over. */
  datatype Reader =
    | Idle
    | Handling(msg: WsClientMessage)
    | Busy(sends: seq<Send>, last: bool)
    | Stopped

  /** One connection. `main` is what its own task has still to send, `inbox` what has been
      queued for its client, `open` whether that queue still has its reader, and `said` what
      its client has been heard to say. */
  datatype Conn = Conn(
    address: IpAddr, info: ClientInfoWithoutId, phase: Phase, main: seq<Send>, reader: Reader,
    open: bool, inbox: seq<WsServerMessage>, said: seq<WsClientMessage>)

  datatype State = State(rooms: Rooms, counts: Counts, conns: map<Uuid, Conn>)

  const EMPTY: State := State(map[], map[], map[])

  datatype Step =
    | Connect(id: Uuid, address: IpAddr, info: ClientInfoWithoutId, order: seq<Uuid>)
    | SendNext(id: Uuid)
    | Serve(id: Uuid)
    | Receive(id: Uuid, msg: WsClientMessage)
    | Handle(id: Uuid, order: seq<Uuid>)
    | Reply(id: Uuid)
    | StopReader(id: Uuid)
    | CloseQueue(id: Uuid)
    | Disconnect(id: Uuid, order: seq<Uuid>)
    | Clear

  function Group(c: Conn): string { GetIpGroup(c.address) }

  predicate Started(c: Conn) { c.phase == Serving || c.phase == Leaving }

  /** The same message to each of a list of members. */
  function Broadcast(order: seq<Uuid>, msg: WsServerMessage): (sends: seq<Send>)
    ensures |sends| == |order| && forall i :: 0 <= i < |order| ==> sends[i] == Send(order[i], msg)
  {
    seq(|order|, i requires 0 <= i < |order| => Send(order[i], msg))
  }

  /** A message to a connection whose queue has lost its reader is dropped. */
  function Deliver(conns: map<Uuid, Conn>, send: Send): map<Uuid, Conn>
  {
    if send.to in conns && conns[send.to].open
    then conns[send.to := conns[send.to].(inbox := conns[send.to].inbox + [send.msg])]
    else conns
  }

  /** Several sends, one after the other. */
  function DeliverAll(conns: map<Uuid, Conn>, sends: seq<Send>): map<Uuid, Conn>
    decreases |sends|
  {
    if sends == [] then conns else DeliverAll(Deliver(conns, sends[0]), sends[1..])
  }

  function Newcomer(id: Uuid, address: IpAddr, info: ClientInfoWithoutId, others: Room, order: seq<Uuid>): Conn
    requires Lists(order, others)
  {
    var self := ClientInfo(id, info);
    Conn(address, info, Joining,
         Broadcast(order, Join(self)) + [Send(id, Hello(self, Infos(order, others)))], Idle, true, [], [])
  }

  function OnConnect(cfg: Config, s: State, id: Uuid, address: IpAddr, info: ClientInfoWithoutId, order: seq<Uuid>)
    : State
    requires Lists(order, Members(s.rooms, GetIpGroup(address)))
  {
    var e := Enter(cfg, s.rooms, s.counts, GetIpGroup(address), id, info);
    var conn := match e.others
      case Some(others) => Newcomer(id, address, info, others, order)
      case None => Conn(address, info, Phase.Refused, [], Stopped, false, [], []);
    State(e.rooms, e.counts, s.conns[id := conn])
  }

  function OnReceive(cfg: Config, s: State, id: Uuid, msg: WsClientMessage): State
    requires id in s.conns
  {
    var c := s.conns[id];
    var (counts, ok) := Charge(cfg, s.counts, Group(c));
    var reader := if ok then Handling(msg) else Busy([Send(id, Error(TOO_MANY_REQUESTS))], true);
    s.(counts := counts, conns := s.conns[id := c.(reader := reader, said := c.said + [msg])])
  }

  /** An offer or answer goes to its target if that is in the sender's own group, with the
      description the sender connected with. */
  function Forward(s: State, id: Uuid, sdp: WsClientSdpMessage, wrap: WsServerSdpMessage -> WsServerMessage): seq<Send>
    requires id in s.conns
  {
    var c := s.conns[id];
    if sdp.target in Members(s.rooms, Group(c))
    then [Send(sdp.target, wrap(WsServerSdpMessage(ClientInfo(id, c.info), sdp.sessionId, sdp.sdp)))]
    else []
  }

  function Busied(sends: seq<Send>, last: bool): Reader
  {
    if sends != [] then Busy(sends, last) else if last then Stopped else Idle
  }

  /** Who is told about an update; nobody is told anything else. */
  function Told(s: State, id: Uuid): Room
    requires id in s.conns && s.conns[id].reader.Handling?
  {
    var c := s.conns[id];
    match c.reader.msg
    case ClientUpdate(info) => Amend(s.rooms, Group(c), id, info).1
    case _ => map[]
  }

  function OnHandle(s: State, id: Uuid, order: seq<Uuid>): State
    requires id in s.conns && s.conns[id].reader.Handling?
  {
    var c := s.conns[id];
    var sends := match c.reader.msg
      case ClientUpdate(info) => Broadcast(order, Update(ClientInfo(id, info)))
      case ClientOffer(sdp) => Forward(s, id, sdp, x => Offer(x))
      case ClientAnswer(sdp) => Forward(s, id, sdp, x => Answer(x));
    var rooms := match c.reader.msg
      case ClientUpdate(info) => Amend(s.rooms, Group(c), id, info).0
      case _ => s.rooms;
    s.(rooms := rooms, conns := s.conns[id := c.(reader := Busied(sends, false))])
  }

  /** What can happen next. The reader is aborted only once the queue has lost its reader; a
      connection is taken out only once one of its two tasks is over. */
  predicate Enabled(s: State, step: Step)
  {
    match step
    case Connect(id, address, _, order) => id !in s.conns && Lists(order, Members(s.rooms, GetIpGroup(address)))
    case SendNext(id) => id in s.conns && s.conns[id].main != []
    case Serve(id) => id in s.conns && s.conns[id].phase == Joining && s.conns[id].main == []
    case Receive(id, _) => id in s.conns && Started(s.conns[id]) && s.conns[id].reader.Idle?
    case Handle(id, order) => id in s.conns && s.conns[id].reader.Handling? && Lists(order, Told(s, id))
    case Reply(id) => id in s.conns && s.conns[id].reader.Busy? && s.conns[id].reader.sends != []
    case StopReader(id) => id in s.conns && Started(s.conns[id]) && (s.conns[id].reader.Idle? || !s.conns[id].open)
    case CloseQueue(id) => id in s.conns && Started(s.conns[id])
    case Disconnect(id, order) =>
      && id in s.conns && s.conns[id].phase == Serving && (s.conns[id].reader.Stopped? || !s.conns[id].open)
      && Lists(order, Leave(s.rooms, Group(s.conns[id]), id).1)
    case Clear => true
  }

  function Apply(cfg: Config, s: State, step: Step): State
    requires Enabled(s, step)
  {
    match step
    case Connect(id, address, info, order) => OnConnect(cfg, s, id, address, info, order)
    case SendNext(id) =>
      var c := s.conns[id];
      s.(conns := Deliver(s.conns[id := c.(main := c.main[1..])], c.main[0]))
    case Serve(id) => s.(conns := s.conns[id := s.conns[id].(phase := Serving)])
    case Receive(id, msg) => OnReceive(cfg, s, id, msg)
    case Handle(id, order) => OnHandle(s, id, order)
    case Reply(id) =>
      var c := s.conns[id];
      var Busy(sends, last) := c.reader;
      s.(conns := Deliver(s.conns[id := c.(reader := Busied(sends[1..], last))], sends[0]))
    case StopReader(id) => s.(conns := s.conns[id := s.conns[id].(reader := Stopped)])
    case CloseQueue(id) => s.(conns := s.conns[id := s.conns[id].(open := false)])
    case Disconnect(id, order) =>
      var c := s.conns[id];
      var (rooms, _) := Leave(s.rooms, Group(c), id);
      s.(rooms := rooms, conns := s.conns[id := c.(phase := Leaving, main := Broadcast(order, Left(id)))])
    case Clear => s.(counts := map[])
  }

  /** The state after a run, if every step of it could be taken. */
  function After(cfg: Config, run: seq<Step>): Option<State>
  {
    if run == [] then Some(EMPTY)
    else
      match After(cfg, run[..|run| - 1])
      case Some(s) => if Enabled(s, run[|run| - 1]) then Some(Apply(cfg, s, run[|run| - 1])) else None
      case None => None
  }
}
