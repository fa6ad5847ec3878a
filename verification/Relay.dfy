/** Offers and answers between clients: what is relayed, to whom, and in which order. */
module Relay {
  import opened Prelude
  import opened Signaling
  import opened Registry
  import opened IpGroup
  import opened RoomServer
  import opened Isolation

  predicate IsSignal(m: WsServerMessage) { m.Offer? || m.Answer? }

  function Origin(m: WsServerMessage): Uuid
    requires IsSignal(m)
  {
    if m.Offer? then m.offer.peer.id else m.answer.peer.id
  }

  /** The client is there to be found, on the same network. */
  predicate Reachable(conns: map<Uuid, Conn>, p: Uuid, o: Uuid)
  {
    && p in conns && o in conns && Present(conns[o])
    && SameNetwork(conns[p].address, conns[o].address)
  }

  /** What a message of `p` makes the server send to `o` by way of offer or answer: the text and
      the session as `p` gave them, and the description with which `p` connected. */
  function SignalTo(conns: map<Uuid, Conn>, p: Uuid, msg: WsClientMessage, o: Uuid): seq<WsServerMessage>
    requires p in conns
  {
    if !Reachable(conns, p, o) || msg.ClientUpdate? || msg.sdp.target != o then []
    else
      var x := WsServerSdpMessage(ClientInfo(p, conns[p].info), msg.sdp.sessionId, msg.sdp.sdp);
      [if msg.ClientOffer? then Offer(x) else Answer(x)]
  }

  /** Handling an offer or answer: one message to its target, if that is present on the sender's
      network, and none otherwise; nothing else changes. */
  lemma HandleSignal(cfg: Config, run: seq<Step>, s: State, id: Uuid, order: seq<Uuid>)
    requires After(cfg, run) == Some(s) && Enabled(s, Handle(id, order))
    requires !s.conns[id].reader.msg.ClientUpdate?
    ensures var msg := s.conns[id].reader.msg;
      var signals := SignalTo(s.conns, id, msg, msg.sdp.target);
      var reader' := if signals == [] then Idle else Busy([Send(msg.sdp.target, signals[0])], false);
      Apply(cfg, s, Handle(id, order)) == s.(conns := s.conns[id := s.conns[id].(reader := reader')])
  {
    hide After;
    AlwaysSafe(cfg, run);
    SignalHandled(s, id, order);
  }

  lemma SignalHandled(s: State, id: Uuid, order: seq<Uuid>)
    requires RoomsFit(s.rooms, s.conns) && Enabled(s, Handle(id, order))
    requires !s.conns[id].reader.msg.ClientUpdate?
    ensures var msg := s.conns[id].reader.msg;
      var signals := SignalTo(s.conns, id, msg, msg.sdp.target);
      var reader' := if signals == [] then Idle else Busy([Send(msg.sdp.target, signals[0])], false);
      OnHandle(s, id, order) == s.(conns := s.conns[id := s.conns[id].(reader := reader')])
  {
    var c := s.conns[id];
    var target := c.reader.msg.sdp.target;
    assert Fits(s.rooms, s.conns, Group(c), target);
    if target in s.conns {
      GroupSeparates(c.address, s.conns[target].address);
    }
  }

  // ----- The account between two clients -----

  /** The offers and answers of `p` in a queue. */
  function Signals(inbox: seq<WsServerMessage>, p: Uuid): seq<WsServerMessage>
  {
    if inbox == [] then []
    else
      var last := inbox[|inbox| - 1];
      Signals(inbox[..|inbox| - 1], p) + if IsSignal(last) && Origin(last) == p then [last] else []
  }

  /** The offers and answers that a reader has still to send to `o`. */
  function Pending(reader: Reader, o: Uuid): seq<WsServerMessage>
  {
    if reader.Busy? then PendingIn(reader.sends, o) else []
  }

  function PendingIn(sends: seq<Send>, o: Uuid): seq<WsServerMessage>
  {
    if sends == [] then []
    else (if sends[0].to == o && IsSignal(sends[0].msg) then [sends[0].msg] else []) + PendingIn(sends[1..], o)
  }

  /** What was to be relayed from `p` to `o` in a run: one for each message of `p` that named `o`
      while `o` was there. */
  function Relayed(cfg: Config, run: seq<Step>, p: Uuid, o: Uuid): seq<WsServerMessage>
    requires After(cfg, run).Some?
  {
    if run == [] then []
    else
      var before, step := run[..|run| - 1], run[|run| - 1];
      var s := After(cfg, before).value;
      Relayed(cfg, before, p, o) +
      if step.Handle? && step.id == p then SignalTo(s.conns, p, s.conns[p].reader.msg, o) else []
  }

  /** A client's own task sends no offers, its reader only its own. */
  predicate TidyOne(id: Uuid, c: Conn)
  {
    && (forall k :: 0 <= k < |c.main| ==> !IsSignal(c.main[k].msg))
    && (c.reader.Busy? ==>
        var sends := c.reader.sends;
        forall k :: 0 <= k < |sends| && IsSignal(sends[k].msg) ==> Origin(sends[k].msg) == id)
  }

  predicate Tidy(conns: map<Uuid, Conn>)
  {
    forall id :: id in conns ==> TidyOne(id, conns[id])
  }

  /** The account: what has arrived is the beginning of what was relayed, in order; and while the
      one listens and the other's reader goes on, what is missing is still to be sent. A reader
      that is stopped drops at most one. */
  predicate Account(conns: map<Uuid, Conn>, p: Uuid, o: Uuid, relayed: seq<WsServerMessage>)
  {
    if p !in conns || o !in conns then relayed == [] && (o in conns ==> Signals(conns[o].inbox, p) == [])
    else
      var arrived := Signals(conns[o].inbox, p);
      && arrived <= relayed
      && |Pending(conns[p].reader, o)| <= 1
      && (conns[o].open && conns[p].reader != Stopped ==> arrived + Pending(conns[p].reader, o) == relayed)
      && (conns[o].open ==> |relayed| <= |arrived| + 1)
  }

  lemma SignalsSnoc(inbox: seq<WsServerMessage>, m: WsServerMessage, p: Uuid)
    ensures Signals(inbox + [m], p) == Signals(inbox, p) + if IsSignal(m) && Origin(m) == p then [m] else []
  {
    assert (inbox + [m])[..|inbox|] == inbox;
  }

  lemma {:induction false} NoneInBroadcast(order: seq<Uuid>, msg: WsServerMessage, o: Uuid)
    requires !IsSignal(msg)
    ensures PendingIn(Broadcast(order, msg), o) == []
    decreases |order|
  {
    var sends := Broadcast(order, msg);
    if order != [] {
      assert sends[1..] == Broadcast(order[1..], msg);
      NoneInBroadcast(order[1..], msg, o);
    }
  }

  /** A step that touches one connection only, and neither its queue nor what its reader has
      to send to `o`. */
  lemma Unmoved(conns: map<Uuid, Conn>, id: Uuid, c: Conn, p: Uuid, o: Uuid, relayed: seq<WsServerMessage>)
    requires Account(conns, p, o, relayed) && id in conns
    requires c.inbox == conns[id].inbox && (c.open ==> conns[id].open)
    requires id == p && c.reader != Stopped ==>
      conns[id].reader != Stopped && Pending(c.reader, o) == Pending(conns[id].reader, o)
    ensures Account(conns[id := c], p, o, relayed)
  {
    hide Signals, PendingIn;
  }

  /** A message that is none of these offers and answers. */
  lemma DeliverOther(conns: map<Uuid, Conn>, send: Send, p: Uuid, o: Uuid, relayed: seq<WsServerMessage>)
    requires Account(conns, p, o, relayed)
    requires !(send.to == o && IsSignal(send.msg) && Origin(send.msg) == p)
    ensures Account(Deliver(conns, send), p, o, relayed)
  {
    hide Signals, Pending;
    if o in conns {
      SignalsSnoc(conns[o].inbox, send.msg, p);
      assert Signals(conns[o].inbox, p) + [] == Signals(conns[o].inbox, p);
    }
  }

  lemma {:induction false} NothingForStranger(conns: map<Uuid, Conn>, sends: seq<Send>, o: Uuid)
    requires AllGenuine(conns, sends) && o !in conns
    ensures PendingIn(sends, o) == []
    decreases |sends|
  {
    if sends != [] {
      assert Genuine(conns, sends[0].to, sends[0].msg);
      forall k | 0 <= k < |sends| - 1 ensures Genuine(conns, sends[1..][k].to, sends[1..][k].msg) {
        assert Genuine(conns, sends[k + 1].to, sends[k + 1].msg);
      }
      NothingForStranger(conns, sends[1..], o);
    }
  }

  lemma ConnectAccount(conns: map<Uuid, Conn>, id: Uuid, c: Conn, p: Uuid, o: Uuid, relayed: seq<WsServerMessage>)
    requires Mail(conns) && Account(conns, p, o, relayed) && id !in conns
    requires c.inbox == [] && !c.reader.Busy?
    ensures Account(conns[id := c], p, o, relayed)
  {
    if id == o && p in conns && conns[p].reader.Busy? {
      assert MailOf(conns, p, conns[p]);
      NothingForStranger(conns, conns[p].reader.sends, o);
    }
  }

  lemma HandleAccount(cfg: Config, s: State, id: Uuid, order: seq<Uuid>, p: Uuid, o: Uuid,
                      relayed: seq<WsServerMessage>)
    requires RoomsFit(s.rooms, s.conns) && Enabled(s, Handle(id, order)) && Account(s.conns, p, o, relayed)
    ensures var more := if id == p then SignalTo(s.conns, p, s.conns[p].reader.msg, o) else [];
      Account(OnHandle(s, id, order).conns, p, o, relayed + more)
  {
    hide Signals, Account, PendingIn;
    var c := s.conns[id];
    assert relayed + [] == relayed;
    if c.reader.msg.ClientUpdate? {
      NoneInBroadcast(order, Update(ClientInfo(id, c.reader.msg.info)), o);
      Unmoved(s.conns, id, OnHandle(s, id, order).conns[id], p, o, relayed);
    } else {
      SignalHandled(s, id, order);
      var c' := OnHandle(s, id, order).conns[id];
      if id != p {
        Unmoved(s.conns, id, c', p, o, relayed);
      } else {
        var more := SignalTo(s.conns, p, c.reader.msg, o);
        if c'.reader.Busy? {
          OnePending(c'.reader.sends, o);
        }
        MoreToSend(s.conns, p, c'.reader, o, relayed, more);
      }
    }
  }

  lemma MoreToSend(conns: map<Uuid, Conn>, p: Uuid, reader: Reader, o: Uuid, relayed: seq<WsServerMessage>,
                   more: seq<WsServerMessage>)
    requires Account(conns, p, o, relayed) && p in conns && conns[p].reader.Handling?
    requires reader != Stopped && Pending(reader, o) == more && |more| <= 1 && (o !in conns ==> more == [])
    ensures Account(conns[p := conns[p].(reader := reader)], p, o, relayed + more)
  {
    hide Signals, PendingIn;
    if o in conns {
      var arrived := Signals(conns[o].inbox, p);
      assert arrived + [] == arrived;
    }
  }

  /** A reader sends the first message of its list. */
  lemma ReplyAccount(cfg: Config, s: State, id: Uuid, p: Uuid, o: Uuid, relayed: seq<WsServerMessage>)
    requires Tidy(s.conns) && Enabled(s, Reply(id)) && Account(s.conns, p, o, relayed)
    ensures Account(Apply(cfg, s, Reply(id)).conns, p, o, relayed)
  {
    hide Signals, PendingIn;
    var c := s.conns[id];
    var send, rest := c.reader.sends[0], c.reader.sends[1..];
    var c1 := c.(reader := Busied(rest, c.reader.last));
    var conns1 := s.conns[id := c1];
    assert TidyOne(id, c);
    FirstPending(c.reader.sends, o);
    assert Pending(c1.reader, o) == PendingIn(rest, o) by { NothingPending(o); }
    if id == p && send.to == o && IsSignal(send.msg) {
      if o in s.conns {
        SignalsSnoc(s.conns[o].inbox, send.msg, p);
      }
    } else {
      Unmoved(s.conns, id, c1, p, o, relayed);
      DeliverOther(conns1, send, p, o, relayed);
    }
  }

  lemma NothingPending(o: Uuid)
    ensures PendingIn([], o) == []
  {
  }

  lemma OnePending(sends: seq<Send>, o: Uuid)
    requires |sends| == 1
    ensures PendingIn(sends, o) == if sends[0].to == o && IsSignal(sends[0].msg) then [sends[0].msg] else []
  {
    assert sends[1..] == [];
  }

  lemma FirstPending(sends: seq<Send>, o: Uuid)
    requires sends != []
    ensures PendingIn(sends, o)
      == (if sends[0].to == o && IsSignal(sends[0].msg) then [sends[0].msg] else []) + PendingIn(sends[1..], o)
  {
  }

  /** Every step of every task keeps the account. */
  lemma StepAccount(cfg: Config, s: State, step: Step, p: Uuid, o: Uuid, relayed: seq<WsServerMessage>)
    requires Safe(cfg, s) && Tidy(s.conns) && Enabled(s, step) && Account(s.conns, p, o, relayed)
    ensures var more :=
        if step.Handle? && step.id == p then SignalTo(s.conns, p, s.conns[p].reader.msg, o) else [];
      Account(Apply(cfg, s, step).conns, p, o, relayed + more)
  {
    hide Account, Signals, PendingIn, Mail, RoomsFit, WithinLimits, SignalTo, Tidy;
    assert relayed + [] == relayed;
    match step
    case Connect(id, address, info, order) =>
      ConnectAccount(s.conns, id, Apply(cfg, s, step).conns[id], p, o, relayed);
    case Handle(id, order) => HandleAccount(cfg, s, id, order, p, o, relayed);
    case Reply(id) => ReplyAccount(cfg, s, id, p, o, relayed);
    case SendNext(id) =>
      var c := s.conns[id];
      OwnMail(s.conns, id);
      Unmoved(s.conns, id, c.(main := c.main[1..]), p, o, relayed);
      DeliverOther(s.conns[id := c.(main := c.main[1..])], c.main[0], p, o, relayed);
    case Clear =>
    case Receive(id, _) =>
      OnePending([Send(id, Error(TOO_MANY_REQUESTS))], o);
      Unmoved(s.conns, id, Apply(cfg, s, step).conns[id], p, o, relayed);
    case _ => Unmoved(s.conns, step.id, Apply(cfg, s, step).conns[step.id], p, o, relayed);
  }

  lemma OwnMail(conns: map<Uuid, Conn>, id: Uuid)
    requires Tidy(conns) && id in conns && conns[id].main != []
    ensures !IsSignal(conns[id].main[0].msg)
  {
    assert TidyOne(id, conns[id]);
  }

  lemma DeliverTidy(conns: map<Uuid, Conn>, send: Send)
    requires Tidy(conns)
    ensures Tidy(Deliver(conns, send))
  {
    forall id | id in conns ensures TidyOne(id, Deliver(conns, send)[id]) {
      assert TidyOne(id, conns[id]);
    }
  }

  lemma OneTidy(conns: map<Uuid, Conn>, id: Uuid, c: Conn)
    requires Tidy(conns) && TidyOne(id, c)
    ensures Tidy(conns[id := c])
  {
    hide TidyOne;
  }

  lemma TidyStep(cfg: Config, s: State, step: Step)
    requires Safe(cfg, s) && Tidy(s.conns) && Enabled(s, step)
    ensures Tidy(Apply(cfg, s, step).conns)
  {
    hide Mail, RoomsFit, WithinLimits, Deliver, Tidy, OnHandle;
    if step != Clear && step.id in s.conns {
      assert TidyOne(step.id, s.conns[step.id]) by { TidyParts(s.conns, step.id); }
    }
    match step
    case Clear =>
    case SendNext(id) =>
      var c := s.conns[id].(main := s.conns[id].main[1..]);
      OneTidy(s.conns, id, c);
      DeliverTidy(s.conns[id := c], s.conns[id].main[0]);
    case Reply(id) =>
      var Busy(sends, last) := s.conns[id].reader;
      var c := s.conns[id].(reader := Busied(sends[1..], last));
      OneTidy(s.conns, id, c);
      DeliverTidy(s.conns[id := c], sends[0]);
    case Handle(id, order) => TidyHandled(s, id, order);
    case _ => OneTidy(s.conns, step.id, Apply(cfg, s, step).conns[step.id]);
  }

  lemma TidyHandled(s: State, id: Uuid, order: seq<Uuid>)
    requires RoomsFit(s.rooms, s.conns) && Tidy(s.conns) && Enabled(s, Handle(id, order))
    ensures Tidy(OnHandle(s, id, order).conns)
  {
    hide Tidy, Reachable;
    TidyParts(s.conns, id);
    if !s.conns[id].reader.msg.ClientUpdate? {
      SignalHandled(s, id, order);
    }
    OneTidy(s.conns, id, OnHandle(s, id, order).conns[id]);
  }

  lemma TidyParts(conns: map<Uuid, Conn>, id: Uuid)
    requires Tidy(conns) && id in conns
    ensures TidyOne(id, conns[id])
  {
  }

  lemma {:induction false} AlwaysTidy(cfg: Config, run: seq<Step>)
    requires After(cfg, run).Some?
    ensures Tidy(After(cfg, run).value.conns)
  {
    if run != [] {
      var before := run[..|run| - 1];
      AlwaysTidy(cfg, before);
      AlwaysSafe(cfg, before);
      TidyStep(cfg, After(cfg, before).value, run[|run| - 1]);
    }
  }

  lemma EmptyAccount(p: Uuid, o: Uuid)
    ensures Account(map[], p, o, [])
  {
  }

  lemma {:induction false} AlwaysAccounted(cfg: Config, run: seq<Step>, p: Uuid, o: Uuid)
    requires After(cfg, run).Some?
    ensures Account(After(cfg, run).value.conns, p, o, Relayed(cfg, run, p, o))
  {
    hide Account, Safe, Tidy, Apply, SignalTo;
    if run == [] {
      EmptyAccount(p, o);
    } else {
      var before := run[..|run| - 1];
      AlwaysAccounted(cfg, before, p, o);
      AlwaysSafe(cfg, before);
      AlwaysTidy(cfg, before);
      StepAccount(cfg, After(cfg, before).value, run[|run| - 1], p, o, Relayed(cfg, before, p, o));
    }
  }

  // ----- For every run -----

  /** The offers and answers from one client in another one's queue are those that were to be
      relayed, each once and in order. None is missing while the one listens and the other's
      reader is idle; and whatever happens, at most the last one is. */
  lemma RelayedInOrder(cfg: Config, run: seq<Step>, s: State, p: Uuid, o: Uuid)
    requires After(cfg, run) == Some(s) && p in s.conns && o in s.conns
    ensures var arrived, relayed := Signals(s.conns[o].inbox, p), Relayed(cfg, run, p, o);
      && arrived <= relayed
      && (s.conns[o].open && s.conns[p].reader.Idle? ==> arrived == relayed)
      && (s.conns[o].open ==> |relayed| <= |arrived| + 1)
  {
    AlwaysAccounted(cfg, run, p, o);
    var arrived := Signals(s.conns[o].inbox, p);
    assert arrived + [] == arrived;
  }

  lemma ReaderStep(cfg: Config, s: State, step: Step, id: Uuid)
    requires Enabled(s, step) && id in s.conns
    ensures var conns' := Apply(cfg, s, step).conns;
      && id in conns'
      && (s.conns[id].reader == Stopped ==> conns'[id].reader == Stopped)
      && (s.conns[id].reader.Handling? && conns'[id].reader != s.conns[id].reader ==>
            conns'[id].reader == Stopped || (step.Handle? && step.id == id))
  {
  }

  lemma {:induction false} KnownSince(cfg: Config, run: seq<Step>, i: nat, id: Uuid)
    requires After(cfg, run).Some? && i <= |run|
    ensures After(cfg, run[..i]).Some?
    ensures id in After(cfg, run[..i]).value.conns ==> id in After(cfg, run).value.conns
    decreases |run|
  {
    if i == |run| {
      assert run[..i] == run;
    } else {
      var before := run[..|run| - 1];
      assert before[..i] == run[..i];
      KnownSince(cfg, before, i, id);
      if id in After(cfg, before).value.conns {
        ReaderStep(cfg, After(cfg, before).value, run[|run| - 1], id);
      }
    }
  }

  /** At this point of the run the client's reader has been let through with this message. */
  predicate HandlingAt(cfg: Config, run: seq<Step>, i: nat, id: Uuid, msg: WsClientMessage)
  {
    && i <= |run| && After(cfg, run[..i]).Some?
    && id in After(cfg, run[..i]).value.conns && After(cfg, run[..i]).value.conns[id].reader == Handling(msg)
  }

  /** Unless the reader is stopped, every message let through is handled. */
  lemma {:induction false} LetThroughIsHandled(
    cfg: Config, run: seq<Step>, s: State, id: Uuid, msg: WsClientMessage, i: nat) returns (j: nat)
    requires After(cfg, run) == Some(s) && id in s.conns && HandlingAt(cfg, run, i, id, msg)
    requires !s.conns[id].reader.Stopped? && s.conns[id].reader != Handling(msg)
    ensures i <= j < |run| && run[j].Handle? && run[j].id == id && HandlingAt(cfg, run, j, id, msg)
    decreases |run|
  {
    hide Apply, Enabled;
    assert run[..|run|] == run;
    var before := run[..|run| - 1];
    var s0 := After(cfg, before).value;
    assert before[..i] == run[..i];
    KnownSince(cfg, before, i, id);
    ReaderStep(cfg, s0, run[|run| - 1], id);
    if s0.conns[id].reader == Handling(msg) {
      j := |run| - 1;
    } else {
      j := LetThroughIsHandled(cfg, before, s0, id, msg, i);
      assert before[..j] == run[..j];
    }
  }

  lemma {:induction false} RelayedGrows(cfg: Config, run: seq<Step>, i: nat, p: Uuid, o: Uuid)
    requires After(cfg, run).Some? && i <= |run|
    ensures After(cfg, run[..i]).Some? && Relayed(cfg, run[..i], p, o) <= Relayed(cfg, run, p, o)
    decreases |run|
  {
    hide Apply, Enabled, SignalTo;
    if i == |run| {
      assert run[..i] == run;
    } else {
      var before := run[..|run| - 1];
      assert before[..i] == run[..i];
      RelayedGrows(cfg, before, i, p, o);
    }
  }

  lemma {:induction false} SignalsAreThere(inbox: seq<WsServerMessage>, p: Uuid)
    ensures forall m :: m in Signals(inbox, p) ==> m in inbox
  {
    if inbox != [] {
      SignalsAreThere(inbox[..|inbox| - 1], p);
    }
  }

  /** An offer or answer that was let through has been handled once the sender's reader is idle
      again; if its target was there, and still listens, the message stands in its queue. */
  lemma SignalArrives(cfg: Config, run: seq<Step>, s: State, id: Uuid, msg: WsClientMessage, i: nat) returns (j: nat)
    requires After(cfg, run) == Some(s) && id in s.conns && s.conns[id].reader.Idle?
    requires HandlingAt(cfg, run, i, id, msg) && !msg.ClientUpdate?
    ensures i <= j < |run| && run[j].Handle? && run[j].id == id && HandlingAt(cfg, run, j, id, msg)
    ensures var past := After(cfg, run[..j]).value.conns;
      var target := msg.sdp.target;
      var x := WsServerSdpMessage(ClientInfo(id, past[id].info), msg.sdp.sessionId, msg.sdp.sdp);
      Reachable(past, id, target) ==>
        && target in s.conns
        && (s.conns[target].open ==> (if msg.ClientOffer? then Offer(x) else Answer(x)) in s.conns[target].inbox)
  {
    hide Apply, Enabled, Reachable;
    j := LetThroughIsHandled(cfg, run, s, id, msg, i);
    var past, target := After(cfg, run[..j]).value.conns, msg.sdp.target;
    if Reachable(past, id, target) {
      Known(past, id, target);
      KnownSince(cfg, run, j, target);
      var signals := SignalTo(past, id, msg, target);
      assert run[..j + 1][..j] == run[..j];
      RelayedGrows(cfg, run, j + 1, id, target);
      assert Relayed(cfg, run[..j + 1], id, target) == Relayed(cfg, run[..j], id, target) + signals;
      assert signals[0] in Relayed(cfg, run[..j + 1], id, target);
      RelayedInOrder(cfg, run, s, id, target);
      SignalsAreThere(s.conns[target].inbox, id);
    }
  }

  lemma Known(conns: map<Uuid, Conn>, p: Uuid, o: Uuid)
    requires Reachable(conns, p, o)
    ensures o in conns
  {
  }
}
