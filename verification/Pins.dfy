/** The PIN challenge, in either direction: one side verifies, the other one asks its user. */
module Pins {
  import opened Prelude
  import opened Messages
  import opened Network
  import opened Session
  import opened Legs
  import opened Honest

  /** How a challenge ends. */
  datatype Game = Passed | Exhausted | GaveUp

  /** The rule: one of the first `max` answers is right; or all `max` are spent; or the user
      stops answering before that. */
  ghost function Play(pin: string, max: nat, guesses: seq<string>, from: nat): Game
  {
    if exists k :: from <= k < max && k < |guesses| && guesses[k] == pin then Passed
    else if |guesses| >= max then Exhausted
    else GaveUp
  }

  // ----- Both directions at once: `side` is where the verifier sits -----

  function Place(side: Side, verifier: Peer, prover: Peer, toProver: seq<Message>, toVerifier: seq<Message>)
    : Net<Peer, Message>
  {
    if side.Left? then Net(verifier, prover, toProver, toVerifier) else Net(prover, verifier, toVerifier, toProver)
  }

  function Sender(side: Side, v: Env, u: Env): Env { if side.Left? then v else u }

  function Receiver(side: Side, v: Env, u: Env): Env { if side.Left? then u else v }

  ghost predicate Duel(side: Side, v: Env, u: Env)
  {
    Setting(Sender(side, v, u), Receiver(side, v, u))
  }

  ghost predicate DuelLeads(side: Side, v: Env, u: Env, n: Net<Peer, Message>, n': Net<Peer, Message>)
  {
    Leads(Sender(side, v, u), Receiver(side, v, u), n, n')
  }

  ghost predicate DuelEnds(side: Side, v: Env, u: Env, n: Net<Peer, Message>, verifier: Result, prover: Result,
                           verifierLog: seq<Event>, proverLog: seq<Event>)
  {
    Completes(Sender(side, v, u), Receiver(side, v, u), n,
      if side.Left? then Outcome(verifier, prover, verifierLog, proverLog)
      else Outcome(prover, verifier, proverLog, verifierLog))
  }

  lemma VerifierMoves(side: Side, v: Env, u: Env, n0: Net<Peer, Message>, a: Peer, b: Peer, a': Peer,
                      ins: seq<Message>, closed: bool, outs: seq<Message>)
    requires DuelLeads(side, v, u, n0, Place(side, a, b, [], ins))
    requires Walk(v, a, ins, closed, outs, a')
    requires closed ==> b.pc.Halt?
    ensures DuelLeads(side, v, u, n0, Place(side, a', b, outs, []))
  {
    assert ins == ins + [] && [] + outs == outs;
    if side.Left? {
      SenderMoves(v, u, n0, Net(a, b, [], ins), ins, closed, outs, a', []);
    } else {
      ReceiverMoves(u, v, n0, Net(b, a, ins, []), ins, closed, outs, a', []);
    }
  }

  lemma ProverMoves(side: Side, v: Env, u: Env, n0: Net<Peer, Message>, a: Peer, b: Peer, b': Peer,
                    ins: seq<Message>, closed: bool, outs: seq<Message>)
    requires DuelLeads(side, v, u, n0, Place(side, a, b, ins, []))
    requires Walk(u, b, ins, closed, outs, b')
    requires closed ==> a.pc.Halt?
    ensures DuelLeads(side, v, u, n0, Place(side, a, b', [], outs))
  {
    assert ins == ins + [] && [] + outs == outs;
    if side.Left? {
      ReceiverMoves(v, u, n0, Net(a, b, ins, []), ins, closed, outs, b', []);
    } else {
      SenderMoves(u, v, n0, Net(b, a, [], ins), ins, closed, outs, b', []);
    }
  }

  lemma DuelOver(side: Side, v: Env, u: Env, n0: Net<Peer, Message>, a: Peer, b: Peer,
                 toProver: seq<Message>, toVerifier: seq<Message>)
    requires DuelLeads(side, v, u, n0, Place(side, a, b, toProver, toVerifier))
    requires a.pc.Halt? && b.pc.Halt?
    ensures DuelEnds(side, v, u, n0, a.pc.result, b.pc.result, a.log, b.log)
  {
    Ends(Sender(side, v, u), Receiver(side, v, u), n0, Place(side, a, b, toProver, toVerifier));
  }

  // ----- Reading a notice: plain text from the receiver, framed from the sender -----

  lemma ReadRequired(v: Env, u: Env, used: nat, who: Identity, log: seq<Event>)
    requires v.json == u.json && Faithful(u.json) && v.role.Sending? == u.role.Receiving?
    ensures Walk(u, Peer(Answer(used, [], who), log), PinRequired(v), false, [], Peer(Guess(used, who), log))
  {
    hide Walk, Leads;
    var s := Peer(Answer(used, [], who), log);
    ReadNotice(v, u, s, if v.role.Sending? then PinSendingRequired else PinReceivingRequired);
  }

  lemma ReadTooMany(v: Env, u: Env, used: nat, who: Identity, log: seq<Event>)
    requires v.json == u.json && Faithful(u.json) && v.role.Sending? == u.role.Receiving?
    ensures Walk(u, Peer(Answer(used, [], who), log), TooMany(v), false, [], Peer(Fail(TooManyAttempts), log))
  {
    hide Walk, Leads;
    var s := Peer(Answer(used, [], who), log);
    ReadNotice(v, u, s, if v.role.Sending? then PinSendingTooMany else PinReceivingTooMany);
  }

  function AfterNotice(u: Env, s: Peer, d: Dto): Peer
    requires s.pc.Answer? || s.pc.Collect?
  {
    var who := s.pc.who;
    match d
    case PinSendingOk(files) => Peer(Choose(files), s.log + [Offered(files)])
    case PinSendingRequired => Peer(Guess(if s.pc.Answer? then s.pc.used else 0, who), s.log)
    case PinSendingTooMany => Peer(Fail(if s.pc.Answer? then TooManyAttempts else Unexpected), s.log)
    case PinReceivingOk => Peer(Challenge(u, who), s.log)
    case PinReceivingRequired => Peer(Guess(if s.pc.Answer? then s.pc.used else 0, who), s.log)
    case PinReceivingTooMany => Peer(Fail(TooManyAttempts), s.log)
    case _ => s
  }

  /** Whatever the verifier says next, in the form its direction uses, is understood. */
  lemma ReadNotice(v: Env, u: Env, s: Peer, d: Dto)
    requires v.json == u.json && Faithful(u.json) && v.role.Sending? == u.role.Receiving?
    requires (s.pc.Answer? && s.pc.buffer == []) || (s.pc.Collect? && s.pc.buffer == [] && u.role.Receiving?)
    requires KindOf(d) == if u.role.Receiving? then PinSendingResponse else PinReceivingResponse
    ensures Walk(u, s, if u.role.Receiving? then SayFramed(v.json, d) else [Say(v.json, d)], false, [],
                 AfterNotice(u, s, d))
  {
    hide Walk, Leads;
    var payload := v.json.write(d);
    var none: seq<Message> := [];
    assert u.json.read(KindOf(d), payload) == Some(d);
    Stay(u, s);
    if u.role.Receiving? {
      ThenGather(u, s, [], [], s, payload);
      assert none + Framed(payload) == Framed(payload);
      assert [] + payload == payload;
    } else {
      ThenTake(u, s, [], [], s, Say(v.json, d));
      assert none + [Say(v.json, d)] == [Say(v.json, d)];
    }
  }

  // ----- One round -----

  lemma GuessOnce(u: Env, k: nat, who: Identity, log: seq<Event>)
    requires k < |u.guesses|
    ensures Walk(u, Peer(Guess(k, who), log), [], false, [Say(u.json, Pin(u.guesses[k]))],
                 Peer(Answer(k + 1, [], who), log))
  {
    hide Walk, Leads;
    var s := Peer(Guess(k, who), log);
    var s1 := Peer(Out([Say(u.json, Pin(u.guesses[k]))], Answer(k + 1, [], who)), log);
    Stay(u, s);
    ThenInternal(u, s, [], false, [], s, s1);
    ThenSend(u, s, [], false, [], s1);
    NothingAdded(s1.pc.msgs);
  }

  /** The verifier reads a guess and reaches the top of its loop. */
  lemma WeighGuess(v: Env, tries: nat, who: Identity, log: seq<Event>, pin: string)
    requires Faithful(v.json)
    ensures Walk(v, Peer(VerifyWait(tries, who), log), [Say(v.json, Pin(pin))], false, [],
                 Peer(VerifyTop(v, tries + 1, pin, false, who), log))
  {
    hide Walk, Leads;
    var s := Peer(VerifyWait(tries, who), log);
    var none: seq<Message> := [];
    assert v.json.read(KindOf(Pin(pin)), v.json.write(Pin(pin))) == Some(Pin(pin));
    Stay(v, s);
    ThenTake(v, s, [], [], s, Say(v.json, Pin(pin)));
    assert none + [Say(v.json, Pin(pin))] == [Say(v.json, Pin(pin))];
    ThenInternal(v, s, [Say(v.json, Pin(pin))], false, [], Peer(Verify(tries + 1, pin, false, who), log),
                 Peer(VerifyTop(v, tries + 1, pin, false, who), log));
  }

  lemma SayIt(env: Env, s: Peer)
    requires s.pc.Out?
    ensures Walk(env, s, [], false, s.pc.msgs, Peer(s.pc.next, s.log))
  {
    hide Walk, Leads;
    SendAll(env, s.pc.msgs, s.pc.next, s.log);
  }

  /** The prover's user stops answering: both programs fail. */
  lemma GivesUp(side: Side, v: Env, u: Env, n0: Net<Peer, Message>, k: nat, tries: nat, a: Identity, b: Identity,
                vl: seq<Event>, ul: seq<Event>)
    requires Duel(side, v, u)
    requires k >= |u.guesses|
    requires DuelLeads(side, v, u, n0, Place(side, Peer(VerifyWait(tries, a), vl), Peer(Guess(k, b), ul), [], []))
    ensures DuelEnds(side, v, u, n0, Failed(PeerClosed), Failed(NoPinGiven), vl, ul)
  {
    hide Walk, Leads;
    var p, q := Peer(VerifyWait(tries, a), vl), Peer(Guess(k, b), ul);
    var p', q' := p.(pc := Fail(PeerClosed)), q.(pc := Fail(NoPinGiven));
    Stay(u, q);
    ThenInternal(u, q, [], false, [], q, q');
    ProverMoves(side, v, u, n0, p, q, q', [], false, []);
    Stay(v, p);
    ThenEnd(v, p, [], false, [], p);
    VerifierMoves(side, v, u, n0, p, q', p', [], true, []);
    DuelOver(side, v, u, n0, p', q', [], []);
  }

  /** One guess is made and judged, and the verdict is delivered unless it is success. */
  lemma Round(side: Side, v: Env, u: Env, n0: Net<Peer, Message>, k: nat, a: Identity, b: Identity,
              vl: seq<Event>, ul: seq<Event>)
    requires Duel(side, v, u) && v.pin.Some? && v.pin.value.pin != ""
    requires k < |u.guesses| && k < v.pin.value.maxTries
    requires DuelLeads(side, v, u, n0, Place(side, Peer(VerifyWait(k, a), vl), Peer(Guess(k, b), ul), [], []))
    ensures u.guesses[k] == v.pin.value.pin ==>
      DuelLeads(side, v, u, n0, Place(side, Peer(Verified(v, a), vl), Peer(Answer(k + 1, [], b), ul), [], []))
    ensures u.guesses[k] != v.pin.value.pin && k + 1 < v.pin.value.maxTries ==>
      DuelLeads(side, v, u, n0, Place(side, Peer(VerifyWait(k + 1, a), vl), Peer(Guess(k + 1, b), ul), [], []))
    ensures u.guesses[k] != v.pin.value.pin && k + 1 == v.pin.value.maxTries ==>
      DuelEnds(side, v, u, n0, Failed(TooManyAttempts), Failed(TooManyAttempts), vl, ul)
  {
    hide Walk, Leads;
    var p, q := Peer(VerifyWait(k, a), vl), Peer(Guess(k, b), ul);
    var q1 := Peer(Answer(k + 1, [], b), ul);
    var p1 := Peer(VerifyTop(v, k + 1, u.guesses[k], false, a), vl);
    GuessOnce(u, k, b, ul);
    ProverMoves(side, v, u, n0, p, q, q1, [], false, [Say(u.json, Pin(u.guesses[k]))]);
    WeighGuess(v, k, a, vl, u.guesses[k]);
    VerifierMoves(side, v, u, n0, p, q1, p1, [Say(u.json, Pin(u.guesses[k]))], false, []);
    if u.guesses[k] != v.pin.value.pin {
      SayIt(v, p1);
      var p2 := Peer(p1.pc.next, vl);
      VerifierMoves(side, v, u, n0, p1, q1, p2, [], false, p1.pc.msgs);
      if k + 1 < v.pin.value.maxTries {
        ReadRequired(v, u, k + 1, b, ul);
        ProverMoves(side, v, u, n0, p2, q1, Peer(Guess(k + 1, b), ul), PinRequired(v), false, []);
      } else {
        ReadTooMany(v, u, k + 1, b, ul);
        var q2 := Peer(Fail(TooManyAttempts), ul);
        ProverMoves(side, v, u, n0, p2, q1, q2, TooMany(v), false, []);
        DuelOver(side, v, u, n0, p2, q2, [], []);
      }
    }
  }

  /** The guess that is the `asked`-th is the first right one from the `k`-th on. */
  predicate FirstRight(pin: string, guesses: seq<string>, k: nat, asked: nat)
  {
    && k < asked <= |guesses| && guesses[asked - 1] == pin
    && forall j :: k <= j < asked - 1 ==> guesses[j] != pin
  }

  /** PIN lockstep: both sides agree on the verdict, which is the one the rule gives; on success
      the user has been asked up to the first right guess and no further. */
  lemma {:induction false} Rounds(
    side: Side, v: Env, u: Env, n0: Net<Peer, Message>, k: nat, a: Identity, b: Identity,
    vl: seq<Event>, ul: seq<Event>) returns (asked: nat)
    requires Duel(side, v, u) && v.pin.Some? && v.pin.value.pin != ""
    requires k < v.pin.value.maxTries
    requires DuelLeads(side, v, u, n0, Place(side, Peer(VerifyWait(k, a), vl), Peer(Guess(k, b), ul), [], []))
    ensures match Play(v.pin.value.pin, v.pin.value.maxTries, u.guesses, k)
      case Passed =>
        && asked <= v.pin.value.maxTries
        && FirstRight(v.pin.value.pin, u.guesses, k, asked)
        && DuelLeads(side, v, u, n0, Place(side, Peer(Verified(v, a), vl), Peer(Answer(asked, [], b), ul), [], []))
      case Exhausted => DuelEnds(side, v, u, n0, Failed(TooManyAttempts), Failed(TooManyAttempts), vl, ul)
      case GaveUp => DuelEnds(side, v, u, n0, Failed(PeerClosed), Failed(NoPinGiven), vl, ul)
    decreases v.pin.value.maxTries - k
  {
    hide Walk, Leads;
    asked := k + 1;
    if k >= |u.guesses| {
      GivesUp(side, v, u, n0, k, k, a, b, vl, ul);
    } else {
      Round(side, v, u, n0, k, a, b, vl, ul);
      if u.guesses[k] != v.pin.value.pin && k + 1 < v.pin.value.maxTries {
        asked := Rounds(side, v, u, n0, k + 1, a, b, vl, ul);
      }
    }
  }

  // ----- The messages exchanged -----

  /** The PINs from the `k`-th to before the `m`-th, one message each. */
  function PinsSent(u: Env, k: nat, m: nat): seq<Message>
    requires k <= m <= |u.guesses|
  {
    if k == m then [] else PinsSent(u, k, m - 1) + [Say(u.json, Pin(u.guesses[m - 1]))]
  }

  /** As many requests for another PIN. */
  function Notices(v: Env, count: nat): seq<Message>
  {
    if count == 0 then [] else Notices(v, count - 1) + PinRequired(v)
  }

  /** The transcript of wrong guesses, seen from both sides: every PIN the user gives is one
      message, and the verifier answers every one of them with one request for another. */
  lemma {:induction false} WrongGuesses(v: Env, u: Env, k: nat, m: nat, a: Identity, b: Identity,
                                        vl: seq<Event>, ul: seq<Event>)
    requires v.json == u.json && Faithful(u.json) && v.role.Sending? == u.role.Receiving?
    requires v.pin.Some? && k <= m <= |u.guesses| && (k < m ==> m < v.pin.value.maxTries)
    requires forall j :: k <= j < m ==> u.guesses[j] != v.pin.value.pin
    ensures Walk(v, Peer(VerifyWait(k, a), vl), PinsSent(u, k, m), false, Notices(v, m - k),
                 Peer(VerifyWait(m, a), vl))
    ensures Walk(u, Peer(Guess(k, b), ul), Notices(v, m - k), false, PinsSent(u, k, m), Peer(Guess(m, b), ul))
    decreases m
  {
    hide Walk, PinRequired;
    var p, q := Peer(VerifyWait(k, a), vl), Peer(Guess(k, b), ul);
    if k == m {
      Stay(v, p);
      Stay(u, q);
    } else {
      WrongGuesses(v, u, k, m - 1, a, b, vl, ul);
      var pin := u.guesses[m - 1];
      var p1, q1 := Peer(VerifyWait(m - 1, a), vl), Peer(Guess(m - 1, b), ul);
      var p2, q2 := Peer(VerifyTop(v, m, pin, false, a), vl), Peer(Answer(m, [], b), ul);
      WeighGuess(v, m - 1, a, vl, pin);
      SayIt(v, p2);
      Join(v, p1, [Say(v.json, Pin(pin))], false, [], p2, [], false, PinRequired(v), Peer(VerifyWait(m, a), vl));
      NothingAdded([Say(v.json, Pin(pin))]);
      NothingAdded(PinRequired(v));
      Join(v, p, PinsSent(u, k, m - 1), false, Notices(v, m - 1 - k), p1, [Say(v.json, Pin(pin))], false,
           PinRequired(v), Peer(VerifyWait(m, a), vl));
      GuessOnce(u, m - 1, b, ul);
      ReadRequired(v, u, m, b, ul);
      Join(u, q1, [], false, [Say(u.json, Pin(pin))], q2, PinRequired(v), false, [], Peer(Guess(m, b), ul));
      Join(u, q, Notices(v, m - 1 - k), false, PinsSent(u, k, m - 1), q1, PinRequired(v), false,
           [Say(u.json, Pin(pin))], Peer(Guess(m, b), ul));
    }
  }
}
