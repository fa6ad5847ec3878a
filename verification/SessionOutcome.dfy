/** What every session between two honest programs comes to, for every configuration. */
module SessionOutcome {
  import opened Prelude
  import opened Messages
  import opened Token
  import opened Network
  import opened Session
  import opened Legs
  import opened Honest
  import opened Pins
  import Base64

  // ----- The outcome, read off the configuration -----

  function Both(sender: Reason, receiver: Reason): Outcome
  {
    Outcome(Failed(sender), Failed(receiver), [], [])
  }

  ghost function AfterOffer(e: Env, r: Env): Outcome
    requires e.role.Sending? && r.role.Receiving?
  {
    var offered := [Offered(e.role.files)];
    match r.role.selection
    case Abandoned => Outcome(Failed(ParseError), Done, [], offered)
    case Refused => Outcome(DeclinedByPeer, Done, [], offered)
    case Chosen(ids) => FilesOutcome(e.role.files, ids, e.role.queue, false, [Selected(ids)], offered)
  }

  /** No PIN, or an empty one, which every peer matches before typing anything. */
  predicate Unguarded(env: Env)
  {
    env.pin.None? || env.pin.value.pin == ""
  }

  ghost function AfterReceiverPin(e: Env, r: Env): Outcome
    requires e.role.Sending? && r.role.Receiving?
  {
    if Unguarded(e) then AfterOffer(e, r)
    else if e.pin.value.maxTries == 0 then Both(TooManyAttempts, Unexpected)
    else
      match Play(e.pin.value.pin, e.pin.value.maxTries, r.guesses, 0)
      case Passed => AfterOffer(e, r)
      case Exhausted => Both(TooManyAttempts, TooManyAttempts)
      case GaveUp => Both(PeerClosed, NoPinGiven)
  }

  /** What becomes of a program at its own challenge when the other one is gone. */
  function Deserted(env: Env): Reason
  {
    if Unguarded(env) then ParseError
    else if env.pin.value.maxTries == 0 then TooManyAttempts
    else PeerClosed
  }

  ghost function AfterTokens(e: Env, r: Env): Outcome
    requires e.role.Sending? && r.role.Receiving?
  {
    if r.pin.None? then AfterReceiverPin(e, r)
    else if r.pin.value.pin == "" then
      Both(if e.guesses == [] then NoPinGiven else Deserted(e), ParseError)
    else if r.pin.value.maxTries == 0 then
      Both(if e.guesses == [] then NoPinGiven else TooManyAttempts, TooManyAttempts)
    else
      match Play(r.pin.value.pin, r.pin.value.maxTries, e.guesses, 0)
      case Passed => AfterReceiverPin(e, r)
      case Exhausted => Both(TooManyAttempts, TooManyAttempts)
      case GaveUp => Both(NoPinGiven, PeerClosed)
  }

  /** `own` accepts the token the honest `other` makes over the common nonce. */
  function Trusts(own: Env, other: Env, nonce: Bytes): bool
  {
    Check(own, GenerateTokenNonce(own.scheme, other.key, nonce), nonce).Accepted?
  }

  ghost function Expected(e: Env, r: Env): Outcome
    requires e.role.Sending? && r.role.Receiving?
  {
    var nonce := e.nonce + r.nonce;
    if !Trusts(r, e, nonce) then Both(BadTokenAtPeer, BadToken)
    else if !Trusts(e, r, nonce) then Both(BadToken, Deserted(r))
    else AfterTokens(e, r)
  }

  // ----- The stages, last one first -----

  lemma ReadSelection(e: Env, who: Identity, d: Dto)
    requires Faithful(e.json) && (d.ListOk? || d.ListDeclined?)
    ensures Walk(e, Peer(AwaitSelection([], false, who), []), SayFramed(e.json, d), false, [],
                 if d.ListOk? then Peer(Queue(d.tokens, if e.role.Sending? then e.role.queue else []),
                                        [Selected(d.tokens.Keys)])
                 else Peer(Halt(DeclinedByPeer), []))
  {
    var s := Peer(AwaitSelection([], false, who), []);
    var payload := e.json.write(d);
    var none: seq<Message> := [];
    assert e.json.read(KindOf(d), payload) == Some(d);
    assert [] + payload == payload;
    Stay(e, s);
    ThenGather(e, s, [], [], s, payload);
    assert none + Framed(payload) == SayFramed(e.json, d);
    if d.ListOk? {
      assert [] + [Selected(d.tokens.Keys)] == [Selected(d.tokens.Keys)];
    }
  }

  /** The receiving user's decision goes out. */
  lemma AnswerOffer(r: Env, files: seq<FileDto>, log: seq<Event>) returns (outs: seq<Message>)
    requires r.role.Receiving?
    ensures match r.role.selection
      case Abandoned => outs == [] && Walk(r, Peer(Choose(files), log), [], false, outs, Peer(Halt(Done), log))
      case Refused =>
        && outs == SayFramed(r.json, ListDeclined)
        && Walk(r, Peer(Choose(files), log), [], false, outs, Peer(Halt(Done), log))
      case Chosen(ids) =>
        var tokens := MintTokens(r.role.mint, ids);
        && outs == SayFramed(r.json, ListOk(tokens)) && tokens.Keys == ids
        && Walk(r, Peer(Choose(files), log), [], false, outs, Peer(Files(tokens, files, None, 0), log))
  {
    var t := Peer(Choose(files), log);
    var t1 := t.(pc := ChooseTop(r, files));
    outs := [];
    Stay(r, t);
    ThenInternal(r, t, [], false, [], t, t1);
    if !r.role.selection.Abandoned? {
      ThenSend(r, t, [], false, [], t1);
      NothingAdded(t1.pc.msgs);
      outs := t1.pc.msgs;
    }
  }

  lemma SelectionStage(e: Env, r: Env, who: Identity)
    requires Setting(e, r)
    ensures Completes(e, r, Net(Peer(AwaitSelection([], false, who), []),
                                Peer(Choose(e.role.files), [Offered(e.role.files)]), [], []), AfterOffer(e, r))
  {
    hide Walk, Leads;
    var offered := [Offered(e.role.files)];
    var s, t := Peer(AwaitSelection([], false, who), []), Peer(Choose(e.role.files), offered);
    var n := Net(s, t, [], []);
    Here(e, r, n);
    var outs := AnswerOffer(r, e.role.files, offered);
    NothingAdded(outs);
    NothingAdded([]);
    match r.role.selection
    case Abandoned =>
      var t1, s1 := Peer(Halt(Done), offered), Peer(Fail(ParseError), []);
      ReceiverMoves(e, r, n, n, [], false, [], t1, []);
      Stay(e, s);
      ThenEnd(e, s, [], false, [], s);
      NoJsonInNothing(e.json);
      SenderMoves(e, r, n, Net(s, t1, [], []), [], true, [], s1, []);
      Ends(e, r, n, Net(s1, t1, [], []));
    case Refused =>
      var t1, s1 := Peer(Halt(Done), offered), Peer(Halt(DeclinedByPeer), []);
      ReceiverMoves(e, r, n, n, [], false, outs, t1, []);
      ReadSelection(e, who, ListDeclined);
      SenderMoves(e, r, n, Net(s, t1, [], outs), outs, false, [], s1, []);
      Ends(e, r, n, Net(s1, t1, [], []));
    case Chosen(ids) =>
      var tokens := MintTokens(r.role.mint, ids);
      var t1 := Peer(Files(tokens, e.role.files, None, 0), offered);
      var s1 := Peer(Queue(tokens, e.role.queue), [Selected(ids)]);
      ReceiverMoves(e, r, n, n, [], false, outs, t1, []);
      ReadSelection(e, who, ListOk(tokens));
      SenderMoves(e, r, n, Net(s, t1, [], outs), outs, false, [], s1, []);
      FilePhase(e, r, Net(s1, t1, [], []));
      Continues(e, r, n, Net(s1, t1, [], []), AfterOffer(e, r));
  }

  lemma NoJsonInNothing(json: Json)
    requires Faithful(json)
    ensures forall k :: json.read(k, []) == None
  {
  }

  /** The sender is satisfied and offers its files; the receiver waits for this. */
  lemma OfferStage(e: Env, r: Env, who: Identity, t: Peer)
    requires Setting(e, r)
    requires (t.pc.Answer? || t.pc.Collect?) && t.pc.buffer == [] && t.log == []
    ensures Completes(e, r, Net(Peer(Verified(e, who), []), t, [], []), AfterOffer(e, r))
  {
    hide Walk, Leads;
    var s := Peer(Verified(e, who), []);
    var s1 := Peer(AwaitSelection([], false, who), []);
    var n := Net(s, t, [], []);
    var none: seq<Message> := [];
    Here(e, r, n);
    SayIt(e, s);
    assert none + s.pc.msgs == s.pc.msgs && s.pc.msgs + none == s.pc.msgs && none + none == none;
    SenderMoves(e, r, n, n, [], false, s.pc.msgs, s1, []);
    ReadNotice(e, r, t, PinSendingOk(e.role.files));
    var t1 := Peer(Choose(e.role.files), [Offered(e.role.files)]);
    assert t.log + [Offered(e.role.files)] == [Offered(e.role.files)];
    ReceiverMoves(e, r, n, Net(s1, t, s.pc.msgs, []), s.pc.msgs, false, [], t1, []);
    SelectionStage(e, r, who);
    Continues(e, r, n, Net(s1, t1, [], []), AfterOffer(e, r));
  }

  /** The sender's own challenge, with the receiver waiting for its first word. */
  lemma SenderPinStage(e: Env, r: Env, who: Identity, peer: Identity)
    requires Setting(e, r)
    ensures Completes(e, r, Net(Peer(Challenge(e, who), []), Peer(Collect([], peer), []), [], []),
                      AfterReceiverPin(e, r))
  {
    hide Walk, Leads;
    var s, t := Peer(Challenge(e, who), []), Peer(Collect([], peer), []);
    var n := Net(s, t, [], []);
    Here(e, r, n);
    if e.pin.None? {
      OfferStage(e, r, who, t);
    } else {
      var s1 := Peer(VerifyTop(e, 0, "", true, who), []);
      var none: seq<Message> := [];
      Stay(e, s);
      ThenInternal(e, s, [], false, [], s, s1);
      assert none + none == none;
      SenderMoves(e, r, n, n, [], false, [], s1, []);
      var n1 := Net(s1, t, [], []);
      if e.pin.value.pin == "" {
        OfferStage(e, r, who, t);
        Continues(e, r, n, n1, AfterOffer(e, r));
      } else {
        GuardedSender(e, r, who, peer, n);
      }
    }
  }

  lemma GuardedSender(e: Env, r: Env, who: Identity, peer: Identity, n: Net<Peer, Message>)
    requires Setting(e, r) && !Unguarded(e)
    requires Leads(e, r, n, Net(Peer(VerifyTop(e, 0, "", true, who), []), Peer(Collect([], peer), []), [], []))
    ensures Completes(e, r, n, AfterReceiverPin(e, r))
  {
    hide Walk, Leads;
    var max := e.pin.value.maxTries;
    var s, t := Peer(VerifyTop(e, 0, "", true, who), []), Peer(Collect([], peer), []);
    var s1 := Peer(s.pc.next, []);
    SayIt(e, s);
    VerifierMoves(Left, e, r, n, s, t, s1, [], false, s.pc.msgs);
    var d := if max == 0 then PinSendingTooMany else PinSendingRequired;
    ReadNotice(e, r, t, d);
    var t1 := AfterNotice(r, t, d);
    ProverMoves(Left, e, r, n, s1, t, t1, s.pc.msgs, false, []);
    if max == 0 {
      DuelOver(Left, e, r, n, s1, t1, [], []);
    } else {
      var asked := Rounds(Left, e, r, n, 0, who, peer, [], []);
      if Play(e.pin.value.pin, max, r.guesses, 0).Passed? {
        var t2 := Peer(Answer(asked, [], peer), []);
        OfferStage(e, r, who, t2);
        Continues(e, r, n, Net(Peer(Verified(e, who), []), t2, [], []), AfterOffer(e, r));
      }
    }
  }

  // ----- The receiver's challenge -----

  /** The receiver is satisfied and says so; the sender goes on to its own challenge. */
  lemma ReceiverSatisfied(e: Env, r: Env, n: Net<Peer, Message>, asked: nat, who: Identity, peer: Identity)
    requires Setting(e, r)
    requires Leads(e, r, n, Net(Peer(Answer(asked, [], who), []), Peer(Verified(r, peer), []), [], []))
    ensures Completes(e, r, n, AfterReceiverPin(e, r))
  {
    hide Walk, Leads;
    var s, t := Peer(Answer(asked, [], who), []), Peer(Verified(r, peer), []);
    var t1 := Peer(Collect([], peer), []);
    SayIt(r, t);
    VerifierMoves(Right, r, e, n, t, s, t1, [], false, t.pc.msgs);
    ReadNotice(r, e, s, PinReceivingOk);
    var s1 := Peer(Challenge(e, who), []);
    ProverMoves(Right, r, e, n, t1, s, s1, t.pc.msgs, false, []);
    SenderPinStage(e, r, who, peer);
    Continues(e, r, n, Net(s1, t1, [], []), AfterReceiverPin(e, r));
  }

  /** A program at its own challenge whose partner has stopped. */
  lemma DesertedWalk(env: Env, who: Identity) returns (outs: seq<Message>)
    requires Faithful(env.json)
    ensures Walk(env, Peer(Challenge(env, who), []), [], true, outs, Peer(Fail(Deserted(env)), []))
  {
    var s := Peer(Challenge(env, who), []);
    Stay(env, s);
    NoJsonInNothing(env.json);
    var s1 := s;
    if env.pin.Some? {
      s1 := Peer(VerifyTop(env, 0, "", env.role.Sending?, who), []);
      ThenInternal(env, s, [], false, [], s, s1);
    }
    outs := [];
    if s1.pc.Out? {
      ThenSend(env, s, [], false, [], s1);
      outs := [] + s1.pc.msgs;
      s1 := Peer(s1.pc.next, []);
    }
    if s1.pc.Halt? {
      Close(env, s, [], outs, s1);
    } else {
      ThenEnd(env, s, [], false, outs, s1);
    }
  }

  /** An empty receiver PIN: the sender's answer is taken for the end of an empty message. */
  lemma EmptyReceiverPin(e: Env, r: Env, n: Net<Peer, Message>, who: Identity, peer: Identity)
    requires Setting(e, r) && r.pin.Some? && r.pin.value.pin == ""
    requires Leads(e, r, n, Net(Peer(Guess(0, who), []), Peer(Verified(r, peer), []), [], []))
    ensures Completes(e, r, n, AfterTokens(e, r))
  {
    hide Walk, Leads;
    var s, t := Peer(Guess(0, who), []), Peer(Verified(r, peer), []);
    var t1, t2 := Peer(Collect([], peer), []), Peer(Fail(ParseError), []);
    var ok := t.pc.msgs;
    NoJsonInNothing(r.json);
    NothingAdded(ok);
    NothingAdded([]);
    SayIt(r, t);
    ReceiverMoves(e, r, n, Net(s, t, [], []), [], false, ok, t1, []);
    Stay(r, t1);
    if e.guesses == [] {
      var s1 := Peer(Fail(NoPinGiven), []);
      Stay(e, s);
      ThenInternal(e, s, [], false, [], s, s1);
      SenderMoves(e, r, n, Net(s, t1, [], ok), [], false, [], s1, ok);
      ThenEnd(r, t1, [], false, [], t1);
      ReceiverMoves(e, r, n, Net(s1, t1, [], ok), [], true, [], t2, []);
      Ends(e, r, n, Net(s1, t2, [], ok));
    } else {
      var s1 := Peer(Answer(1, [], who), []);
      var guess := Say(e.json, Pin(e.guesses[0]));
      GuessOnce(e, 0, who, []);
      NothingAdded([guess]);
      SenderMoves(e, r, n, Net(s, t1, [], ok), [], false, [guess], s1, ok);
      ThenTake(r, t1, [], [], t1, guess);
      ReceiverMoves(e, r, n, Net(s1, t1, [guess], ok), [guess], false, [], t2, []);
      SenderAlone(e, r, n, who);
    }
  }

  /** The receiver has failed with its approval still on the way. */
  lemma SenderAlone(e: Env, r: Env, n: Net<Peer, Message>, who: Identity)
    requires Setting(e, r)
    requires Leads(e, r, n, Net(Peer(Answer(1, [], who), []), Peer(Fail(ParseError), []), [],
                                [Say(r.json, PinReceivingOk)]))
    ensures Completes(e, r, n, Both(Deserted(e), ParseError))
  {
    hide Walk, Leads;
    var s, s1, s2 := Peer(Answer(1, [], who), []), Peer(Challenge(e, who), []), Peer(Fail(Deserted(e)), []);
    var t := Peer(Fail(ParseError), []);
    var ok := [Say(r.json, PinReceivingOk)];
    NothingAdded(ok);
    NothingAdded([]);
    ReadNotice(r, e, s, PinReceivingOk);
    SenderMoves(e, r, n, Net(s, t, [], ok), ok, false, [], s1, []);
    var outs := DesertedWalk(e, who);
    NothingAdded(outs);
    SenderMoves(e, r, n, Net(s1, t, [], []), [], true, outs, s2, []);
    Ends(e, r, n, Net(s2, t, outs, []));
  }

  /** A receiver that allows no attempt at all refuses the first answer unseen. */
  lemma NoTriesAllowed(e: Env, r: Env, n: Net<Peer, Message>, who: Identity)
    requires Setting(e, r) && !Unguarded(r) && r.pin.value.maxTries == 0
    requires Leads(e, r, n, Net(Peer(Guess(0, who), []), Peer(Out(TooMany(r), Fail(TooManyAttempts)), []), [], []))
    ensures Completes(e, r, n, AfterTokens(e, r))
  {
    hide Walk, Leads;
    var s, t := Peer(Guess(0, who), []), Peer(Out(TooMany(r), Fail(TooManyAttempts)), []);
    var t1 := Peer(Fail(TooManyAttempts), []);
    var none: seq<Message> := [];
    var no := TooMany(r);
    SayIt(r, t);
    assert none + no == no && no + none == no && none + none == none;
    ReceiverMoves(e, r, n, Net(s, t, [], []), [], false, no, t1, []);
    if e.guesses == [] {
      var s1 := Peer(Fail(NoPinGiven), []);
      Stay(e, s);
      ThenInternal(e, s, [], false, [], s, s1);
      SenderMoves(e, r, n, Net(s, t1, [], no), [], false, [], s1, no);
      Ends(e, r, n, Net(s1, t1, [], no));
    } else {
      var s1, s2 := Peer(Answer(1, [], who), []), Peer(Fail(TooManyAttempts), []);
      var guess := Say(e.json, Pin(e.guesses[0]));
      GuessOnce(e, 0, who, []);
      assert none + [guess] == [guess];
      SenderMoves(e, r, n, Net(s, t1, [], no), [], false, [guess], s1, no);
      ReadTooMany(r, e, 1, who, []);
      assert [guess] + none == [guess];
      SenderMoves(e, r, n, Net(s1, t1, [guess], no), no, false, [], s2, []);
      Ends(e, r, n, Net(s2, t1, [guess], []));
    }
  }

  /** Both tokens are fine and the receiver has announced whether it wants a PIN. */
  lemma ReceiverPinStage(e: Env, r: Env, n: Net<Peer, Message>, who: Identity, peer: Identity)
    requires Setting(e, r)
    requires Leads(e, r, n, Net(Peer(if r.pin.Some? then Guess(0, who) else Challenge(e, who), []),
                                Peer(Challenge(r, peer), []), [], []))
    ensures Completes(e, r, n, AfterTokens(e, r))
  {
    hide Walk, Leads;
    if r.pin.None? {
      SenderPinStage(e, r, who, peer);
      Continues(e, r, n, Net(Peer(Challenge(e, who), []), Peer(Collect([], peer), []), [], []), AfterReceiverPin(e, r));
    } else {
      var s, t := Peer(Guess(0, who), []), Peer(Challenge(r, peer), []);
      var t1 := Peer(VerifyTop(r, 0, "", false, peer), []);
      var none: seq<Message> := [];
      Stay(r, t);
      ThenInternal(r, t, [], false, [], t, t1);
      assert none + none == none;
      ReceiverMoves(e, r, n, Net(s, t, [], []), [], false, [], t1, []);
      if r.pin.value.pin == "" {
        EmptyReceiverPin(e, r, n, who, peer);
      } else if r.pin.value.maxTries == 0 {
        NoTriesAllowed(e, r, n, who);
      } else {
        var asked := Rounds(Right, r, e, n, 0, peer, who, [], []);
        if Play(r.pin.value.pin, r.pin.value.maxTries, e.guesses, 0).Passed? {
          ReceiverSatisfied(e, r, n, asked, who, peer);
        }
      }
    }
  }

  // ----- Nonces and tokens -----

  function Begin(e: Env, r: Env): Net<Peer, Message>
  {
    Net(Start(e), Start(r), [], [])
  }

  lemma ReadNonce(env: Env, remote: Bytes)
    requires Faithful(env.json) && |remote| == 32
    ensures var nonce := if env.role.Sending? then env.nonce + remote else remote + env.nonce;
            var own := if env.role.Sending?
              then TokenRequest(GenerateTokenNonce(env.scheme, env.key, nonce)) else Nonce(Base64.Encode(env.nonce));
            Walk(env, Peer(AwaitNonce, []), [Say(env.json, Nonce(Base64.Encode(remote)))], false, [Say(env.json, own)],
                 Peer(if env.role.Sending? then AwaitTokenResponse(nonce) else AwaitToken(nonce), []))
  {
    var s := Peer(AwaitNonce, []);
    var m := Say(env.json, Nonce(Base64.Encode(remote)));
    var s1 := Peer(OnNonce(env, m.data), []);
    assert env.json.read(KindOf(Nonce(Base64.Encode(remote))), m.data) == Some(Nonce(Base64.Encode(remote)));
    Base64.DecodeEncode(remote);
    Stay(env, s);
    ThenTake(env, s, [], [], s, m);
    NothingAdded([m]);
    ThenSend(env, s, [m], false, [], s1);
    NothingAdded(s1.pc.msgs);
  }

  /** Both sides derive the same nonce, and the sender's token is on its way. */
  lemma NonceStage(e: Env, r: Env)
    requires Setting(e, r)
    ensures var nonce := e.nonce + r.nonce;
            Leads(e, r, Begin(e, r), Net(
              Peer(AwaitTokenResponse(nonce), []), Peer(AwaitToken(nonce), []),
              [Say(e.json, TokenRequest(GenerateTokenNonce(e.scheme, e.key, nonce)))], []))
  {
    var n, nonce := Begin(e, r), e.nonce + r.nonce;
    var hello := Say(e.json, Nonce(Base64.Encode(e.nonce)));
    var reply := Say(e.json, Nonce(Base64.Encode(r.nonce)));
    var token := Say(e.json, TokenRequest(GenerateTokenNonce(e.scheme, e.key, nonce)));
    var s, t := Peer(AwaitNonce, []), Peer(AwaitToken(nonce), []);
    NothingAdded([]);
    NothingAdded([hello]);
    NothingAdded([reply]);
    NothingAdded([token]);
    Here(e, r, n);
    SayIt(e, n.left);
    SenderMoves(e, r, n, n, [], false, [hello], s, []);
    ReadNonce(r, e.nonce);
    ReceiverMoves(e, r, n, Net(s, n.right, [hello], []), [hello], false, [reply], t, []);
    ReadNonce(e, r.nonce);
    SenderMoves(e, r, n, Net(s, t, [], [reply]), [reply], false, [token], Peer(AwaitTokenResponse(nonce), []), []);
  }

  /** A generated token has its five fields, so checking it cannot go out of range. */
  lemma HonestTokenIsWhole(own: Env, other: Env, nonce: Bytes)
    ensures !Check(own, GenerateTokenNonce(own.scheme, other.key, nonce), nonce).Panicked?
  {
    GeneratedFields(own.scheme, other.key, nonce);
  }

  /** The receiver judges the sender's token and answers. */
  lemma ReceiverJudges(e: Env, r: Env, nonce: Bytes)
    requires Setting(e, r)
    ensures var token := GenerateTokenNonce(e.scheme, e.key, nonce);
            var own := GenerateTokenNonce(r.scheme, r.key, nonce);
            var reply := if !Trusts(r, e, nonce) then TokenInvalidSignature
                         else if r.pin.Some? then TokenPinRequired(own) else TokenOk(own);
            Walk(r, Peer(AwaitToken(nonce), []), [Say(e.json, TokenRequest(token))], false, [Say(e.json, reply)],
                 Peer(if Trusts(r, e, nonce) then Challenge(r, Identity(nonce, token)) else Fail(BadToken), []))
  {
    var token := GenerateTokenNonce(e.scheme, e.key, nonce);
    var t := Peer(AwaitToken(nonce), []);
    var m := Say(e.json, TokenRequest(token));
    var t1 := Peer(OnToken(r, nonce, m.data), []);
    assert r.json.read(KindOf(TokenRequest(token)), m.data) == Some(TokenRequest(token));
    HonestTokenIsWhole(r, e, nonce);
    Stay(r, t);
    ThenTake(r, t, [], [], t, m);
    NothingAdded([m]);
    ThenSend(r, t, [m], false, [], t1);
    NothingAdded(t1.pc.msgs);
  }

  /** The sender judges the receiver's answer. */
  lemma SenderJudges(e: Env, nonce: Bytes, d: Dto)
    requires Faithful(e.json) && KindOf(d) == TokenResponse
    ensures Walk(e, Peer(AwaitTokenResponse(nonce), []), [Say(e.json, d)], false, [],
                 Peer(if d.TokenInvalidSignature? then Fail(BadTokenAtPeer)
                      else AfterToken(e, Identity(nonce, d.token), d.TokenPinRequired?), []))
  {
    var s := Peer(AwaitTokenResponse(nonce), []);
    assert e.json.read(KindOf(d), e.json.write(d)) == Some(d);
    Stay(e, s);
    ThenTake(e, s, [], [], s, Say(e.json, d));
    NothingAdded([Say(e.json, d)]);
  }

  lemma TokenStage(e: Env, r: Env)
    requires Setting(e, r)
    ensures Completes(e, r, Begin(e, r), Expected(e, r))
  {
    hide Walk, Leads, GenerateTokenNonce, Act, Take;
    var n, nonce := Begin(e, r), e.nonce + r.nonce;
    var token := GenerateTokenNonce(e.scheme, e.key, nonce);
    var own := GenerateTokenNonce(e.scheme, r.key, nonce);
    var who, peer := Identity(nonce, own), Identity(nonce, token);
    var ask := [Say(e.json, TokenRequest(token))];
    NonceStage(e, r);
    ReceiverJudges(e, r, nonce);
    var d := if !Trusts(r, e, nonce) then TokenInvalidSignature
             else if r.pin.Some? then TokenPinRequired(own) else TokenOk(own);
    var s, t := Peer(AwaitTokenResponse(nonce), []), Peer(AwaitToken(nonce), []);
    var t1 := Peer(if Trusts(r, e, nonce) then Challenge(r, peer) else Fail(BadToken), []);
    NothingAdded(ask);
    NothingAdded([Say(e.json, d)]);
    NothingAdded([]);
    ReceiverMoves(e, r, n, Net(s, t, ask, []), ask, false, [Say(e.json, d)], t1, []);
    SenderJudges(e, nonce, d);
    var s1 := Peer(if d.TokenInvalidSignature? then Fail(BadTokenAtPeer)
                   else AfterToken(e, who, d.TokenPinRequired?), []);
    SenderMoves(e, r, n, Net(s, t1, [], [Say(e.json, d)]), [Say(e.json, d)], false, [], s1, []);
    HonestTokenIsWhole(e, r, nonce);
    if !Trusts(r, e, nonce) {
      Ends(e, r, n, Net(s1, t1, [], []));
    } else if !Trusts(e, r, nonce) {
      var outs := DesertedWalk(r, peer);
      NothingAdded(outs);
      ReceiverMoves(e, r, n, Net(s1, t1, [], []), [], true, outs, Peer(Fail(Deserted(r)), []), []);
      Ends(e, r, n, Net(s1, Peer(Fail(Deserted(r)), []), [], outs));
    } else {
      ReceiverPinStage(e, r, n, who, peer);
    }
  }

  // ----- Every schedule -----

  ghost predicate Reachable(e: Env, r: Env, n: Net<Peer, Message>)
  {
    Leads(e, r, Begin(e, r), n)
  }

  ghost predicate Finished(n: Net<Peer, Message>, o: Outcome)
  {
    n.left == Peer(Halt(o.sender), o.senderLog) && n.right == Peer(Halt(o.receiver), o.receiverLog)
  }

  lemma HaltedIsTerminal(e: Env, r: Env, n: Net<Peer, Message>)
    requires n.left.pc.Halt? && n.right.pc.Halt?
    ensures Terminal(Program(e), Program(r), n)
  {
  }

  /** One complete run, whose outcome all other runs share. */
  lemma CompleteRun(e: Env, r: Env) returns (full: seq<Side>, end: Net<Peer, Message>)
    requires Setting(e, r)
    ensures Run(Program(e), Program(r), Begin(e, r), full) == Some(end)
    ensures Finished(end, Expected(e, r)) && Terminal(Program(e), Program(r), end)
  {
    TokenStage(e, r);
    var o := Expected(e, r);
    var toRight, toLeft :|
      Leads(e, r, Begin(e, r),
            Net(Peer(Halt(o.sender), o.senderLog), Peer(Halt(o.receiver), o.receiverLog), toRight, toLeft));
    end := Net(Peer(Halt(o.sender), o.senderLog), Peer(Halt(o.receiver), o.receiverLog), toRight, toLeft);
    full :| Run(Program(e), Program(r), Begin(e, r), full) == Some(end);
    HaltedIsTerminal(e, r, end);
  }

  /** The main theorem. Under every schedule an honest session is free of deadlock, ends
      within a number of moves fixed by the configuration, and ends in the expected outcome:
      results and everything the two applications were told. */
  lemma EverySession(e: Env, r: Env) returns (moves: nat, end: Net<Peer, Message>)
    requires Setting(e, r)
    ensures AlwaysEnds(Program(e), Program(r), Begin(e, r), moves, end)
    ensures Finished(end, Expected(e, r))
  {
    var full;
    full, end := CompleteRun(e, r);
    moves := |full|;
    AllRuns(Program(e), Program(r), Begin(e, r), full, end);
  }

  /** At no reachable point has a program failed unless that failure is the expected one;
      in particular no program of a session that is to succeed ever meets a message it
      cannot read. */
  lemma Conformance(e: Env, r: Env, n: Net<Peer, Message>)
    requires Setting(e, r) && Reachable(e, r, n)
    ensures n.left.pc.Halt? ==> n.left == Peer(Halt(Expected(e, r).sender), Expected(e, r).senderLog)
    ensures n.right.pc.Halt? ==> n.right == Peer(Halt(Expected(e, r).receiver), Expected(e, r).receiverLog)
  {
    var full, end := CompleteRun(e, r);
    StoppedAsAtEnd(Program(e), Program(r), Begin(e, r), full, end, n);
    StopMeansHalt(e, r, n);
  }

  lemma StopMeansHalt(e: Env, r: Env, n: Net<Peer, Message>)
    ensures n.left.pc.Halt? ==> Program(e).act(n.left).Stop?
    ensures n.right.pc.Halt? ==> Program(r).act(n.right).Stop?
  {
  }
}
