/** When the check of a peer's token goes out of range and takes the program down. */
module Panics {
  import opened Prelude
  import opened Text
  import opened Messages
  import opened Token
  import opened Network
  import opened Session
  import opened Legs
  import opened Gates
  import Base64

  /** The token a peer has shown, if it opened with a nonce. */
  function HeardToken(env: Env, arriving: seq<Message>): Option<string>
  {
    if |arriving| >= 2 && NonceIn(env, arriving[0]).Some? then TokenIn(env, arriving[1]) else None
  }

  /** A key is expected, and the peer's token has fewer than five fields. */
  predicate ShortToken(env: Env, arriving: seq<Message>)
  {
    var token := HeardToken(env, arriving);
    env.expecting.Some? && token.Some? && |Fields(token.value, '.')| < 5
  }

  /** No key is expected, the peer's token has four fields, and the fourth names a method by
      which some key can be parsed, so that a request to pair gets as far as the check. */
  ghost predicate ShortPairing(env: Env, arriving: seq<Message>)
  {
    var token := HeardToken(env, arriving);
    && env.role.Sending? && env.expecting.None? && token.Some? && |Fields(token.value, '.')| == 4
    && exists key: string :: env.scheme.parsePublicKey(key, Fields(token.value, '.')[3]).Some?
  }

  predicate Panicked(s: Peer) { s.pc == Fail(TokenPanic) }

  // ----- No other way -----

  predicate WhoIs(env: Env, arriving: seq<Message>, who: Identity)
  {
    HeardToken(env, arriving) == Some(who.token) && Check(env, who.token, who.nonce).Accepted?
  }

  /** Whoever the program deals with has shown the token that was heard, and it passed. */
  ghost predicate Knows(env: Env, arriving: seq<Message>, k: nat, pc: Pc)
  {
    match pc
    case Out(_, next) => Knows(env, arriving, k, next)
    case AwaitNonce => k == 0
    case AwaitToken(_) => k == 1 <= |arriving| && env.role.Receiving? && NonceIn(env, arriving[0]).Some?
    case AwaitTokenResponse(_) => k == 1 <= |arriving| && env.role.Sending? && NonceIn(env, arriving[0]).Some?
    case Guess(_, who) => WhoIs(env, arriving, who)
    case Answer(_, _, who) => WhoIs(env, arriving, who)
    case Verify(_, _, _, who) => WhoIs(env, arriving, who)
    case VerifyWait(_, who) => WhoIs(env, arriving, who)
    case Collect(_, who) => WhoIs(env, arriving, who)
    case AwaitSelection(_, _, who) => WhoIs(env, arriving, who)
    case Halt(result) => result == Failed(TokenPanic) ==> ShortToken(env, arriving) || ShortPairing(env, arriving)
    case _ => true
  }

  lemma OwnMoveKnows(env: Env, arriving: seq<Message>, k: nat, s: Peer)
    requires Knows(env, arriving, k, s.pc) && (Act(env, s).Internal? || Act(env, s).Emit?)
    ensures Knows(env, arriving, k, Act(env, s).next.pc)
  {
    hide WhoIs, ShortToken, ShortPairing, Fields;
  }

  lemma ChallengeKnows(env: Env, arriving: seq<Message>, k: nat, who: Identity)
    requires WhoIs(env, arriving, who)
    ensures Knows(env, arriving, k, Challenge(env, who))
  {
    hide WhoIs;
  }

  lemma NonceKnows(env: Env, arriving: seq<Message>, log: seq<Event>)
    requires |arriving| > 0
    ensures Knows(env, arriving, 1, Take(env, Peer(AwaitNonce, log), Some(arriving[0])).pc)
  {
    hide ShortToken, ShortPairing;
  }

  lemma TokenKnows(env: Env, arriving: seq<Message>, s: Peer)
    requires |arriving| > 1 && Knows(env, arriving, 1, s.pc) && (s.pc.AwaitToken? || s.pc.AwaitTokenResponse?)
    ensures Knows(env, arriving, 2, Take(env, s, Some(arriving[1])).pc)
  {
    hide ShortPairing, NonceIn, Challenge, GenerateTokenNonce;
    var token := TokenIn(env, arriving[1]);
    if token.Some? && Check(env, token.value, s.pc.nonce).Accepted? {
      ChallengeKnows(env, arriving, 2, Identity(s.pc.nonce, token.value));
    }
  }

  lemma PairKnows(env: Env, arriving: seq<Message>, k: nat, key: string, who: Identity)
    requires WhoIs(env, arriving, who) && env.role.Sending?
    ensures Knows(env, arriving, k, OnPair(env, key, who))
  {
    hide ShortToken;
    assert Check(env, who.token, who.nonce).Accepted?;
  }

  lemma LaterKnows(env: Env, arriving: seq<Message>, k: nat, k': nat, s: Peer, m: Option<Message>)
    requires Knows(env, arriving, k, s.pc) && Act(env, s) == Receive
    requires !s.pc.AwaitNonce? && !s.pc.AwaitToken? && !s.pc.AwaitTokenResponse?
    ensures Knows(env, arriving, k', Take(env, s, m).pc)
  {
    hide WhoIs, ShortToken, ShortPairing, OnPair, Challenge, Fields;
    if s.pc.AwaitSelection? {
      var read := env.json.read(FileListResponse, s.pc.buffer);
      if read.Some? && read.value.ListPair? && env.role.Sending? {
        PairKnows(env, arriving, k', read.value.publicKey, s.pc.who);
      }
    } else if s.pc.Answer? && env.role.Sending? {
      ChallengeKnows(env, arriving, k', s.pc.who);
    }
  }

  ghost predicate Watch(env: Env, arriving: seq<Message>, l: Solo)
  {
    && |l.inbox| <= |arriving| && l.inbox == arriving[|arriving| - |l.inbox|..]
    && Knows(env, arriving, |arriving| - |l.inbox|, l.st.pc)
  }

  lemma WatchStep(env: Env, arriving: seq<Message>, l: Solo)
    requires Watch(env, arriving, l) && LocalStep(Program(env), l).Some?
    ensures Watch(env, arriving, LocalStep(Program(env), l).value)
  {
    hide Knows, Act, Take;
    var k := |arriving| - |l.inbox|;
    SoloStep(env, l);
    if Act(env, l.st) != Receive {
      OwnMoveKnows(env, arriving, k, l.st);
    } else if l.inbox == [] {
      EndKnows(env, arriving, k, l.st);
    } else {
      assert l.inbox[0] == arriving[k] && l.inbox[1..] == arriving[k + 1..];
      ReadKnows(env, arriving, k, l.st);
    }
  }

  lemma ReadKnows(env: Env, arriving: seq<Message>, k: nat, s: Peer)
    requires k < |arriving| && Knows(env, arriving, k, s.pc) && Act(env, s) == Receive
    ensures Knows(env, arriving, k + 1, Take(env, s, Some(arriving[k])).pc)
  {
    hide Take, WhoIs, ShortToken, ShortPairing;
    if s.pc.AwaitNonce? {
      NonceKnows(env, arriving, s.log);
    } else if s.pc.AwaitToken? || s.pc.AwaitTokenResponse? {
      TokenKnows(env, arriving, s);
    } else {
      LaterKnows(env, arriving, k, k + 1, s, Some(arriving[k]));
    }
  }

  lemma EndKnows(env: Env, arriving: seq<Message>, k: nat, s: Peer)
    requires Knows(env, arriving, k, s.pc) && Act(env, s) == Receive
    ensures Knows(env, arriving, k, Take(env, s, None).pc)
  {
    hide WhoIs, ShortToken, ShortPairing;
    if !s.pc.AwaitNonce? && !s.pc.AwaitToken? && !s.pc.AwaitTokenResponse? {
      LaterKnows(env, arriving, k, k, s, None);
    }
  }

  lemma WatchStart(env: Env, arriving: seq<Message>, closed: bool)
    ensures Watch(env, arriving, Local(Start(env), arriving, closed, []))
  {
    assert arriving[0..] == arriving;
    assert Knows(env, arriving, 0, AwaitNonce);
  }

  lemma {:induction false} WatchGo(env: Env, arriving: seq<Message>, l: Solo, n: nat)
    requires Watch(env, arriving, l) && Go(Program(env), l, n).Some?
    ensures Watch(env, arriving, Go(Program(env), l, n).value)
    decreases n
  {
    hide Watch, Act, Take;
    if n > 0 {
      WatchStep(env, arriving, l);
      WatchGo(env, arriving, LocalStep(Program(env), l).value, n - 1);
    }
  }

  /** Against any peer a program panics only over a short token. */
  lemma PanicNeedsShortToken(env: Env, arriving: seq<Message>, closed: bool, n: nat)
    requires Alone(env, arriving, closed, n).Some? && Panicked(Alone(env, arriving, closed, n).value.st)
    ensures ShortToken(env, arriving) || ShortPairing(env, arriving)
  {
    hide ShortToken, ShortPairing, Watch;
    WatchStart(env, arriving, closed);
    WatchGo(env, arriving, Local(Start(env), arriving, closed, []), n);
    WatchSays(env, arriving, Alone(env, arriving, closed, n).value);
  }

  lemma WatchSays(env: Env, arriving: seq<Message>, l: Solo)
    requires Watch(env, arriving, l) && Panicked(l.st)
    ensures ShortToken(env, arriving) || ShortPairing(env, arriving)
  {
    hide ShortToken, ShortPairing;
  }

  // ----- And it does -----

  /** A stretch of a program's run, with more messages behind. */
  lemma Unframed(env: Env, ins: seq<Message>, outs: seq<Message>, s: Peer, behind: seq<Message>, closed: bool)
    returns (n: nat)
    requires Walk(env, Start(env), ins, false, outs, s)
    ensures Alone(env, ins + behind, closed, n).Some? && Alone(env, ins + behind, closed, n).value.st == s
  {
    n :| Go(Program(env), Local(Start(env), ins, false, []), n) == Some(Local(s, [], false, outs));
    hide Act, Take, Start;
    GoFrame(Program(env), Local(Start(env), ins, false, []), n, [], behind, closed);
    var none: seq<Message> := [];
    assert none + none == none && none + outs == outs && none + behind == behind;
  }

  /** From the start to the point where the peer's token is judged. */
  lemma HearNonce(env: Env, m: Message)
    returns (outs: seq<Message>, s: Peer)
    requires NonceIn(env, m).Some?
    ensures Walk(env, Start(env), [m], false, outs, s) && s.log == []
    ensures s.pc == if env.role.Sending? then AwaitTokenResponse(NonceIn(env, m).value)
                    else AwaitToken(NonceIn(env, m).value)
  {
    hide Walk;
    var first := Peer(AwaitNonce, []);
    Stay(env, Start(env));
    outs := [];
    if env.role.Sending? {
      ThenSend(env, Start(env), [], false, [], Start(env));
      outs := [] + Start(env).pc.msgs;
    }
    ThenTake(env, Start(env), [], outs, first, m);
    assert [] + [m] == [m];
    var second := Take(env, first, Some(m));
    ThenSend(env, Start(env), [m], false, outs, second);
    outs, s := outs + second.pc.msgs, Peer(second.pc.next, []);
  }

  /** A short token takes a program down that expects a key. */
  lemma ShortTokenPanics(env: Env, arriving: seq<Message>, closed: bool) returns (n: nat)
    requires ShortToken(env, arriving)
    ensures Alone(env, arriving, closed, n).Some? && Panicked(Alone(env, arriving, closed, n).value.st)
  {
    hide Walk;
    var outs, s := HearNonce(env, arriving[0]);
    ThenTake(env, Start(env), [arriving[0]], outs, s, arriving[1]);
    assert [arriving[0]] + [arriving[1]] == arriving[..2];
    var s' := Take(env, s, Some(arriving[1]));
    n := Unframed(env, arriving[..2], outs, s', arriving[2..], closed);
    assert arriving[..2] + arriving[2..] == arriving;
  }

  /** For a receiver, and for a sender that expects a key, that is exactly when it happens. */
  lemma PanicExactly(env: Env, arriving: seq<Message>, closed: bool)
    requires env.role.Receiving? || env.expecting.Some?
    ensures ShortToken(env, arriving) <==>
      exists n :: Alone(env, arriving, closed, n).Some? && Panicked(Alone(env, arriving, closed, n).value.st)
  {
    hide ShortToken, Alone;
    if ShortToken(env, arriving) {
      var n := ShortTokenPanics(env, arriving, closed);
    }
    forall n: nat | Alone(env, arriving, closed, n).Some? && Panicked(Alone(env, arriving, closed, n).value.st)
      ensures ShortToken(env, arriving)
    {
      PanicNeedsShortToken(env, arriving, closed, n);
    }
  }

  /** Two messages that take down any receiver that expects a key. */
  lemma EmptyTokenPanics(env: Env, closed: bool) returns (arriving: seq<Message>, n: nat)
    requires Faithful(env.json) && env.role.Receiving? && env.expecting.Some?
    ensures arriving == [Say(env.json, Nonce(Base64.Encode(seq(16, _ => 0)))), Say(env.json, TokenRequest(""))]
    ensures Alone(env, arriving, closed, n).Some? && Panicked(Alone(env, arriving, closed, n).value.st)
  {
    var zeros: Bytes := seq(16, _ => 0);
    var nonce, token := Nonce(Base64.Encode(zeros)), TokenRequest("");
    Base64.DecodeEncode(zeros);
    assert env.json.read(KindOf(nonce), env.json.write(nonce)) == Some(nonce);
    assert env.json.read(KindOf(token), env.json.write(token)) == Some(token);
    arriving := [Say(env.json, nonce), Say(env.json, token)];
    assert |Fields("", '.')| == 1;
    n := ShortTokenPanics(env, arriving, closed);
  }

  /** A request to pair from a peer with a token of four fields takes down a sender that expects
      no key and asks for no PIN. */
  lemma ShortPairingPanics(env: Env, nonce: Message, token: string, key: string, behind: seq<Message>, closed: bool)
    returns (n: nat)
    requires Faithful(env.json) && env.role.Sending? && env.expecting.None? && env.pin.None?
    requires NonceIn(env, nonce).Some? && |Fields(token, '.')| == 4
    requires env.scheme.parsePublicKey(key, Fields(token, '.')[3]).Some?
    ensures var arriving := [nonce, Say(env.json, TokenOk(token))] + SayFramed(env.json, ListPair(key)) + behind;
      Alone(env, arriving, closed, n).Some? && Panicked(Alone(env, arriving, closed, n).value.st)
  {
    hide Walk, Act, Take, OnPair;
    var m, payload := Say(env.json, TokenOk(token)), env.json.write(ListPair(key));
    var outs, s := HearNonce(env, nonce);
    var who := Identity(NonceIn(env, nonce).value, token);
    var offer, waiting := Peer(Verified(env, who), []), Peer(AwaitSelection([], false, who), []);
    ThenTake(env, Start(env), [nonce], outs, s, m) by { assert Act(env, s) == Receive by { Waits(env, s); } }
    assert [nonce] + [m] == [nonce, m];
    TakesAnyToken(env, s, token);
    ThenSend(env, Start(env), [nonce, m], false, outs, offer);
    ThenGather(env, Start(env), [nonce, m], outs + offer.pc.msgs, waiting, payload);
    PairRequestPanics(env, who, key);
    assert [] + payload == payload;
    n := Unframed(env, [nonce, m] + Framed(payload), outs + offer.pc.msgs,
                  Take(env, waiting.(pc := AwaitSelection(payload, false, who)), Some(DELIMITER)), behind, closed);
  }

  lemma Waits(env: Env, s: Peer)
    requires s.pc.AwaitTokenResponse?
    ensures Act(env, s) == Receive
  {
  }

  lemma TakesAnyToken(env: Env, s: Peer, token: string)
    requires Faithful(env.json) && env.role.Sending? && env.expecting.None? && env.pin.None?
    requires s.pc.AwaitTokenResponse? && s.log == []
    ensures Take(env, s, Some(Say(env.json, TokenOk(token)))) == Peer(Verified(env, Identity(s.pc.nonce, token)), [])
  {
    assert env.json.read(KindOf(TokenOk(token)), env.json.write(TokenOk(token))) == Some(TokenOk(token));
  }

  lemma PairRequestPanics(env: Env, who: Identity, key: string)
    requires Faithful(env.json) && env.role.Sending? && |Fields(who.token, '.')| == 4
    requires env.scheme.parsePublicKey(key, Fields(who.token, '.')[3]).Some?
    ensures Panicked(Take(env, Peer(AwaitSelection(env.json.write(ListPair(key)), false, who), []), Some(DELIMITER)))
  {
    assert env.json.read(KindOf(ListPair(key)), env.json.write(ListPair(key))) == Some(ListPair(key));
  }

  // ----- A sender that expects no key -----

  /** The sender has the whole answer to its offer before it: a request to pair, under a key
      that parses by the fourth and last field of the peer's token. */
  ghost predicate PairsShort(env: Env, l: Solo)
  {
    && l.st.pc.AwaitSelection? && !l.st.pc.paired
    && (if l.inbox == [] then l.closed else l.inbox[0].Text?)
    && ShortRequest(env, l.st.pc.buffer, l.st.pc.who)
  }

  predicate ShortRequest(env: Env, data: Bytes, who: Identity)
  {
    var read, fields := env.json.read(FileListResponse, data), Fields(who.token, '.');
    && read.Some? && read.value.ListPair? && |fields| == 4
    && env.scheme.parsePublicKey(read.value.publicKey, fields[3]).Some?
  }

  /** The program is not about to panic. */
  predicate Calm(pc: Pc)
  {
    match pc
    case Out(_, next) => Calm(next)
    case Halt(result) => result != Failed(TokenPanic)
    case _ => true
  }

  lemma CalmMove(env: Env, s: Peer)
    requires Calm(s.pc) && (Act(env, s).Internal? || Act(env, s).Emit?)
    ensures Calm(Act(env, s).next.pc)
  {
  }

  /** Without a key to check it by, any token will do. */
  lemma CalmTake(env: Env, s: Peer, m: Option<Message>)
    requires Calm(s.pc) && Act(env, s) == Receive && env.role.Sending? && env.expecting.None?
    requires !s.pc.AwaitSelection?
    ensures Calm(Take(env, s, m).pc)
  {
    hide GenerateTokenNonce, Base64.Decode, Base64.Encode, Challenge;
    forall who ensures Calm(Challenge(env, who)) {
      CalmChallenge(env, who);
    }
  }

  lemma CalmChallenge(env: Env, who: Identity)
    ensures Calm(Challenge(env, who))
  {
  }

  lemma CalmSelection(env: Env, s: Peer, data: Bytes, paired: bool, who: Identity)
    requires env.role.Sending? && (paired || !ShortRequest(env, data, who))
    ensures Calm(OnSelection(env, data, paired, who, s.log).pc)
  {
    hide Fields;
  }

  lemma CalmStep(env: Env, l: Solo)
    requires env.role.Sending? && env.expecting.None? && Calm(l.st.pc) && !PairsShort(env, l)
    requires LocalStep(Program(env), l).Some?
    ensures Calm(LocalStep(Program(env), l).value.st.pc)
  {
    hide Calm, ShortRequest, OnSelection;
    SoloStep(env, l);
    if Act(env, l.st) != Receive {
      CalmMove(env, l.st);
    } else {
      var m := if l.inbox == [] then None else Some(l.inbox[0]);
      if !l.st.pc.AwaitSelection? {
        CalmTake(env, l.st, m);
      } else if m.Some? && m.value.Binary? {
        assert Calm(Take(env, l.st, m).pc) by { ListensOn(env, l.st, m.value); }
      } else {
        CalmSelection(env, l.st, l.st.pc.buffer, l.st.pc.paired, l.st.pc.who);
      }
    }
  }

  lemma ListensOn(env: Env, s: Peer, m: Message)
    requires s.pc.AwaitSelection? && m.Binary?
    ensures Calm(Take(env, s, Some(m)).pc)
  {
  }

  /** Whoever panics has come by such a request. */
  lemma {:induction false} RequestBefore(env: Env, l: Solo, n: nat) returns (k: nat)
    requires env.role.Sending? && env.expecting.None? && Calm(l.st.pc)
    requires Go(Program(env), l, n).Some? && Panicked(Go(Program(env), l, n).value.st)
    ensures Go(Program(env), l, k).Some? && PairsShort(env, Go(Program(env), l, k).value)
    decreases n
  {
    hide PairsShort, Act, Take;
    if PairsShort(env, l) {
      k := 0;
    } else {
      var next := GoFirst(Program(env), l, n, Go(Program(env), l, n).value);
      CalmStep(env, l);
      k := RequestBefore(env, next, n - 1);
      k := k + 1;
    }
  }

  lemma RequestPanics(env: Env, l: Solo)
    requires env.role.Sending? && PairsShort(env, l)
    ensures LocalStep(Program(env), l).Some? && Panicked(LocalStep(Program(env), l).value.st)
  {
    hide Fields;
  }

  /** A sender that expects no key panics exactly if it comes by a request to pair from a peer
      with a token of four fields. */
  lemma PairingPanicExactly(env: Env, arriving: seq<Message>, closed: bool)
    requires env.role.Sending? && env.expecting.None?
    ensures (exists n ::
              Alone(env, arriving, closed, n).Some? && PairsShort(env, Alone(env, arriving, closed, n).value))
      <==> exists n :: Alone(env, arriving, closed, n).Some? && Panicked(Alone(env, arriving, closed, n).value.st)
  {
    hide PairsShort, Act, Take;
    var l := Local(Start(env), arriving, closed, []);
    if n: nat :| Alone(env, arriving, closed, n).Some? && PairsShort(env, Alone(env, arriving, closed, n).value) {
      RequestPanics(env, Go(Program(env), l, n).value);
      GoAdd(Program(env), l, n, 1);
      var after := Alone(env, arriving, closed, n + 1);
      assert after.Some? && Panicked(after.value.st);
    }
    forall n: nat | Alone(env, arriving, closed, n).Some? && Panicked(Alone(env, arriving, closed, n).value.st)
      ensures exists k ::
        Alone(env, arriving, closed, k).Some? && PairsShort(env, Alone(env, arriving, closed, k).value)
    {
      var k := RequestBefore(env, l, n);
      assert Alone(env, arriving, closed, k) == Go(Program(env), l, k);
    }
  }
}
