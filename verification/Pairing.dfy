/** What a sender makes of the answer to its offer, which may be a request to pair first. */
module Pairing {
  import opened Prelude
  import opened Chunks
  import opened Text
  import opened Messages
  import opened Token
  import opened Network
  import opened Session
  import opened Legs
  import opened Gates
  import Base64

  /** The token shown before is one that the holder of this key writes over the common nonce. */
  ghost predicate Fits(env: Env, key: VerifyingKey, who: Identity)
  {
    exists signature, surplus :: WellMade(env.scheme, key, who.token, who.nonce, signature, surplus)
  }

  /** The key asked for, if the peer's token names a method by which it can be parsed. */
  function KeyNamed(env: Env, publicKey: string, token: string): Option<VerifyingKey>
  {
    var fields := Fields(token, '.');
    if |fields| < 4 then None else env.scheme.parsePublicKey(publicKey, fields[3])
  }

  /** What the sender writes, and where it goes on: a key that does not fit the token is refused
      without asking the user; a key that fits is accepted exactly if the user says yes, and
      the sender waits for the answer proper. */
  ghost predicate PairOutcome(env: Env, publicKey: string, who: Identity, outs: seq<Message>, next: Pc)
    requires env.role.Sending?
  {
    var key := KeyNamed(env, publicKey, who.token);
    if key.None? then outs == [] && next == Fail(BadPublicKey)
    else if |Fields(who.token, '.')| == 4 then outs == [] && next == Fail(TokenPanic)
    else if !Fits(env, key.value, who) then outs == [Say(env.json, PairInvalidSignature)] && next == Fail(BadToken)
    else if env.role.pairAnswer.None? then outs == [] && next == Fail(NoPairAnswer)
    else
      && outs == [Say(env.json, if env.role.pairAnswer.value then PairOk(publicKey) else PairDeclined)]
      && next == AwaitSelection([], true, who)
  }

  lemma ReadsBack(json: Json, d: Dto)
    requires Faithful(json)
    ensures json.read(KindOf(d), json.write(d)) == Some(d)
  {
  }

  /** What the sender makes of an answer, read or not: it starts on the files selected, stops, or
      deals with a request to pair, once. */
  ghost predicate AnswerOutcome(env: Env, answer: Option<Dto>, paired: bool, who: Identity, log: seq<Event>,
                                outs: seq<Message>, s: Peer)
    requires env.role.Sending?
  {
    match answer
    case Some(ListOk(tokens)) =>
      outs == [] && s == Peer(Queue(tokens, env.role.queue), log + [Selected(tokens.Keys)])
    case Some(ListDeclined) => outs == [] && s == Peer(Halt(DeclinedByPeer), log)
    case Some(ListInvalidSignature) => outs == [] && s == Peer(Fail(Unexpected), log)
    case Some(ListPair(publicKey)) =>
      if paired then outs == [] && s == Peer(Fail(Unexpected), log)
      else s.log == log && PairOutcome(env, publicKey, who, outs, s.pc)
    case _ => outs == [] && s == Peer(Fail(ParseError), log)
  }

  /** An answer as it comes: binary messages up to a text message, or to the end of the channel. */
  function Spoken(chunks: seq<Bytes>, last: Option<Bytes>): seq<Message>
  {
    Binaries(chunks) + if last.Some? then [Text(last.value)] else []
  }

  lemma AnswerHeard(env: Env, who: Identity, paired: bool, chunks: seq<Bytes>, last: Option<Bytes>, log: seq<Event>)
    ensures Walk(env, Peer(AwaitSelection([], paired, who), log), Spoken(chunks, last), last.None?, [],
                 OnSelection(env, Flatten(chunks), paired, who, log))
  {
    hide Walk;
    var s := Peer(AwaitSelection([], paired, who), log);
    var s' := Peer(AwaitSelection(Flatten(chunks), paired, who), log);
    GatherChunks(env, s, chunks);
    assert [] + Flatten(chunks) == Flatten(chunks);
    if last.Some? {
      ThenTake(env, s, Binaries(chunks), [], s', Text(last.value));
    } else {
      ThenEnd(env, s, Binaries(chunks), false, [], s');
      assert Binaries(chunks) + [] == Binaries(chunks);
    }
  }

  /** Any answer at all, from any peer. */
  lemma AnyAnswer(env: Env, who: Identity, paired: bool, chunks: seq<Bytes>, last: Option<Bytes>, log: seq<Event>)
    returns (outs: seq<Message>, s: Peer)
    requires env.role.Sending?
    ensures Walk(env, Peer(AwaitSelection([], paired, who), log), Spoken(chunks, last), last.None?, outs, s)
    ensures AnswerOutcome(env, env.json.read(FileListResponse, Flatten(chunks)), paired, who, log, outs, s)
  {
    hide Walk, VerifyTokenNonce, Fields, Act, Take;
    var start := Peer(AwaitSelection([], paired, who), log);
    AnswerHeard(env, who, paired, chunks, last, log);
    var answer := env.json.read(FileListResponse, Flatten(chunks));
    outs, s := [], OnSelection(env, Flatten(chunks), paired, who, log);
    if answer.Some? && answer.value.ListPair? && !paired {
      var key := KeyNamed(env, answer.value.publicKey, who.token);
      if key.Some? {
        AcceptedTokens(env.scheme, key.value, who.token, who.nonce);
      }
      if s.pc.Out? {
        ThenSend(env, start, Spoken(chunks, last), last.None?, [], s);
        assert [] + s.pc.msgs == s.pc.msgs;
        outs, s := s.pc.msgs, Peer(s.pc.next, log);
      }
    }
  }

  /** An answer as an honest peer writes it. */
  lemma HonestAnswer(env: Env, who: Identity, paired: bool, d: Dto, log: seq<Event>)
    returns (outs: seq<Message>, s: Peer)
    requires Faithful(env.json) && env.role.Sending? && KindOf(d) == FileListResponse
    ensures Walk(env, Peer(AwaitSelection([], paired, who), log), SayFramed(env.json, d), false, outs, s)
    ensures AnswerOutcome(env, Some(d), paired, who, log, outs, s)
  {
    hide Walk, AnswerOutcome;
    var payload := env.json.write(d);
    SplitIsCanonical(payload, CHUNK_SIZE);
    outs, s := AnyAnswer(env, who, paired, Split(payload, CHUNK_SIZE), Some(DELIMITER.data), log);
    ReadsBack(env.json, d);
    assert Spoken(Split(payload, CHUNK_SIZE), Some(DELIMITER.data)) == SayFramed(env.json, d);
  }

  // ----- Who fits -----

  /** The holder of a key may pair under it, and under no other key that does not hash alike. */
  lemma OwnKeyFits(env: Env, holder: SigningKey, who: Identity, key: VerifyingKey)
    requires Sound(env.scheme) && who.token == GenerateTokenNonce(env.scheme, holder, who.nonce)
    ensures key == ToVerifyingKey(env.scheme, holder) ==> Fits(env, key, who)
    ensures Fits(env, key, who) ==>
      && key.Ed25519?
      && env.scheme.sha256(key.der + who.nonce) == env.scheme.sha256(env.scheme.publicDer(holder) + who.nonce)
  {
    NonceToken(env.scheme, holder, who.nonce, who.nonce);
    AcceptedTokens(env.scheme, key, who.token, who.nonce);
    if Fits(env, key, who) {
      TokenBindsKey(env.scheme, holder, who.nonce, key, who.nonce);
    }
  }

  // ----- From the start -----

  /** Everything a sender without expectation and PIN writes up to its offer. */
  function Opening(env: Env, nonce: Bytes): seq<Message>
    requires env.role.Sending?
  {
    [Say(env.json, Nonce(Base64.Encode(env.nonce))),
     Say(env.json, TokenRequest(GenerateTokenNonce(env.scheme, env.key, nonce)))]
    + SayFramed(env.json, PinSendingOk(env.role.files))
  }

  lemma Opens(env: Env, nonce: Message, token: string)
    requires Faithful(env.json) && env.role.Sending? && env.expecting.None? && env.pin.None?
    requires NonceIn(env, nonce).Some?
    ensures Walk(env, Start(env), [nonce, Say(env.json, TokenOk(token))], false,
                 Opening(env, NonceIn(env, nonce).value),
                 Peer(AwaitSelection([], false, Identity(NonceIn(env, nonce).value, token)), []))
  {
    hide Walk, SayFramed, GenerateTokenNonce;
    var common := NonceIn(env, nonce).value;
    var m, who := Say(env.json, TokenOk(token)), Identity(common, token);
    var first, wait := Peer(AwaitNonce, []), Peer(AwaitTokenResponse(common), []);
    ReadsBack(env.json, TokenOk(token));
    Stay(env, Start(env));
    ThenSend(env, Start(env), [], false, [], Start(env));
    var o1 := [Say(env.json, Nonce(Base64.Encode(env.nonce)))];
    assert [] + o1 == o1;
    ThenTake(env, Start(env), [], o1, first, nonce);
    assert [] + [nonce] == [nonce];
    var o2 := [Say(env.json, TokenRequest(GenerateTokenNonce(env.scheme, env.key, common)))];
    assert Take(env, first, Some(nonce)) == Peer(Out(o2, AwaitTokenResponse(common)), []);
    ThenSend(env, Start(env), [nonce], false, o1, Peer(Out(o2, AwaitTokenResponse(common)), []));
    ThenTake(env, Start(env), [nonce], o1 + o2, wait, m);
    assert [nonce] + [m] == [nonce, m];
    assert Take(env, wait, Some(m)) == Peer(Verified(env, who), []);
    ThenSend(env, Start(env), [nonce, m], false, o1 + o2, Peer(Verified(env, who), []));
    assert o1 + o2 + SayFramed(env.json, PinSendingOk(env.role.files)) == Opening(env, common);
  }

  /** A peer that asks to pair and then selects, message by message: if its key fits its token
      and the user has an answer, the sender gives it and starts on the files selected; if the
      key does not fit, the sender says so and stops. */
  lemma PairingRun(env: Env, nonce: Message, token: string, publicKey: string, tokens: map<string, string>)
    requires Faithful(env.json) && env.role.Sending? && env.expecting.None? && env.pin.None?
    requires NonceIn(env, nonce).Some? && |Fields(token, '.')| >= 5
    requires KeyNamed(env, publicKey, token).Some?
    ensures var common := NonceIn(env, nonce).value;
      var opening := Opening(env, common);
      var ins := [nonce, Say(env.json, TokenOk(token))] + SayFramed(env.json, ListPair(publicKey));
      if !Fits(env, KeyNamed(env, publicKey, token).value, Identity(common, token)) then
        Walk(env, Start(env), ins, false, opening + [Say(env.json, PairInvalidSignature)], Peer(Fail(BadToken), []))
      else
        env.role.pairAnswer.Some? ==>
          Walk(env, Start(env), ins + SayFramed(env.json, ListOk(tokens)), false,
               opening + [Say(env.json, if env.role.pairAnswer.value then PairOk(publicKey) else PairDeclined)],
               Peer(Queue(tokens, env.role.queue), [Selected(tokens.Keys)]))
  {
    hide Walk, SayFramed, Fits, KeyNamed, GenerateTokenNonce, NonceIn, Fields;
    var common := NonceIn(env, nonce).value;
    var who, opening := Identity(common, token), Opening(env, common);
    var ins, ask := [nonce, Say(env.json, TokenOk(token))], SayFramed(env.json, ListPair(publicKey));
    var wait := Peer(AwaitSelection([], false, who), []);
    Opens(env, nonce, token);
    var outs, s := HonestAnswer(env, who, false, ListPair(publicKey), []);
    Legs.Join(env, Start(env), ins, false, opening, wait, ask, false, outs, s);
    if Fits(env, KeyNamed(env, publicKey, token).value, who) && env.role.pairAnswer.Some? {
      var more, s' := HonestAnswer(env, who, true, ListOk(tokens), []);
      assert [] + [Selected(tokens.Keys)] == [Selected(tokens.Keys)];
      Legs.Join(env, Start(env), ins + ask, false, opening + outs, s,
                SayFramed(env.json, ListOk(tokens)), false, [], s');
      NothingAdded(opening + outs);
    }
  }
}
