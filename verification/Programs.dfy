/** The task bodies of `send_offer` and `accept_offer`, statement by statement. Each method
    leaves its channel at the point the step model reaches. */
module Programs {
  import opened Prelude
  import opened Chunks
  import opened Messages
  import opened Token
  import opened Session
  import opened Legs
  import opened Transfer
  import opened Channel
  import Base64

  datatype Got<+T> = Got(value: T) | Lost(why: Reason)

  method ReceiveText(ch: DataChannel) returns (r: Got<Bytes>)
    requires ch.Valid()
    requires ch.at.pc.AwaitNonce? || ch.at.pc.AwaitToken? || ch.at.pc.AwaitTokenResponse?
          || (ch.at.pc.Answer? && ch.env.role.Sending?)
    modifies ch
    ensures ch.Valid()
    ensures match r
      case Lost(why) => ch.at == old(ch.at).(pc := Fail(why))
      case Got(data) => ch.at == Take(ch.env, old(ch.at), Some(Text(data)))
  {
    hide Walk;
    var m := ch.Recv();
    if m.None? { return Lost(PeerClosed); }
    if m.value.Binary? { return Lost(WrongKind); }
    return Got(m.value.data);
  }

  method ReceiveNonce(ch: DataChannel) returns (r: Got<Bytes>)
    requires ch.Valid() && ch.at.pc.AwaitNonce?
    modifies ch
    ensures ch.Valid()
    ensures match r
      case Lost(why) => ch.at == old(ch.at).(pc := Fail(why))
      case Got(remote) => 16 <= |remote| <= 128 && ch.at == old(ch.at).(pc := WithNonce(ch.env, remote))
  {
    hide Walk;
    var text := ReceiveText(ch);
    if text.Lost? { return Lost(text.why); }
    var d := ch.env.json.read(NonceMessage, text.value);
    match d {
      case Some(Nonce(encoded)) =>
        var remote := Base64.Decode(encoded);
        if remote.None? || !ValidNonce(remote.value) { return Lost(BadNonce); }
        return Got(remote.value);
      case _ =>
        return Lost(ParseError);
    }
  }

  /** Ask the user until the verifier is satisfied or gives up; nothing else bounds the loop. */
  method HandlePin(ch: DataChannel, ghost who: Identity) returns (r: Got<seq<FileDto>>)
    requires ch.Valid() && ch.at.pc == Guess(0, who)
    modifies ch
    ensures ch.Valid()
    ensures match r
      case Lost(why) => ch.at == old(ch.at).(pc := Fail(why))
      case Got(files) =>
        if ch.env.role.Sending? then ch.at == old(ch.at).(pc := Challenge(ch.env, who))
        else ch.at == Peer(Choose(files), old(ch.at).log + [Offered(files)])
  {
    hide Walk;
    var env := ch.env;
    var used := 0;
    while true
      invariant ch.Valid() && ch.at == old(ch.at).(pc := Guess(used, who))
      invariant used <= |env.guesses|
      decreases |env.guesses| - used
    {
      ch.Advance();
      if used == |env.guesses| { return Lost(NoPinGiven); }
      ch.SendOne(Say(env.json, Pin(env.guesses[used])));
      used := used + 1;
      if env.role.Receiving? {
        var payload, last := ch.ReceiveString();
        assert [] + payload == payload;
        var d := env.json.read(PinSendingResponse, payload);
        match d {
          case Some(PinSendingOk(files)) => return Got(files);
          case Some(PinSendingRequired) =>
          case Some(PinSendingTooMany) => return Lost(TooManyAttempts);
          case _ => return Lost(ParseError);
        }
      } else {
        var text := ReceiveText(ch);
        if text.Lost? { return Lost(text.why); }
        var d := env.json.read(PinReceivingResponse, text.value);
        match d {
          case Some(PinReceivingOk) => return Got([]);
          case Some(PinReceivingRequired) =>
          case Some(PinReceivingTooMany) => return Lost(TooManyAttempts);
          case _ => return Lost(ParseError);
        }
      }
    }
  }

  method SendPinNotice(ch: DataChannel, tooMany: bool)
    requires ch.Valid() && ch.at.pc.Out?
    requires ch.at.pc.msgs == if tooMany then TooMany(ch.env) else PinRequired(ch.env)
    modifies ch
    ensures ch.Valid() && ch.at == old(ch.at).(pc := old(ch.at.pc.next))
  {
    hide Walk;
    var env := ch.env;
    if env.role.Sending? {
      ch.SendFramed(env.json.write(if tooMany then PinSendingTooMany else PinSendingRequired));
    } else {
      ch.SendOne(Say(env.json, if tooMany then PinReceivingTooMany else PinReceivingRequired));
    }
  }

  /** Challenge the other side; `pinTry` never leaves the range of a byte. */
  method VerifyPin(ch: DataChannel, ghost who: Identity, initialNotice: bool) returns (failure: Option<Reason>)
    requires ch.Valid() && ch.env.pin.Some? && ch.at.pc == Verify(0, "", initialNotice, who)
    modifies ch
    ensures ch.Valid()
    ensures ch.at == old(ch.at).(pc := if failure.Some? then Fail(failure.value) else Verified(ch.env, who))
  {
    hide Walk;
    var env := ch.env;
    var config := env.pin.value;
    var notice := initialNotice;
    var remotePin := "";
    var pinTry: byte := 0;
    while true
      invariant ch.Valid() && ch.at == old(ch.at).(pc := Verify(pinTry, remotePin, notice, who))
      invariant pinTry <= config.maxTries
      decreases config.maxTries - pinTry
    {
      ch.Advance();
      if remotePin == config.pin { return None; }
      if pinTry >= config.maxTries {
        SendPinNotice(ch, true);
        return Some(TooManyAttempts);
      }
      if notice || pinTry > 0 {
        SendPinNotice(ch, false);
      }
      notice := false;
      var m := ch.Recv();
      if m.None? { return Some(PeerClosed); }
      var d := env.json.read(PinMessage, m.value.data);
      match d {
        case Some(Pin(pin)) => remotePin := pin;
        case _ => return Some(ParseError);
      }
      pinTry := pinTry + 1;
    }
  }

  /** The inner loop: full chunks leave the buffer. */
  method FlushChunks(ch: DataChannel, full: Bytes) returns (buffer: Bytes, ghost chunks: seq<Bytes>)
    requires ch.Valid() && ch.at.pc.Stream? && ch.at.pc.buffer == full
    modifies ch
    ensures ch.Valid() && ch.at == Peer(
      Stream(old(ch.at.pc.tokens), old(ch.at.pc.pieces), buffer, old(ch.at.pc.rest)), old(ch.at.log))
    ensures |buffer| < CHUNK_SIZE && ch.sent == old(ch.sent) + Binaries(chunks)
    ensures Flatten(chunks) + buffer == full && forall i :: 0 <= i < |chunks| ==> |chunks[i]| == CHUNK_SIZE
  {
    hide Walk;
    buffer, chunks := full, [];
    while |buffer| >= CHUNK_SIZE
      invariant ch.Valid() && ch.at.pc.Stream? && ch.at == Peer(
        Stream(old(ch.at.pc.tokens), old(ch.at.pc.pieces), buffer, old(ch.at.pc.rest)), old(ch.at.log))
      invariant ch.sent == old(ch.sent) + Binaries(chunks)
      invariant Flatten(chunks) + buffer == full && forall i :: 0 <= i < |chunks| ==> |chunks[i]| == CHUNK_SIZE
      decreases |buffer|
    {
      var chunk := buffer[..CHUNK_SIZE];
      ch.Send(Binary(chunk));
      assert Binaries(chunks + [chunk]) == Binaries(chunks) + [Binary(chunk)];
      FlattenAppend(chunks, [chunk]);
      FlattenOne(chunk);
      assert buffer == chunk + buffer[CHUNK_SIZE..];
      chunks, buffer := chunks + [chunk], buffer[CHUNK_SIZE..];
    }
  }

  /** One piece from the application goes through the buffer. */
  method TakePiece(ch: DataChannel, held: Bytes, pieces: seq<Bytes>) returns (buffer: Bytes, ghost chunks: seq<Bytes>)
    requires ch.Valid() && ch.at.pc.Stream? && ch.at.pc.buffer == held && |held| < CHUNK_SIZE
    requires ch.at.pc.pieces == pieces && pieces != []
    modifies ch
    ensures ch.Valid()
    ensures ch.at == Peer(Stream(old(ch.at.pc.tokens), pieces[1..], buffer, old(ch.at.pc.rest)), old(ch.at.log))
    ensures |buffer| < CHUNK_SIZE && ch.sent == old(ch.sent) + Binaries(chunks)
    ensures Flatten(chunks) + buffer == held + pieces[0]
    ensures forall i :: 0 <= i < |chunks| ==> |chunks[i]| == CHUNK_SIZE
  {
    hide Walk;
    ch.Advance();
    buffer, chunks := FlushChunks(ch, held + pieces[0]);
  }

  /** What is left in the buffer when the application has supplied everything. */
  method FlushRest(ch: DataChannel, buffer: Bytes)
    requires ch.Valid() && ch.at.pc.Stream? && ch.at.pc.buffer == buffer
    requires ch.at.pc.pieces == [] && |buffer| < CHUNK_SIZE
    modifies ch
    ensures ch.Valid()
    ensures ch.at == Peer(Queue(old(ch.at.pc.tokens), old(ch.at.pc.rest)), old(ch.at.log))
    ensures ch.sent == old(ch.sent) + if buffer == [] then [] else [Binary(buffer)]
  {
    hide Walk;
    if buffer != [] {
      ch.Send(Binary(buffer));
    } else {
      ch.Advance();
      assert ch.sent + [] == ch.sent;
    }
  }

  lemma SentInFull(chunks: seq<Bytes>, buffer: Bytes, data: Bytes)
    requires |buffer| < CHUNK_SIZE && Flatten(chunks) + buffer == data
    requires forall k :: 0 <= k < |chunks| ==> |chunks[k]| == CHUNK_SIZE
    ensures Binaries(Split(data, CHUNK_SIZE)) == Binaries(chunks) + if buffer == [] then [] else [Binary(buffer)]
  {
    AllSent(chunks, buffer, CHUNK_SIZE);
    var last := if buffer == [] then [] else [buffer];
    SentTogether(chunks, last);
    assert Binaries(last) == if buffer == [] then [] else [Binary(buffer)];
  }

  lemma SentTogether(a: seq<Bytes>, b: seq<Bytes>)
    ensures Binaries(a + b) == Binaries(a) + Binaries(b)
  {
  }

  lemma MoreChunks(pieces: seq<Bytes>, i: nat, chunks: seq<Bytes>, buffer: Bytes, more: seq<Bytes>, buffer': Bytes)
    requires i < |pieces| && Flatten(chunks) + buffer == Flatten(pieces[..i])
    requires Flatten(more) + buffer' == buffer + pieces[i]
    ensures Flatten(chunks + more) + buffer' == Flatten(pieces[..i + 1])
    ensures Binaries(chunks + more) == Binaries(chunks) + Binaries(more)
  {
    FlattenSnoc(pieces, i);
    FlattenAppend(chunks, more);
    Assoc(Flatten(chunks), Flatten(more), buffer');
    Assoc(Flatten(chunks), buffer, pieces[i]);
    SentTogether(chunks, more);
  }

  /** One file, chunk by chunk as its bytes come in. */
  method StreamFile(ch: DataChannel, pieces: seq<Bytes>)
    requires ch.Valid() && ch.at.pc.Stream? && ch.at.pc.pieces == pieces && ch.at.pc.buffer == []
    modifies ch
    ensures ch.Valid()
    ensures ch.at == Peer(Queue(old(ch.at.pc.tokens), old(ch.at.pc.rest)), old(ch.at.log))
    ensures ch.sent == old(ch.sent) + Binaries(Split(Flatten(pieces), CHUNK_SIZE))
  {
    hide Walk, Act, Take, Flatten, Binaries, Split, Start;
    var buffer: Bytes := [];
    ghost var chunks: seq<Bytes> := [];
    ghost var tokens, rest, log := ch.at.pc.tokens, ch.at.pc.rest, ch.at.log;
    for i := 0 to |pieces|
      invariant ch.Valid() && ch.at == Peer(Stream(tokens, pieces[i..], buffer, rest), log)
      invariant |buffer| < CHUNK_SIZE
      invariant ch.sent == old(ch.sent) + Binaries(chunks)
      invariant Flatten(chunks) + buffer == Flatten(pieces[..i])
      invariant forall k :: 0 <= k < |chunks| ==> |chunks[k]| == CHUNK_SIZE
    {
      ghost var more;
      ghost var before := buffer;
      buffer, more := TakePiece(ch, buffer, pieces[i..]);
      assert pieces[i..][0] == pieces[i] && pieces[i..][1..] == pieces[i + 1..];
      MoreChunks(pieces, i, chunks, before, more, buffer);
      Assoc(old(ch.sent), Binaries(chunks), Binaries(more));
      chunks := chunks + more;
    }
    assert pieces[|pieces|..] == [] && pieces[..|pieces|] == pieces;
    FlushRest(ch, buffer);
    SentInFull(chunks, buffer, Flatten(pieces));
  }

  /** One queued file: header and bytes, or an error if it was not selected. */
  method SendOrSkip(ch: DataChannel, tokens: map<string, string>, queue: seq<OutFile>) returns (errors: seq<Event>)
    requires ch.Valid() && ch.at.pc == Queue(tokens, queue) && queue != []
    modifies ch
    ensures ch.Valid()
    ensures errors == if queue[0].id in tokens then [] else [FileError(queue[0].id, "Failed to get file token")]
    ensures ch.at == Peer(Queue(tokens, queue[1..]), old(ch.at.log) + errors)
  {
    hide Walk;
    var f := queue[0];
    ch.Advance();
    if f.id in tokens {
      ch.SendOne(Say(ch.env.json, Header(f.id, tokens[f.id])));
      StreamFile(ch, f.pieces);
      errors := [];
      assert old(ch.at.log) + errors == old(ch.at.log);
    } else {
      errors := [FileError(f.id, "Failed to get file token")];
    }
  }

  /** The sender's loop over the files the application queues. */
  method SendFiles(ch: DataChannel, tokens: map<string, string>, queue: seq<OutFile>) returns (errors: seq<Event>)
    requires ch.Valid() && ch.at.pc == Queue(tokens, queue)
    modifies ch
    ensures ch.Valid()
    ensures errors == Skipped(tokens.Keys, queue)
    ensures ch.at == Peer(Out([DELIMITER], AwaitLast), old(ch.at.log) + errors)
  {
    hide Walk;
    errors := [];
    assert queue[0..] == queue && old(ch.at.log) + [] == old(ch.at.log);
    for i := 0 to |queue|
      invariant ch.Valid() && ch.at == Peer(Queue(tokens, queue[i..]), old(ch.at.log) + errors)
      invariant Skipped(tokens.Keys, queue) == errors + Skipped(tokens.Keys, queue[i..])
    {
      var news := SendOrSkip(ch, tokens, queue[i..]);
      assert queue[i..][1..] == queue[i + 1..];
      Assoc(errors, news, Skipped(tokens.Keys, queue[i + 1..]));
      Assoc(old(ch.at.log), errors, news);
      errors := errors + news;
    }
    assert queue[|queue|..] == [];
    assert errors + Skipped(tokens.Keys, []) == errors;
    ch.Advance();
  }

  /** The rest of the sender from the published selection on. */
  method FinishSending(ch: DataChannel, tokens: map<string, string>, log: seq<Event>)
    returns (result: Result, told: seq<Event>)
    requires ch.Valid() && ch.env.role.Sending? && ch.at == Peer(Queue(tokens, ch.env.role.queue), log)
    modifies ch
    ensures ch.Valid() && ch.at == Peer(Halt(result), told)
    ensures result == Done && told == log + Skipped(tokens.Keys, ch.env.role.queue)
  {
    hide Walk;
    var errors := SendFiles(ch, tokens, ch.env.role.queue);
    ch.SendOne(DELIMITER);
    var _ := ch.Recv();
    return Done, log + errors;
  }

  /** A request to pair: the key must fit the token shown before, and the user is asked. */
  method AnswerPair(ch: DataChannel, publicKey: string, who: Identity) returns (failure: Option<Reason>)
    requires ch.Valid() && ch.env.role.Sending? && ch.at.pc == OnPair(ch.env, publicKey, who)
    modifies ch
    ensures ch.Valid()
    ensures ch.at == old(ch.at).(pc := if failure.Some? then Fail(failure.value) else AwaitSelection([], true, who))
  {
    hide Walk;
    var env := ch.env;
    var kind := ExtractSignatureIdentifier(who.token);
    if kind.None? { return Some(BadPublicKey); }
    var key := env.scheme.parsePublicKey(publicKey, kind.value);
    if key.None? { return Some(BadPublicKey); }
    var verdict := VerifyTokenNonce(env.scheme, key.value, who.token, who.nonce);
    if verdict.Panicked? { return Some(TokenPanic); }
    if verdict.Rejected? {
      ch.SendOne(Say(env.json, PairInvalidSignature));
      return Some(BadToken);
    }
    if env.role.pairAnswer.None? { return Some(NoPairAnswer); }
    ch.SendOne(Say(env.json, if env.role.pairAnswer.value then PairOk(publicKey) else PairDeclined));
    return None;
  }

  method ReceiveAnswer(ch: DataChannel, ghost who: Identity, ghost paired: bool) returns (payload: Bytes)
    requires ch.Valid() && ch.at == Peer(AwaitSelection([], paired, who), [])
    modifies ch
    ensures ch.Valid() && ch.at == OnSelection(ch.env, payload, paired, who, [])
  {
    hide Walk;
    ghost var last;
    payload, last := ch.ReceiveString();
    assert [] + payload == payload;
  }

  /** The receiver's answer to the offer; a request to pair may come once before it. */
  method AwaitAnswer(ch: DataChannel, who: Identity, paired: bool) returns (result: Result, told: seq<Event>)
    requires ch.Valid() && ch.env.role.Sending? && ch.at == Peer(AwaitSelection([], paired, who), [])
    modifies ch
    ensures ch.Valid() && ch.at == Peer(Halt(result), told)
    decreases !paired
  {
    hide Walk;
    var payload := ReceiveAnswer(ch, who, paired);
    var d := ch.env.json.read(FileListResponse, payload);
    match d {
      case Some(ListOk(tokens)) =>
        result, told := FinishSending(ch, tokens, [Selected(tokens.Keys)]);
      case Some(ListDeclined) =>
        return DeclinedByPeer, [];
      case Some(ListInvalidSignature) =>
        return Failed(Unexpected), [];
      case Some(ListPair(publicKey)) =>
        if paired { return Failed(Unexpected), []; }
        var failure := AnswerPair(ch, publicKey, who);
        if failure.Some? { return Failed(failure.value), []; }
        result, told := AwaitAnswer(ch, who, true);
      case _ =>
        return Failed(ParseError), [];
    }
  }

  /** Nonces and tokens: who the receiver is, and whether it wants a PIN. */
  method MeetReceiver(ch: DataChannel) returns (met: Got<(Identity, bool)>)
    requires ch.Valid() && ch.env.role.Sending? && ch.at == Start(ch.env)
    modifies ch
    ensures ch.Valid()
    ensures match met
      case Lost(why) => ch.at == Peer(Fail(why), [])
      case Got((who, pinRequired)) => ch.at == Peer(if pinRequired then Guess(0, who) else Challenge(ch.env, who), [])
  {
    hide Walk;
    var env := ch.env;
    ch.SendOne(Say(env.json, Nonce(Base64.Encode(env.nonce))));
    var remote := ReceiveNonce(ch);
    if remote.Lost? { return Lost(remote.why); }
    var nonce := env.nonce + remote.value;
    ch.SendOne(Say(env.json, TokenRequest(GenerateTokenNonce(env.scheme, env.key, nonce))));
    var text := ReceiveText(ch);
    if text.Lost? { return Lost(text.why); }
    var d := env.json.read(TokenResponse, text.value);
    var who, pinRequired;
    match d {
      case Some(TokenInvalidSignature) => return Lost(BadTokenAtPeer);
      case Some(TokenOk(token)) => who, pinRequired := Identity(nonce, token), false;
      case Some(TokenPinRequired(token)) => who, pinRequired := Identity(nonce, token), true;
      case _ => return Lost(ParseError);
    }
    var verdict := Check(env, who.token, nonce);
    if verdict.Panicked? { return Lost(TokenPanic); }
    if verdict.Rejected? { return Lost(BadToken); }
    return Got((who, pinRequired));
  }

  /** The sending task. */
  method SendOffer(ch: DataChannel) returns (result: Result, told: seq<Event>)
    requires ch.Valid() && ch.env.role.Sending? && ch.at == Start(ch.env)
    modifies ch
    ensures ch.Valid() && ch.at == Peer(Halt(result), told)
  {
    hide Walk;
    var met := MeetReceiver(ch);
    if met.Lost? { return Failed(met.why), []; }
    var (who, pinRequired) := met.value;
    if pinRequired {
      var answer := HandlePin(ch, who);
      if answer.Lost? { return Failed(answer.why), []; }
    }
    if ch.env.pin.Some? {
      var failure := VerifyPin(ch, who, true);
      if failure.Some? { return Failed(failure.value), []; }
    }
    ch.SendFramed(ch.env.json.write(PinSendingOk(ch.env.role.files)));
    result, told := AwaitAnswer(ch, who, false);
  }

  // ----- Receiving -----

  /** A text message between files, once the file before it has been answered. */
  method ReadHeader(ch: DataChannel, data: Bytes, tokens: map<string, string>, files: seq<FileDto>)
    returns (open: Option<string>, failure: Option<Reason>, news: seq<Event>)
    requires ch.Valid() && ch.at.pc.TextIn? && ch.at.pc.data == data
    requires ch.at.pc.tokens == tokens && ch.at.pc.files == files
    requires !(ch.at.pc.wasOpen && IsDelimiter(Text(data)))
    modifies ch
    ensures ch.Valid() && ch.sent == old(ch.sent) && ch.inbox == old(ch.inbox)
    ensures ch.at == Peer(if failure.Some? then Fail(failure.value) else Files(tokens, files, open, old(ch.at.pc.used)),
                          old(ch.at.log) + news)
  {
    hide Walk;
    open, news, failure := None, [], None;
    ch.Advance();
    var d := ch.env.json.read(FileHeader, data);
    match d {
      case Some(Header(id, token)) =>
        if id !in tokens {
          news := [FileError(id, "File not found")];
        } else if tokens[id] != token {
          news := [FileError(id, "Invalid token")];
        } else if !InOffer(files, id) {
          news := [FileError(id, "Expected size to be available")];
        } else {
          open, news := Some(id), [Opened(id)];
        }
      case _ =>
        failure := Some(ParseError);
    }
  }

  /** The receiver's loop over headers and data. */
  method ReceiveFiles(ch: DataChannel, tokens: map<string, string>, files: seq<FileDto>, log: seq<Event>)
    returns (result: Result, told: seq<Event>)
    requires ch.Valid() && ch.env.role.Receiving? && ch.at == Peer(Files(tokens, files, None, 0), log)
    modifies ch
    ensures ch.Valid() && ch.at == Peer(Halt(result), told)
  {
    hide Walk;
    var open: Option<string> := None;
    var used := 0;
    told := log;
    while true
      invariant ch.Valid() && ch.at == Peer(Files(tokens, files, open, used), told)
      decreases |ch.inbox|
    {
      var m := ch.Recv();
      if m.None? { return Done, told; }
      if m.value.Binary? {
        told := told + [if open.Some? then Data(m.value.data)
                        else FileError("unknown", "Received binary data without a header")];
        continue;
      }
      var wasOpen := open.Some?;
      if wasOpen {
        ch.SendOne(ResponseFor(ch.env, open.value, used));
        used := used + 1;
      }
      if wasOpen && IsDelimiter(m.value) {
        ch.Advance();
        return Done, told;
      }
      var failure, news;
      open, failure, news := ReadHeader(ch, m.value.data, tokens, files);
      told := told + news;
      if failure.Some? { return Failed(failure.value), told; }
    }
  }

  /** From the file list on: the user's decision, and the files. */
  method AnswerOffer(ch: DataChannel, files: seq<FileDto>) returns (result: Result, told: seq<Event>)
    requires ch.Valid() && ch.env.role.Receiving? && ch.at == Peer(Choose(files), [Offered(files)])
    modifies ch
    ensures ch.Valid() && ch.at == Peer(Halt(result), told)
  {
    hide Walk;
    var env := ch.env;
    told := [Offered(files)];
    ch.Advance();
    match env.role.selection {
      case Abandoned =>
        return Done, told;
      case Refused =>
        ch.SendFramed(env.json.write(ListDeclined));
        return Done, told;
      case Chosen(ids) =>
        var tokens := MintTokens(env.role.mint, ids);
        ch.SendFramed(env.json.write(ListOk(tokens)));
        result, told := ReceiveFiles(ch, tokens, files, told);
    }
  }

  /** Nonces and tokens, the receiver's part. */
  method MeetSender(ch: DataChannel) returns (met: Got<Identity>)
    requires ch.Valid() && ch.env.role.Receiving? && ch.at == Start(ch.env)
    modifies ch
    ensures ch.Valid()
    ensures match met
      case Lost(why) => ch.at == Peer(Fail(why), [])
      case Got(who) => ch.at == Peer(Challenge(ch.env, who), [])
  {
    hide Walk;
    var env := ch.env;
    var remote := ReceiveNonce(ch);
    if remote.Lost? { return Lost(remote.why); }
    ch.SendOne(Say(env.json, Nonce(Base64.Encode(env.nonce))));
    var nonce := remote.value + env.nonce;
    var text := ReceiveText(ch);
    if text.Lost? { return Lost(text.why); }
    var d := env.json.read(TokenRequestMessage, text.value);
    if d.None? || !d.value.TokenRequest? { return Lost(ParseError); }
    var who := Identity(nonce, d.value.token);
    var verdict := Check(env, who.token, nonce);
    if verdict.Panicked? { return Lost(TokenPanic); }
    if verdict.Rejected? {
      ch.SendOne(Say(env.json, TokenInvalidSignature));
      return Lost(BadToken);
    }
    var own := GenerateTokenNonce(env.scheme, env.key, nonce);
    ch.SendOne(Say(env.json, if env.pin.Some? then TokenPinRequired(own) else TokenOk(own)));
    return Got(who);
  }

  /** The file list, possibly after the sender's PIN challenge. */
  method AwaitOffer(ch: DataChannel, ghost who: Identity) returns (offer: Got<seq<FileDto>>)
    requires ch.Valid() && ch.env.role.Receiving? && ch.at == Peer(Collect([], who), [])
    modifies ch
    ensures ch.Valid()
    ensures match offer
      case Lost(why) => ch.at == Peer(Fail(why), [])
      case Got(files) => ch.at == Peer(Choose(files), [Offered(files)])
  {
    hide Walk;
    var payload, last := ch.ReceiveString();
    assert [] + payload == payload;
    assert ch.at == OnPinStatus(ch.env, payload, 0, true, who, []);
    var d := ch.env.json.read(PinSendingResponse, payload);
    match d {
      case Some(PinSendingOk(files)) => return Got(files);
      case Some(PinSendingRequired) => offer := HandlePin(ch, who);
      case Some(PinSendingTooMany) => return Lost(Unexpected);
      case _ => return Lost(ParseError);
    }
  }

  /** The receiving task. */
  method AcceptOffer(ch: DataChannel) returns (result: Result, told: seq<Event>)
    requires ch.Valid() && ch.env.role.Receiving? && ch.at == Start(ch.env)
    modifies ch
    ensures ch.Valid() && ch.at == Peer(Halt(result), told)
  {
    hide Walk;
    var met := MeetSender(ch);
    if met.Lost? { return Failed(met.why), []; }
    if ch.env.pin.Some? {
      var failure := VerifyPin(ch, met.value, false);
      if failure.Some? { return Failed(failure.value), []; }
      ch.SendOne(Say(ch.env.json, PinReceivingOk));
    }
    var offer := AwaitOffer(ch, met.value);
    if offer.Lost? { return Failed(offer.why), []; }
    result, told := AnswerOffer(ch, offer.value);
  }
}
