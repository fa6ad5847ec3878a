/** The two programs of a file transfer, one message or user answer at a time.

    `Env` fixes everything a program gets from outside its queue: keys, nonce, PIN, and the
    answers its user will give. A run for every `Env` is a run for every user. */
module Session {
  import opened Prelude
  import opened Chunks
  import opened Messages
  import opened Token
  import opened Network
  import Base64

  datatype PinConfig = PinConfig(pin: string, maxTries: byte)

  /** A queued file and the pieces in which the application supplies its bytes. */
  datatype OutFile = OutFile(id: string, pieces: seq<Bytes>)

  datatype Selection = Abandoned | Refused | Chosen(ids: set<string>)

  /** The receiving user's verdict on a stored file. */
  datatype FileResult = FileResult(success: bool, error: Option<string>)

  datatype Role =
    | Sending(files: seq<FileDto>, pairAnswer: Option<bool>, queue: seq<OutFile>)
    | Receiving(mint: string -> string, selection: Selection, results: seq<FileResult>)

  /** `guesses` are the PINs the user will type, in order; then the user gives up. */
  datatype Env = Env(
    json: Json, scheme: Scheme, nonce: Bytes, key: SigningKey, expecting: Option<VerifyingKey>,
    pin: Option<PinConfig>, guesses: seq<string>, role: Role)

  datatype Reason =
    | TooManyAttempts | NoPinGiven | PeerClosed | ParseError | WrongKind | BadNonce | BadToken
    | BadTokenAtPeer | TokenPanic | Unexpected | NoPairAnswer | BadPublicKey

  datatype Result = Done | DeclinedByPeer | Failed(why: Reason)

  /** What the application is told. */
  datatype Event =
    | Selected(ids: set<string>)
    | Offered(files: seq<FileDto>)
    | FileError(id: string, error: string)
    | Opened(id: string)
    | Data(bytes: Bytes)

  /** The agreed nonce and the token the other side has shown. */
  datatype Identity = Identity(nonce: Bytes, token: string)

  datatype Pc =
    | Out(msgs: seq<Message>, next: Pc)
    | AwaitNonce
    | AwaitToken(nonce: Bytes)
    | AwaitTokenResponse(nonce: Bytes)
    | Guess(used: nat, who: Identity)
    | Answer(used: nat, buffer: Bytes, who: Identity)
    | Verify(tries: nat, remotePin: string, notice: bool, who: Identity)
    | VerifyWait(tries: nat, who: Identity)
    | Collect(buffer: Bytes, who: Identity)
    | AwaitSelection(buffer: Bytes, paired: bool, who: Identity)
    | Queue(tokens: map<string, string>, rest: seq<OutFile>)
    | Stream(tokens: map<string, string>, pieces: seq<Bytes>, buffer: Bytes, rest: seq<OutFile>)
    | AwaitLast
    | Choose(files: seq<FileDto>)
    | Files(tokens: map<string, string>, files: seq<FileDto>, open: Option<string>, used: nat)
    | TextIn(data: Bytes, wasOpen: bool, tokens: map<string, string>, files: seq<FileDto>, used: nat)
    | Halt(result: Result)

  datatype Peer = Peer(pc: Pc, log: seq<Event>)

  function Fail(why: Reason): Pc { Halt(Failed(why)) }

  function ValidNonce(nonce: Bytes): bool { 16 <= |nonce| <= 128 }

  // ----- PIN notices, which differ by direction -----

  function PinRequired(env: Env): seq<Message>
  {
    if env.role.Sending? then SayFramed(env.json, PinSendingRequired) else [Say(env.json, PinReceivingRequired)]
  }

  function TooMany(env: Env): seq<Message>
  {
    if env.role.Sending? then SayFramed(env.json, PinSendingTooMany) else [Say(env.json, PinReceivingTooMany)]
  }

  /** After the own PIN challenge: the sender offers its files, the receiver says so and waits. */
  function Verified(env: Env, who: Identity): Pc
  {
    match env.role
    case Sending(files, _, _) => Out(SayFramed(env.json, PinSendingOk(files)), AwaitSelection([], false, who))
    case Receiving(_, _, _) => Out([Say(env.json, PinReceivingOk)], Collect([], who))
  }

  /** After the other side's PIN challenge, if any. */
  function Challenge(env: Env, who: Identity): Pc
  {
    match env.role
    case Sending(_, _, _) => if env.pin.Some? then Verify(0, "", true, who) else Verified(env, who)
    case Receiving(_, _, _) => if env.pin.Some? then Verify(0, "", false, who) else Collect([], who)
  }

  function VerifyTop(env: Env, tries: nat, remotePin: string, notice: bool, who: Identity): Pc
  {
    if env.pin.None? || remotePin == env.pin.value.pin then Verified(env, who)
    else if tries >= env.pin.value.maxTries then Out(TooMany(env), Fail(TooManyAttempts))
    else if notice || tries > 0 then Out(PinRequired(env), VerifyWait(tries, who))
    else VerifyWait(tries, who)
  }

  // ----- Moves of their own -----

  function QueueTop(env: Env, tokens: map<string, string>, rest: seq<OutFile>, log: seq<Event>): Peer
  {
    if rest == [] then Peer(Out([DELIMITER], AwaitLast), log)
    else if rest[0].id !in tokens then
      Peer(Queue(tokens, rest[1..]), log + [FileError(rest[0].id, "Failed to get file token")])
    else
      Peer(Out([Say(env.json, Header(rest[0].id, tokens[rest[0].id]))], Stream(tokens, rest[0].pieces, [], rest[1..])),
           log)
  }

  function MintTokens(mint: string -> string, ids: set<string>): map<string, string>
  {
    map id | id in ids :: mint(id)
  }

  function ChooseTop(env: Env, files: seq<FileDto>): Pc
    requires env.role.Receiving?
  {
    match env.role.selection
    case Abandoned => Halt(Done)
    case Refused => Out(SayFramed(env.json, ListDeclined), Halt(Done))
    case Chosen(ids) =>
      var tokens := MintTokens(env.role.mint, ids);
      Out(SayFramed(env.json, ListOk(tokens)), Files(tokens, files, None, 0))
  }

  predicate InOffer(files: seq<FileDto>, id: string)
  {
    exists i :: 0 <= i < |files| && files[i].id == id
  }

  /** A text message of the file phase, once the answer for the file before it is out. */
  function TextTop(
    env: Env, data: Bytes, wasOpen: bool, tokens: map<string, string>, files: seq<FileDto>, used: nat, log: seq<Event>)
    : Peer
  {
    if wasOpen && IsDelimiter(Text(data)) then Peer(Halt(Done), log)
    else
      match env.json.read(FileHeader, data)
      case Some(Header(id, token)) =>
        if id !in tokens then Peer(Files(tokens, files, None, used), log + [FileError(id, "File not found")])
        else if tokens[id] != token then Peer(Files(tokens, files, None, used), log + [FileError(id, "Invalid token")])
        else if !InOffer(files, id) then
          Peer(Files(tokens, files, None, used), log + [FileError(id, "Expected size to be available")])
        else Peer(Files(tokens, files, Some(id), used), log + [Opened(id)])
      case _ => Peer(Fail(ParseError), log)
  }

  function Act(env: Env, s: Peer): Action<Peer, Message>
  {
    match s.pc
    case Out(msgs, next) =>
      if msgs == [] then Internal(Peer(next, s.log)) else Emit(msgs[0], Peer(Out(msgs[1..], next), s.log))
    case Guess(used, who) =>
      if used < |env.guesses|
      then Internal(Peer(Out([Say(env.json, Pin(env.guesses[used]))], Answer(used + 1, [], who)), s.log))
      else Internal(Peer(Fail(NoPinGiven), s.log))
    case Verify(tries, remotePin, notice, who) =>
      Internal(Peer(VerifyTop(env, tries, remotePin, notice, who), s.log))
    case Queue(tokens, rest) => Internal(QueueTop(env, tokens, rest, s.log))
    case Stream(tokens, pieces, buffer, rest) =>
      if |buffer| >= CHUNK_SIZE then
        Emit(Binary(buffer[..CHUNK_SIZE]), Peer(Stream(tokens, pieces, buffer[CHUNK_SIZE..], rest), s.log))
      else if pieces != [] then
        Internal(Peer(Stream(tokens, pieces[1..], buffer + pieces[0], rest), s.log))
      else if buffer != [] then Emit(Binary(buffer), Peer(Queue(tokens, rest), s.log))
      else Internal(Peer(Queue(tokens, rest), s.log))
    case Choose(files) =>
      if env.role.Receiving? then Internal(Peer(ChooseTop(env, files), s.log)) else Stop
    case TextIn(data, wasOpen, tokens, files, used) =>
      Internal(TextTop(env, data, wasOpen, tokens, files, used, s.log))
    case Halt(_) => Stop
    case _ => Receive
  }

  // ----- Messages received -----

  function Check(env: Env, token: string, nonce: Bytes): Verdict
  {
    match env.expecting
    case None => Accepted
    case Some(key) => VerifyTokenNonce(env.scheme, key, token, nonce)
  }

  /** The common nonce is the sender's followed by the receiver's. */
  function WithNonce(env: Env, remote: Bytes): Pc
  {
    if env.role.Sending? then
      var nonce := env.nonce + remote;
      Out([Say(env.json, TokenRequest(GenerateTokenNonce(env.scheme, env.key, nonce)))], AwaitTokenResponse(nonce))
    else
      Out([Say(env.json, Nonce(Base64.Encode(env.nonce)))], AwaitToken(remote + env.nonce))
  }

  function OnNonce(env: Env, data: Bytes): Pc
  {
    match env.json.read(NonceMessage, data)
    case Some(Nonce(text)) =>
      var remote := Base64.Decode(text);
      if remote.None? || !ValidNonce(remote.value) then Fail(BadNonce) else WithNonce(env, remote.value)
    case _ => Fail(ParseError)
  }

  function OnToken(env: Env, nonce: Bytes, data: Bytes): Pc
  {
    match env.json.read(TokenRequestMessage, data)
    case Some(TokenRequest(token)) =>
      (match Check(env, token, nonce)
       case Panicked => Fail(TokenPanic)
       case Rejected => Out([Say(env.json, TokenInvalidSignature)], Fail(BadToken))
       case Accepted =>
         var own := GenerateTokenNonce(env.scheme, env.key, nonce);
         var reply := if env.pin.Some? then TokenPinRequired(own) else TokenOk(own);
         Out([Say(env.json, reply)], Challenge(env, Identity(nonce, token))))
    case _ => Fail(ParseError)
  }

  function OnTokenResponse(env: Env, nonce: Bytes, data: Bytes): Pc
  {
    match env.json.read(TokenResponse, data)
    case Some(TokenInvalidSignature) => Fail(BadTokenAtPeer)
    case Some(TokenOk(token)) => AfterToken(env, Identity(nonce, token), false)
    case Some(TokenPinRequired(token)) => AfterToken(env, Identity(nonce, token), true)
    case _ => Fail(ParseError)
  }

  function AfterToken(env: Env, who: Identity, pinRequired: bool): Pc
  {
    match Check(env, who.token, who.nonce)
    case Panicked => Fail(TokenPanic)
    case Rejected => Fail(BadToken)
    case Accepted => if pinRequired then Guess(0, who) else Challenge(env, who)
  }

  /** The verdict on a PIN, or the file list in its place. */
  function OnPinStatus(env: Env, data: Bytes, used: nat, first: bool, who: Identity, log: seq<Event>): Peer
  {
    match env.json.read(PinSendingResponse, data)
    case Some(PinSendingOk(files)) => Peer(Choose(files), log + [Offered(files)])
    case Some(PinSendingRequired) => Peer(Guess(used, who), log)
    case Some(PinSendingTooMany) => Peer(Fail(if first then Unexpected else TooManyAttempts), log)
    case _ => Peer(Fail(ParseError), log)
  }

  function OnPinVerdict(env: Env, data: Bytes, used: nat, who: Identity): Pc
  {
    match env.json.read(PinReceivingResponse, data)
    case Some(PinReceivingOk) => Challenge(env, who)
    case Some(PinReceivingRequired) => Guess(used, who)
    case Some(PinReceivingTooMany) => Fail(TooManyAttempts)
    case _ => Fail(ParseError)
  }

  function OnPair(env: Env, publicKey: string, who: Identity): Pc
    requires env.role.Sending?
  {
    var kind := ExtractSignatureIdentifier(who.token);
    if kind.None? then Fail(BadPublicKey)
    else
      var key := env.scheme.parsePublicKey(publicKey, kind.value);
      if key.None? then Fail(BadPublicKey)
      else
        match VerifyTokenNonce(env.scheme, key.value, who.token, who.nonce)
        case Panicked => Fail(TokenPanic)
        case Rejected => Out([Say(env.json, PairInvalidSignature)], Fail(BadToken))
        case Accepted =>
          match env.role.pairAnswer
          case None => Fail(NoPairAnswer)
          case Some(yes) =>
            Out([Say(env.json, if yes then PairOk(publicKey) else PairDeclined)], AwaitSelection([], true, who))
  }

  function OnSelection(env: Env, data: Bytes, paired: bool, who: Identity, log: seq<Event>): Peer
  {
    match env.json.read(FileListResponse, data)
    case Some(ListOk(tokens)) =>
      Peer(Queue(tokens, if env.role.Sending? then env.role.queue else []), log + [Selected(tokens.Keys)])
    case Some(ListDeclined) => Peer(Halt(DeclinedByPeer), log)
    case Some(ListInvalidSignature) => Peer(Fail(Unexpected), log)
    case Some(ListPair(publicKey)) =>
      if paired || env.role.Receiving? then Peer(Fail(Unexpected), log) else Peer(OnPair(env, publicKey, who), log)
    case _ => Peer(Fail(ParseError), log)
  }

  function ResponseFor(env: Env, id: string, used: nat): Message
    requires env.role.Receiving?
  {
    var error :=
      if used < |env.role.results| then
        var r := env.role.results[used];
        if r.success then None else Some(if r.error.Some? then r.error.value else "Unknown error")
      else Some("Failed to receive file result");
    Say(env.json, FileResponse(id, error.None?, error))
  }

  function OnFileMessage(env: Env, s: Peer, m: Message): Peer
    requires s.pc.Files? && env.role.Receiving?
  {
    var Files(tokens, files, open, used) := s.pc;
    match m
    case Binary(data) =>
      if open.Some? then s.(log := s.log + [Data(data)])
      else s.(log := s.log + [FileError("unknown", "Received binary data without a header")])
    case Text(data) =>
      if open.Some?
      then s.(pc := Out([ResponseFor(env, open.value, used)], TextIn(data, true, tokens, files, used + 1)))
      else s.(pc := TextIn(data, false, tokens, files, used))
  }

  function Take(env: Env, s: Peer, m: Option<Message>): Peer
  {
    var closed := s.(pc := Fail(PeerClosed));
    var wrong := s.(pc := Fail(WrongKind));
    match s.pc
    case AwaitNonce =>
      if m.None? then closed else if m.value.Binary? then wrong else s.(pc := OnNonce(env, m.value.data))
    case AwaitToken(nonce) =>
      if m.None? then closed else if m.value.Binary? then wrong else s.(pc := OnToken(env, nonce, m.value.data))
    case AwaitTokenResponse(nonce) =>
      if m.None? then closed else if m.value.Binary? then wrong
      else s.(pc := OnTokenResponse(env, nonce, m.value.data))
    case Answer(used, buffer, who) =>
      if env.role.Sending? then
        if m.None? then closed else if m.value.Binary? then wrong
        else s.(pc := OnPinVerdict(env, m.value.data, used, who))
      else if m.Some? && m.value.Binary? then s.(pc := Answer(used, buffer + m.value.data, who))
      else OnPinStatus(env, buffer, used, false, who, s.log)
    case VerifyWait(tries, who) =>
      if m.None? then closed
      else
        (match env.json.read(PinMessage, m.value.data)
         case Some(Pin(pin)) => s.(pc := Verify(tries + 1, pin, false, who))
         case _ => s.(pc := Fail(ParseError)))
    case Collect(buffer, who) =>
      if m.Some? && m.value.Binary? then s.(pc := Collect(buffer + m.value.data, who))
      else OnPinStatus(env, buffer, 0, true, who, s.log)
    case AwaitSelection(buffer, paired, who) =>
      if m.Some? && m.value.Binary? then s.(pc := AwaitSelection(buffer + m.value.data, paired, who))
      else OnSelection(env, buffer, paired, who, s.log)
    case AwaitLast => s.(pc := Halt(Done))
    case Files(_, _, _, _) =>
      if m.None? || env.role.Sending? then s.(pc := Halt(Done)) else OnFileMessage(env, s, m.value)
    case _ => s
  }

  function Program(env: Env): Process<Peer, Message>
  {
    Process(s => Act(env, s), (s, m) => Take(env, s, m))
  }

  /** The sender speaks first. */
  function Start(env: Env): Peer
  {
    match env.role
    case Sending(_, _, _) => Peer(Out([Say(env.json, Nonce(Base64.Encode(env.nonce)))], AwaitNonce), [])
    case Receiving(_, _, _) => Peer(AwaitNonce, [])
  }

  // ----- A program on its own -----

  type Solo = Local<Peer, Message>

  /** One step of a program, spelled out. */
  lemma SoloStep(env: Env, l: Solo)
    requires LocalStep(Program(env), l).Some?
    ensures var l', a := LocalStep(Program(env), l).value, Act(env, l.st);
            && (a.Internal? || a.Emit? || a == Receive)
            && (a.Internal? || a.Emit? ==> l'.st == a.next && l'.inbox == l.inbox)
            && (a == Receive && l.inbox != [] ==>
                  l'.st == Take(env, l.st, Some(l.inbox[0])) && l'.inbox == l.inbox[1..])
            && (a == Receive && l.inbox == [] ==> l'.st == Take(env, l.st, None) && l'.inbox == [])
  {
  }
}
