/** What travels over the data channel. */
module Messages {
  import opened Prelude
  import opened Chunks

  datatype Message = Text(data: Bytes) | Binary(data: Bytes)

  datatype FileMetadata = FileMetadata(modified: Option<string>, accessed: Option<string>)

  datatype FileDto = FileDto(
    id: string, fileName: string, size: nat, fileType: string,
    sha256: Option<string>, preview: Option<string>, metadata: Option<FileMetadata>)

  /** The values that are sent as JSON, grouped by the type that a reader asks for. */
  datatype Dto =
    | Nonce(nonce: string)
    | TokenRequest(token: string)
    | TokenOk(token: string)
    | TokenPinRequired(token: string)
    | TokenInvalidSignature
    | Pin(pin: string)
    | PinReceivingOk
    | PinReceivingRequired
    | PinReceivingTooMany
    | PinSendingOk(files: seq<FileDto>)
    | PinSendingRequired
    | PinSendingTooMany
    | ListOk(tokens: map<string, string>)
    | ListPair(publicKey: string)
    | ListDeclined
    | ListInvalidSignature
    | PairOk(publicKey: string)
    | PairDeclined
    | PairInvalidSignature
    | Header(id: string, token: string)
    | FileResponse(id: string, success: bool, error: Option<string>)

  datatype Kind =
    | NonceMessage | TokenRequestMessage | TokenResponse | PinMessage | PinReceivingResponse
    | PinSendingResponse | FileListResponse | PairResponse | FileHeader | SendFileResponse

  function KindOf(d: Dto): Kind
  {
    match d
    case Nonce(_) => NonceMessage
    case TokenRequest(_) => TokenRequestMessage
    case TokenOk(_) | TokenPinRequired(_) | TokenInvalidSignature => TokenResponse
    case Pin(_) => PinMessage
    case PinReceivingOk | PinReceivingRequired | PinReceivingTooMany => PinReceivingResponse
    case PinSendingOk(_) | PinSendingRequired | PinSendingTooMany => PinSendingResponse
    case ListOk(_) | ListPair(_) | ListDeclined | ListInvalidSignature => FileListResponse
    case PairOk(_) | PairDeclined | PairInvalidSignature => PairResponse
    case Header(_, _) => FileHeader
    case FileResponse(_, _, _) => SendFileResponse
  }

  /** The JSON library: a writer, and a reader that is told which type to expect. */
  datatype Json = Json(write: Dto -> Bytes, read: (Kind, Bytes) -> Option<Dto>)

  /** Reading back what was written as the same type gives the same value; every text of
      these types is an object, hence at least two characters long. */
  ghost predicate Faithful(json: Json)
  {
    && (forall d: Dto :: json.read(KindOf(d), json.write(d)) == Some(d))
    && (forall k: Kind, b: Bytes :: json.read(k, b).Some? ==> KindOf(json.read(k, b).value) == k && |b| >= 2)
  }

  function Say(json: Json, d: Dto): Message
  {
    Text(json.write(d))
  }

  const DELIMITER: Message := Text([48])

  predicate IsDelimiter(m: Message)
  {
    m.Text? && |m.data| <= 1
  }

  function Binaries(chunks: seq<Bytes>): (ms: seq<Message>)
    ensures |ms| == |chunks|
    ensures forall i :: 0 <= i < |ms| ==> ms[i] == Binary(chunks[i])
  {
    seq(|chunks|, i requires 0 <= i < |chunks| => Binary(chunks[i]))
  }

  /** A long string goes out as binary chunks closed by the delimiter. */
  function Framed(payload: Bytes): seq<Message>
  {
    Binaries(Split(payload, CHUNK_SIZE)) + [DELIMITER]
  }

  function SayFramed(json: Json, d: Dto): seq<Message>
  {
    Framed(json.write(d))
  }

  /** What a reader makes of its queue: the binary data before the first text message (or
      before the end), and the rest after that message. */
  function Unframe(inbox: seq<Message>): (Bytes, seq<Message>)
  {
    if inbox == [] then ([], [])
    else if inbox[0].Text? then ([], inbox[1..])
    else
      var (payload, rest) := Unframe(inbox[1..]);
      (inbox[0].data + payload, rest)
  }

  lemma {:induction false} UnframeChunks(chunks: seq<Bytes>, rest: seq<Message>)
    ensures Unframe(Binaries(chunks) + [DELIMITER] + rest) == (Flatten(chunks), rest)
  {
    var inbox := Binaries(chunks) + [DELIMITER] + rest;
    if chunks == [] {
      assert inbox[1..] == rest;
    } else {
      UnframeChunks(chunks[1..], rest);
      assert inbox[1..] == Binaries(chunks[1..]) + [DELIMITER] + rest;
    }
  }

  /** Framing round trip: any payload, the empty one included, comes back unchanged and the
      messages behind it are left alone. */
  lemma FramingRoundTrip(payload: Bytes, rest: seq<Message>)
    ensures Unframe(Framed(payload) + rest) == (payload, rest)
  {
    SplitIsCanonical(payload, CHUNK_SIZE);
    UnframeChunks(Split(payload, CHUNK_SIZE), rest);
  }
}
