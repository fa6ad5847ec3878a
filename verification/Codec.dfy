/** The binary form in which values cross between the Rust core and the Dart user interface.
    Numbers stand in little-endian order, as on every machine the application runs on. */
module Codec {
  import opened Prelude
  import opened Signaling
  import opened Messages
  import Utf8

  /** A value read and the bytes behind it; or the reader panics. */
  datatype Read<+T> = Panic | Got(value: T, rest: Bytes)
  {
    predicate IsFailure() { Panic? }
    function PropagateFailure<U>(): Read<U> requires Panic? { Panic }
    function Extract(): (T, Bytes) requires Got? { (value, rest) }
  }

  datatype RTCStatus =
    | SdpExchanged | Connected | PinRequired | TooManyAttempts | Declined | Sending | Finished
    | RTCError(error: string)

  const TWO_31: int := 0x8000_0000
  const TWO_32: int := 0x1_0000_0000
  const TWO_64: int := 0x1_0000_0000_0000_0000

  type i32 = x: int | -TWO_31 <= x < TWO_31

  /** A length cast to `i32`, which keeps only the low 32 bits. */
  function AsI32(n: nat): (r: i32)
    ensures n < TWO_31 <==> r == n
  {
    var low := n % TWO_32;
    if low < TWO_31 then low else low - TWO_32
  }

  // ----- Numbers -----

  function EncNat(n: nat, width: nat): (b: Bytes)
    ensures |b| == width
  {
    LittleEndian(n, width)
  }

  function DecNat(width: nat, b: Bytes): (r: Read<nat>)
    ensures r.Got? ==> r.value < Power256(width)
  {
    if |b| < width then Panic
    else
      FromLittleEndianBound(b[..width]);
      Got(FromLittleEndian(b[..width]), b[width..])
  }

  function DecU16(b: Bytes): Read<u16>
  {
    var (n, rest) :- DecNat(2, b);
    Got(n, rest)
  }

  function EncI32(x: i32): Bytes { EncNat(if x < 0 then x + TWO_32 else x, 4) }

  function DecI32(b: Bytes): Read<i32>
  {
    var (n, rest) :- DecNat(4, b);
    Got(AsI32(n), rest)
  }

  function EncBool(x: bool): Bytes { if x then [1] else [0] }

  function DecBool(b: Bytes): Read<bool>
  {
    if b == [] then Panic else Got(b[0] != 0, b[1..])
  }

  // ----- Lists and options -----

  function EncItems<T>(items: seq<T>, enc: T -> Bytes): Bytes
  {
    if items == [] then [] else enc(items[0]) + EncItems(items[1..], enc)
  }

  function EncVec<T>(items: seq<T>, enc: T -> Bytes): Bytes
  {
    EncI32(AsI32(|items|)) + EncItems(items, enc)
  }

  function DecItems<T>(n: nat, dec: Bytes -> Read<T>, b: Bytes): Read<seq<T>>
  {
    if n == 0 then Got([], b)
    else
      var (item, b1) :- dec(b);
      var (items, b2) :- DecItems(n - 1, dec, b1);
      Got([item] + items, b2)
  }

  /** A negative length reads as an empty list. */
  function DecVec<T>(dec: Bytes -> Read<T>, b: Bytes): Read<seq<T>>
  {
    var (n, b1) :- DecI32(b);
    DecItems(if n < 0 then 0 else n, dec, b1)
  }

  function EncOption<T>(x: Option<T>, enc: T -> Bytes): Bytes
  {
    match x
    case None => EncBool(false)
    case Some(value) => EncBool(true) + enc(value)
  }

  function DecOption<T>(dec: Bytes -> Read<T>, b: Bytes): Read<Option<T>>
  {
    var (some, b1) :- DecBool(b);
    if !some then Got(None, b1)
    else
      var (value, b2) :- dec(b1);
      Got(Some(value), b2)
  }

  function EncByte(x: byte): Bytes { [x] }

  function DecByte(b: Bytes): Read<byte>
  {
    if b == [] then Panic else Got(b[0], b[1..])
  }

  function EncBytes(x: Bytes): Bytes { EncVec(x, EncByte) }

  function DecBytes(b: Bytes): Read<Bytes> { DecVec(DecByte, b) }

  // ----- Text and identifiers -----

  function EncString(s: string): Bytes { EncBytes(Utf8.Encode(s)) }

  function DecString(b: Bytes): Read<string>
  {
    var (bytes, rest) :- DecBytes(b);
    match Utf8.Decode(bytes)
    case Some(s) => Got(s, rest)
    case None => Panic
  }

  function EncUuid(id: Uuid): Bytes { EncBytes(id.bytes) }

  function DecUuid(b: Bytes): Read<Uuid>
  {
    var (bytes, rest) :- DecBytes(b);
    if |bytes| == 16 then Got(Uuid(bytes), rest) else Panic
  }

  function EncText(s: Option<string>): Bytes { EncOption(s, EncString) }

  function DecText(b: Bytes): Read<Option<string>> { DecOption(DecString, b) }

  // ----- Records -----

  function DeviceTag(d: DeviceType): i32
  {
    match d case Mobile => 0 case Desktop => 1 case Web => 2 case Headless => 3 case Server => 4
  }

  function EncDevice(d: DeviceType): Bytes { EncI32(DeviceTag(d)) }

  function DecDevice(b: Bytes): Read<DeviceType>
  {
    var (tag, rest) :- DecI32(b);
    if tag == 0 then Got(Mobile, rest)
    else if tag == 1 then Got(Desktop, rest)
    else if tag == 2 then Got(Web, rest)
    else if tag == 3 then Got(Headless, rest)
    else if tag == 4 then Got(Server, rest)
    else Panic
  }

  function EncClientInfo(c: ClientInfo): Bytes
  {
    EncUuid(c.id) + (EncString(c.info.alias) + (EncString(c.info.version) + (EncText(c.info.deviceModel)
      + (EncOption(c.info.deviceType, EncDevice) + EncString(c.info.token)))))
  }

  function DecClientInfo(b: Bytes): Read<ClientInfo>
  {
    var (id, b1) :- DecUuid(b);
    var (alias, b2) :- DecString(b1);
    var (version, b3) :- DecString(b2);
    var (deviceModel, b4) :- DecText(b3);
    var (deviceType, b5) :- DecOption(DecDevice, b4);
    var (token, b6) :- DecString(b5);
    Got(ClientInfo(id, ClientInfoWithoutId(alias, version, deviceModel, deviceType, token)), b6)
  }

  function EncMetadata(m: FileMetadata): Bytes { EncText(m.modified) + EncText(m.accessed) }

  function DecMetadata(b: Bytes): Read<FileMetadata>
  {
    var (modified, b1) :- DecText(b);
    var (accessed, b2) :- DecText(b1);
    Got(FileMetadata(modified, accessed), b2)
  }

  function EncFile(f: FileDto): Bytes
  {
    EncString(f.id) + (EncString(f.fileName) + (EncNat(f.size, 8) + (EncString(f.fileType)
      + (EncText(f.sha256) + (EncText(f.preview) + EncOption(f.metadata, EncMetadata))))))
  }

  function DecFile(b: Bytes): Read<FileDto>
  {
    var (id, b1) :- DecString(b);
    var (fileName, b2) :- DecString(b1);
    var (size, b3) :- DecNat(8, b2);
    var (fileType, b4) :- DecString(b3);
    var (sha256, b5) :- DecText(b4);
    var (preview, b6) :- DecText(b5);
    var (metadata, b7) :- DecOption(DecMetadata, b6);
    Got(FileDto(id, fileName, size, fileType, sha256, preview, metadata), b7)
  }

  function EncFiles(files: seq<FileDto>): Bytes { EncVec(files, EncFile) }

  function DecFiles(b: Bytes): Read<seq<FileDto>> { DecVec(DecFile, b) }

  /** A set goes out in the order in which its table is walked. */
  function EncStrings(order: seq<string>): Bytes { EncVec(order, EncString) }

  function DecStringSet(b: Bytes): Read<set<string>>
  {
    var (items, rest) :- DecVec(DecString, b);
    Got(set i | 0 <= i < |items| :: items[i], rest)
  }

  function EncStatus(s: RTCStatus): Bytes
  {
    match s
    case SdpExchanged => EncI32(0)
    case Connected => EncI32(1)
    case PinRequired => EncI32(2)
    case TooManyAttempts => EncI32(3)
    case Declined => EncI32(4)
    case Sending => EncI32(5)
    case Finished => EncI32(6)
    case RTCError(error) => EncI32(7) + EncString(error)
  }

  function DecStatus(b: Bytes): Read<RTCStatus>
  {
    var (tag, b1) :- DecI32(b);
    if tag == 0 then Got(SdpExchanged, b1)
    else if tag == 1 then Got(Connected, b1)
    else if tag == 2 then Got(PinRequired, b1)
    else if tag == 3 then Got(TooManyAttempts, b1)
    else if tag == 4 then Got(Declined, b1)
    else if tag == 5 then Got(Sending, b1)
    else if tag == 6 then Got(Finished, b1)
    else if tag == 7 then
      var (error, b2) :- DecString(b1);
      Got(RTCError(error), b2)
    else Panic
  }

  function EncSdp(m: WsServerSdpMessage): Bytes
  {
    EncClientInfo(m.peer) + (EncString(m.sessionId) + EncString(m.sdp))
  }

  function DecSdp(b: Bytes): Read<WsServerSdpMessage>
  {
    var (peer, b1) :- DecClientInfo(b);
    var (sessionId, b2) :- DecString(b1);
    var (sdp, b3) :- DecString(b2);
    Got(WsServerSdpMessage(peer, sessionId, sdp), b3)
  }

  function EncMessage(m: WsServerMessage): Bytes
  {
    match m
    case Hello(client, peers) => EncI32(0) + (EncClientInfo(client) + EncVec(peers, EncClientInfo))
    case Join(peer) => EncI32(1) + EncClientInfo(peer)
    case Update(peer) => EncI32(2) + EncClientInfo(peer)
    case Left(peerId) => EncI32(3) + EncUuid(peerId)
    case Offer(sdp) => EncI32(4) + EncSdp(sdp)
    case Answer(sdp) => EncI32(5) + EncSdp(sdp)
    case Error(code) => EncI32(6) + EncNat(code, 2)
  }

  function DecMessage(b: Bytes): Read<WsServerMessage>
  {
    var (tag, b1) :- DecI32(b);
    if tag == 0 then
      var (client, b2) :- DecClientInfo(b1);
      var (peers, b3) :- DecVec(DecClientInfo, b2);
      Got(Hello(client, peers), b3)
    else if tag == 1 then
      var (peer, b2) :- DecClientInfo(b1);
      Got(Join(peer), b2)
    else if tag == 2 then
      var (peer, b2) :- DecClientInfo(b1);
      Got(Update(peer), b2)
    else if tag == 3 then
      var (peerId, b2) :- DecUuid(b1);
      Got(Left(peerId), b2)
    else if tag == 4 then
      var (sdp, b2) :- DecSdp(b1);
      Got(Offer(sdp), b2)
    else if tag == 5 then
      var (sdp, b2) :- DecSdp(b1);
      Got(Answer(sdp), b2)
    else if tag == 6 then
      var (code, b2) :- DecU16(b1);
      Got(Error(code), b2)
    else Panic
  }

  // ----- Reading back what was written -----

  ghost predicate Reads<T(!new)>(enc: T -> Bytes, dec: Bytes -> Read<T>, x: T)
  {
    forall rest: Bytes :: dec(enc(x) + rest) == Got(x, rest)
  }

  lemma NatRound(n: nat, width: nat, rest: Bytes)
    requires n < Power256(width)
    ensures DecNat(width, EncNat(n, width) + rest) == Got(n, rest)
  {
    LittleEndianRound(n, width);
    var b := EncNat(n, width) + rest;
    assert b[..width] == EncNat(n, width) && b[width..] == rest;
  }

  lemma PowersOf256()
    ensures Power256(2) == 0x1_0000 && Power256(4) == TWO_32 && Power256(8) == TWO_64
  {
    assert Power256(1) == 256 && Power256(3) == 0x100_0000 && Power256(5) == 256 * TWO_32;
    assert Power256(6) == 0x1_0000 * TWO_32 && Power256(7) == 0x100_0000 * TWO_32;
  }

  lemma I32Round(x: i32, rest: Bytes)
    ensures DecI32(EncI32(x) + rest) == Got(x, rest)
  {
    PowersOf256();
    NatRound(if x < 0 then x + TWO_32 else x, 4, rest);
  }

  lemma BoolRound(x: bool, rest: Bytes)
    ensures DecBool(EncBool(x) + rest) == Got(x, rest)
  {
    assert (EncBool(x) + rest)[1..] == rest;
  }

  lemma {:induction false} ItemsRound<T(!new)>(items: seq<T>, enc: T -> Bytes, dec: Bytes -> Read<T>, rest: Bytes)
    requires forall i :: 0 <= i < |items| ==> Reads(enc, dec, items[i])
    ensures DecItems(|items|, dec, EncItems(items, enc) + rest) == Got(items, rest)
  {
    if items == [] {
      assert EncItems(items, enc) + rest == rest;
    } else {
      var tail := EncItems(items[1..], enc) + rest;
      assert EncItems(items, enc) + rest == enc(items[0]) + tail;
      assert Reads(enc, dec, items[0]);
      forall i | 0 <= i < |items[1..]| ensures Reads(enc, dec, items[1..][i]) {
        assert items[1..][i] == items[i + 1];
      }
      ItemsRound(items[1..], enc, dec, rest);
      assert DecItems(|items| - 1, dec, tail) == Got(items[1..], rest);
      assert [items[0]] + items[1..] == items;
    }
  }

  lemma VecRound<T(!new)>(items: seq<T>, enc: T -> Bytes, dec: Bytes -> Read<T>, rest: Bytes)
    requires |items| < TWO_31
    requires forall i :: 0 <= i < |items| ==> Reads(enc, dec, items[i])
    ensures DecVec(dec, EncVec(items, enc) + rest) == Got(items, rest)
  {
    var tail := EncItems(items, enc) + rest;
    Assoc(EncI32(|items|), EncItems(items, enc), rest);
    I32Round(|items|, tail);
    ItemsRound(items, enc, dec, rest);
  }

  lemma OptionRound<T(!new)>(x: Option<T>, enc: T -> Bytes, dec: Bytes -> Read<T>, rest: Bytes)
    requires x.Some? ==> Reads(enc, dec, x.value)
    ensures DecOption(dec, EncOption(x, enc) + rest) == Got(x, rest)
  {
    match x
    case None => BoolRound(false, rest);
    case Some(value) =>
      Assoc(EncBool(true), enc(value), rest);
      BoolRound(true, enc(value) + rest);
  }

  /** Bytes come back exactly if there are fewer than 2^31 of them; from there on the length
      that is written is negative or too small. */
  lemma BytesRoundExactly(x: Bytes, rest: Bytes)
    ensures DecBytes(EncBytes(x) + rest) == Got(x, rest) <==> |x| < TWO_31
  {
    if |x| < TWO_31 {
      forall i | 0 <= i < |x| ensures Reads(EncByte, DecByte, x[i]) {
        forall more: Bytes ensures DecByte(EncByte(x[i]) + more) == Got(x[i], more) {
          assert (EncByte(x[i]) + more)[1..] == more;
        }
      }
      VecRound(x, EncByte, DecByte, rest);
    } else {
      var n := AsI32(|x|);
      Assoc(EncI32(n), EncItems(x, EncByte), rest);
      I32Round(n, EncItems(x, EncByte) + rest);
      ItemsRead(if n < 0 then 0 else n, DecByte, EncItems(x, EncByte) + rest);
    }
  }

  /** No more and no fewer items are read than asked for. */
  lemma {:induction false} ItemsRead<T>(n: nat, dec: Bytes -> Read<T>, b: Bytes)
    ensures DecItems(n, dec, b).Got? ==> |DecItems(n, dec, b).value| == n
    decreases n
  {
    if n > 0 && dec(b).Got? {
      ItemsRead(n - 1, dec, dec(b).rest);
    }
  }

  // ----- What fits -----

  predicate FitsString(s: string) { |Utf8.Encode(s)| < TWO_31 }

  predicate FitsText(s: Option<string>) { s.Some? ==> FitsString(s.value) }

  predicate FitsUuid(id: Uuid) { |id.bytes| == 16 }

  predicate FitsInfo(c: ClientInfo)
  {
    && FitsUuid(c.id) && FitsString(c.info.alias) && FitsString(c.info.version)
    && FitsText(c.info.deviceModel) && FitsString(c.info.token)
  }

  predicate FitsMetadata(m: FileMetadata) { FitsText(m.modified) && FitsText(m.accessed) }

  predicate FitsFile(f: FileDto)
  {
    && FitsString(f.id) && FitsString(f.fileName) && f.size < TWO_64 && FitsString(f.fileType)
    && FitsText(f.sha256) && FitsText(f.preview) && (f.metadata.Some? ==> FitsMetadata(f.metadata.value))
  }

  predicate FitsFiles(files: seq<FileDto>)
  {
    |files| < TWO_31 && forall i :: 0 <= i < |files| ==> FitsFile(files[i])
  }

  predicate FitsStatus(s: RTCStatus) { s.RTCError? ==> FitsString(s.error) }

  predicate FitsSdp(m: WsServerSdpMessage) { FitsInfo(m.peer) && FitsString(m.sessionId) && FitsString(m.sdp) }

  predicate FitsMessage(m: WsServerMessage)
  {
    match m
    case Hello(client, peers) =>
      FitsInfo(client) && |peers| < TWO_31 && forall i :: 0 <= i < |peers| ==> FitsInfo(peers[i])
    case Join(peer) => FitsInfo(peer)
    case Update(peer) => FitsInfo(peer)
    case Left(peerId) => FitsUuid(peerId)
    case Offer(sdp) => FitsSdp(sdp)
    case Answer(sdp) => FitsSdp(sdp)
    case Error(_) => true
  }

  // ----- Round trips -----

  lemma StringRound(s: string, rest: Bytes)
    requires FitsString(s)
    ensures DecString(EncString(s) + rest) == Got(s, rest)
  {
    BytesRoundExactly(Utf8.Encode(s), rest);
    Utf8.DecodeEncode(s);
  }

  lemma StringReads(s: string)
    requires FitsString(s)
    ensures Reads(EncString, DecString, s)
  {
    forall rest: Bytes ensures DecString(EncString(s) + rest) == Got(s, rest) {
      StringRound(s, rest);
    }
  }

  lemma TextRound(s: Option<string>, rest: Bytes)
    requires FitsText(s)
    ensures DecText(EncText(s) + rest) == Got(s, rest)
  {
    if s.Some? {
      StringReads(s.value);
    }
    OptionRound(s, EncString, DecString, rest);
  }

  lemma UuidRound(id: Uuid, rest: Bytes)
    requires FitsUuid(id)
    ensures DecUuid(EncUuid(id) + rest) == Got(id, rest)
  {
    BytesRoundExactly(id.bytes, rest);
  }

  lemma DeviceRound(d: Option<DeviceType>, rest: Bytes)
    ensures DecOption(DecDevice, EncOption(d, EncDevice) + rest) == Got(d, rest)
  {
    if d.Some? {
      forall more: Bytes ensures DecDevice(EncDevice(d.value) + more) == Got(d.value, more) {
        I32Round(DeviceTag(d.value), more);
      }
    }
    OptionRound(d, EncDevice, DecDevice, rest);
  }

  lemma ClientInfoRound(c: ClientInfo, rest: Bytes)
    requires FitsInfo(c)
    ensures DecClientInfo(EncClientInfo(c) + rest) == Got(c, rest)
  {
    hide EncUuid, EncString, EncText, EncOption, DecUuid, DecString, DecText, DecOption, FitsString;
    var i := c.info;
    var e2, e3, e4, e5, e6 := EncString(i.alias), EncString(i.version), EncText(i.deviceModel),
      EncOption(i.deviceType, EncDevice), EncString(i.token);
    var r5 := e6 + rest;
    var r4 := e5 + r5;
    var r3 := e4 + r4;
    var r2 := e3 + r3;
    var r1 := e2 + r2;
    assert EncClientInfo(c) + rest == EncUuid(c.id) + r1 by {
      Assoc(e5, e6, rest);
      Assoc(e4, e5 + e6, rest);
      Assoc(e3, e4 + (e5 + e6), rest);
      Assoc(e2, e3 + (e4 + (e5 + e6)), rest);
      Assoc(EncUuid(c.id), e2 + (e3 + (e4 + (e5 + e6))), rest);
    }
    UuidRound(c.id, r1);
    StringRound(i.alias, r2);
    StringRound(i.version, r3);
    TextRound(i.deviceModel, r4);
    DeviceRound(i.deviceType, r5);
    StringRound(i.token, rest);
  }

  lemma MetadataRound(m: Option<FileMetadata>, rest: Bytes)
    requires m.Some? ==> FitsMetadata(m.value)
    ensures DecOption(DecMetadata, EncOption(m, EncMetadata) + rest) == Got(m, rest)
  {
    hide EncText, DecText, FitsText, EncOption, DecOption;
    if m.Some? {
      forall more: Bytes ensures DecMetadata(EncMetadata(m.value) + more) == Got(m.value, more) {
        Assoc(EncText(m.value.modified), EncText(m.value.accessed), more);
        TextRound(m.value.modified, EncText(m.value.accessed) + more);
        TextRound(m.value.accessed, more);
      }
    }
    OptionRound(m, EncMetadata, DecMetadata, rest);
  }

  lemma FileRound(f: FileDto, rest: Bytes)
    requires FitsFile(f)
    ensures DecFile(EncFile(f) + rest) == Got(f, rest)
  {
    hide EncNat, EncString, EncText, EncOption, DecNat, DecString, DecText, DecOption, FitsString, FitsText;
    var e2, e3, e4, e5, e6, e7 := EncString(f.fileName), EncNat(f.size, 8), EncString(f.fileType), EncText(f.sha256),
      EncText(f.preview), EncOption(f.metadata, EncMetadata);
    var r6 := e7 + rest;
    var r5 := e6 + r6;
    var r4 := e5 + r5;
    var r3 := e4 + r4;
    var r2 := e3 + r3;
    var r1 := e2 + r2;
    assert EncFile(f) + rest == EncString(f.id) + r1 by {
      Assoc(e6, e7, rest);
      Assoc(e5, e6 + e7, rest);
      Assoc(e4, e5 + (e6 + e7), rest);
      Assoc(e3, e4 + (e5 + (e6 + e7)), rest);
      Assoc(e2, e3 + (e4 + (e5 + (e6 + e7))), rest);
      Assoc(EncString(f.id), e2 + (e3 + (e4 + (e5 + (e6 + e7)))), rest);
    }
    PowersOf256();
    StringRound(f.id, r1);
    StringRound(f.fileName, r2);
    NatRound(f.size, 8, r3);
    StringRound(f.fileType, r4);
    TextRound(f.sha256, r5);
    TextRound(f.preview, r6);
    MetadataRound(f.metadata, rest);
  }

  lemma FilesRound(files: seq<FileDto>, rest: Bytes)
    requires FitsFiles(files)
    ensures DecFiles(EncFiles(files) + rest) == Got(files, rest)
  {
    hide EncFile, DecFile, FitsFile;
    forall i | 0 <= i < |files| ensures Reads(EncFile, DecFile, files[i]) {
      forall more: Bytes ensures DecFile(EncFile(files[i]) + more) == Got(files[i], more) {
        FileRound(files[i], more);
      }
    }
    VecRound(files, EncFile, DecFile, rest);
  }

  /** Whatever the order in which a set is written, the same set is read. */
  lemma StringSetRound(s: set<string>, order: seq<string>, rest: Bytes)
    requires |order| < TWO_31 && (forall x :: x in order <==> x in s) && forall x :: x in s ==> FitsString(x)
    ensures DecStringSet(EncStrings(order) + rest) == Got(s, rest)
  {
    hide EncString, DecString, FitsString;
    forall i | 0 <= i < |order| ensures Reads(EncString, DecString, order[i]) {
      assert order[i] in s;
      StringReads(order[i]);
    }
    VecRound(order, EncString, DecString, rest);
    assert (set i | 0 <= i < |order| :: order[i]) == s;
  }

  lemma StatusRound(s: RTCStatus, rest: Bytes)
    requires FitsStatus(s)
    ensures DecStatus(EncStatus(s) + rest) == Got(s, rest)
  {
    hide EncI32, DecI32, EncString, DecString;
    I32Round(0, rest);
    I32Round(1, rest);
    I32Round(2, rest);
    I32Round(3, rest);
    I32Round(4, rest);
    I32Round(5, rest);
    I32Round(6, rest);
    if s.RTCError? {
      Assoc(EncI32(7), EncString(s.error), rest);
      I32Round(7, EncString(s.error) + rest);
      StringRound(s.error, rest);
    }
  }

  lemma SdpRound(m: WsServerSdpMessage, rest: Bytes)
    requires FitsSdp(m)
    ensures DecSdp(EncSdp(m) + rest) == Got(m, rest)
  {
    hide EncClientInfo, DecClientInfo, EncString, DecString, FitsInfo, FitsString;
    Assoc(EncString(m.sessionId), EncString(m.sdp), rest);
    Assoc(EncClientInfo(m.peer), EncString(m.sessionId) + EncString(m.sdp), rest);
    ClientInfoRound(m.peer, EncString(m.sessionId) + (EncString(m.sdp) + rest));
    StringRound(m.sessionId, EncString(m.sdp) + rest);
    StringRound(m.sdp, rest);
  }

  lemma PeersRound(peers: seq<ClientInfo>, rest: Bytes)
    requires |peers| < TWO_31 && forall i :: 0 <= i < |peers| ==> FitsInfo(peers[i])
    ensures DecVec(DecClientInfo, EncVec(peers, EncClientInfo) + rest) == Got(peers, rest)
  {
    hide EncClientInfo, DecClientInfo, FitsInfo;
    forall i | 0 <= i < |peers| ensures Reads(EncClientInfo, DecClientInfo, peers[i]) {
      forall more: Bytes ensures DecClientInfo(EncClientInfo(peers[i]) + more) == Got(peers[i], more) {
        ClientInfoRound(peers[i], more);
      }
    }
    VecRound(peers, EncClientInfo, DecClientInfo, rest);
  }

  /** Any message of the signaling server comes back unchanged, and so does what is behind it. */
  lemma MessageRound(m: WsServerMessage, rest: Bytes)
    requires FitsMessage(m)
    ensures DecMessage(EncMessage(m) + rest) == Got(m, rest)
  {
    hide EncI32, DecI32, EncClientInfo, DecClientInfo, EncVec, DecVec, EncUuid, DecUuid, EncSdp, DecSdp, EncNat, DecNat;
    hide FitsInfo, FitsSdp, FitsUuid;
    match m
    case Hello(client, peers) =>
      var tail := EncVec(peers, EncClientInfo) + rest;
      Assoc(EncClientInfo(client), EncVec(peers, EncClientInfo), rest);
      Tagged(0, EncClientInfo(client) + EncVec(peers, EncClientInfo), rest);
      ClientInfoRound(client, tail);
      PeersRound(peers, rest);
    case Join(peer) =>
      Tagged(1, EncClientInfo(peer), rest);
      ClientInfoRound(peer, rest);
    case Update(peer) =>
      Tagged(2, EncClientInfo(peer), rest);
      ClientInfoRound(peer, rest);
    case Left(peerId) =>
      Tagged(3, EncUuid(peerId), rest);
      UuidRound(peerId, rest);
    case Offer(sdp) =>
      Tagged(4, EncSdp(sdp), rest);
      SdpRound(sdp, rest);
    case Answer(sdp) =>
      Tagged(5, EncSdp(sdp), rest);
      SdpRound(sdp, rest);
    case Error(code) =>
      Tagged(6, EncNat(code, 2), rest);
      PowersOf256();
      NatRound(code, 2, rest);
  }

  lemma Tagged(tag: i32, body: Bytes, rest: Bytes)
    ensures EncI32(tag) + body + rest == EncI32(tag) + (body + rest)
    ensures DecI32(EncI32(tag) + body + rest) == Got(tag, body + rest)
  {
    Assoc(EncI32(tag), body, rest);
    I32Round(tag, body + rest);
  }

  /** No encoding is a proper prefix of another, and no two values share one. */
  lemma PrefixFree(a: WsServerMessage, b: WsServerMessage, x: Bytes, y: Bytes)
    requires FitsMessage(a) && FitsMessage(b) && EncMessage(a) + x == EncMessage(b) + y
    ensures a == b && x == y
  {
    MessageRound(a, x);
    MessageRound(b, y);
  }

  lemma StatusPrefixFree(a: RTCStatus, b: RTCStatus, x: Bytes, y: Bytes)
    requires FitsStatus(a) && FitsStatus(b) && EncStatus(a) + x == EncStatus(b) + y
    ensures a == b && x == y
  {
    StatusRound(a, x);
    StatusRound(b, y);
  }

  lemma FilesPrefixFree(a: seq<FileDto>, b: seq<FileDto>, x: Bytes, y: Bytes)
    requires FitsFiles(a) && FitsFiles(b) && EncFiles(a) + x == EncFiles(b) + y
    ensures a == b && x == y
  {
    FilesRound(a, x);
    FilesRound(b, y);
  }
}
