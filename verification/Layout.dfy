/** The bytes themselves: what stands where in an encoded value. */
module Layout {
  import opened Prelude
  import opened Signaling
  import opened Messages
  import opened Codec
  import Utf8

  /** The low 32 bits of a number, the lowest byte first. */
  function Four(n: nat): (b: Bytes)
    ensures |b| == 4
  {
    [n % 0x100, n / 0x100 % 0x100, n / 0x1_0000 % 0x100, n / 0x100_0000 % 0x100]
  }

  /** A series of bytes behind its length. */
  function Counted(b: Bytes): Bytes { Four(|b|) + b }

  function Str(s: string): Bytes { Counted(Utf8.Encode(s)) }

  function Maybe(s: Option<string>): Bytes
  {
    if s.None? then [0] else [1] + Str(s.value)
  }

  function Device(d: Option<DeviceType>): Bytes
  {
    match d
    case None => [0]
    case Some(Mobile) => [1, 0, 0, 0, 0]
    case Some(Desktop) => [1, 1, 0, 0, 0]
    case Some(Web) => [1, 2, 0, 0, 0]
    case Some(Headless) => [1, 3, 0, 0, 0]
    case Some(Server) => [1, 4, 0, 0, 0]
  }

  function Client(c: ClientInfo): Bytes
  {
    Counted(c.id.bytes) + Str(c.info.alias) + Str(c.info.version) + Maybe(c.info.deviceModel)
    + Device(c.info.deviceType) + Str(c.info.token)
  }

  function Clients(cs: seq<ClientInfo>): Bytes
  {
    if cs == [] then [] else Client(cs[0]) + Clients(cs[1..])
  }

  function Sdp(x: WsServerSdpMessage): Bytes { Client(x.peer) + Str(x.sessionId) + Str(x.sdp) }

  function File(f: FileDto): Bytes
  {
    Str(f.id) + Str(f.fileName) + (Four(f.size) + Four(f.size / 0x1_0000_0000)) + Str(f.fileType)
    + Maybe(f.sha256) + Maybe(f.preview)
    + if f.metadata.None? then [0]
      else [1] + Maybe(f.metadata.value.modified) + Maybe(f.metadata.value.accessed)
  }

  function Files(fs: seq<FileDto>): Bytes
  {
    if fs == [] then [] else File(fs[0]) + Files(fs[1..])
  }

  lemma Shifts(n: nat)
    ensures n / 0x100 / 0x100 == n / 0x1_0000
    ensures n / 0x1_0000 / 0x100 == n / 0x100_0000
    ensures n / 0x100_0000 / 0x100 == n / 0x1_0000_0000
  {
  }

  /** Four bytes more of a number in little-endian order. */
  lemma FourMore(n: nat, width: nat)
    ensures LittleEndian(n, width + 4) == Four(n) + LittleEndian(n / 0x1_0000_0000, width)
  {
    hide LittleEndian;
    var n1, n2, n3, n4 := n / 0x100, n / 0x1_0000, n / 0x100_0000, n / 0x1_0000_0000;
    Shifts(n);
    OneMore(n3, n4, width);
    OneMore(n2, n3, width + 1);
    OneMore(n1, n2, width + 2);
    OneMore(n, n1, width + 3);
  }

  lemma OneMore(n: nat, high: nat, width: nat)
    requires n / 0x100 == high
    ensures LittleEndian(n, width + 1) == [n % 0x100] + LittleEndian(high, width)
  {
  }

  lemma NumberBytes(n: nat)
    ensures EncNat(n, 8) == Four(n) + Four(n / 0x1_0000_0000)
    ensures EncNat(n, 2) == [n % 0x100, n / 0x100 % 0x100]
  {
    FourMore(n, 4);
    FourMore(n / 0x1_0000_0000, 0);
    assert LittleEndian(n / 0x100, 1) == [n / 0x100 % 0x100] + LittleEndian(n / 0x100 / 0x100, 0);
  }

  /** A length keeps its low 32 bits. */
  lemma LengthBytes(n: nat)
    ensures EncI32(AsI32(n)) == Four(n)
  {
    hide EncI32, AsI32, Four;
    var low := n % TWO_32;
    FourMore(low, 0);
    assert EncNat(low, 4) == Four(low) + LittleEndian(low / 0x1_0000_0000, 0);
    LowBytes(n, n / TWO_32, low);
    Unsigned(n);
  }

  lemma Unsigned(n: nat)
    ensures EncI32(AsI32(n)) == EncNat(n % TWO_32, 4)
  {
  }

  lemma LowBytes(n: nat, high: nat, low: nat)
    requires n == 0x1_0000_0000 * high + low && low < 0x1_0000_0000
    ensures Four(n) == Four(low)
  {
    FirstByte(n, 0x100_0000 * high, low);
    assert n / 0x100 == 0x100_0000 * high + low / 0x100;
    FirstByte(n / 0x100, 0x1_0000 * high, low / 0x100);
    assert n / 0x1_0000 == 0x1_0000 * high + low / 0x1_0000;
    FirstByte(n / 0x1_0000, 0x100 * high, low / 0x1_0000);
    assert n / 0x100_0000 == 0x100 * high + low / 0x100_0000;
    FirstByte(n / 0x100_0000, high, low / 0x100_0000);
  }

  lemma FirstByte(n: nat, k: nat, low: nat)
    requires n == 0x100 * k + low
    ensures n % 0x100 == low % 0x100
  {
  }

  lemma TagBytes(tag: nat)
    requires tag < 0x100
    ensures EncI32(tag) == [tag, 0, 0, 0]
  {
    FourMore(tag, 0);
  }

  lemma {:induction false} ItemBytes(b: Bytes)
    ensures EncItems(b, EncByte) == b
  {
    if b != [] {
      ItemBytes(b[1..]);
      assert b == [b[0]] + b[1..];
    }
  }

  lemma SeriesBytes(b: Bytes)
    ensures EncBytes(b) == Counted(b)
  {
    LengthBytes(|b|);
    ItemBytes(b);
  }

  lemma TextBytes(s: Option<string>)
    ensures EncText(s) == Maybe(s)
  {
    if s.Some? {
      SeriesBytes(Utf8.Encode(s.value));
    }
  }

  lemma DeviceBytes(d: Option<DeviceType>)
    ensures EncOption(d, EncDevice) == Device(d)
  {
    if d.Some? {
      TagBytes(DeviceTag(d.value));
    }
  }

  /** A client's description, field by field. */
  lemma ClientBytes(c: ClientInfo)
    ensures EncClientInfo(c) == Client(c)
  {
    hide EncBytes, EncText, Counted, Maybe, Device, EncOption;
    SeriesBytes(c.id.bytes);
    SeriesBytes(Utf8.Encode(c.info.alias));
    SeriesBytes(Utf8.Encode(c.info.version));
    TextBytes(c.info.deviceModel);
    DeviceBytes(c.info.deviceType);
    SeriesBytes(Utf8.Encode(c.info.token));
  }

  lemma {:induction false} ClientsBytes(cs: seq<ClientInfo>)
    ensures EncItems(cs, EncClientInfo) == Clients(cs)
  {
    hide EncClientInfo, Client;
    if cs != [] {
      ClientBytes(cs[0]);
      ClientsBytes(cs[1..]);
    }
  }

  lemma SdpBytes(x: WsServerSdpMessage)
    ensures EncSdp(x) == Sdp(x)
  {
    hide EncBytes, Counted, EncClientInfo, Client;
    ClientBytes(x.peer);
    SeriesBytes(Utf8.Encode(x.sessionId));
    SeriesBytes(Utf8.Encode(x.sdp));
  }

  /** A signaling message: its tag, and its fields in order. */
  lemma MessageBytes(m: WsServerMessage)
    ensures EncMessage(m) ==
      match m
      case Hello(client, peers) => [0, 0, 0, 0] + Client(client) + Four(|peers|) + Clients(peers)
      case Join(peer) => [1, 0, 0, 0] + Client(peer)
      case Update(peer) => [2, 0, 0, 0] + Client(peer)
      case Left(id) => [3, 0, 0, 0] + Counted(id.bytes)
      case Offer(x) => [4, 0, 0, 0] + Sdp(x)
      case Answer(x) => [5, 0, 0, 0] + Sdp(x)
      case Error(code) => [6, 0, 0, 0, code % 0x100, code / 0x100 % 0x100]
  {
    hide EncI32, EncBytes, EncSdp, Sdp, EncClientInfo, Client, EncItems, Clients, Four, Counted, EncNat;
    match m
    case Hello(client, peers) =>
      TagBytes(0);
      ClientBytes(client);
      ClientsBytes(peers);
      LengthBytes(|peers|);
    case Join(peer) => TagBytes(1); ClientBytes(peer);
    case Update(peer) => TagBytes(2); ClientBytes(peer);
    case Left(id) => TagBytes(3); SeriesBytes(id.bytes);
    case Offer(x) => TagBytes(4); SdpBytes(x);
    case Answer(x) => TagBytes(5); SdpBytes(x);
    case Error(code) => TagBytes(6); NumberBytes(code);
  }

  lemma StatusBytes(s: RTCStatus)
    ensures EncStatus(s) ==
      match s
      case SdpExchanged => [0, 0, 0, 0]
      case Connected => [1, 0, 0, 0]
      case PinRequired => [2, 0, 0, 0]
      case TooManyAttempts => [3, 0, 0, 0]
      case Declined => [4, 0, 0, 0]
      case Sending => [5, 0, 0, 0]
      case Finished => [6, 0, 0, 0]
      case RTCError(error) => [7, 0, 0, 0] + Str(error)
  {
    hide EncI32, EncBytes, Counted;
    forall tag: nat | tag < 8 ensures EncI32(tag) == [tag, 0, 0, 0] {
      TagBytes(tag);
    }
    if s.RTCError? {
      SeriesBytes(Utf8.Encode(s.error));
    }
  }

  lemma MetadataBytes(m: Option<FileMetadata>)
    ensures EncOption(m, EncMetadata)
      == if m.None? then [0] else [1] + Maybe(m.value.modified) + Maybe(m.value.accessed)
  {
    hide EncText, Maybe;
    if m.Some? {
      TextBytes(m.value.modified);
      TextBytes(m.value.accessed);
    }
  }

  /** A file's entry in the list of an offer, field by field. */
  lemma FileBytes(f: FileDto)
    ensures EncFile(f) == File(f)
  {
    hide EncBytes, EncText, Counted, Maybe, EncOption, EncNat, Four;
    SeriesBytes(Utf8.Encode(f.id));
    SeriesBytes(Utf8.Encode(f.fileName));
    NumberBytes(f.size);
    SeriesBytes(Utf8.Encode(f.fileType));
    TextBytes(f.sha256);
    TextBytes(f.preview);
    MetadataBytes(f.metadata);
  }

  lemma {:induction false} FilesBytes(fs: seq<FileDto>)
    ensures EncItems(fs, EncFile) == Files(fs) && EncFiles(fs) == Four(|fs|) + Files(fs)
  {
    hide EncFile, File, Four, EncI32;
    LengthBytes(|fs|);
    if fs != [] {
      FileBytes(fs[0]);
      FilesBytes(fs[1..]);
    }
  }

  // ----- What a reader takes, of any bytes at all -----

  /** A length with the highest bit set reads as that of an empty series. */
  predicate NegativeLength(b: Bytes) { |b| >= 4 && b[3] >= 0x80 }

  lemma {:induction false} ItemsTaken(n: nat, b: Bytes)
    ensures DecItems(n, DecByte, b) == if |b| < n then Panic else Got(b[..n], b[n..])
  {
    if n > 0 && b != [] {
      ItemsTaken(n - 1, b[1..]);
      if |b| >= n {
        assert [b[0]] + b[1..][..n - 1] == b[..n] && b[1..][n - 1..] == b[n..];
      }
    } else if n == 0 {
      assert b[..0] == [] && b[0..] == b;
    }
  }

  /** The number in the first four bytes. */
  lemma LengthTaken(b: Bytes) returns (n: nat)
    requires |b| >= 4
    ensures b[..4] == Four(n) && n < TWO_32 && (n >= TWO_31 <==> NegativeLength(b))
    ensures DecI32(b) == Got(if n < TWO_31 then n else n - TWO_32, b[4..])
  {
    n := FromLittleEndian(b[..4]);
    FromLittleEndianBound(b[..4]);
    PowersOf256();
    FourMore(n, 0);
    TopBit(b[..4]);
  }

  lemma TopBit(b: Bytes)
    requires |b| == 4
    ensures FromLittleEndian(b) >= 0x8000_0000 <==> b[3] >= 0x80
  {
    hide FromLittleEndian;
    var b0: int, b1: int, b2: int, b3: int := b[0], b[1], b[2], b[3];
    Next(b, [b[1], b[2], b[3]]);
    Next([b[1], b[2], b[3]], [b[2], b[3]]);
    Next([b[2], b[3]], [b[3]]);
    Next([b[3]], []);
    assert FromLittleEndian(b) == b0 + 256 * (b1 + 256 * (b2 + 256 * b3));
  }

  lemma Next(b: Bytes, rest: Bytes)
    requires b != [] && b[1..] == rest
    ensures FromLittleEndian(b) == b[0] + 256 * FromLittleEndian(rest)
    ensures FromLittleEndian([]) == 0
  {
  }

  lemma FourIsOne(m: nat, n: nat)
    requires m < TWO_32 && n < TWO_32 && Four(m) == Four(n)
    ensures m == n
  {
    FourMore(m, 0);
    FourMore(n, 0);
    PowersOf256();
    LittleEndianRound(m, 4);
    LittleEndianRound(n, 4);
  }

  /** A series of bytes is read exactly from itself behind its length, an empty one also from any
      negative length. */
  lemma SeriesTaken(b: Bytes, x: Bytes, rest: Bytes)
    ensures DecBytes(b) == Got(x, rest) <==>
      (|x| < TWO_31 && b == Counted(x) + rest) || (x == [] && NegativeLength(b) && rest == b[4..])
  {
    hide DecI32, DecItems, Four, NegativeLength;
    ShortSeries(b);
    if |b| >= 4 {
      var n := LengthTaken(b);
      var size := if n < TWO_31 then n else 0;
      ItemsTaken(size, b[4..]);
      assert b == Four(n) + b[4..];
      if DecBytes(b) == Got(x, rest) && n < TWO_31 {
        assert x == b[4..][..n] && rest == b[4..][n..];
        assert b[4..] == x + rest;
        Assoc(Four(n), x, rest);
      }
      if |x| < TWO_31 && b == Counted(x) + rest {
        Assoc(Four(|x|), x, rest);
        SameHead(Four(n), b[4..], Four(|x|), x + rest);
        FourIsOne(n, |x|);
        assert (x + rest)[..|x|] == x && (x + rest)[|x|..] == rest;
      }
    }
  }

  lemma SameHead(a: Bytes, x: Bytes, b: Bytes, y: Bytes)
    requires |a| == |b| && a + x == b + y
    ensures a == b && x == y
  {
    assert a == (a + x)[..|a|] && b == (b + y)[..|b|];
    assert x == (a + x)[|a|..] && y == (b + y)[|b|..];
  }

  lemma ShortSeries(b: Bytes)
    ensures |b| < 4 ==> DecBytes(b) == Panic && !NegativeLength(b)
  {
  }

  lemma StringTaken(b: Bytes, s: string, rest: Bytes)
    ensures DecString(b) == Got(s, rest) <==>
      (|Utf8.Encode(s)| < TWO_31 && b == Str(s) + rest) || (s == "" && NegativeLength(b) && rest == b[4..])
  {
    hide DecBytes, Counted;
    SeriesTaken(b, Utf8.Encode(s), rest);
    Utf8.DecodeEncode(s);
    match DecBytes(b)
    case Panic =>
    case Got(bytes, _) =>
      if Utf8.Decode(bytes).Some? {
        Utf8.EncodeDecode(bytes);
      }
  }

  /** An identifier takes sixteen bytes, no more and no fewer. */
  lemma UuidTaken(b: Bytes, id: Uuid, rest: Bytes)
    ensures DecUuid(b) == Got(id, rest) <==> |id.bytes| == 16 && b == [16, 0, 0, 0] + id.bytes + rest
  {
    hide DecBytes, NegativeLength;
    SeriesTaken(b, id.bytes, rest);
    Assoc(Four(16), id.bytes, rest);
  }

  /** Any flag but zero announces a value. */
  lemma TextTaken(b: Bytes, s: Option<string>, rest: Bytes)
    ensures DecText(b) == Got(s, rest) <==>
      b != [] && if b[0] == 0 then s == None && rest == b[1..] else s.Some? && DecString(b[1..]) == Got(s.value, rest)
  {
  }
}
