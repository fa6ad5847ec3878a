/** The codec as it runs: a writer that appends at its cursor, and a reader that moves its
    cursor on. Each call writes what the encoding of its value says, or reads what the decoding
    of the bytes at the cursor says. */
module Cursors {
  import opened Prelude
  import opened Signaling
  import opened Messages
  import opened Codec
  import Utf8

  /** What a read comes to: a value, or a panic, which unwinds through every caller. */
  datatype Out<+T> = Panicked | Value(value: T)
  {
    predicate IsFailure() { Panicked? }
    function PropagateFailure<U>(): Out<U> requires Panicked? { Panicked }
    function Extract(): T requires Value? { value }
  }

  lemma {:induction false} ItemsSnoc<T>(items: seq<T>, i: nat, enc: T -> Bytes)
    requires i < |items|
    ensures EncItems(items[..i + 1], enc) == EncItems(items[..i], enc) + enc(items[i])
  {
    if i == 0 {
      assert items[..1][1..] == [] && items[..0] == [];
    } else {
      ItemsSnoc(items[1..], i - 1, enc);
      assert items[..i + 1][1..] == items[1..][..i] && items[..i][1..] == items[1..][..i - 1];
      Assoc(enc(items[0]), EncItems(items[1..][..i - 1], enc), enc(items[i]));
    }
  }

  /** One more item of a list is behind `start`. */
  lemma OneMore<T>(start: Bytes, items: seq<T>, i: nat, enc: T -> Bytes)
    requires i < |items|
    ensures start + EncItems(items[..i], enc) + enc(items[i]) == start + EncItems(items[..i + 1], enc)
  {
    ItemsSnoc(items, i, enc);
    Assoc(start, EncItems(items[..i], enc), enc(items[i]));
  }

  class Serializer {
    var written: Bytes

    constructor ()
      ensures written == []
    {
      written := [];
    }

    method PutNumber(n: nat, width: nat)
      modifies this
      ensures written == old(written) + EncNat(n, width)
    {
      written := written + EncNat(n, width);
    }

    method PutI32(x: i32)
      modifies this
      ensures written == old(written) + EncI32(x)
    {
      PutNumber(if x < 0 then x + TWO_32 else x, 4);
    }

    method PutBool(x: bool)
      modifies this
      ensures written == old(written) + EncBool(x)
    {
      written := written + EncBool(x);
    }

    method PutBytes(items: seq<byte>)
      modifies this
      ensures written == old(written) + EncVec(items, EncByte)
    {
      PutI32(AsI32(|items|));
      ghost var start := written;
      for i := 0 to |items|
        invariant written == start + EncItems(items[..i], EncByte)
      {
        written := written + EncByte(items[i]);
        OneMore(start, items, i, EncByte);
      }
      assert items[..|items|] == items;
      Assoc(old(written), EncI32(AsI32(|items|)), EncItems(items, EncByte));
    }

    method PutString(s: string)
      modifies this
      ensures written == old(written) + EncString(s)
    {
      PutBytes(Utf8.Encode(s));
    }

    method PutUuid(id: Uuid)
      modifies this
      ensures written == old(written) + EncUuid(id)
    {
      PutBytes(id.bytes);
    }

    method PutText(x: Option<string>)
      modifies this
      ensures written == old(written) + EncText(x)
    {
      PutBool(x.Some?);
      if x.Some? {
        PutString(x.value);
        Assoc(old(written), EncBool(true), EncString(x.value));
      }
    }

    method PutDevice(d: DeviceType)
      modifies this
      ensures written == old(written) + EncDevice(d)
    {
      PutI32(match d case Mobile => 0 case Desktop => 1 case Web => 2 case Headless => 3 case Server => 4);
    }

    method PutDeviceOption(x: Option<DeviceType>)
      modifies this
      ensures written == old(written) + EncOption(x, EncDevice)
    {
      PutBool(x.Some?);
      if x.Some? {
        PutDevice(x.value);
        Assoc(old(written), EncBool(true), EncDevice(x.value));
      }
    }

    method PutClientInfo(c: ClientInfo)
      modifies this
      ensures written == old(written) + EncClientInfo(c)
    {
      hide EncString, EncText, EncUuid, EncOption, EncNat, EncVec, EncI32;
      PutUuid(c.id);
      PutString(c.info.alias);
      PutString(c.info.version);
      PutText(c.info.deviceModel);
      PutDeviceOption(c.info.deviceType);
      PutString(c.info.token);
      Chain6(old(written), EncUuid(c.id), EncString(c.info.alias), EncString(c.info.version),
          EncText(c.info.deviceModel), EncOption(c.info.deviceType, EncDevice), EncString(c.info.token));
    }

    method PutPeers(items: seq<ClientInfo>)
      modifies this
      ensures written == old(written) + EncVec(items, EncClientInfo)
    {
      PutI32(AsI32(|items|));
      ghost var start := written;
      for i := 0 to |items|
        invariant written == start + EncItems(items[..i], EncClientInfo)
      {
        PutClientInfo(items[i]);
        OneMore(start, items, i, EncClientInfo);
      }
      assert items[..|items|] == items;
      Assoc(old(written), EncI32(AsI32(|items|)), EncItems(items, EncClientInfo));
    }

    method PutSdp(m: WsServerSdpMessage)
      modifies this
      ensures written == old(written) + EncSdp(m)
    {
      hide EncString, EncClientInfo;
      PutClientInfo(m.peer);
      PutString(m.sessionId);
      PutString(m.sdp);
      Chain3(old(written), EncClientInfo(m.peer), EncString(m.sessionId), EncString(m.sdp));
    }

    method PutMessage(m: WsServerMessage)
      modifies this
      ensures written == old(written) + EncMessage(m)
    {
      hide EncI32, EncClientInfo, EncVec, EncUuid, EncSdp, EncNat;
      ghost var before := written;
      match m {
        case Hello(client, peers) =>
          PutI32(0);
          PutClientInfo(client);
          PutPeers(peers);
          Chain3(before, EncI32(0), EncClientInfo(client), EncVec(peers, EncClientInfo));
        case Join(peer) =>
          PutI32(1);
          PutClientInfo(peer);
          Assoc(before, EncI32(1), EncClientInfo(peer));
        case Update(peer) =>
          PutI32(2);
          PutClientInfo(peer);
          Assoc(before, EncI32(2), EncClientInfo(peer));
        case Left(peerId) =>
          PutI32(3);
          PutUuid(peerId);
          Assoc(before, EncI32(3), EncUuid(peerId));
        case Offer(sdp) =>
          PutI32(4);
          PutSdp(sdp);
          Assoc(before, EncI32(4), EncSdp(sdp));
        case Answer(sdp) =>
          PutI32(5);
          PutSdp(sdp);
          Assoc(before, EncI32(5), EncSdp(sdp));
        case Error(code) =>
          PutI32(6);
          PutNumber(code, 2);
          Assoc(before, EncI32(6), EncNat(code, 2));
      }
    }

    method PutMetadata(m: FileMetadata)
      modifies this
      ensures written == old(written) + EncMetadata(m)
    {
      hide EncText;
      PutText(m.modified);
      PutText(m.accessed);
      Assoc(old(written), EncText(m.modified), EncText(m.accessed));
    }

    method PutMetadataOption(x: Option<FileMetadata>)
      modifies this
      ensures written == old(written) + EncOption(x, EncMetadata)
    {
      PutBool(x.Some?);
      if x.Some? {
        PutMetadata(x.value);
        Assoc(old(written), EncBool(true), EncMetadata(x.value));
      }
    }

    method PutFile(f: FileDto)
      modifies this
      ensures written == old(written) + EncFile(f)
    {
      hide EncString, EncText, EncUuid, EncOption, EncNat, EncVec, EncI32, EncMetadata;
      PutString(f.id);
      PutString(f.fileName);
      PutNumber(f.size, 8);
      PutString(f.fileType);
      PutText(f.sha256);
      PutText(f.preview);
      PutMetadataOption(f.metadata);
      Chain7(old(written), EncString(f.id), EncString(f.fileName), EncNat(f.size, 8), EncString(f.fileType),
          EncText(f.sha256), EncText(f.preview), EncOption(f.metadata, EncMetadata));
    }

    method PutFiles(items: seq<FileDto>)
      modifies this
      ensures written == old(written) + EncVec(items, EncFile)
    {
      PutI32(AsI32(|items|));
      ghost var start := written;
      for i := 0 to |items|
        invariant written == start + EncItems(items[..i], EncFile)
      {
        PutFile(items[i]);
        OneMore(start, items, i, EncFile);
      }
      assert items[..|items|] == items;
      Assoc(old(written), EncI32(AsI32(|items|)), EncItems(items, EncFile));
    }

    method PutStrings(items: seq<string>)
      modifies this
      ensures written == old(written) + EncVec(items, EncString)
    {
      PutI32(AsI32(|items|));
      ghost var start := written;
      for i := 0 to |items|
        invariant written == start + EncItems(items[..i], EncString)
      {
        PutString(items[i]);
        OneMore(start, items, i, EncString);
      }
      assert items[..|items|] == items;
      Assoc(old(written), EncI32(AsI32(|items|)), EncItems(items, EncString));
    }

    method PutStatus(s: RTCStatus)
      modifies this
      ensures written == old(written) + EncStatus(s)
    {
      hide EncI32, EncString;
      match s {
        case SdpExchanged => PutI32(0);
        case Connected => PutI32(1);
        case PinRequired => PutI32(2);
        case TooManyAttempts => PutI32(3);
        case Declined => PutI32(4);
        case Sending => PutI32(5);
        case Finished => PutI32(6);
        case RTCError(error) =>
          ghost var before := written;
          PutI32(7);
          PutString(error);
          Assoc(before, EncI32(7), EncString(error));
      }
    }
  }

  lemma Chain3(s: Bytes, a: Bytes, b: Bytes, c: Bytes)
    ensures s + a + b + c == s + (a + (b + c))
  {
    Assoc(s, a, b + c);
    Assoc(s + a, b, c);
  }

  lemma Chain6(s: Bytes, a: Bytes, b: Bytes, c: Bytes, d: Bytes, e: Bytes, f: Bytes)
    ensures s + a + b + c + d + e + f == s + (a + (b + (c + (d + (e + f)))))
  {
    Chain3(s + a + b + c, d, e, f);
    Chain3(s, a, b, c + (d + (e + f)));
  }

  lemma Chain7(s: Bytes, a: Bytes, b: Bytes, c: Bytes, d: Bytes, e: Bytes, f: Bytes, g: Bytes)
    ensures s + a + b + c + d + e + f + g == s + (a + (b + (c + (d + (e + (f + g))))))
  {
    Chain6(s + a, b, c, d, e, f, g);
    Assoc(s, a, b + (c + (d + (e + (f + g)))));
  }

  /** A call that read what `d` says and left `rest` to be read. */
  predicate Did<T(==)>(r: Out<T>, d: Read<T>, rest: Bytes)
  {
    match d
    case Panic => r == Panicked
    case Got(value, behind) => r == Value(value) && rest == behind
  }

  class Deserializer {
    const data: Bytes
    var cursor: nat

    constructor (data: Bytes)
      ensures this.data == data && Rest() == data
    {
      this.data := data;
      cursor := 0;
    }

    function Rest(): Bytes
      reads this
    {
      if cursor <= |data| then data[cursor..] else []
    }

    method GetNumber(width: nat) returns (r: Out<nat>)
      modifies this
      ensures Did(r, DecNat(width, old(Rest())), Rest())
    {
      if |Rest()| < width {
        return Panicked;
      }
      ghost var before := Rest();
      r := Value(FromLittleEndian(Rest()[..width]));
      cursor := cursor + width;
      assert Rest() == before[width..];
    }

    method GetU16() returns (r: Out<u16>)
      modifies this
      ensures Did(r, DecU16(old(Rest())), Rest())
    {
      var n :- GetNumber(2);
      r := Value(n);
    }

    method GetI32() returns (r: Out<i32>)
      modifies this
      ensures Did(r, DecI32(old(Rest())), Rest())
    {
      var n :- GetNumber(4);
      r := Value(AsI32(n));
    }

    method GetByte() returns (r: Out<byte>)
      modifies this
      ensures Did(r, DecByte(old(Rest())), Rest())
    {
      if Rest() == [] {
        return Panicked;
      }
      ghost var before := Rest();
      r := Value(Rest()[0]);
      cursor := cursor + 1;
      assert Rest() == before[1..];
    }

    method GetBool() returns (r: Out<bool>)
      modifies this
      ensures Did(r, DecBool(old(Rest())), Rest())
    {
      var b :- GetByte();
      r := Value(b != 0);
    }

    method GetBytes() returns (r: Out<seq<byte>>)
      modifies this
      ensures Did(r, DecVec(DecByte, old(Rest())), Rest())
    {
      hide DecItems, Ahead;
      var n :- GetI32();
      ghost var all := if n < 0 then 0 else n;
      ghost var start := Rest();
      var items, i := [], 0;
      NoneYet(all, DecByte, start);
      while i < n
        invariant 0 <= i <= all && Ahead(items, all - i, DecByte, start, all, Rest())
      {
        Onward(items, all - i, DecByte, start, all, Rest());
        var item :- GetByte();
        items, i := items + [item], i + 1;
      }
      AllRead(items, DecByte, start, all, Rest());
      r := Value(items);
    }

    method GetString() returns (r: Out<string>)
      modifies this
      ensures Did(r, DecString(old(Rest())), Rest())
    {
      hide DecVec;
      var bytes :- GetBytes();
      match Utf8.Decode(bytes) {
        case Some(s) => r := Value(s);
        case None => r := Panicked;
      }
    }

    method GetUuid() returns (r: Out<Uuid>)
      modifies this
      ensures Did(r, DecUuid(old(Rest())), Rest())
    {
      hide DecVec;
      var bytes :- GetBytes();
      r := if |bytes| == 16 then Value(Uuid(bytes)) else Panicked;
    }

    method GetText() returns (r: Out<Option<string>>)
      modifies this
      ensures Did(r, DecText(old(Rest())), Rest())
    {
      var some :- GetBool();
      if !some {
        return Value(None);
      }
      var value :- GetString();
      r := Value(Some(value));
    }

    method GetDevice() returns (r: Out<DeviceType>)
      modifies this
      ensures Did(r, DecDevice(old(Rest())), Rest())
    {
      hide DecI32;
      var tag :- GetI32();
      match tag {
        case 0 => r := Value(Mobile);
        case 1 => r := Value(Desktop);
        case 2 => r := Value(Web);
        case 3 => r := Value(Headless);
        case 4 => r := Value(Server);
        case _ => r := Panicked;
      }
    }

    method GetDeviceOption() returns (r: Out<Option<DeviceType>>)
      modifies this
      ensures Did(r, DecOption(DecDevice, old(Rest())), Rest())
    {
      var some :- GetBool();
      if !some {
        return Value(None);
      }
      var value :- GetDevice();
      r := Value(Some(value));
    }

    method GetClientInfo() returns (r: Out<ClientInfo>)
      modifies this
      ensures Did(r, DecClientInfo(old(Rest())), Rest())
    {
      hide DecString, DecText, DecUuid, DecOption, DecNat;
      var id :- GetUuid();
      var alias :- GetString();
      var version :- GetString();
      var deviceModel :- GetText();
      var deviceType :- GetDeviceOption();
      var token :- GetString();
      r := Value(ClientInfo(id, ClientInfoWithoutId(alias, version, deviceModel, deviceType, token)));
    }

    method GetPeers() returns (r: Out<seq<ClientInfo>>)
      modifies this
      ensures Did(r, DecVec(DecClientInfo, old(Rest())), Rest())
    {
      hide DecItems, Ahead, DecClientInfo;
      var n :- GetI32();
      ghost var all := if n < 0 then 0 else n;
      ghost var start := Rest();
      var items, i := [], 0;
      NoneYet(all, DecClientInfo, start);
      while i < n
        invariant 0 <= i <= all && Ahead(items, all - i, DecClientInfo, start, all, Rest())
      {
        Onward(items, all - i, DecClientInfo, start, all, Rest());
        var item :- GetClientInfo();
        items, i := items + [item], i + 1;
      }
      AllRead(items, DecClientInfo, start, all, Rest());
      r := Value(items);
    }

    method GetSdp() returns (r: Out<WsServerSdpMessage>)
      modifies this
      ensures Did(r, DecSdp(old(Rest())), Rest())
    {
      hide DecClientInfo, DecString;
      var peer :- GetClientInfo();
      var sessionId :- GetString();
      var sdp :- GetString();
      r := Value(WsServerSdpMessage(peer, sessionId, sdp));
    }

    method GetMessage() returns (r: Out<WsServerMessage>)
      modifies this
      ensures Did(r, DecMessage(old(Rest())), Rest())
    {
      hide DecI32, DecClientInfo, DecVec, DecUuid, DecSdp, DecU16;
      var tag :- GetI32();
      match tag {
        case 0 =>
          var client :- GetClientInfo();
          var peers :- GetPeers();
          r := Value(Hello(client, peers));
        case 1 =>
          var peer :- GetClientInfo();
          r := Value(Join(peer));
        case 2 =>
          var peer :- GetClientInfo();
          r := Value(Update(peer));
        case 3 =>
          var peerId :- GetUuid();
          r := Value(Left(peerId));
        case 4 =>
          var sdp :- GetSdp();
          r := Value(Offer(sdp));
        case 5 =>
          var sdp :- GetSdp();
          r := Value(Answer(sdp));
        case 6 =>
          var code :- GetU16();
          r := Value(Error(code));
        case _ => r := Panicked;
      }
    }

    method GetMetadata() returns (r: Out<FileMetadata>)
      modifies this
      ensures Did(r, DecMetadata(old(Rest())), Rest())
    {
      hide DecText;
      var modified :- GetText();
      var accessed :- GetText();
      r := Value(FileMetadata(modified, accessed));
    }

    method GetMetadataOption() returns (r: Out<Option<FileMetadata>>)
      modifies this
      ensures Did(r, DecOption(DecMetadata, old(Rest())), Rest())
    {
      var some :- GetBool();
      if !some {
        return Value(None);
      }
      var value :- GetMetadata();
      r := Value(Some(value));
    }

    method GetFile() returns (r: Out<FileDto>)
      modifies this
      ensures Did(r, DecFile(old(Rest())), Rest())
    {
      hide DecString, DecText, DecUuid, DecOption, DecNat;
      var id :- GetString();
      var fileName :- GetString();
      var size :- GetNumber(8);
      var fileType :- GetString();
      var sha256 :- GetText();
      var preview :- GetText();
      var metadata :- GetMetadataOption();
      r := Value(FileDto(id, fileName, size, fileType, sha256, preview, metadata));
    }

    method GetFiles() returns (r: Out<seq<FileDto>>)
      modifies this
      ensures Did(r, DecVec(DecFile, old(Rest())), Rest())
    {
      hide DecItems, Ahead, DecFile;
      var n :- GetI32();
      ghost var all := if n < 0 then 0 else n;
      ghost var start := Rest();
      var items, i := [], 0;
      NoneYet(all, DecFile, start);
      while i < n
        invariant 0 <= i <= all && Ahead(items, all - i, DecFile, start, all, Rest())
      {
        Onward(items, all - i, DecFile, start, all, Rest());
        var item :- GetFile();
        items, i := items + [item], i + 1;
      }
      AllRead(items, DecFile, start, all, Rest());
      r := Value(items);
    }

    method GetStrings() returns (r: Out<seq<string>>)
      modifies this
      ensures Did(r, DecVec(DecString, old(Rest())), Rest())
    {
      hide DecItems, Ahead, DecString;
      var n :- GetI32();
      ghost var all := if n < 0 then 0 else n;
      ghost var start := Rest();
      var items, i := [], 0;
      NoneYet(all, DecString, start);
      while i < n
        invariant 0 <= i <= all && Ahead(items, all - i, DecString, start, all, Rest())
      {
        Onward(items, all - i, DecString, start, all, Rest());
        var item :- GetString();
        items, i := items + [item], i + 1;
      }
      AllRead(items, DecString, start, all, Rest());
      r := Value(items);
    }

    method GetStringSet() returns (r: Out<set<string>>)
      modifies this
      ensures Did(r, DecStringSet(old(Rest())), Rest())
    {
      hide DecVec;
      var items :- GetStrings();
      r := Value(set i | 0 <= i < |items| :: items[i]);
    }

    method GetStatus() returns (r: Out<RTCStatus>)
      modifies this
      ensures Did(r, DecStatus(old(Rest())), Rest())
    {
      hide DecI32, DecString;
      var tag :- GetI32();
      match tag {
        case 0 => r := Value(SdpExchanged);
        case 1 => r := Value(Connected);
        case 2 => r := Value(PinRequired);
        case 3 => r := Value(TooManyAttempts);
        case 4 => r := Value(Declined);
        case 5 => r := Value(Sending);
        case 6 => r := Value(Finished);
        case 7 =>
          var error :- GetString();
          r := Value(RTCError(error));
        case _ => r := Panicked;
      }
    }
  }

  /** Part of a list has been read: `left` more items at `here` complete what reading `all`
      items at `start` comes to. */
  ghost predicate Ahead<T>(items: seq<T>, left: nat, dec: Bytes -> Read<T>, start: Bytes, all: nat, here: Bytes)
  {
    DecItems(all, dec, start) ==
      match DecItems(left, dec, here)
      case Panic => Panic
      case Got(more, behind) => Got(items + more, behind)
  }

  lemma NoneYet<T>(all: nat, dec: Bytes -> Read<T>, start: Bytes)
    ensures Ahead([], all, dec, start, all, start)
  {
    if DecItems(all, dec, start).Got? {
      assert [] + DecItems(all, dec, start).value == DecItems(all, dec, start).value;
    }
  }

  lemma AllRead<T>(items: seq<T>, dec: Bytes -> Read<T>, start: Bytes, all: nat, here: Bytes)
    requires Ahead(items, 0, dec, start, all, here)
    ensures DecItems(all, dec, start) == Got(items, here)
  {
    assert items + [] == items;
  }

  /** What reading one item means for the list. */
  lemma Onward<T>(items: seq<T>, left: nat, dec: Bytes -> Read<T>, start: Bytes, all: nat, here: Bytes)
    requires left > 0 && Ahead(items, left, dec, start, all, here)
    ensures match dec(here)
      case Panic => DecItems(all, dec, start).Panic?
      case Got(item, behind) => Ahead(items + [item], left - 1, dec, start, all, behind)
  {
    if dec(here).Got? {
      var more := DecItems(left - 1, dec, dec(here).rest);
      if more.Got? {
        Assoc(items, [dec(here).value], more.value);
      }
    }
  }

  /** A message from one side to the other. */
  method Cross(m: WsServerMessage) returns (r: Out<WsServerMessage>)
    requires FitsMessage(m)
    ensures r == Value(m)
  {
    var serializer := new Serializer();
    serializer.PutMessage(m);
    var deserializer := new Deserializer(serializer.written);
    assert serializer.written == EncMessage(m) + [];
    MessageRound(m, []);
    r := deserializer.GetMessage();
  }
}
