/** UTF-8 as section 3 of RFC 3629 defines it: one to four bytes a character, the shortest form
    only, no surrogates. */
module Utf8 {
  import opened Prelude

  predicate Tail(b: byte) { 0x80 <= b < 0xC0 }

  /** A number and six more bits. */
  function More(n: int, b: int): int { n * 0x40 + (b - 0x80) }

  /** The last six bits of a number as a byte. */
  function Low(n: nat): (b: byte)
    ensures Tail(b)
  {
    0x80 + n % 0x40
  }

  function EncodeChar(c: char): (b: Bytes)
    ensures 1 <= |b| <= 4
  {
    EncodeNumber(c as int)
  }

  function EncodeNumber(n: nat): (b: Bytes)
    requires n < 0x11_0000
    ensures 1 <= |b| <= 4
  {
    if n < 0x80 then [n]
    else if n < 0x800 then [0xC0 + n / 0x40, Low(n)]
    else if n < 0x1_0000 then [0xE0 + n / 0x40 / 0x40, Low(n / 0x40), Low(n)]
    else [0xF0 + n / 0x40 / 0x40 / 0x40, Low(n / 0x40 / 0x40), Low(n / 0x40), Low(n)]
  }

  /** The number at the front of the bytes and the bytes it takes, if it is well formed. */
  function DecodeNumber(b: Bytes): (r: Option<(int, nat)>)
    ensures r.Some? ==> 1 <= r.value.1 <= |b|
    ensures r.Some? ==> 0 <= r.value.0 < 0xD800 || 0xE000 <= r.value.0 < 0x11_0000
  {
    if b == [] then None
    else
      var first: int := b[0];
      if first < 0x80 then Some((first, 1))
      else if 0xC2 <= first < 0xE0 && |b| >= 2 && Tail(b[1]) then Some((More(first - 0xC0, b[1]), 2))
      else if 0xE0 <= first < 0xF0 && |b| >= 3 && Tail(b[1]) && Tail(b[2]) then
        var n := More(More(first - 0xE0, b[1]), b[2]);
        if n < 0x800 || 0xD800 <= n < 0xE000 then None else Some((n, 3))
      else if 0xF0 <= first < 0xF5 && |b| >= 4 && Tail(b[1]) && Tail(b[2]) && Tail(b[3]) then
        var n := More(More(More(first - 0xF0, b[1]), b[2]), b[3]);
        if n < 0x1_0000 || n >= 0x11_0000 then None else Some((n, 4))
      else None
  }

  function Encode(s: string): Bytes
  {
    if s == [] then [] else EncodeChar(s[0]) + Encode(s[1..])
  }

  /** All of the bytes, or nothing. */
  function Decode(b: Bytes): Option<string>
    decreases |b|
  {
    if b == [] then Some([])
    else
      match DecodeNumber(b)
      case None => None
      case Some((n, used)) =>
        match Decode(b[used..])
        case None => None
        case Some(s) => Some([n as char] + s)
  }

  lemma MoreLow(n: nat)
    ensures More(n / 0x40, Low(n)) == n
  {
  }

  lemma LowMore(n: nat, b: byte)
    requires Tail(b)
    ensures More(n, b) / 0x40 == n && Low(More(n, b)) == b
  {
  }

  lemma CharRound(c: char, rest: Bytes)
    ensures DecodeNumber(EncodeChar(c) + rest) == Some((c as int, |EncodeChar(c)|))
  {
    hide More, Low;
    var n := c as int;
    MoreLow(n);
    MoreLow(n / 0x40);
    MoreLow(n / 0x40 / 0x40);
  }

  /** Only one series of bytes stands for a number. */
  lemma NumberRound(b: Bytes)
    requires DecodeNumber(b).Some?
    ensures var (n, used) := DecodeNumber(b).value; EncodeNumber(n) == b[..used]
  {
    hide More, Low;
    var first: int := b[0];
    if 0xC2 <= first < 0xE0 {
      LowMore(first - 0xC0, b[1]);
      Size(first - 0xC0, b[1]);
    } else if 0xE0 <= first < 0xF0 {
      var n := More(first - 0xE0, b[1]);
      Size(first - 0xE0, b[1]);
      Size(n, b[2]);
      LowMore(first - 0xE0, b[1]);
      LowMore(n, b[2]);
    } else if 0xF0 <= first {
      var n := More(first - 0xF0, b[1]);
      Size(first - 0xF0, b[1]);
      Size(n, b[2]);
      Size(More(n, b[2]), b[3]);
      LowMore(first - 0xF0, b[1]);
      LowMore(n, b[2]);
      LowMore(More(n, b[2]), b[3]);
    }
  }

  lemma Size(n: nat, b: byte)
    requires Tail(b)
    ensures n * 0x40 <= More(n, b) < (n + 1) * 0x40
  {
  }

  lemma {:induction false} DecodeEncode(s: string)
    ensures Decode(Encode(s)) == Some(s)
  {
    if s != [] {
      CharRound(s[0], Encode(s[1..]));
      DecodeEncode(s[1..]);
      var b := Encode(s);
      assert DecodeNumber(b) == Some((s[0] as int, |EncodeChar(s[0])|));
      assert s == [s[0]] + s[1..];
      assert Encode(s)[|EncodeChar(s[0])|..] == Encode(s[1..]);
    }
  }

  lemma {:induction false} EncodeDecode(b: Bytes)
    requires Decode(b).Some?
    ensures Encode(Decode(b).value) == b
    decreases |b|
  {
    hide DecodeNumber, EncodeNumber;
    if b != [] {
      var (n, used) := DecodeNumber(b).value;
      NumberRound(b);
      EncodeDecode(b[used..]);
      EncodeCons(n as char, Decode(b[used..]).value);
      assert b == b[..used] + b[used..];
    }
  }

  lemma EncodeCons(c: char, s: string)
    ensures Encode([c] + s) == EncodeChar(c) + Encode(s)
  {
    assert ([c] + s)[1..] == s;
  }

  /** The table of section 3 of RFC 3629: how many bytes a number takes, and which bits of it
      stand where. */
  lemma NumberTable(n: nat)
    requires n < 0x11_0000
    ensures var b := EncodeNumber(n);
      && |b| == (if n < 0x80 then 1 else if n < 0x800 then 2 else if n < 0x1_0000 then 3 else 4)
      && (forall i :: 1 <= i < |b| ==> 0x80 <= b[i] < 0xC0)
      && match |b|
         case 1 => b[0] == n
         case 2 => 0xC0 <= b[0] < 0xE0 && n == (b[0] as int - 0xC0) * 0x40 + (b[1] as int - 0x80)
         case 3 =>
           && 0xE0 <= b[0] < 0xF0
           && n == (b[0] as int - 0xE0) * 0x1000 + (b[1] as int - 0x80) * 0x40 + (b[2] as int - 0x80)
         case _ =>
           && 0xF0 <= b[0] < 0xF5
           && n == (b[0] as int - 0xF0) * 0x4_0000 + (b[1] as int - 0x80) * 0x1000
                   + (b[2] as int - 0x80) * 0x40 + (b[3] as int - 0x80)
  {
    var n1, n2, n3 := n / 0x40, n / 0x40 / 0x40, n / 0x40 / 0x40 / 0x40;
    assert n == n1 * 0x40 + n % 0x40 && n1 == n2 * 0x40 + n1 % 0x40 && n2 == n3 * 0x40 + n2 % 0x40;
  }
}
