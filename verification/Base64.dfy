/** Base64 with the URL-safe alphabet of section 5 of RFC 4648 and no padding. */
module Base64 {
  import opened Prelude

  type sextet = x: int | 0 <= x < 64

  function CharOf(v: sextet): char
  {
    if v < 26 then 'A' + v as char
    else if v < 52 then 'a' + (v - 26) as char
    else if v < 62 then '0' + (v - 52) as char
    else if v == 62 then '-'
    else '_'
  }

  function ValueOf(c: char): Option<sextet>
  {
    if 'A' <= c <= 'Z' then Some((c - 'A') as int)
    else if 'a' <= c <= 'z' then Some((c - 'a') as int + 26)
    else if '0' <= c <= '9' then Some((c - '0') as int + 52)
    else if c == '-' then Some(62)
    else if c == '_' then Some(63)
    else None
  }

  function Chars(values: seq<sextet>): (s: string)
    ensures |s| == |values|
  {
    if values == [] then "" else [CharOf(values[0])] + Chars(values[1..])
  }

  /** A character outside the alphabet, the padding sign included, is an error. */
  function Values(s: string): (values: Option<seq<sextet>>)
  {
    if s == "" then Some([])
    else
      var v, rest := ValueOf(s[0]), Values(s[1..]);
      if v.None? || rest.None? then None else Some([v.value] + rest.value)
  }

  /** Three bytes become four values; one or two left over become two or three. */
  function Group(b: Bytes): seq<sextet>
  {
    if b == [] then []
    else if |b| == 1 then [b[0] / 4, b[0] % 4 * 16]
    else if |b| == 2 then [b[0] / 4, b[0] % 4 * 16 + b[1] / 16, b[1] % 16 * 4]
    else [b[0] / 4, b[0] % 4 * 16 + b[1] / 16, b[1] % 16 * 4 + b[2] / 64, b[2] % 64] + Group(b[3..])
  }

  function First(x: sextet, y: sextet): byte { x * 4 + y / 16 }

  function Second(y: sextet, z: sextet): byte { y % 16 * 16 + z / 4 }

  function Third(z: sextet, w: sextet): byte { z % 4 * 64 + w }

  /** A lone last value and non-zero unused bits are errors. */
  function Ungroup(v: seq<sextet>): Option<Bytes>
  {
    if v == [] then Some([])
    else if |v| == 1 then None
    else if |v| == 2 then
      if v[1] % 16 != 0 then None else Some([First(v[0], v[1])])
    else if |v| == 3 then
      if v[2] % 4 != 0 then None else Some([First(v[0], v[1]), Second(v[1], v[2])])
    else
      var rest := Ungroup(v[4..]);
      if rest.None? then None
      else Some([First(v[0], v[1]), Second(v[1], v[2]), Third(v[2], v[3])] + rest.value)
  }

  function Encode(b: Bytes): string
  {
    Chars(Group(b))
  }

  function Decode(s: string): Option<Bytes>
  {
    var values := Values(s);
    if values.None? then None else Ungroup(values.value)
  }

  lemma CharRound(v: sextet)
    ensures ValueOf(CharOf(v)) == Some(v)
    ensures CharOf(v) != '.'
  {
  }

  lemma {:induction false} ValuesChars(values: seq<sextet>)
    ensures Values(Chars(values)) == Some(values)
    ensures '.' !in Chars(values)
  {
    if values != [] {
      CharRound(values[0]);
      ValuesChars(values[1..]);
      assert Chars(values)[1..] == Chars(values[1..]);
      assert values == [values[0]] + values[1..];
    }
  }

  lemma ValueRound(c: char)
    requires ValueOf(c).Some?
    ensures CharOf(ValueOf(c).value) == c
  {
  }

  lemma {:induction false} CharsValues(s: string)
    requires Values(s).Some?
    ensures Chars(Values(s).value) == s
  {
    if s != "" {
      ValueRound(s[0]);
      CharsValues(s[1..]);
      assert Values(s).value[1..] == Values(s[1..]).value;
    }
  }

  lemma BytesRound(a: byte, b: byte, c: byte)
    ensures var x, y, z, w := a / 4, a % 4 * 16 + b / 16, b % 16 * 4 + c / 64, c % 64;
            First(x, y) == a && Second(y, z) == b && Third(z, w) == c
  {
  }

  lemma {:induction false} UngroupGroup(b: Bytes)
    ensures Ungroup(Group(b)) == Some(b)
  {
    hide First, Second, Third;
    if b == [] {
    } else if |b| == 1 {
      BytesRound(b[0], 0, 0);
      assert b == [b[0]];
    } else if |b| == 2 {
      BytesRound(b[0], b[1], 0);
      assert b == [b[0], b[1]];
    } else {
      BytesRound(b[0], b[1], b[2]);
      UngroupGroup(b[3..]);
      assert Group(b)[4..] == Group(b[3..]);
      assert b == [b[0], b[1], b[2]] + b[3..];
    }
  }

  lemma Regroup(x: sextet, y: sextet, z: sextet, w: sextet)
    ensures var b0, b1, b2 := First(x, y), Second(y, z), Third(z, w);
            b0 / 4 == x && b0 % 4 * 16 + b1 / 16 == y && b1 % 16 * 4 + b2 / 64 == z && b2 % 64 == w
  {
  }

  lemma {:induction false} GroupUngroup(v: seq<sextet>)
    requires Ungroup(v).Some?
    ensures Group(Ungroup(v).value) == v
  {
    if v != [] {
      var b := Ungroup(v).value;
      if |v| == 2 {
        Regroup(v[0], v[1], 0, 0);
        assert v == [v[0], v[1]];
      } else if |v| == 3 {
        Regroup(v[0], v[1], v[2], 0);
        assert v == [v[0], v[1], v[2]];
      } else {
        Regroup(v[0], v[1], v[2], v[3]);
        GroupUngroup(v[4..]);
        assert b[3..] == Ungroup(v[4..]).value;
        assert v == [v[0], v[1], v[2], v[3]] + v[4..];
      }
    }
  }

  lemma DecodeEncode(b: Bytes)
    ensures Decode(Encode(b)) == Some(b)
    ensures '.' !in Encode(b)
  {
    ValuesChars(Group(b));
    UngroupGroup(b);
  }

  /** Decoding is strict: only the encoding of a byte string decodes to it. */
  lemma EncodeDecode(s: string)
    requires Decode(s).Some?
    ensures Encode(Decode(s).value) == s
  {
    CharsValues(s);
    GroupUngroup(Values(s).value);
  }

  // ----- The text itself -----

  const UPPER: string := "ABCDEFGHIJKLMNOPQRSTUVWXYZ"

  const LOWER: string := "abcdefghijklmnopqrstuvwxyz"

  const ALPHABET: string := UPPER + LOWER + "0123456789-_"

  /** A number of four digits to base 64, and one of three to base 256. */
  function FourDigits(x: int, y: int, z: int, w: int): int { x * 0x40000 + y * 0x1000 + z * 0x40 + w }

  function ThreeDigits(a: int, b: int, c: int): int { a * 0x10000 + b * 0x100 + c }

  /** The same bits, six and eight at a time: three bytes are four values, and zeros stand for
      what is missing of the last three. */
  predicate SameBits(v: seq<sextet>, b: Bytes)
  {
    if b == [] then v == []
    else if |b| == 1 then |v| == 2 && FourDigits(v[0], v[1], 0, 0) == ThreeDigits(b[0], 0, 0)
    else if |b| == 2 then |v| == 3 && FourDigits(v[0], v[1], v[2], 0) == ThreeDigits(b[0], b[1], 0)
    else
      && |v| >= 4 && FourDigits(v[0], v[1], v[2], v[3]) == ThreeDigits(b[0], b[1], b[2])
      && SameBits(v[4..], b[3..])
  }

  lemma {:induction false} GroupsBits(b: Bytes)
    ensures SameBits(Group(b), b)
  {
    if |b| >= 3 {
      GroupsBits(b[3..]);
      assert Group(b)[4..] == Group(b[3..]);
      OneGroup(b[0], b[1], b[2]);
    } else if b != [] {
      OneGroup(b[0], if |b| == 2 then b[1] else 0, 0);
    }
  }

  lemma OneGroup(a: byte, b: byte, c: byte)
    ensures FourDigits(a / 4, a % 4 * 16 + b / 16, b % 16 * 4 + c / 64, c % 64) == ThreeDigits(a, b, c)
  {
  }

  lemma CharAt(v: sextet)
    ensures CharOf(v) == ALPHABET[v]
  {
    if v < 26 {
      Letters(v);
    } else if v < 52 {
      Letters(v - 26);
    }
  }

  lemma Letters(k: nat)
    requires k < 26
    ensures UPPER[k] == 'A' + k as char && LOWER[k] == 'a' + k as char
  {
  }

  lemma {:induction false} CharsAt(values: seq<sextet>)
    ensures forall i :: 0 <= i < |values| ==> Chars(values)[i] == ALPHABET[values[i]]
  {
    if values != [] {
      CharAt(values[0]);
      CharsAt(values[1..]);
    }
  }

  /** An encoding is the bits of the bytes, six at a time, in the alphabet of table 2 of
      RFC 4648, without padding. */
  lemma EncodeText(b: Bytes) returns (v: seq<sextet>)
    ensures SameBits(v, b) && |Encode(b)| == |v|
    ensures forall i :: 0 <= i < |v| ==> Encode(b)[i] == ALPHABET[v[i]]
  {
    v := Group(b);
    GroupsBits(b);
    CharsAt(v);
  }
}
