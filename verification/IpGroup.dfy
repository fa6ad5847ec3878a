/** The name of the room an address belongs to. */
module IpGroup {
  import opened Prelude
  import opened Text

  datatype IpAddr =
    | V4(octets: (byte, byte, byte, byte))
    | V6(segments: (u16, u16, u16, u16, u16, u16, u16, u16))

  function V4Fields(o: (byte, byte, byte, byte)): seq<string>
  {
    [Print(o.0, 10), Print(o.1, 10), Print(o.2, 10), Print(o.3, 10)]
  }

  function V6Fields(s: (u16, u16, u16, u16, u16, u16, u16, u16)): seq<string>
  {
    [Print(s.0, 16), Print(s.1, 16), Print(s.2, 16), Print(s.3, 16)]
  }

  function GetIpGroup(ip: IpAddr): string
  {
    match ip
    case V4(octets) => Join(V4Fields(octets), '.')
    case V6(segments) => Join(V6Fields(segments), ':')
  }

  /** The addresses that are meant to share a room: one IPv4 address, or one IPv6 /64. */
  predicate SameNetwork(a: IpAddr, b: IpAddr)
  {
    match (a, b)
    case (V4(x), V4(y)) => x == y
    case (V6(x), V6(y)) => x.0 == y.0 && x.1 == y.1 && x.2 == y.2 && x.3 == y.3
    case _ => false
  }

  lemma FieldsHaveNoSeparator(n: nat, radix: nat)
    requires radix == 10 || radix == 16
    ensures '.' !in Print(n, radix) && ':' !in Print(n, radix)
  {
    PrintIsDigits(n, radix);
  }

  lemma GroupFields(ip: IpAddr)
    ensures ip.V4? ==> Fields(GetIpGroup(ip), '.') == V4Fields(ip.octets) && ':' !in GetIpGroup(ip)
    ensures ip.V6? ==> Fields(GetIpGroup(ip), ':') == V6Fields(ip.segments) && ':' in GetIpGroup(ip)
  {
    var sep := if ip.V4? then '.' else ':';
    var fields := if ip.V4? then V4Fields(ip.octets) else V6Fields(ip.segments);
    forall i | 0 <= i < |fields| ensures '.' !in fields[i] && ':' !in fields[i] {
      if ip.V4? {
        FieldsHaveNoSeparator([ip.octets.0, ip.octets.1, ip.octets.2, ip.octets.3][i], 10);
      } else {
        FieldsHaveNoSeparator([ip.segments.0, ip.segments.1, ip.segments.2, ip.segments.3][i], 16);
      }
    }
    FieldsOfJoin(fields, sep);
    JoinHas(fields, sep, ':');
  }

  lemma PrintInjective(a: nat, b: nat, radix: nat)
    requires radix == 10 || radix == 16
    ensures Print(a, radix) == Print(b, radix) <==> a == b
  {
    ParsePrint(a, radix);
    ParsePrint(b, radix);
  }

  /** Two addresses get the same room exactly when they are on the same network. */
  lemma GroupSeparates(a: IpAddr, b: IpAddr)
    ensures GetIpGroup(a) == GetIpGroup(b) <==> SameNetwork(a, b)
  {
    GroupFields(a);
    GroupFields(b);
    if a.V4? && b.V4? {
      if GetIpGroup(a) == GetIpGroup(b) {
        var x, y := V4Fields(a.octets), V4Fields(b.octets);
        assert x[0] == y[0] && x[1] == y[1] && x[2] == y[2] && x[3] == y[3];
        PrintInjective(a.octets.0, b.octets.0, 10);
        PrintInjective(a.octets.1, b.octets.1, 10);
        PrintInjective(a.octets.2, b.octets.2, 10);
        PrintInjective(a.octets.3, b.octets.3, 10);
      }
    } else if a.V6? && b.V6? {
      if GetIpGroup(a) == GetIpGroup(b) {
        var x, y := V6Fields(a.segments), V6Fields(b.segments);
        assert x[0] == y[0] && x[1] == y[1] && x[2] == y[2] && x[3] == y[3];
        PrintInjective(a.segments.0, b.segments.0, 16);
        PrintInjective(a.segments.1, b.segments.1, 16);
        PrintInjective(a.segments.2, b.segments.2, 16);
        PrintInjective(a.segments.3, b.segments.3, 16);
      }
    }
  }

  /** The text consists of these four numbers, written in that radix and set apart. */
  predicate FourNumbers(text: string, sep: char, radix: nat, a: nat, b: nat, c: nat, d: nat)
  {
    var f := Fields(text, sep);
    && |f| == 4
    && Writes(f[0], a, radix) && Writes(f[1], b, radix) && Writes(f[2], c, radix) && Writes(f[3], d, radix)
  }

  /** A group is named by the octets in decimal, or by the first four segments in hexadecimal,
      each unpadded and in lower case; there is no other such text. */
  lemma GroupText(ip: IpAddr, text: string)
    ensures text == GetIpGroup(ip) <==>
      match ip
      case V4(o) => FourNumbers(text, '.', 10, o.0, o.1, o.2, o.3)
      case V6(s) => FourNumbers(text, ':', 16, s.0, s.1, s.2, s.3)
  {
    hide Fields, Print, Writes;
    GroupFields(ip);
    var sep := if ip.V4? then '.' else ':';
    var f := Fields(text, sep);
    JoinOfFields(text, sep);
    match ip {
      case V4(o) => FourPrinted(f, 10, o.0, o.1, o.2, o.3);
      case V6(s) => FourPrinted(f, 16, s.0, s.1, s.2, s.3);
    }
  }

  lemma FourPrinted(f: seq<string>, radix: nat, a: nat, b: nat, c: nat, d: nat)
    requires radix == 10 || radix == 16
    ensures f == [Print(a, radix), Print(b, radix), Print(c, radix), Print(d, radix)] <==>
      && |f| == 4
      && Writes(f[0], a, radix) && Writes(f[1], b, radix) && Writes(f[2], c, radix) && Writes(f[3], d, radix)
  {
    hide Print, Writes;
    if |f| == 4 {
      PrintWrites(f[0], a, radix);
      PrintWrites(f[1], b, radix);
      PrintWrites(f[2], c, radix);
      PrintWrites(f[3], d, radix);
    }
  }

  /** The names that the server's own examples give. */
  lemma GroupExamples()
    ensures GetIpGroup(V4((1, 2, 3, 4))) == "1.2.3.4"
    ensures GetIpGroup(V6((1, 2, 3, 4, 5, 6, 7, 8))) == "1:2:3:4"
    ensures GetIpGroup(V6((10, 11, 12, 13, 14, 15, 0, 1))) == "a:b:c:d"
  {
    assert Print(1, 10) == "1" && Print(2, 10) == "2" && Print(3, 10) == "3" && Print(4, 10) == "4";
    assert Print(1, 16) == "1" && Print(2, 16) == "2" && Print(3, 16) == "3" && Print(4, 16) == "4";
    assert Print(10, 16) == "a" && Print(11, 16) == "b" && Print(12, 16) == "c" && Print(13, 16) == "d";
  }
}
