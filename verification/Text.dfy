/** Splitting and joining text on a separator, and printing numbers. */
module Text {
  /** The fields between the separators; there is always at least one. */
  function Fields(s: string, sep: char): (fields: seq<string>)
    ensures |fields| > 0
  {
    if s == "" then [""]
    else
      var rest := Fields(s[1..], sep);
      if s[0] == sep then [""] + rest else [[s[0]] + rest[0]] + rest[1..]
  }

  function Join(fields: seq<string>, sep: char): string
    requires |fields| > 0
  {
    if |fields| == 1 then fields[0] else fields[0] + [sep] + Join(fields[1..], sep)
  }

  lemma {:induction false} FieldsOfHead(head: string, sep: char, tail: string)
    requires sep !in head
    ensures Fields(head + [sep] + tail, sep) == [head] + Fields(tail, sep)
  {
    var s := head + [sep] + tail;
    if head == "" {
      assert s[1..] == tail;
    } else {
      FieldsOfHead(head[1..], sep, tail);
      assert s[1..] == head[1..] + [sep] + tail;
      assert [head[0]] + head[1..] == head;
    }
  }

  lemma {:induction false} FieldsOfPlain(s: string, sep: char)
    requires sep !in s
    ensures Fields(s, sep) == [s]
  {
    if s != "" {
      FieldsOfPlain(s[1..], sep);
      assert [s[0]] + s[1..] == s;
    }
  }

  lemma {:induction false} FieldsOfJoin(fields: seq<string>, sep: char)
    requires |fields| > 0
    requires forall f :: f in fields ==> sep !in f
    ensures Fields(Join(fields, sep), sep) == fields
  {
    if |fields| == 1 {
      FieldsOfPlain(fields[0], sep);
    } else {
      FieldsOfJoin(fields[1..], sep);
      FieldsOfHead(fields[0], sep, Join(fields[1..], sep));
    }
  }

  lemma {:induction false} JoinOfFields(s: string, sep: char)
    ensures Join(Fields(s, sep), sep) == s
  {
    if s != "" {
      JoinOfFields(s[1..], sep);
      var rest := Fields(s[1..], sep);
      assert s == [s[0]] + s[1..];
      if s[0] == sep {
        assert ([""] + rest)[1..] == rest;
      } else {
        var fields := [[s[0]] + rest[0]] + rest[1..];
        assert fields[1..] == rest[1..];
      }
    }
  }

  lemma {:induction false} FieldsArePlain(s: string, sep: char)
    ensures forall f :: f in Fields(s, sep) ==> sep !in f
  {
    if s != "" {
      FieldsArePlain(s[1..], sep);
      var rest := Fields(s[1..], sep);
      assert rest[0] in rest;
      assert forall f :: f in rest[1..] ==> f in rest;
    }
  }

  /** Where a character can come from in a joined text. */
  lemma {:induction false} JoinHas(fields: seq<string>, sep: char, c: char)
    requires |fields| > 0
    ensures c in Join(fields, sep) <==> (|fields| > 1 && c == sep) || exists i :: 0 <= i < |fields| && c in fields[i]
  {
    if |fields| > 1 {
      JoinHas(fields[1..], sep, c);
      assert forall i :: 0 <= i < |fields| - 1 ==> fields[1..][i] == fields[i + 1];
    }
  }

  // ----- Numbers -----

  function Digit(d: nat): char
    requires d < 16
  {
    if d < 10 then '0' + d as char else 'a' + (d - 10) as char
  }

  function Print(n: nat, radix: nat): (s: string)
    requires radix == 10 || radix == 16
    ensures |s| > 0
  {
    if n < radix then [Digit(n)] else Print(n / radix, radix) + [Digit(n % radix)]
  }

  function DigitOf(c: char): nat
  {
    if '0' <= c <= '9' then (c - '0') as nat
    else if 'a' <= c <= 'f' then (c - 'a') as nat + 10
    else 0
  }

  function Parse(s: string, radix: nat): nat
  {
    if s == "" then 0 else Parse(s[..|s| - 1], radix) * radix + DigitOf(s[|s| - 1])
  }

  lemma DigitRound(d: nat)
    requires d < 16
    ensures DigitOf(Digit(d)) == d
    ensures '0' <= Digit(d) <= '9' || 'a' <= Digit(d) <= 'f'
  {
  }

  lemma ParseSnoc(s: string, c: char, radix: nat)
    ensures Parse(s + [c], radix) == Parse(s, radix) * radix + DigitOf(c)
  {
    assert (s + [c])[..|s|] == s;
  }

  lemma PrintStep(n: nat, radix: nat)
    requires (radix == 10 || radix == 16) && n >= radix
    ensures n / radix < n && n % radix < 16
    ensures (n / radix) * radix + n % radix == n
    ensures Print(n, radix) == Print(n / radix, radix) + [Digit(n % radix)]
  {
    if radix == 10 {
      assert (n / 10) * 10 + n % 10 == n;
    } else {
      assert (n / 16) * 16 + n % 16 == n;
    }
  }

  /** Printing without padding loses nothing: the number can be read back. */
  lemma {:induction false} ParsePrint(n: nat, radix: nat)
    requires radix == 10 || radix == 16
    ensures Parse(Print(n, radix), radix) == n
    decreases n
  {
    if n < radix {
      DigitRound(n);
      ParseSnoc("", Digit(n), radix);
      assert "" + [Digit(n)] == [Digit(n)];
    } else {
      PrintStep(n, radix);
      ParsePrint(n / radix, radix);
      PrintedTail(n, n / radix, n % radix, radix);
    }
  }

  lemma PrintedTail(n: nat, high: nat, low: nat, radix: nat)
    requires (radix == 10 || radix == 16) && low < radix
    requires Print(n, radix) == Print(high, radix) + [Digit(low)]
    ensures Parse(Print(n, radix), radix) == Parse(Print(high, radix), radix) * radix + low
  {
    ParseSnoc(Print(high, radix), Digit(low), radix);
    DigitRound(low);
  }

  lemma {:induction false} PrintIsDigits(n: nat, radix: nat)
    requires radix == 10 || radix == 16
    ensures forall c :: c in Print(n, radix) ==> '0' <= c <= '9' || 'a' <= c <= 'f'
  {
    if n < radix {
      DigitRound(n);
    } else {
      PrintIsDigits(n / radix, radix);
      DigitRound(n % radix);
    }
  }

  // ----- Numerals -----

  /** A character that can stand in a number of that radix, letters being lower-case. */
  predicate IsDigit(c: char, radix: nat)
  {
    '0' <= c <= '9' || (radix == 16 && 'a' <= c <= 'f')
  }

  /** A number written out without padding. */
  predicate Numeral(s: string, radix: nat)
  {
    s != "" && (forall c :: c in s ==> IsDigit(c, radix)) && (s[0] == '0' ==> s == "0")
  }

  /** The text is the numeral that reads back as this number. */
  predicate Writes(s: string, n: nat, radix: nat)
  {
    Numeral(s, radix) && Parse(s, radix) == n
  }

  lemma DigitBack(c: char, radix: nat)
    requires (radix == 10 || radix == 16) && IsDigit(c, radix)
    ensures DigitOf(c) < radix && Digit(DigitOf(c)) == c && (DigitOf(c) == 0 ==> c == '0')
  {
  }

  lemma {:induction false} NumeralIsPrinted(s: string, radix: nat)
    requires (radix == 10 || radix == 16) && Numeral(s, radix)
    ensures Print(Parse(s, radix), radix) == s
    ensures Parse(s, radix) == 0 ==> s == "0"
    decreases |s|
  {
    hide Print, Digit, DigitOf, IsDigit;
    var head, last := s[..|s| - 1], s[|s| - 1];
    assert last in s;
    DigitBack(last, radix);
    if head == "" {
      assert s == [last];
      assert Parse(head, radix) == 0;
      OneDigit(DigitOf(last), radix);
    } else {
      assert forall c :: c in head ==> c in s;
      assert head[0] == s[0];
      NumeralIsPrinted(head, radix);
      assert s == head + [last];
      PrintsOn(Parse(head, radix), DigitOf(last), radix);
    }
  }

  lemma OneDigit(d: nat, radix: nat)
    requires (radix == 10 || radix == 16) && d < radix
    ensures Print(d, radix) == [Digit(d)]
  {
  }

  lemma PrintsOn(high: nat, low: nat, radix: nat)
    requires (radix == 10 || radix == 16) && 0 < high && low < radix
    ensures high * radix + low > 0
    ensures Print(high * radix + low, radix) == Print(high, radix) + [Digit(low)]
  {
    var n := high * radix + low;
    if radix == 10 {
      assert n / 10 == high && n % 10 == low;
    } else {
      assert n / 16 == high && n % 16 == low;
    }
  }

  lemma {:induction false} PrintIsNumeral(n: nat, radix: nat)
    requires radix == 10 || radix == 16
    ensures Numeral(Print(n, radix), radix)
    ensures n > 0 ==> Print(n, radix)[0] != '0'
    decreases n
  {
    if n >= radix {
      PrintStep(n, radix);
      PrintIsNumeral(n / radix, radix);
    }
  }

  /** Printing gives the one unpadded numeral of a number. */
  lemma PrintWrites(s: string, n: nat, radix: nat)
    requires radix == 10 || radix == 16
    ensures s == Print(n, radix) <==> Writes(s, n, radix)
  {
    PrintIsNumeral(n, radix);
    ParsePrint(n, radix);
    if Writes(s, n, radix) {
      NumeralIsPrinted(s, radix);
    }
  }
}
