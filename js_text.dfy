/** The few JavaScript string operations the interpreters rely on: integer
    to decimal text (Number.prototype.toString on an integer), parseInt in
    base 10, String.prototype.split and Array.prototype.join with a
    one-character separator, and String.prototype.padStart. */
module JsText {

  datatype Option<T> = None | Some(value: T)

  /** What parseInt yields: an integer, or NaN when no digit could be read. */
  datatype Number = NaN | Num(value: int)

  predicate IsDigit(c: char) {
    '0' <= c <= '9'
  }

  predicate AllDigits(s: string) {
    forall i :: 0 <= i < |s| ==> IsDigit(s[i])
  }

  function DigitValue(c: char): int {
    c as int - '0' as int
  }

  function DigitChar(d: nat): (c: char)
    requires d < 10
    ensures IsDigit(c) && DigitValue(c) == d
  {
    ('0' as int + d) as char
  }

  /** Decimal text of a natural number: most significant digit first, no
      leading zero. */
  function NatToString(n: nat): (s: string)
    ensures |s| >= 1 && AllDigits(s)
    decreases n
  {
    if n < 10 then [DigitChar(n)] else NatToString(n / 10) + [DigitChar(n % 10)]
  }

  /** `${n}` for an integer n. */
  function IntToString(n: int): string {
    if n < 0 then "-" + NatToString(-n) else NatToString(n)
  }

  /** The value of a run of decimal digits. */
  function DigitsValue(s: string): int {
    if s == [] then 0 else DigitsValue(s[..|s| - 1]) * 10 + DigitValue(s[|s| - 1])
  }

  /** Length of the longest prefix of s made of decimal digits. */
  function DigitRun(s: string): (k: nat)
    ensures k <= |s|
  {
    if s == [] || !IsDigit(s[0]) then 0 else 1 + DigitRun(s[1..])
  }

  /** The white space parseInt skips before the number: the WhiteSpace and
      LineTerminator characters of ECMAScript (sections 7.2 and 7.3 of
      ECMA-262, edition 5.1), that is tab, vertical tab, form feed, the byte order mark,
      every space separator of Unicode category Zs, line feed, carriage
      return, and the line and paragraph separators. */
  predicate IsSpace(c: char) {
    if c <= ' ' then
      c == '\t' || c == '\n' || c == '\U{000B}' || c == '\U{000C}' || c == '\r' || c == ' '
    else if c < '\U{00A0}' then false
    else
      || c == '\U{00A0}' || c == '\U{1680}' || ('\U{2000}' <= c <= '\U{200A}')
      || c == '\U{2028}' || c == '\U{2029}' || c == '\U{202F}' || c == '\U{205F}'
      || c == '\U{3000}' || c == '\U{FEFF}'
  }

  function TrimStart(s: string): string {
    if s != [] && IsSpace(s[0]) then TrimStart(s[1..]) else s
  }

  /** parseInt(s) in base 10: leading white space is skipped, one optional
      sign is read, then the longest run of digits; anything after that run
      is ignored, and NaN results when the run is empty. */
  function ParseInt(s: string): Number {
    var t := TrimStart(s);
    var signed := t != [] && (t[0] == '-' || t[0] == '+');
    var body := if signed then t[1..] else t;
    var k := DigitRun(body);
    if k == 0 then NaN
    else
      var v := DigitsValue(body[..k]);
      Num(if t[0] == '-' then -v else v)
  }

  /** parseInt skips a white space character in front of the number. */
  lemma ParseIntSkipsSpace(c: char, s: string)
    requires IsSpace(c)
    ensures ParseInt([c] + s) == ParseInt(s)
  {
    assert ([c] + s)[1..] == s;
  }

  /** s.split(sep): the pieces between the separators, always at least one. */
  function Split(s: string, sep: char): (parts: seq<string>)
    ensures |parts| >= 1
    ensures forall i :: 0 <= i < |parts| ==> sep !in parts[i]
  {
    if s == [] then [""]
    else
      var rest := Split(s[1..], sep);
      if s[0] == sep then [""] + rest
      else [[s[0]] + rest[0]] + rest[1..]
  }

  /** parts.join(sep). */
  function Join(parts: seq<string>, sep: char): string {
    if parts == [] then ""
    else if |parts| == 1 then parts[0]
    else parts[0] + [sep] + Join(parts[1..], sep)
  }

  /** s.padStart(width, fill) for a one-character fill. */
  function PadStart(s: string, width: nat, fill: char): (t: string)
    ensures |t| == if |s| >= width then |s| else width
    ensures t[|t| - |s|..] == s
    ensures forall i :: 0 <= i < |t| - |s| ==> t[i] == fill
  {
    if |s| >= width then s else seq(width - |s|, _ => fill) + s
  }

  // ---------------------------------------------------------------------
  // Round trips

  lemma {:induction false} DigitsValueOfNatToString(n: nat)
    ensures DigitsValue(NatToString(n)) == n
    decreases n
  {
    var s := NatToString(n);
    if n >= 10 {
      DigitsValueOfNatToString(n / 10);
      assert s[..|s| - 1] == NatToString(n / 10);
    }
  }

  lemma DigitRunOfDigits(s: string)
    requires AllDigits(s)
    ensures DigitRun(s) == |s|
  {
    if s != [] {
      DigitRunOfDigits(s[1..]);
    }
  }

  /** Reading back the text of an integer gives that integer. */
  lemma ParseIntOfIntToString(n: int)
    ensures ParseInt(IntToString(n)) == Num(n)
  {
    var m: nat := if n < 0 then -n else n;
    DigitsValueOfNatToString(m);
    ParseIntOfDigits(NatToString(m));
  }

  /** A run of digits, with or without a minus sign in front, reads as its
      value. */
  lemma ParseIntOfDigits(d: string)
    requires d != [] && AllDigits(d)
    ensures ParseInt(d) == Num(DigitsValue(d))
    ensures ParseInt("-" + d) == Num(-DigitsValue(d))
  {
    ParseIntUnsigned(d);
    ParseIntNegative(d);
  }

  lemma ParseIntUnsigned(d: string)
    requires d != [] && AllDigits(d)
    ensures ParseInt(d) == Num(DigitsValue(d))
  {
    assert IsDigit(d[0]);
    assert TrimStart(d) == d;
    DigitRunOfDigits(d);
    assert d[..|d|] == d;
  }

  lemma ParseIntNegative(d: string)
    requires d != [] && AllDigits(d)
    ensures ParseInt("-" + d) == Num(-DigitsValue(d))
  {
    var t := "-" + d;
    assert t[0] == '-' && t[1..] == d;
    assert TrimStart(t) == t;
    DigitRunOfDigits(d);
    assert d[..|d|] == d;
  }

  /** The text of an integer holds digits and perhaps a minus sign, and
      nothing else. */
  lemma IntTextAvoids(n: int, c: char)
    requires !IsDigit(c) && c != '-'
    ensures c !in IntToString(n)
  {
    var m: nat := if n < 0 then -n else n;
    var t := NatToString(m);
    forall i | 0 <= i < |t|
      ensures t[i] != c
    {
      assert IsDigit(t[i]);
    }
    if n < 0 {
      assert IntToString(n) == "-" + t;
    }
  }

  /** Splitting a prefix that holds no separator extends the first piece. */
  lemma {:induction false} SplitPrefix(p: string, t: string, sep: char)
    requires sep !in p
    ensures Split(p + t, sep) == [p + Split(t, sep)[0]] + Split(t, sep)[1..]
    decreases |p|
  {
    if p != [] {
      var x := Split(t, sep);
      SplitPrefix(p[1..], t, sep);
      var y := Split(p[1..] + t, sep);
      assert y == [p[1..] + x[0]] + x[1..];
      assert y[0] == p[1..] + x[0] && y[1..] == x[1..];
      assert (p + t)[0] == p[0] && (p + t)[1..] == p[1..] + t;
      assert p[0] != sep;
      assert Split(p + t, sep) == [[p[0]] + y[0]] + y[1..];
      assert [p[0]] + (p[1..] + x[0]) == p + x[0];
    } else {
      assert p + t == t;
      var x := Split(t, sep);
      assert p + x[0] == x[0];
      assert x == [x[0]] + x[1..];
    }
  }

  /** Splitting the joined pieces gives the pieces back, as long as no piece
      holds the separator. */
  lemma {:induction false} SplitJoin(parts: seq<string>, sep: char)
    requires |parts| >= 1
    requires forall i :: 0 <= i < |parts| ==> sep !in parts[i]
    ensures Split(Join(parts, sep), sep) == parts
    decreases |parts|
  {
    if |parts| == 1 {
      SplitPrefix(parts[0], "", sep);
      assert parts[0] + "" == parts[0];
    } else {
      var rest := Join(parts[1..], sep);
      SplitJoin(parts[1..], sep);
      assert parts[0] + [sep] + rest == parts[0] + ([sep] + rest);
      SplitPrefix(parts[0], [sep] + rest, sep);
      assert ([sep] + rest)[0] == sep && ([sep] + rest)[1..] == rest;
      assert Split([sep] + rest, sep) == [""] + parts[1..];
      assert parts[0] + "" == parts[0];
      assert parts == [parts[0] + ""] + parts[1..];
    }
  }

  /** Joining the pieces of a split gives the text back. */
  lemma {:induction false} JoinSplit(s: string, sep: char)
    ensures Join(Split(s, sep), sep) == s
    decreases |s|
  {
    if s != [] {
      var rest := Split(s[1..], sep);
      JoinSplit(s[1..], sep);
      if s[0] == sep {
        assert ([""] + rest)[1..] == rest;
      } else {
        var parts := [[s[0]] + rest[0]] + rest[1..];
        if |rest| == 1 {
          assert s == [s[0]] + s[1..];
        } else {
          assert parts[1..] == rest[1..];
          assert Join(rest, sep) == rest[0] + [sep] + Join(rest[1..], sep);
          assert s == [s[0]] + s[1..];
        }
      }
    }
  }
}
