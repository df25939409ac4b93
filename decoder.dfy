/** readOpcode: the instruction word is written in decimal, padded on the
    left with '0' to five characters, and cut into the last two characters
    (the command code) and the three characters before them (the modes of
    operands 1, 2 and 3, read right to left). Each piece goes through
    parseInt, so a piece that is just the minus sign of a negative word
    decodes as NaN. Both interpreters decode with this function. */
module Decoder {
  import opened JsText

  /** { code, modes }: modes[k - 1] is the mode of operand k. */
  datatype Op = Op(code: Number, modes: seq<Number>)

  function ReadOpcode(word: int): (op: Op)
    ensures |op.modes| == 3
  {
    Slices(PadStart(IntToString(word), 5, '0'))
  }

  /** str.slice(-2), str.slice(-3, -2), str.slice(-4, -3) and
      str.slice(-5, -4), each through parseInt. */
  function Slices(str: string): (op: Op)
    requires |str| >= 5
    ensures |op.modes| == 3
  {
    var n := |str|;
    Op(ParseInt(str[n - 2..]), [ParseInt(str[n - 3..n - 2]), ParseInt(str[n - 4..n - 3]), ParseInt(str[n - 5..n - 4])])
  }

  /** The last five characters of the word's text padded with '0' to five. */
  function Tail(word: int): (t: string)
    ensures |t| == 5
  {
    var str := PadStart(IntToString(word), 5, '0');
    str[|str| - 5..]
  }

  // ---------------------------------------------------------------------
  // What the decoding means in arithmetic terms

  /** The last w decimal digits of n, with leading zeros. */
  function Digits(n: nat, w: nat): (s: string)
    ensures |s| == w
  {
    if w == 0 then [] else Digits(n / 10, w - 1) + [DigitChar(n % 10)]
  }

  function Zeros(k: nat): (s: string)
    ensures |s| == k && forall i :: 0 <= i < k ==> s[i] == '0'
  {
    seq(k, _ => '0')
  }

  lemma {:induction false} DigitsOfZero(k: nat)
    ensures Digits(0, k) == Zeros(k)
  {
    if k > 0 {
      DigitsOfZero(k - 1);
    }
  }

  /** Zero-padding the decimal text of n to a width w gives its last w digits. */
  lemma {:induction false} PaddedNatToString(n: nat, w: nat)
    requires w >= |NatToString(n)|
    ensures Zeros(w - |NatToString(n)|) + NatToString(n) == Digits(n, w)
    decreases n
  {
    var s := NatToString(n);
    if n < 10 {
      DigitsOfZero(w - 1);
      assert Digits(n, w) == Digits(0, w - 1) + [DigitChar(n)];
    } else {
      PaddedNatToString(n / 10, w - 1);
      assert Zeros(w - |s|) + s == (Zeros(w - |s|) + NatToString(n / 10)) + [DigitChar(n % 10)];
    }
  }

  /** The last w characters of the decimal text of n are its last w digits. */
  lemma {:induction false} SuffixOfNatToString(n: nat, w: nat)
    requires w <= |NatToString(n)|
    ensures NatToString(n)[|NatToString(n)| - w..] == Digits(n, w)
    decreases n
  {
    var s := NatToString(n);
    if w > 0 {
      if n < 10 {
        assert Digits(n, 1) == Digits(0, 0) + [DigitChar(n)];
      } else {
        var t := NatToString(n / 10);
        SuffixOfNatToString(n / 10, w - 1);
        assert s[|s| - w..] == t[|t| - (w - 1)..] + [DigitChar(n % 10)];
      }
    }
  }

  /** The length of the decimal text against powers of ten. */
  lemma {:induction false} NatToStringLength(n: nat)
    ensures |NatToString(n)| >= 2 <==> n >= 10
    ensures |NatToString(n)| >= 3 <==> n >= 100
    ensures |NatToString(n)| >= 4 <==> n >= 1000
    ensures |NatToString(n)| >= 5 <==> n >= 10000
    decreases n
  {
    if n >= 10 {
      NatToStringLength(n / 10);
    }
  }

  /** The last one to five digits spelled out. */
  lemma Digits1(n: nat)
    ensures Digits(n, 1) == [DigitChar(n % 10)]
  {
    assert Digits(n, 1) == Digits(n / 10, 0) + [DigitChar(n % 10)];
  }

  lemma Digits2(n: nat)
    ensures Digits(n, 2) == [DigitChar(n / 10 % 10), DigitChar(n % 10)]
  {
    Digits1(n / 10);
  }

  lemma Digits3(n: nat)
    ensures Digits(n, 3) == [DigitChar(n / 100 % 10), DigitChar(n / 10 % 10), DigitChar(n % 10)]
  {
    Digits2(n / 10);
    DivTen(n);
  }

  lemma Digits4(n: nat)
    ensures Digits(n, 4) == [DigitChar(n / 1000 % 10), DigitChar(n / 100 % 10), DigitChar(n / 10 % 10), DigitChar(n % 10)]
  {
    Digits3(n / 10);
    DivTen(n);
  }

  lemma Digits5(n: nat)
    ensures Digits(n, 5) == [DigitChar(n / 10000 % 10), DigitChar(n / 1000 % 10),
                             DigitChar(n / 100 % 10), DigitChar(n / 10 % 10), DigitChar(n % 10)]
  {
    Digits4(n / 10);
    DivTen(n);
  }

  lemma DivTen(n: nat)
    ensures n / 10 / 10 == n / 100
    ensures n / 10 / 100 == n / 1000
    ensures n / 10 / 1000 == n / 10000
  {
  }

  /** The last five characters of the padded text of a non-negative word
      are its last five digits. */
  lemma PaddedTail(n: nat)
    ensures Tail(n) == Digits(n, 5)
  {
    var s := NatToString(n);
    var str := PadStart(s, 5, '0');
    if |s| >= 5 {
      SuffixOfNatToString(n, 5);
    } else {
      PaddedNatToString(n, 5);
      assert str == Zeros(5 - |s|) + s;
    }
  }

  lemma ParseOneDigit(c: char)
    requires IsDigit(c)
    ensures ParseInt([c]) == Num(DigitValue(c))
  {
    ParseIntUnsigned([c]);
    assert [c][..0] == [];
  }

  lemma ParseTwoDigits(a: char, b: char)
    requires IsDigit(a) && IsDigit(b)
    ensures ParseInt([a, b]) == Num(10 * DigitValue(a) + DigitValue(b))
  {
    ParseIntUnsigned([a, b]);
    assert [a, b][..1] == [a];
    assert [a][..0] == [];
    assert DigitsValue([a]) == DigitValue(a);
    assert DigitsValue([a, b]) == DigitsValue([a]) * 10 + DigitValue(b);
  }

  /** The decoding in arithmetic terms. For a non-negative word, the code is
      its value modulo 100 and the mode of operand k is its (k + 2)-th
      decimal digit from the right, 0 when the word is shorter; for example
      1002 decodes to code 2 with modes 0, 1, 0. For a negative word the
      minus sign takes one of the five places when the magnitude has fewer
      than five digits. A magnitude under 10 gives a negative code (no
      command has one); otherwise the code is the magnitude modulo 100. The
      mode whose place holds the sign is NaN, the modes above it are 0, the
      modes below it are digits of the magnitude. */
  function Decode(word: int): (op: Op)
    ensures |op.modes| == 3
  {
    if word >= 0 then
      Op(Num(word % 100), [Num(word / 100 % 10), Num(word / 1000 % 10), Num(word / 10000 % 10)])
    else
      var m := -word;
      Op(if m < 10 then Num(word) else Num(m % 100),
         [if m >= 100 then Num(m / 100 % 10) else if m >= 10 then NaN else Num(0),
          if m >= 1000 then Num(m / 1000 % 10) else if m >= 100 then NaN else Num(0),
          if m >= 10000 then Num(m / 10000 % 10) else if m >= 1000 then NaN else Num(0)])
  }

  /** readOpcode, written with strings, computes Decode for every word. */
  lemma DecodeAgrees(word: int)
    ensures ReadOpcode(word) == Decode(word)
  {
    if word >= 0 {
      DecodeNonNegative(word);
    } else {
      DecodeNegative(word);
    }
  }

  /** readOpcode as the loops call it, with its result in Decode's terms. */
  method DecodeWord(word: int) returns (op: Op)
    ensures op == Decode(word)
  {
    op := ReadOpcode(word);
    DecodeAgrees(word);
  }

  lemma DecodeNonNegative(word: int)
    requires word >= 0
    ensures ReadOpcode(word) ==
      Op(Num(word % 100), [Num(word / 100 % 10), Num(word / 1000 % 10), Num(word / 10000 % 10)])
  {
    NonNegativeTail(word);
    TwoDigits(word);
    SlicesOfDigits(PadStart(IntToString(word), 5, '0'), word % 100,
                   word / 10000 % 10, word / 1000 % 10, word / 100 % 10, word / 10 % 10, word % 10);
  }

  lemma SlicesOfDigits(str: string, code: int, d4: nat, d3: nat, d2: nat, d1: nat, d0: nat)
    requires d4 < 10 && d3 < 10 && d2 < 10 && d1 < 10 && d0 < 10
    requires code == 10 * d1 + d0
    requires |str| >= 5
    requires str[|str| - 5..] == [DigitChar(d4), DigitChar(d3), DigitChar(d2), DigitChar(d1), DigitChar(d0)]
    ensures Slices(str) == Op(Num(code), [Num(d2), Num(d3), Num(d4)])
  {
    var n := |str|;
    var t := str[n - 5..];
    assert str[n - 2..] == t[3..] == [DigitChar(d1), DigitChar(d0)];
    assert str[n - 3..n - 2] == t[2..3] == [DigitChar(d2)];
    assert str[n - 4..n - 3] == t[1..2] == [DigitChar(d3)];
    assert str[n - 5..n - 4] == t[0..1] == [DigitChar(d4)];
    ParseTwoDigits(DigitChar(d1), DigitChar(d0));
    ParseOneDigit(DigitChar(d2));
    ParseOneDigit(DigitChar(d3));
    ParseOneDigit(DigitChar(d4));
  }

  lemma NonNegativeTail(n: nat)
    ensures Tail(n) == [DigitChar(n / 10000 % 10), DigitChar(n / 1000 % 10),
                        DigitChar(n / 100 % 10), DigitChar(n / 10 % 10), DigitChar(n % 10)]
  {
    PaddedTail(n);
    Digits5(n);
  }

  lemma TwoDigits(n: nat)
    ensures 10 * (n / 10 % 10) + n % 10 == n % 100
  {
  }

  lemma ParseMinus()
    ensures ParseInt("-") == NaN
  {
    assert TrimStart("-") == "-";
    assert "-"[1..] == "";
  }

  lemma ParseNegativeDigit(c: char)
    requires IsDigit(c)
    ensures ParseInt(['-', c]) == Num(-DigitValue(c))
  {
    ParseIntNegative([c]);
    assert "-" + [c] == ['-', c];
    assert [c][..0] == [];
  }

  /** The slices, read off the last five characters. */
  lemma SlicesOfTail(str: string, t: string)
    requires |str| >= 5 && str[|str| - 5..] == t
    ensures Slices(str) == Op(ParseInt([t[3], t[4]]), [ParseInt([t[2]]), ParseInt([t[1]]), ParseInt([t[0]])])
  {
    var n := |str|;
    assert str[n - 2..] == [t[3], t[4]];
    assert str[n - 3..n - 2] == [t[2]];
    assert str[n - 4..n - 3] == [t[1]];
    assert str[n - 5..n - 4] == [t[0]];
  }

  /** The last five characters of the padded text of -m, for m > 0: the
      minus sign takes a place when m has fewer than five digits. */
  function NegativeTail(m: nat): (t: string)
    ensures |t| == 5
  {
    if m >= 10000 then Digits(m, 5)
    else if m >= 1000 then "-" + Digits(m, 4)
    else if m >= 100 then "0-" + Digits(m, 3)
    else if m >= 10 then "00-" + Digits(m, 2)
    else "000-" + Digits(m, 1)
  }

  lemma TailOfNegative(word: int)
    requires word < 0
    ensures Tail(word) == NegativeTail(-word)
  {
    var m: nat := -word;
    var s := NatToString(m);
    assert IntToString(word) == "-" + s;
    NegativePadded(s, m);
  }

  /** The last five characters of "-" + s padded with '0' to five. */
  lemma NegativePadded(s: string, m: nat)
    requires m > 0 && s == NatToString(m)
    ensures var str := PadStart("-" + s, 5, '0'); str[|str| - 5..] == NegativeTail(m)
  {
    NatToStringLength(m);
    if m >= 10000 {
      LongNegative(s, m);
    } else {
      PaddedMinus(s);
      NegativeTailShort(m);
      var str := PadStart("-" + s, 5, '0');
      assert |str| == 5;
      assert str[0..] == str;
    }
  }

  lemma LongNegative(s: string, m: nat)
    requires s == NatToString(m) && |s| >= 5 && m >= 10000
    ensures var str := PadStart("-" + s, 5, '0'); str[|str| - 5..] == NegativeTail(m)
  {
    SuffixOfNatToString(m, 5);
    var str := PadStart("-" + s, 5, '0');
    assert str == "-" + s;
    assert str[|str| - 5..] == s[|s| - 5..];
  }

  lemma PaddedMinus(s: string)
    requires 1 <= |s| <= 4
    ensures PadStart("-" + s, 5, '0') == Zeros(4 - |s|) + "-" + s
  {
    var a := PadStart("-" + s, 5, '0');
    var b := Zeros(4 - |s|) + "-" + s;
    forall i | 0 <= i < 5 ensures a[i] == b[i] {
      if i > 4 - |s| {
        assert a[i] == ("-" + s)[i - (4 - |s|)];
      }
    }
  }

  lemma NegativeTailShort(m: nat)
    requires 0 < m < 10000
    ensures |NatToString(m)| <= 4
    ensures NegativeTail(m) == Zeros(4 - |NatToString(m)|) + "-" + NatToString(m)
  {
    var s := NatToString(m);
    NatToStringLength(m);
    PaddedNatToString(m, |s|);
    assert Zeros(0) + s == s;
    var w := |s|;
    ZerosPrefix(4 - w, s);
    if m >= 1000 {
      assert w == 4;
    } else if m >= 100 {
      assert w == 3;
    } else if m >= 10 {
      assert w == 2;
    } else {
      assert w == 1;
    }
  }

  lemma ZerosPrefix(k: nat, d: string)
    requires k <= 3
    ensures Zeros(k) + "-" + d == (if k == 0 then "-" else if k == 1 then "0-" else if k == 2 then "00-" else "000-") + d
  {
    var p := if k == 0 then "-" else if k == 1 then "0-" else if k == 2 then "00-" else "000-";
    assert Zeros(k) + "-" == p;
  }

  lemma DecodeNegative(word: int)
    requires word < 0
    ensures var m := -word;
      ReadOpcode(word) == Op(
        if m < 10 then Num(word) else Num(m % 100),
        [if m >= 100 then Num(m / 100 % 10) else if m >= 10 then NaN else Num(0),
         if m >= 1000 then Num(m / 1000 % 10) else if m >= 100 then NaN else Num(0),
         if m >= 10000 then Num(m / 10000 % 10) else if m >= 1000 then NaN else Num(0)])
  {
    var m: nat := -word;
    var str := PadStart(IntToString(word), 5, '0');
    TailOfNegative(word);
    assert Tail(word) == str[|str| - 5..];
    SlicesOfNegativeTail(str, m);
    assert ReadOpcode(word) == NegativeFields(m);
    DecodeNegativeTail(m);
  }

  lemma SlicesOfNegativeTail(str: string, m: nat)
    requires |str| >= 5 && str[|str| - 5..] == NegativeTail(m)
    ensures Slices(str) == NegativeFields(m)
  {
    SlicesOfTail(str, NegativeTail(m));
  }

  /** The decoded fields of NegativeTail(m). */
  function NegativeFields(m: nat): Op {
    var t := NegativeTail(m);
    Op(ParseInt([t[3], t[4]]), [ParseInt([t[2]]), ParseInt([t[1]]), ParseInt([t[0]])])
  }

  lemma DecodeNegativeTail(m: nat)
    requires m > 0
    ensures NegativeFields(m) == Op(
        if m < 10 then Num(-(m as int)) else Num(m % 100),
        [if m >= 100 then Num(m / 100 % 10) else if m >= 10 then NaN else Num(0),
         if m >= 1000 then Num(m / 1000 % 10) else if m >= 100 then NaN else Num(0),
         if m >= 10000 then Num(m / 10000 % 10) else if m >= 1000 then NaN else Num(0)])
  {
    if m >= 10000 {
      Negative5(m);
    } else if m >= 1000 {
      Negative4(m);
    } else if m >= 100 {
      Negative3(m);
    } else if m >= 10 {
      Negative2(m);
    } else {
      Negative1(m);
    }
  }

  lemma Negative5(m: nat)
    requires m >= 10000
    ensures NegativeFields(m) == Op(Num(m % 100), [Num(m / 100 % 10), Num(m / 1000 % 10), Num(m / 10000 % 10)])
  {
    Digits5(m);
    TwoDigits(m);
    FieldsOfDigits(NegativeTail(m), m % 100, m / 10000 % 10, m / 1000 % 10, m / 100 % 10, m / 10 % 10, m % 10);
  }

  lemma FieldsOfDigits(t: string, code: int, d4: nat, d3: nat, d2: nat, d1: nat, d0: nat)
    requires d4 < 10 && d3 < 10 && d2 < 10 && d1 < 10 && d0 < 10
    requires code == 10 * d1 + d0
    requires t == [DigitChar(d4), DigitChar(d3), DigitChar(d2), DigitChar(d1), DigitChar(d0)]
    ensures Op(ParseInt([t[3], t[4]]), [ParseInt([t[2]]), ParseInt([t[1]]), ParseInt([t[0]])])
      == Op(Num(code), [Num(d2), Num(d3), Num(d4)])
  {
    ParseTwoDigits(DigitChar(d1), DigitChar(d0));
    ParseOneDigit(DigitChar(d2));
    ParseOneDigit(DigitChar(d3));
    ParseOneDigit(DigitChar(d4));
  }

  lemma Negative4(m: nat)
    requires 1000 <= m < 10000
    ensures NegativeFields(m) == Op(Num(m % 100), [Num(m / 100 % 10), Num(m / 1000 % 10), NaN])
  {
    Digits4(m);
    TwoDigits(m);
    var t := NegativeTail(m);
    assert t == ['-', DigitChar(m / 1000 % 10), DigitChar(m / 100 % 10), DigitChar(m / 10 % 10), DigitChar(m % 10)];
    ParseMinus();
    ParseTwoDigits(t[3], t[4]);
    ParseOneDigit(t[2]);
    ParseOneDigit(t[1]);
  }

  lemma Negative3(m: nat)
    requires 100 <= m < 1000
    ensures NegativeFields(m) == Op(Num(m % 100), [Num(m / 100 % 10), NaN, Num(0)])
  {
    Digits3(m);
    TwoDigits(m);
    var t := NegativeTail(m);
    assert t == ['0', '-', DigitChar(m / 100 % 10), DigitChar(m / 10 % 10), DigitChar(m % 10)];
    ParseMinus();
    ParseTwoDigits(t[3], t[4]);
    ParseOneDigit(t[2]);
    ParseOneDigit('0');
  }

  lemma Negative2(m: nat)
    requires 10 <= m < 100
    ensures NegativeFields(m) == Op(Num(m % 100), [NaN, Num(0), Num(0)])
  {
    Digits2(m);
    TwoDigits(m);
    var t := NegativeTail(m);
    assert t == ['0', '0', '-', DigitChar(m / 10 % 10), DigitChar(m % 10)];
    ParseMinus();
    ParseTwoDigits(t[3], t[4]);
    ParseOneDigit('0');
  }

  lemma Negative1(m: nat)
    requires 0 < m < 10
    ensures NegativeFields(m) == Op(Num(-(m as int)), [Num(0), Num(0), Num(0)])
  {
    Digits1(m);
    var t := NegativeTail(m);
    assert t == ['0', '0', '0', '-', DigitChar(m % 10)];
    ParseNegativeDigit(t[4]);
    ParseOneDigit('0');
  }
}
