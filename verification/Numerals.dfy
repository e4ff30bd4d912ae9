/** Integers as text: writing a 32-bit value in a radix, and reading decimal digits back. */
module Numerals {
  import opened Basics
  import opened Strings

  const TWO_31 := 0x8000_0000
  const TWO_32 := 0x1_0000_0000

  /** A 32-bit signed integer. */
  type Word = v: int | -TWO_31 <= v < TWO_31

  function Wrap(x: int): Word {
    (x + TWO_31) % TWO_32 - TWO_31
  }

  function Unsigned(v: Word): (u: nat)
    ensures u < TWO_32 && Wrap(u) == v
  {
    if v < 0 then v + TWO_32 else v
  }

  // ---------- numerals ----------

  function Digit(d: nat, upper: bool): char
    requires d < 16
  {
    if d < 10 then (48 + d) as char else ((if upper then 65 else 97) + d - 10) as char
  }

  /** The value of a digit, none if the character is not one. */
  function DigitValue(ch: char): (d: int)
    ensures -1 <= d < 16
  {
    if '0' <= ch <= '9' then ch as int - 48
    else if 'a' <= ch <= 'f' then ch as int - 87
    else if 'A' <= ch <= 'F' then ch as int - 55
    else -1
  }

  predicate IsNumeral(s: string, radix: nat) {
    s != [] && forall j | 0 <= j < |s| :: 0 <= DigitValue(s[j]) < radix
  }

  /** What a string of digits stands for. */
  function Value(s: string, radix: nat): int {
    if s == [] then 0 else Value(s[..|s| - 1], radix) * radix + DigitValue(s[|s| - 1])
  }

  lemma QuotientBounds(u: nat, radix: nat, q: nat)
    requires 2 <= radix && q * radix <= u < q * radix + radix
    ensures 2 * q <= u && (q == 0 <==> u < radix)
  {
    assert q * (radix - 2) >= 0;
    if q >= 1 {
      assert (q - 1) * radix >= 0;
    }
  }

  function Quotient(u: nat, radix: nat): (q: nat)
    requires 2 <= radix
    ensures q <= u && (u > 0 ==> 2 * q <= u) && (q == 0 <==> u < radix)
  {
    QuotientBounds(u, radix, u / radix);
    u / radix
  }

  function Remainder(u: nat, radix: nat): (d: nat)
    requires 2 <= radix
    ensures d < radix && Quotient(u, radix) * radix + d == u && (u < radix ==> d == u)
  {
    u % radix
  }

  function Numeral(u: nat, radix: nat, upper: bool): string
    requires 2 <= radix <= 16
    decreases u
  {
    if u < radix then [Digit(u, upper)]
    else Numeral(Quotient(u, radix), radix, upper) + [Digit(Remainder(u, radix), upper)]
  }

  function Zeros(n: int): (s: string)
    ensures |s| == if n < 0 then 0 else n
  {
    if n <= 0 then [] else ['0'] + Zeros(n - 1)
  }

  function Padded(s: string, pad: nat): string {
    Zeros(pad - |s|) + s
  }

  function Magnitude(v: Word, unsig: bool): nat {
    if v < 0 && !unsig then -(v as int) else Unsigned(v)
  }

  /** The text of a value: a sign only if it is negative and read as signed; zeros go between the sign and the
      digits, and do not count the sign. */
  function Rendered(v: Word, radix: nat, upper: bool, unsig: bool, pad: nat): string
    requires 2 <= radix <= 16
  {
    (if v < 0 && !unsig then "-" else "") + Padded(Numeral(Magnitude(v, unsig), radix, upper), pad)
  }

  lemma {:induction false} NumeralIsRight(u: nat, radix: nat, upper: bool)
    requires 2 <= radix <= 16
    ensures IsNumeral(Numeral(u, radix, upper), radix) && Value(Numeral(u, radix, upper), radix) == u
    decreases u
  {
    hide Quotient, Remainder;
    var s := Numeral(u, radix, upper);
    if u < radix {
      assert s[..0] == [];
    } else {
      var front, d := Numeral(Quotient(u, radix), radix, upper), Remainder(u, radix);
      NumeralIsRight(Quotient(u, radix), radix, upper);
      assert s == front + [Digit(d, upper)] && s[..|s| - 1] == front;
    }
  }

  lemma ZerosUnroll(s: string, n: nat)
    requires n > 0
    ensures Zeros(n) + s == ['0'] + (Zeros(n - 1) + s)
  {
  }

  lemma NoZeros(s: string)
    ensures Zeros(0) + s == s
  {
  }

  lemma {:induction false} LeadingZero(s: string, radix: nat)
    ensures Value(['0'] + s, radix) == Value(s, radix)
    decreases |s|
  {
    if s == [] {
      assert ['0'][..0] == [];
    } else {
      LeadingZero(s[..|s| - 1], radix);
      assert (['0'] + s)[..|s|] == ['0'] + s[..|s| - 1];
    }
  }

  lemma OneZero(t: string, s: string, radix: nat)
    requires 2 <= radix && IsNumeral(s, radix) && t == ['0'] + s
    ensures IsNumeral(t, radix) && Value(t, radix) == Value(s, radix)
  {
    LeadingZero(s, radix);
    hide Value;
  }

  lemma {:induction false} ZerosDoNotCount(s: string, n: nat, radix: nat)
    requires 2 <= radix && IsNumeral(s, radix)
    ensures IsNumeral(Zeros(n) + s, radix) && Value(Zeros(n) + s, radix) == Value(s, radix)
    decreases n, |s|
  {
    if n == 0 {
      NoZeros(s);
    } else {
      hide *;
      ZerosDoNotCount(s, n - 1, radix);
      ZerosUnroll(s, n);
      OneZero(Zeros(n) + s, Zeros(n - 1) + s, radix);
    }
  }

  lemma SignIsRight(digits: string, radix: nat)
    requires IsNumeral(digits, radix)
    ensures "" + digits == digits && ("-" + digits)[1..] == digits && digits[0] != '-'
  {
    assert 0 <= DigitValue(digits[0]);
  }

  lemma PaddedIsRight(s: string, pad: nat, radix: nat)
    requires 2 <= radix && IsNumeral(s, radix)
    ensures IsNumeral(Padded(s, pad), radix) && Value(Padded(s, pad), radix) == Value(s, radix)
    ensures |Padded(s, pad)| == if |s| < pad then pad else |s|
  {
    if pad >= |s| {
      ZerosDoNotCount(s, pad - |s|, radix);
    } else {
      assert Padded(s, pad) == s;
    }
  }

  /** The text stands for the value: read as signed or unsigned, in the radix, with the zeros asked for. */
  lemma RenderedIsRight(v: Word, radix: nat, upper: bool, unsig: bool, pad: nat)
    requires 2 <= radix <= 16
    ensures var s := Rendered(v, radix, upper, unsig, pad);
      var digits := if v < 0 && !unsig then s[1..] else s;
      && s != [] && (v < 0 && !unsig <==> s[0] == '-')
      && IsNumeral(digits, radix) && pad <= |digits|
      && Value(digits, radix) == if v < 0 && !unsig then -(v as int) else Unsigned(v)
  {
    var numeral := Numeral(Magnitude(v, unsig), radix, upper);
    NumeralIsRight(Magnitude(v, unsig), radix, upper);
    PaddedIsRight(numeral, pad, radix);
    SignIsRight(Padded(numeral, pad), radix);
    hide Numeral, Value, Padded, DigitValue, IsNumeral;
  }

  /** Letters among the digits are all capitals, or none is. */
  predicate InCase(s: string, upper: bool) {
    forall j | 0 <= j < |s| :: '0' <= s[j] <= '9' || (if upper then 'A' <= s[j] <= 'F' else 'a' <= s[j] <= 'f')
  }

  lemma {:induction false} NumeralIsNeat(u: nat, radix: nat, upper: bool)
    requires 2 <= radix <= 16
    ensures var s := Numeral(u, radix, upper);
      s != [] && InCase(s, upper) && (u >= 1 ==> s[0] != '0') && (u == 0 ==> s == "0")
    decreases u
  {
    hide Quotient, Remainder;
    if u < radix {
    } else {
      NumeralIsNeat(Quotient(u, radix), radix, upper);
    }
  }

  lemma {:induction false} ZerosAreZeros(n: nat)
    ensures forall j | 0 <= j < n :: Zeros(n)[j] == '0'
  {
    if n == 0 {
    } else {
      ZerosAreZeros(n - 1);
    }
  }

  lemma PaddedIsNeat(s: string, pad: nat, upper: bool)
    requires s != [] && InCase(s, upper) && (|s| > 1 ==> s[0] != '0')
    ensures var t := Padded(s, pad);
      t != [] && InCase(t, upper) && (|t| > pad && |t| > 1 ==> t[0] != '0')
  {
    if pad > |s| {
      ZerosAreZeros(pad - |s|);
    } else {
      assert Padded(s, pad) == s;
    }
  }

  /** The text is in the case asked for, and has no more zeros in front than the padding asks for. */
  lemma RenderedIsNeat(v: Word, radix: nat, upper: bool, unsig: bool, pad: nat)
    requires 2 <= radix <= 16
    ensures var s := Rendered(v, radix, upper, unsig, pad);
      var digits := if v < 0 && !unsig then s[1..] else s;
      s != [] && InCase(digits, upper) && (|digits| > pad && |digits| > 1 ==> digits[0] != '0')
  {
    var numeral := Numeral(Magnitude(v, unsig), radix, upper);
    NumeralIsNeat(Magnitude(v, unsig), radix, upper);
    PaddedIsNeat(numeral, pad, upper);
    var digits := Padded(numeral, pad);
    assert ("-" + digits)[1..] == digits && "" + digits == digits;
    hide Numeral, Padded, InCase;
  }

  lemma SmallerFactor(a: nat, b: nat, c: nat)
    requires a * c < b * c
    ensures a < b
  {
    if b <= a {
      MulMono(c, b, a);
    }
  }

  function Power(b: nat, n: nat): nat {
    if n == 0 then 1 else b * Power(b, n - 1)
  }

  lemma {:induction false} NumeralLength(u: nat, radix: nat, upper: bool, n: nat)
    requires 2 <= radix <= 16 && 1 <= n && u < Power(radix, n)
    ensures |Numeral(u, radix, upper)| <= n
    decreases n
  {
    hide Quotient, Remainder;
    if u >= radix {
      var q, p := Quotient(u, radix), Power(radix, n - 1);
      assert Power(radix, n) == radix * p == p * radix;
      assert Quotient(u, radix) * radix + Remainder(u, radix) == u;
      SmallerFactor(q, p, radix);
      assert n >= 2;
      NumeralLength(q, radix, upper, n - 1);
    }
  }

  /** In the radixes and paddings that formats use, a value takes at most eleven characters. */
  lemma RenderedFits(v: Word, radix: nat, upper: bool, unsig: bool, pad: nat)
    requires radix == 10 || radix == 16
    requires pad <= 9
    ensures |Rendered(v, radix, upper, unsig, pad)| <= 11
  {
    var u := Magnitude(v, unsig);
    if radix == 10 {
      assert Power(10, 5) == 100_000;
      assert Power(10, 10) == 10_000_000_000 by {
        assert Power(10, 8) == 100_000_000;
      }
      NumeralLength(u, 10, upper, 10);
    } else {
      assert Power(16, 4) == 0x1_0000;
      assert Power(16, 8) == TWO_32;
      NumeralLength(u, 16, upper, 8);
    }
  }

  // ---------- writing ----------

  lemma {:induction false} ReverseConcat(a: string, b: string)
    ensures Reverse(a + b) == Reverse(b) + Reverse(a)
  {
    if a == [] {
      assert a + b == b;
    } else {
      assert (a + b)[1..] == a[1..] + b;
      ReverseConcat(a[1..], b);
    }
  }

  lemma {:induction false} ZerosSnoc(n: nat)
    ensures Zeros(n) + ['0'] == Zeros(n + 1)
  {
    if n == 0 {
    } else {
      ZerosSnoc(n - 1);
    }
  }

  lemma {:induction false} ReverseZeros(n: int)
    ensures Reverse(Zeros(n)) == Zeros(n)
  {
    if n <= 0 {
    } else {
      ReverseZeros(n - 1);
      ZerosSnoc(n - 1);
    }
  }

  /** Reverses the first len characters. */
  method ReverseFirst(a: array<char>, len: nat)
    requires len <= a.Length
    modifies a
    ensures a[..len] == Reverse(old(a[..len])) && forall j | len <= j < a.Length :: a[j] == old(a[j])
  {
    for i := 0 to len / 2
      invariant forall j | 0 <= j < i :: a[j] == old(a[len - 1 - j]) && a[len - 1 - j] == old(a[j])
      invariant forall j | i <= j < len - i :: a[j] == old(a[j])
      invariant forall j | len <= j < a.Length :: a[j] == old(a[j])
    {
      a[i], a[len - i - 1] := a[len - i - 1], a[i];
    }
    forall j | 0 <= j < len
      ensures Reverse(old(a[..len]))[j] == a[j]
    {
      ReverseAt(old(a[..len]), j);
    }
  }

  lemma NumeralStep(u: nat, radix: nat, upper: bool)
    requires 2 <= radix <= 16
    ensures u < radix ==> Numeral(u, radix, upper) == [Digit(Remainder(u, radix), upper)]
    ensures u >= radix ==>
      Numeral(u, radix, upper) == Numeral(Quotient(u, radix), radix, upper) + [Digit(Remainder(u, radix), upper)]
  {
    hide Quotient, Remainder;
  }

  /** One more digit, the lowest of what is left. */
  lemma LowStep(all: string, u: nat, low: string, radix: nat, upper: bool)
    requires 2 <= radix <= 16 && all == Numeral(u, radix, upper) + Reverse(low)
    ensures |low| < |all|
    ensures var more := low + [Digit(Remainder(u, radix), upper)];
      all == if u < radix then Reverse(more) else Numeral(Quotient(u, radix), radix, upper) + Reverse(more)
  {
    var d := Digit(Remainder(u, radix), upper);
    ReverseSnoc(low, d);
    if u >= radix {
      NumeralStep(u, radix, upper);
      hide *;
      ConcatAssoc(Numeral(Quotient(u, radix), radix, upper), [d], Reverse(low));
    }
  }

  /** Half of an unsigned word or less is a signed one that is not negative. */
  lemma QuotientIsWord(u: nat, q: nat)
    requires u < TWO_32 && 2 * q <= u
    ensures Wrap(q) == q && Unsigned(Wrap(q)) == q
  {
  }

  /** Writes the digits of a magnitude, lowest first. */
  method LowDigits(value: Word, radix: nat, upper: bool, buffer: array<char>) returns (n: nat)
    requires 2 <= radix <= 16 && |Numeral(Unsigned(value), radix, upper)| <= buffer.Length
    modifies buffer
    ensures n <= buffer.Length && Reverse(buffer[..n]) == Numeral(Unsigned(value), radix, upper)
    ensures forall j | n <= j < buffer.Length :: buffer[j] == old(buffer[j])
  {
    n := 0;
    var v := value;
    ghost var all := Numeral(Unsigned(value), radix, upper);
    ghost var low: string := [];
    assert all + Reverse(low) == all;
    hide Quotient, Remainder, Numeral, Reverse, Digit, Wrap, Unsigned;
    while true
      invariant n <= buffer.Length && buffer[..n] == low
      invariant forall j | n <= j < buffer.Length :: buffer[j] == old(buffer[j])
      invariant all == Numeral(Unsigned(v), radix, upper) + Reverse(low)
      decreases Unsigned(v)
    {
      var u := Unsigned(v);
      LowStep(all, u, low, radix, upper);
      var digit := Remainder(u, radix);
      buffer[n] := Digit(digit, upper);
      low := low + [Digit(digit, upper)];
      n := n + 1;
      QuotientIsWord(u, Quotient(u, radix));
      v := Wrap(Quotient(u, radix));
      if v <= 0 {
        break;
      }
    }
    assert buffer[..n] == low;
  }

  /** Adds zeros up to the padding; the text is still back to front. */
  method PadZeros(buffer: array<char>, n: nat, zeroPad: nat) returns (i: nat)
    requires n <= buffer.Length && zeroPad <= buffer.Length
    modifies buffer
    ensures i == if n < zeroPad then zeroPad else n
    ensures buffer[..i] == old(buffer[..n]) + Zeros(i - n)
    ensures forall j | i <= j < buffer.Length :: buffer[j] == old(buffer[j])
  {
    i := n;
    while i < zeroPad
      invariant n <= i && (i <= zeroPad || i == n)
      invariant i <= buffer.Length && buffer[..i] == old(buffer[..n]) + Zeros(i - n)
      invariant forall j | i <= j < buffer.Length :: buffer[j] == old(buffer[j])
    {
      ZerosSnoc(i - n);
      buffer[i] := '0';
      i := i + 1;
    }
  }

  /** Adds the sign and the NUL, and turns the text round. */
  method Close(buffer: array<char>, n: nat, negative: bool) returns (len: nat)
    requires n + (if negative then 1 else 0) < buffer.Length
    modifies buffer
    ensures len == n + (if negative then 1 else 0)
    ensures buffer[..len] == Reverse(old(buffer[..n]) + if negative then "-" else "")
    ensures buffer[len] == NUL && forall j | len < j < buffer.Length :: buffer[j] == old(buffer[j])
  {
    len := n;
    if negative {
      buffer[len] := '-';
      len := len + 1;
    }
    buffer[len] := NUL;
    assert buffer[..len] == old(buffer[..n]) + if negative then "-" else "";
    hide Reverse;
    ReverseFirst(buffer, len);
  }

  lemma BackToFront(low: string, zeros: nat, sign: string)
    requires |sign| <= 1
    ensures Reverse(low + Zeros(zeros) + sign) == sign + (Zeros(zeros) + Reverse(low))
  {
    ReverseConcat(low + Zeros(zeros), sign);
    ReverseConcat(low, Zeros(zeros));
    ReverseZeros(zeros);
    assert Reverse(sign) == sign;
  }

  /** Writes a value as text and ends it with NUL; a radix above 16 writes nothing. */
  method MiniItoa(value: Word, radix: nat, upper: bool, unsig: bool, buffer: array<char>, zeroPad: nat)
      returns (len: nat)
    requires 2 <= radix
    requires radix <= 16 ==> |Rendered(value, radix, upper, unsig, zeroPad)| < buffer.Length
    modifies buffer
    ensures radix > 16 ==> len == 0 && buffer[..] == old(buffer[..])
    ensures radix <= 16 ==>
      && len < buffer.Length
      && buffer[..len] == Rendered(value, radix, upper, unsig, zeroPad)
      && buffer[len] == NUL && forall j | len < j < buffer.Length :: buffer[j] == old(buffer[j])
  {
    if radix > 16 {
      return 0;
    }
    var v, negative := value, false;
    if value < 0 && !unsig {
      negative := true;
      v := Wrap(-(value as int));
    }
    assert Unsigned(v) == Magnitude(value, unsig);
    ghost var sign := if negative then "-" else "";
    ghost var text := Rendered(value, radix, upper, unsig, zeroPad);
    assert text == sign + Padded(Numeral(Unsigned(v), radix, upper), zeroPad);
    hide Numeral, Rendered, Reverse, Zeros, Unsigned, Wrap, Magnitude;
    var n := LowDigits(v, radix, upper, buffer);
    ghost var low := buffer[..n];
    var i := PadZeros(buffer, n, zeroPad);
    len := Close(buffer, i, negative);
    BackToFront(low, i - n, sign);
    assert Zeros(i - n) == Zeros(zeroPad - n);
  }

  // ---------- reading ----------

  /** What the shell takes a parameter for: a number if it consists of decimal digits, otherwise -1. */
  function Para(s: string): Word {
    if s == [] then 0
    else if IsNumeral(s, 10) then Wrap(Value(s, 10))
    else -1
  }

  lemma WrapShift(x: int, q: int)
    ensures Wrap(x + q * TWO_32) == Wrap(x)
  {
  }

  lemma WrapStep(x: int, d: int)
    ensures Wrap(Wrap(x) * 10 + d) == Wrap(x * 10 + d)
  {
    var q := (x + TWO_31) / TWO_32;
    assert Wrap(x) == x - q * TWO_32;
    WrapShift(x * 10 + d, -10 * q);
  }

  /** Reads decimal digits up to the NUL; the result wraps as 32-bit arithmetic does. */
  method GetPara(str: array<char>, ghost text: string) returns (result: Word)
    requires str[..] == text + [NUL] && NUL !in text
    ensures result == Para(text)
  {
    result := 0;
    var p := 0;
    assert str[..0] == [];
    while str[p] != NUL
      invariant p <= |text| && str[..p] == text[..p]
      invariant forall j | 0 <= j < p :: 0 <= DigitValue(text[j]) < 10
      invariant result == Wrap(Value(text[..p], 10))
      decreases |text| - p
    {
      assert p < |text| && str[p] == text[p];
      var digit := str[p] as int - 48;
      if digit < 0 || digit > 9 {
        assert !(0 <= DigitValue(text[p]) < 10);
        return -1;
      }
      assert text[..p + 1][..p] == text[..p];
      WrapStep(Value(text[..p], 10), digit);
      result := Wrap(result * 10 + digit);
      p := p + 1;
    }
    assert text[..p] == text;
  }

  /** A value printed in decimal, with any padding, reads back as itself: every 32-bit value if printed as unsigned, the
      others if printed as signed; a negative number printed with its sign is refused. */
  lemma PrintThenParse(v: Word, upper: bool, unsig: bool, pad: nat)
    ensures Para(Rendered(v, 10, upper, unsig, pad)) == if v < 0 && !unsig then -1 else v
  {
    RenderedIsRight(v, 10, upper, unsig, pad);
    var s := Rendered(v, 10, upper, unsig, pad);
    if v < 0 && !unsig {
      assert s[0] == '-' && DigitValue('-') == -1;
      assert !IsNumeral(s, 10);
    }
  }
}
