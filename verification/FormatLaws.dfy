/** What a format stands for: formats put together stand for their texts put together, each conversion takes its own
    argument, and each conversion alone stands for its argument. */
module FormatLaws {
  import opened Basics
  import opened Strings
  import opened Numerals
  import opened Format

  // ---------- putting formats together ----------

  /** The arguments that are left when the format ends; none if it ends within a conversion. */
  datatype Remains = Broken | Left(args: seq<Arg>)

  function Used(text: string, p: nat, args: seq<Arg>): Remains
    requires p <= |text| && Fits(text, p, args)
    decreases |text| - p
  {
    if p == |text| then Left(args)
    else if text[p] != '%' then Used(text, p + 1, args)
    else
      var d := Parse(text, p + 1);
      if d.conv == NUL then Broken else Used(text, p + 1 + d.size, Rest(d.conv, args))
  }

  /** The format is complete and takes exactly these arguments. */
  predicate Takes(text: string, args: seq<Arg>) {
    Fits(text, 0, args) && Used(text, 0, args) == Left([])
  }

  /** A conversion that is complete reads nothing of what follows. */
  lemma ParseIsLocal(f: string, g: string, p: nat)
    requires p <= |f| && Parse(f, p).conv != NUL && NUL !in f
    ensures Parse(f + g, p) == Parse(f, p)
  {
  }

  lemma SuppliedToo(conv: char, a: seq<Arg>, b: seq<Arg>)
    requires Supplies(conv, a)
    ensures Supplies(conv, a + b) && Rest(conv, a + b) == Rest(conv, a) + b
    ensures TakesArg(conv) ==> (a + b)[0] == a[0]
  {
    if TakesArg(conv) {
      assert (a + b)[1..] == a[1..] + b;
    }
  }

  lemma ParseBehind(f: string, g: string, p: nat)
    requires p <= |g|
    ensures Parse(f + g, |f| + p) == Parse(g, p)
  {
    assert forall k | 0 <= k :: CharAt(f + g, |f| + k) == CharAt(g, k);
  }

  /** The second of two formats, seen from within the whole. */
  lemma {:induction false} ExpandBehind(f: string, g: string, p: nat, b: seq<Arg>)
    requires p <= |g| && Fits(g, p, b)
    ensures Fits(f + g, |f| + p, b) && Expand(f + g, |f| + p, b) == Expand(g, p, b)
    decreases |g| - p
  {
    hide Converted, Parse, Supplies, Rest;
    if p == |g| {
    } else if g[p] != '%' {
      ExpandBehind(f, g, p + 1, b);
    } else {
      var d := Parse(g, p + 1);
      ParseBehind(f, g, p + 1);
      if d.conv != NUL {
        ExpandBehind(f, g, p + 1 + d.size, Rest(d.conv, b));
      }
    }
  }

  lemma {:induction false} ComposeFrom(f: string, g: string, p: nat, a: seq<Arg>, b: seq<Arg>)
    requires p <= |f| && NUL !in f && Fits(f, p, a) && Used(f, p, a) == Left([]) && Fits(g, 0, b)
    ensures Fits(f + g, p, a + b) && Expand(f + g, p, a + b) == Expand(f, p, a) + Expand(g, 0, b)
    decreases |f| - p
  {
    hide Parse, Supplies, Rest;
    if p == |f| {
      assert [] + b == b;
      ExpandBehind(f, g, 0, b);
    } else if f[p] != '%' {
      ComposeFrom(f, g, p + 1, a, b);
      ConcatAssoc([f[p]], Expand(f, p + 1, a), Expand(g, 0, b));
    } else {
      var d := Parse(f, p + 1);
      ParseIsLocal(f, g, p + 1);
      SuppliedToo(d.conv, a, b);
      ComposeFrom(f, g, p + 1 + d.size, Rest(d.conv, a), b);
      ConcatAssoc(Converted(d, a), Expand(f, p + 1 + d.size, Rest(d.conv, a)), Expand(g, 0, b));
    }
  }

  /** Two formats one after the other stand for their two texts one after the other, each made from its own
      arguments. */
  lemma Compose(f: string, g: string, a: seq<Arg>, b: seq<Arg>)
    requires NUL !in f && Takes(f, a) && Fits(g, 0, b)
    ensures Fits(f + g, 0, a + b) && Expand(f + g, 0, a + b) == Expand(f, 0, a) + Expand(g, 0, b)
  {
    ComposeFrom(f, g, 0, a, b);
  }

  lemma {:induction false} UsedBehind(f: string, g: string, p: nat, b: seq<Arg>)
    requires p <= |g| && Fits(g, p, b)
    ensures Fits(f + g, |f| + p, b) && Used(f + g, |f| + p, b) == Used(g, p, b)
    decreases |g| - p
  {
    if p == |g| {
    } else if g[p] != '%' {
      UsedBehind(f, g, p + 1, b);
    } else {
      var d := Parse(g, p + 1);
      ParseBehind(f, g, p + 1);
      if d.conv != NUL {
        UsedBehind(f, g, p + 1 + d.size, Rest(d.conv, b));
      }
    }
  }

  lemma {:induction false} UsedFrom(f: string, g: string, p: nat, a: seq<Arg>, b: seq<Arg>)
    requires p <= |f| && NUL !in f && Fits(f, p, a) && Used(f, p, a) == Left([]) && Takes(g, b)
    ensures Fits(f + g, p, a + b) && Used(f + g, p, a + b) == Left([])
    decreases |f| - p
  {
    if p == |f| {
      assert [] + b == b;
      UsedBehind(f, g, 0, b);
    } else if f[p] != '%' {
      UsedFrom(f, g, p + 1, a, b);
    } else {
      var d := Parse(f, p + 1);
      ParseIsLocal(f, g, p + 1);
      SuppliedToo(d.conv, a, b);
      UsedFrom(f, g, p + 1 + d.size, Rest(d.conv, a), b);
    }
  }

  /** Together they take the arguments of both, so that this can go on. */
  lemma TakesBoth(f: string, g: string, a: seq<Arg>, b: seq<Arg>)
    requires NUL !in f && Takes(f, a) && Takes(g, b)
    ensures Takes(f + g, a + b)
  {
    UsedFrom(f, g, 0, a, b);
  }

  // ---------- one conversion ----------

  /** A conversion as it is written, with or without a padding. */
  function Written(conv: char, zeros: bool, pad: nat): string
    requires pad <= 9
  {
    if zeros then ['%', '0', (48 + pad) as char, conv] else ['%', conv]
  }

  lemma ParseWritten(conv: char, zeros: bool, pad: nat)
    requires pad <= 9 && conv != NUL && (!zeros ==> conv != '0' && pad == 0)
    ensures var text := Written(conv, zeros, pad); Parse(text, 1) == Directive(pad, conv, |text| - 1)
  {
  }

  /** A text that is one conversion and nothing else. */
  lemma WholeText(text: string, d: Directive, args: seq<Arg>)
    requires text != [] && text[0] == '%' && Parse(text, 1) == d && d.conv != NUL && 1 + d.size == |text|
    requires Supplies(d.conv, args) && |args| == if TakesArg(d.conv) then 1 else 0
    ensures Takes(text, args) && Expand(text, 0, args) == Converted(d, args)
  {
    assert Rest(d.conv, args) == [];
    assert Fits(text, |text|, []) && Expand(text, |text|, []) == [] && Used(text, |text|, []) == Left([]);
    hide Converted, Parse;
    assert Converted(d, args) + [] == Converted(d, args);
  }

  /** A conversion alone: it takes the argument it needs, and the text is the conversion's. */
  lemma OneConversion(conv: char, zeros: bool, pad: nat, args: seq<Arg>)
    requires pad <= 9 && conv != NUL && (!zeros ==> conv != '0' && pad == 0) && Supplies(conv, args)
    requires |args| == if TakesArg(conv) then 1 else 0
    ensures var text := Written(conv, zeros, pad);
      Takes(text, args) && Expand(text, 0, args) == Converted(Directive(pad, conv, |text| - 1), args)
  {
    var text := Written(conv, zeros, pad);
    ParseWritten(conv, zeros, pad);
    hide Takes, Expand, Fits, Converted, Parse;
    WholeText(text, Directive(pad, conv, |text| - 1), args);
  }

  /** The text stands for the word: its value in the radix, a sign exactly if it is read as signed and negative, at
      least as many digits as the padding asks for and no zero in front beyond them, letters in the case asked for. */
  predicate StandsFor(s: string, v: Word, radix: nat, upper: bool, unsig: bool, pad: nat) {
    var negative := v < 0 && !unsig;
    s != [] && (negative <==> s[0] == '-') &&
    var digits := if negative then s[1..] else s;
    && IsNumeral(digits, radix) && InCase(digits, upper)
    && Value(digits, radix) == (if negative then -(v as int) else if v < 0 then v as int + TWO_32 else v as int)
    && |digits| >= pad && (|digits| > pad && |digits| > 1 ==> digits[0] != '0')
  }

  lemma RenderedStands(v: Word, radix: nat, upper: bool, unsig: bool, pad: nat)
    requires 2 <= radix <= 16
    ensures StandsFor(Rendered(v, radix, upper, unsig, pad), v, radix, upper, unsig, pad)
  {
    RenderedIsRight(v, radix, upper, unsig, pad);
    RenderedIsNeat(v, radix, upper, unsig, pad);
    hide Rendered, IsNumeral, Value, InCase;
  }

  /** %d and %u are decimal, signed and unsigned; %x and %X hexadecimal, unsigned, in small and capital letters. */
  lemma NumberAlone(v: Word, conv: char, zeros: bool, pad: nat)
    requires conv == 'd' || conv == 'u' || conv == 'x' || conv == 'X'
    requires pad <= 9 && (!zeros ==> pad == 0)
    ensures var text := Written(conv, zeros, pad);
      && Takes(text, [Number(v)])
      && var radix := if conv == 'd' || conv == 'u' then 10 else 16;
         StandsFor(Expand(text, 0, [Number(v)]), v, radix, conv == 'X', conv != 'd', pad)
  {
    OneConversion(conv, zeros, pad, [Number(v)]);
    hide Rendered, StandsFor, Expand, Fits, Used, Takes;
    RenderedStands(v, if conv == 'd' || conv == 'u' then 10 else 16, conv == 'X', conv != 'd', pad);
  }

  lemma LowByte(v: int)
    ensures (v % 256 - v) % 256 == 0
  {
    assert v % 256 - v == -(v / 256) * 256;
  }

  /** %c is the character of the low byte. */
  lemma CharacterAlone(v: Word, zeros: bool, pad: nat)
    requires pad <= 9 && (!zeros ==> pad == 0)
    ensures var text := Written('c', zeros, pad);
      && Takes(text, [Number(v)]) && |Expand(text, 0, [Number(v)])| == 1
      && ((Expand(text, 0, [Number(v)])[0] as int) - v) % 256 == 0 && (Expand(text, 0, [Number(v)])[0] as int) < 256
  {
    OneConversion('c', zeros, pad, [Number(v)]);
    hide Expand, Fits, Used, Takes;
    LowByte(v);
  }

  lemma ContentIs(s: string, behind: string)
    requires NUL !in s
    ensures NUL in s + [NUL] + behind && Content(s + [NUL] + behind) == s
  {
    var chars := s + [NUL] + behind;
    assert chars[|s|] == NUL;
    var n := |Content(chars)|;
    assert chars[0..] == chars;
    assert Content(chars) == chars[..n] && chars[n] == NUL && NUL !in chars[..n];
    assert forall j | 0 <= j < n :: chars[j] in chars[..n];
    assert forall j | 0 <= j < |s| :: chars[j] == s[j] && s[j] in s;
  }

  /** %s is the string up to its NUL, whatever the padding. */
  lemma StringAlone(s: string, behind: string, zeros: bool, pad: nat)
    requires pad <= 9 && (!zeros ==> pad == 0) && NUL !in s
    ensures var text, arg := Written('s', zeros, pad), Text(s + [NUL] + behind);
      Takes(text, [arg]) && Expand(text, 0, [arg]) == s
  {
    var chars := s + [NUL] + behind;
    assert chars[|s|] == NUL;
    OneConversion('s', zeros, pad, [Text(chars)]);
    hide Expand, Fits, Used, Takes;
    ContentIs(s, behind);
  }

  /** Any other character after the sign stands for itself, a second percent sign included, and takes no argument. */
  lemma OtherAlone(conv: char, zeros: bool, pad: nat)
    requires !TakesArg(conv) && conv != NUL && pad <= 9 && (!zeros ==> conv != '0' && pad == 0)
    ensures Takes(Written(conv, zeros, pad), []) && Expand(Written(conv, zeros, pad), 0, []) == [conv]
  {
    OneConversion(conv, zeros, pad, []);
  }

  /** After a zero, a character that is not a digit is taken for a width all the same, and asks for no padding. */
  lemma OddWidth(v: Word, width: char)
    requires width != NUL && !('0' <= width <= '9')
    ensures var text := ['%', '0', width, 'd'];
      Takes(text, [Number(v)]) && StandsFor(Expand(text, 0, [Number(v)]), v, 10, false, false, 0)
  {
    var text, d := ['%', '0', width, 'd'], Directive(0, 'd', 3);
    assert Parse(text, 1) == d;
    hide Takes, Expand, Fits, Rendered, StandsFor, Parse;
    WholeText(text, d, [Number(v)]);
    RenderedStands(v, 10, false, false, 0);
  }

  /** A format that ends within a conversion stands for what comes before it. */
  lemma UnfinishedIsDropped(f: string, a: seq<Arg>, unfinished: string)
    requires NUL !in f && Takes(f, a)
    requires unfinished == "%" || unfinished == "%0"
      || (|unfinished| == 3 && unfinished[..2] == "%0" && unfinished[2] != NUL)
    ensures Fits(f + unfinished, 0, a) && Expand(f + unfinished, 0, a) == Expand(f, 0, a)
  {
    assert unfinished[0] == '%' && (|unfinished| >= 2 ==> unfinished[1] == '0');
    assert Parse(unfinished, 1).conv == NUL;
    assert Fits(unfinished, 0, []) && Expand(unfinished, 0, []) == [];
    hide Fits, Expand, Parse, Used;
    Compose(f, unfinished, a, []);
    assert a + [] == a && Expand(f, 0, a) + [] == Expand(f, 0, a);
  }

  /** Plain text takes no argument. */
  lemma {:induction false} PlainTakes(text: string, p: nat)
    requires p <= |text| && '%' !in text[p..]
    ensures Fits(text, p, []) && Used(text, p, []) == Left([])
    decreases |text| - p
  {
    if p == |text| {
    } else {
      assert text[p] in text[p..] && text[p + 1..] == text[p..][1..];
      PlainTakes(text, p + 1);
    }
  }

  // ---------- several ----------

  /** A format of two conversions with plain text between them: each number from its own argument. */
  lemma TwoNumbers(v: Word, w: Word, between: string)
    requires '%' !in between && NUL !in between
    ensures var text, args := "%d" + between + "%d", [Number(v)] + [] + [Number(w)];
      && Takes(text, args)
      && Expand(text, 0, args) == Rendered(v, 10, false, false, 0) + between + Rendered(w, 10, false, false, 0)
  {
    assert Written('d', false, 0) == "%d";
    OneConversion('d', false, 0, [Number(v)]);
    OneConversion('d', false, 0, [Number(w)]);
    assert between[0..] == between;
    PlainTakes(between, 0);
    PlainText(between, 0, []);
    hide Expand, Fits, Used, Rendered, Parse;
    Compose("%d", between, [Number(v)], []);
    TakesBoth("%d", between, [Number(v)], []);
    Compose("%d" + between, "%d", [Number(v)] + [], [Number(w)]);
    TakesBoth("%d" + between, "%d", [Number(v)] + [], [Number(w)]);
  }

  /** Plain text behind a format. */
  lemma TextBehind(f: string, a: seq<Arg>, text: string)
    requires NUL !in f && Takes(f, a) && '%' !in text && NUL !in text
    ensures Takes(f + text, a) && Expand(f + text, 0, a) == Expand(f, 0, a) + text
  {
    assert text[0..] == text && a + [] == a;
    PlainTakes(text, 0);
    PlainText(text, 0, []);
    hide Expand, Fits, Used;
    Compose(f, text, a, []);
    TakesBoth(f, text, a, []);
  }

  /** What the command begins with. */
  lemma Introduced()
    ensures Takes("%c[", [Number(27)]) && Expand("%c[", 0, [Number(27)]) == [27 as char] + "["
  {
    assert Written('c', false, 0) == "%c";
    OneConversion('c', false, 0, [Number(27)]);
    hide Takes, Expand, Fits, Parse;
    TextBehind("%c", [Number(27)], "[");
  }

  /** The command that moves the terminal's cursor: first the row, then the column, as the caller gives them. */
  lemma CursorCommand(x: Word, y: Word)
    ensures var text, args := "%c[%d;%dH", [Number(27), Number(y), Number(x)];
      && Takes(text, args)
      && Expand(text, 0, args) ==
        [27 as char] + "[" + (Rendered(y, 10, false, false, 0) + ";" + Rendered(x, 10, false, false, 0)) + "H"
  {
    var f, g := "%c[", "%d" + ";" + "%d";
    var a, b := [Number(27)], [Number(y)] + [] + [Number(x)];
    assert "%c[%d;%dH" == f + g + "H" && [Number(27), Number(y), Number(x)] == a + b;
    hide Takes, Expand, Fits, Rendered;
    Introduced();
    TwoNumbers(y, x, ";");
    Compose(f, g, a, b);
    TakesBoth(f, g, a, b);
    TextBehind(f + g, a + b, "H");
  }
}
