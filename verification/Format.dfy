/** The formatter of the kernel's printing functions: a bounded rendering of a format and its arguments, equal to the
    unbounded one cut to size. */
module Format {
  import opened Basics
  import opened Strings
  import opened Numerals

  /** An argument: a machine word, or a pointer to a string. A string is given as the memory it points to, which holds
      a NUL somewhere. */
  datatype Arg = Number(value: Word) | Text(chars: string)

  function Content(chars: string): string
    requires NUL in chars
  {
    assert chars[0..] == chars;
    chars[..Length(chars, 0)]
  }

  /** One conversion: the padding, the conversion character (NUL if the format ends first), and how many characters of
      the format it takes. */
  datatype Directive = Directive(pad: nat, conv: char, size: nat)

  function CharAt(text: string, p: nat): char {
    if p < |text| then text[p] else NUL
  }

  /** Reads what follows a percent sign. After a zero, one character is taken for the width, even if it is not a
      digit, and the next one for the conversion. */
  function Parse(text: string, p: nat): (d: Directive)
    requires p <= |text|
    ensures d.pad <= 9 && (d.conv != NUL ==> p + d.size <= |text|)
  {
    if CharAt(text, p) == '0' then
      var width := CharAt(text, p + 1);
      if width == NUL then Directive(0, NUL, 0)
      else Directive(if '0' <= width <= '9' then width as nat - 48 else 0, CharAt(text, p + 2), 3)
    else Directive(0, CharAt(text, p), 1)
  }

  predicate TakesNumber(conv: char) {
    conv == 'u' || conv == 'd' || conv == 'x' || conv == 'X' || conv == 'c'
  }

  predicate TakesArg(conv: char) {
    TakesNumber(conv) || conv == 's'
  }

  /** There is an argument of the right kind for the next conversion. */
  predicate Supplies(conv: char, args: seq<Arg>) {
    && (TakesNumber(conv) ==> args != [] && args[0].Number?)
    && (conv == 's' ==> args != [] && args[0].Text? && NUL in args[0].chars)
  }

  function Rest(conv: char, args: seq<Arg>): seq<Arg>
    requires Supplies(conv, args)
  {
    if TakesArg(conv) then args[1..] else args
  }

  /** The text of one conversion. */
  function Converted(d: Directive, args: seq<Arg>): string
    requires Supplies(d.conv, args)
  {
    match d.conv
    case 'u' => Rendered(args[0].value, 10, false, true, d.pad)
    case 'd' => Rendered(args[0].value, 10, false, false, d.pad)
    case 'x' => Rendered(args[0].value, 16, false, true, d.pad)
    case 'X' => Rendered(args[0].value, 16, true, true, d.pad)
    case 'c' => [(args[0].value % 256) as char]
    case 's' => Content(args[0].chars)
    case ch => [ch]
  }

  /** The caller passes an argument of the right kind for every conversion. */
  predicate Fits(text: string, p: nat, args: seq<Arg>)
    requires p <= |text|
    decreases |text| - p
  {
    if p == |text| then true
    else if text[p] != '%' then Fits(text, p + 1, args)
    else
      var d := Parse(text, p + 1);
      d.conv == NUL || (Supplies(d.conv, args) && Fits(text, p + 1 + d.size, Rest(d.conv, args)))
  }

  /** The whole text, whatever its length. */
  function Expand(text: string, p: nat, args: seq<Arg>): string
    requires p <= |text| && Fits(text, p, args)
    decreases |text| - p
  {
    if p == |text| then []
    else if text[p] != '%' then [text[p]] + Expand(text, p + 1, args)
    else
      var d := Parse(text, p + 1);
      if d.conv == NUL then []
      else Converted(d, args) + Expand(text, p + 1 + d.size, Rest(d.conv, args))
  }

  /** The output buffer and the place the next character goes to. */
  class MiniBuff {
    const buffer: array<char>
    const bufferLen: nat
    var pbuffer: nat

    ghost predicate Valid()
      reads this
    {
      bufferLen <= buffer.Length && (pbuffer < bufferLen || pbuffer == 0)
    }

    ghost function Contents(): string
      requires Valid()
      reads this, buffer
    {
      buffer[..pbuffer]
    }

    constructor (buffer: array<char>, bufferLen: nat)
      requires bufferLen <= buffer.Length
      ensures Valid() && Contents() == [] && this.buffer == buffer && this.bufferLen == bufferLen
    {
      this.buffer := buffer;
      this.bufferLen := bufferLen;
      pbuffer := 0;
    }

    /** Adds a character if there is room for it and a NUL after it. */
    method Putc(ch: char) returns (ok: bool)
      requires Valid()
      modifies this`pbuffer, buffer
      ensures Valid() && ok == (old(pbuffer) + 1 < bufferLen)
      ensures Contents() == if ok then old(Contents()) + [ch] else old(Contents())
      ensures pbuffer == old(pbuffer) + if ok then 1 else 0
      ensures ok ==> buffer[pbuffer] == NUL
      ensures forall j | pbuffer < j < buffer.Length || (!ok && j == pbuffer < buffer.Length) ::
        buffer[j] == old(buffer[j])
    {
      if pbuffer + 1 >= bufferLen {
        return false;
      }
      buffer[pbuffer] := ch;
      pbuffer := pbuffer + 1;
      buffer[pbuffer] := NUL;
      return true;
    }

    /** Adds as many of the characters as there is room for, and a NUL after them. */
    method Puts(s: string, length: nat) returns (len: nat)
      requires Valid() && pbuffer < bufferLen && length <= |s|
      modifies this`pbuffer, buffer
      ensures Valid() && len == Least(length, bufferLen - old(pbuffer) - 1)
      ensures Contents() == old(Contents()) + s[..len] && buffer[pbuffer] == NUL && pbuffer == old(pbuffer) + len
      ensures forall j | pbuffer < j < buffer.Length :: buffer[j] == old(buffer[j])
    {
      len := length;
      if bufferLen - pbuffer - 1 < len {
        len := bufferLen - pbuffer - 1;
      }
      for i := 0 to len
        invariant pbuffer == old(pbuffer) + i
        invariant buffer[..pbuffer] == old(Contents()) + s[..i]
        invariant forall j | pbuffer <= j < buffer.Length :: buffer[j] == old(buffer[j])
      {
        buffer[pbuffer] := s[i];
        pbuffer := pbuffer + 1;
      }
      buffer[pbuffer] := NUL;
    }
  }

  method MiniStrLen(s: string) returns (len: nat)
    requires NUL in s
    ensures len < |s| && Content(s) == s[..len]
  {
    assert s[0..] == s;
    len := 0;
    while s[len] != NUL
      invariant len < |s| && NUL in s[len..] && Length(s, 0) == len + Length(s, len)
      decreases |s| - len
    {
      len := len + 1;
    }
  }

  /** How many characters fit before the NUL. */
  function Capacity(bufferLen: nat): nat {
    if bufferLen == 0 then 0 else bufferLen - 1
  }

  /** The part of the ideal text a buffer of the given length shows. */
  predicate Shows(contents: string, text: string, bufferLen: nat) {
    contents == text[..Least(|text|, Capacity(bufferLen))]
  }

  /** Renders a number in a local buffer of 24 characters and adds it. */
  method PutNumber(b: MiniBuff, value: Word, radix: nat, upper: bool, unsig: bool, pad: nat)
    requires b.Valid() && b.pbuffer + 1 < b.bufferLen && pad <= 9
    requires radix == 10 || radix == 16
    modifies b`pbuffer, b.buffer
    ensures b.Valid() && Shows(b.Contents(), old(b.Contents()) + Rendered(value, radix, upper, unsig, pad), b.bufferLen)
    ensures b.buffer[b.pbuffer] == NUL && old(b.pbuffer) <= b.pbuffer
    ensures forall j | b.pbuffer < j < b.buffer.Length :: b.buffer[j] == old(b.buffer[j])
  {
    RenderedFits(value, radix, upper, unsig, pad);
    hide Rendered;
    var bf := new char[24];
    var len := MiniItoa(value, radix, upper, unsig, bf, pad);
    var _ := b.Puts(bf[..], len);
  }

  /** Adds the text of one conversion. */
  method Convert(b: MiniBuff, d: Directive, args: seq<Arg>)
    requires b.Valid() && b.pbuffer + 1 < b.bufferLen && d.pad <= 9 && Supplies(d.conv, args)
    modifies b`pbuffer, b.buffer
    ensures b.Valid() && Shows(b.Contents(), old(b.Contents()) + Converted(d, args), b.bufferLen)
    ensures b.buffer[b.pbuffer] == NUL && old(b.pbuffer) <= b.pbuffer
    ensures forall j | b.pbuffer < j < b.buffer.Length :: b.buffer[j] == old(b.buffer[j])
  {
    var ch := d.conv;
    if ch == 'u' || ch == 'd' {
      PutNumber(b, args[0].value, 10, false, ch == 'u', d.pad);
    } else if ch == 'x' || ch == 'X' {
      PutNumber(b, args[0].value, 16, ch == 'X', true, d.pad);
    } else if ch == 'c' {
      var _ := b.Putc((args[0].value % 256) as char);
    } else if ch == 's' {
      var len := MiniStrLen(args[0].chars);
      var _ := b.Puts(args[0].chars, len);
    } else {
      var _ := b.Putc(ch);
    }
  }

  /** Reads a conversion; `conv` is NUL if the format ends before it is complete. */
  method ReadDirective(fmt: array<char>, p: nat, ghost text: string) returns (d: Directive)
    requires fmt[..] == text + [NUL] && NUL !in text && p <= |text|
    ensures d == Parse(text, p)
  {
    var ch := fmt[p];
    if ch != '0' {
      return Directive(0, ch, 1);
    }
    var zeroPad := 0;
    ch := fmt[p + 1];
    if ch == NUL {
      return Directive(0, NUL, 0);
    }
    if '0' <= ch <= '9' {
      zeroPad := ch as nat - 48;
    }
    d := Directive(zeroPad, fmt[p + 2], 3);
  }

  lemma NotFull(contents: string, done: string, bufferLen: nat)
    requires Shows(contents, done, bufferLen) && |contents| + 1 < bufferLen
    ensures contents == done
  {
  }

  lemma AllShown(text: string, bufferLen: nat)
    requires |text| <= Capacity(bufferLen)
    ensures Shows(text, text, bufferLen)
  {
  }

  lemma ShownIs(contents: string, text: string, bufferLen: nat)
    requires Shows(contents, text, bufferLen)
    ensures |contents| == Least(|text|, Capacity(bufferLen)) && contents == text[..|contents|]
  {
  }

  /** Once the buffer is full, more text does not change what it shows. */
  lemma Full(contents: string, done: string, more: string, bufferLen: nat)
    requires Shows(contents, done, bufferLen) && |contents| + 1 >= bufferLen
    ensures Shows(contents, done + more, bufferLen)
  {
  }

  lemma ExpandConversion(text: string, p: nat, args: seq<Arg>, done: string)
    requires p < |text| && text[p] == '%' && Fits(text, p, args)
    ensures var d := Parse(text, p + 1);
      && (d.conv == NUL ==> done + Expand(text, p, args) == done)
      && (d.conv != NUL ==>
          && Supplies(d.conv, args) && Fits(text, p + 1 + d.size, Rest(d.conv, args))
          && done + Expand(text, p, args)
             == (done + Converted(d, args)) + Expand(text, p + 1 + d.size, Rest(d.conv, args)))
  {
    var d := Parse(text, p + 1);
    if d.conv != NUL {
      ConcatAssoc(done, Converted(d, args), Expand(text, p + 1 + d.size, Rest(d.conv, args)));
    }
  }

  lemma ExpandPlain(text: string, p: nat, args: seq<Arg>, done: string)
    requires p < |text| && text[p] != '%' && Fits(text, p, args)
    ensures Fits(text, p + 1, args)
    ensures done + Expand(text, p, args) == (done + [text[p]]) + Expand(text, p + 1, args)
  {
    ConcatAssoc(done, [text[p]], Expand(text, p + 1, args));
  }

  /** What the loop does with the character at p, or the conversion that begins there, when there is room. At the end of
      the format within a conversion it stops. */
  method FormatNext(b: MiniBuff, fmt: array<char>, p: nat, args: seq<Arg>, ghost text: string, ghost done: string)
      returns (q: nat, rest: seq<Arg>, ghost more: string, ended: bool)
    requires b.Valid() && b.pbuffer + 1 < b.bufferLen && b.buffer != fmt && b.Contents() == done
    requires fmt[..] == text + [NUL] && NUL !in text && p < |text| && Fits(text, p, args)
    modifies b`pbuffer, b.buffer
    ensures b.Valid() && old(b.pbuffer) <= b.pbuffer
    ensures ended ==> more == done && done + Expand(text, p, args) == done
    ensures ended ==> b.pbuffer == old(b.pbuffer) && b.buffer[..] == old(b.buffer[..])
    ensures !ended ==> p < q <= |text| && Fits(text, q, rest)
    ensures !ended ==> done + Expand(text, p, args) == more + Expand(text, q, rest)
    ensures !ended ==> Shows(b.Contents(), more, b.bufferLen) && b.buffer[b.pbuffer] == NUL
    ensures forall j | b.pbuffer < j < b.buffer.Length :: b.buffer[j] == old(b.buffer[j])
  {
    hide Expand, Fits, Converted, Supplies, Parse, Shows;
    q, rest, more, ended := p, args, done, false;
    if fmt[p] != '%' {
      ExpandPlain(text, p, args, done);
      var _ := b.Putc(fmt[p]);
      more := done + [fmt[p]];
      AllShown(more, b.bufferLen);
      q := p + 1;
    } else {
      ExpandConversion(text, p, args, done);
      var d := ReadDirective(fmt, p + 1, text);
      if d.conv == NUL {
        ended := true;
      } else {
        Convert(b, d, args);
        more := done + Converted(d, args);
        q := p + 1 + d.size;
        rest := Rest(d.conv, args);
      }
    }
  }

  /** Formats into a buffer. The result is the first bufferLen - 1 characters of the ideal text; the format is not read
      past its NUL, which is the last element of its array, and the buffer not written past the NUL after the result. */
  method MiniVsnprintf(buffer: array<char>, bufferLen: nat, fmt: array<char>, args: seq<Arg>, ghost text: string)
      returns (n: nat)
    requires bufferLen <= buffer.Length && buffer != fmt
    requires fmt[..] == text + [NUL] && NUL !in text && Fits(text, 0, args)
    modifies buffer
    ensures n == Least(|Expand(text, 0, args)|, Capacity(bufferLen)) && n <= buffer.Length
    ensures buffer[..n] == Expand(text, 0, args)[..n]
    ensures n > 0 ==> n < bufferLen && buffer[n] == NUL
    ensures forall j | n < j < buffer.Length :: buffer[j] == old(buffer[j])
    ensures bufferLen <= 1 ==> buffer[..] == old(buffer[..])
  {
    var b := new MiniBuff(buffer, bufferLen);
    var p := 0;
    var va := args;
    ghost var done: string := [];
    ghost var all := Expand(text, 0, args);
    assert all == done + all;
    hide Expand, Fits, Shows;
    AllShown([], bufferLen);
    while fmt[p] != NUL
      invariant b.Valid() && p <= |text| && Fits(text, p, va)
      invariant all == done + Expand(text, p, va)
      invariant Shows(b.Contents(), done, bufferLen)
      invariant b.pbuffer > 0 ==> buffer[b.pbuffer] == NUL
      invariant forall j | b.pbuffer < j < buffer.Length :: buffer[j] == old(buffer[j])
      invariant bufferLen <= 1 ==> forall j | 0 <= j < buffer.Length :: buffer[j] == old(buffer[j])
      decreases |text| - p
    {
      if b.pbuffer + 1 >= bufferLen {
        Full(b.Contents(), done, Expand(text, p, va), bufferLen);
        done := all;
        break;
      }
      NotFull(b.Contents(), done, bufferLen);
      var ended;
      p, va, done, ended := FormatNext(b, fmt, p, va, text, done);
      if ended {
        break;
      }
    }
    assert done == all;
    ShownIs(b.Contents(), all, bufferLen);
    return b.pbuffer;
  }

  /** What printk and printf hand to their device: at most 255 characters, ended by NUL. */
  method Printk(fmt: array<char>, args: seq<Arg>, ghost text: string) returns (buff: array<char>, n: nat)
    requires fmt[..] == text + [NUL] && NUL !in text && Fits(text, 0, args)
    ensures buff.Length == 256 && n == Least(|Expand(text, 0, args)|, 255)
    ensures buff[..n] == Expand(text, 0, args)[..n] && buff[n] == NUL
  {
    buff := new char[256];
    n := MiniVsnprintf(buff, 256, fmt, args, text);
    buff[n] := NUL;
  }

  /** Text without a percent sign stands for itself. */
  lemma {:induction false} PlainText(text: string, p: nat, args: seq<Arg>)
    requires p <= |text| && '%' !in text[p..]
    ensures Fits(text, p, args) && Expand(text, p, args) == text[p..]
    decreases |text| - p
  {
    if p < |text| {
      assert text[p..] == [text[p]] + text[p + 1..];
      PlainText(text, p + 1, args);
    }
  }

  /** A decimal conversion alone, with any of the ten paddings, can be read back: unsigned, every value; signed, every
      value that is not negative. */
  lemma PrintfThenParse(v: Word, pad: nat, unsig: bool)
    requires pad <= 9
    ensures var text := ['%', '0', (48 + pad) as char, if unsig then 'u' else 'd'];
      && Fits(text, 0, [Number(v)])
      && Para(Expand(text, 0, [Number(v)])) == if v < 0 && !unsig then -1 else v
  {
    var text := ['%', '0', (48 + pad) as char, if unsig then 'u' else 'd'];
    var d := Parse(text, 1);
    assert d == Directive(pad, if unsig then 'u' else 'd', 3);
    assert Fits(text, 4, []) && Expand(text, 4, []) == [];
    hide Para, Rendered;
    PrintThenParse(v, false, unsig, pad);
    var shown := Rendered(v, 10, false, unsig, pad);
    assert Converted(d, [Number(v)]) == shown;
    assert text[0] == '%' && Expand(text, 0, [Number(v)]) == shown + Expand(text, 4, []);
    assert shown + [] == shown;
  }
}
