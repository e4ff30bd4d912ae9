/** Character arrays: reversing in place, and the length of a string that ends in NUL. */
module Strings {

  const NUL: char := 0 as char

  function Reverse(s: string): (r: string)
    ensures |r| == |s|
  {
    if s == [] then [] else Reverse(s[1..]) + [s[0]]
  }

  lemma {:induction false} ReverseAt(s: string, k: nat)
    requires k < |s|
    ensures Reverse(s)[k] == s[|s| - 1 - k]
  {
    if k < |s| - 1 {
      ReverseAt(s[1..], k);
    }
  }

  lemma {:induction false} ReverseSnoc(s: string, ch: char)
    ensures Reverse(s + [ch]) == [ch] + Reverse(s)
  {
    if s == [] {
    } else {
      assert (s + [ch])[1..] == s[1..] + [ch];
      ReverseSnoc(s[1..], ch);
    }
  }

  /** What is reversed twice is as before: a receiver that takes a message off a byte stack and reverses it has the
      message as it was sent. */
  lemma {:induction false} ReverseTwice(s: string)
    ensures Reverse(Reverse(s)) == s
  {
    if s == [] {
    } else {
      ReverseSnoc(Reverse(s[1..]), s[0]);
      ReverseTwice(s[1..]);
    }
  }

  /** The length of the string that starts at `from`: the distance to the first NUL, beyond which nothing is read. */
  function Length(s: string, from: nat): (n: nat)
    requires from <= |s| && NUL in s[from..]
    ensures from + n < |s| && s[from + n] == NUL && NUL !in s[from..from + n]
    decreases |s| - from
  {
    if s[from] == NUL then 0 else 1 + Length(s, from + 1)
  }

  /** Reverses the first `length` characters; nothing happens if there are none. */
  method StrRev(msg: array<char>, length: int)
    requires length <= msg.Length
    modifies msg
    ensures msg[..] == if length <= 0 then old(msg[..]) else Reverse(old(msg[..length])) + old(msg[length..])
  {
    var p, q := 0, length - 1;
    while q > p
      invariant 0 <= p && (p == 0 || 2 * p <= length)
      invariant p + q == length - 1
      invariant forall j | 0 <= j < p :: msg[j] == old(msg[length - 1 - j]) && msg[length - 1 - j] == old(msg[j])
      invariant forall j | p <= j < length - p :: msg[j] == old(msg[j])
      invariant forall j | 0 <= j < msg.Length && j >= length :: msg[j] == old(msg[j])
    {
      msg[p], msg[q] := msg[q], msg[p];
      p, q := p + 1, q - 1;
    }
    if length >= 1 {
      forall j | 0 <= j < length
        ensures Reverse(old(msg[..length]))[j] == msg[j]
      {
        ReverseAt(old(msg[..length]), j);
      }
    }
  }

  method StrLen(src: array<char>) returns (i: nat)
    requires NUL in src[..]
    ensures i < src.Length && src[i] == NUL && NUL !in src[..i]
  {
    i := 0;
    while src[i] != NUL
      invariant i < src.Length && NUL !in src[..i] && NUL in src[i..]
      decreases src.Length - i
    {
      i := i + 1;
    }
  }
}
