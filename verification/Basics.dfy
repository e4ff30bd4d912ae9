/** Facts about numbers and sequences that several parts use. */
module Basics {

  function Least(a: int, b: int): int {
    if a < b then a else b
  }

  lemma ConcatAssoc<T>(a: seq<T>, b: seq<T>, c: seq<T>)
    ensures (a + b) + c == a + (b + c)
  {
  }

  lemma MulMono(k: nat, a: int, b: int)
    requires a <= b
    ensures k * a <= k * b
  {
    assert k * (b - a) >= 0;
  }

  /** Who has come in is who has gone out, followed by the queue; some more come in and go out in the same order. */
  lemma PassThrough<T>(came: seq<T>, gone: seq<T>, queue: seq<T>, come: seq<T>, go: seq<T>, rest: seq<T>)
    requires came == gone + queue && queue + come == go + rest
    ensures came + come == gone + go + rest
  {
    ConcatAssoc(gone, queue, come);
    ConcatAssoc(gone, go, rest);
  }
}
