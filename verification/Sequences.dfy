/** One fact about concatenation, used wherever a conservation law is summed over a run. */
module Sequences {
  lemma Rebracket<T>(a: seq<T>, b: seq<T>, c: seq<T>, x: seq<T>, p: seq<T>, y: seq<T>, z: seq<T>)
    requires a + b == x + p && p + c == y + z
    ensures a + (b + c) == (x + y) + z
  {
    assert a + (b + c) == (a + b) + c;
    assert (x + p) + c == x + (p + c);
    assert x + (y + z) == (x + y) + z;
  }
}
