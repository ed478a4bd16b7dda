/** Regrouping facts about sequence concatenation, stated once for any element
    type so that the proofs about pin traces and transfers can cite them
    instead of re-deriving them on large concrete sequences. */
module Seqs {
  lemma Concat2<T>(o: seq<T>, a: seq<T>, b: seq<T>)
    ensures o + a + b == o + (a + b)
  {}

  lemma Concat3<T>(o: seq<T>, a: seq<T>, b: seq<T>, c: seq<T>)
    ensures o + a + b + c == o + (a + b + c)
  {}

  lemma Concat4<T>(o: seq<T>, a: seq<T>, b: seq<T>, c: seq<T>, d: seq<T>)
    ensures o + a + b + c + d == o + (a + b + c + d)
  {}

  lemma SnocFour<T>(o: seq<T>, a: T, b: T, c: T, d: T)
    ensures o + [a] + [b] + [c] + [d] == o + [a, b, c, d]
  {}

  lemma Snoc5<T>(o: seq<T>, a: T, b: T, c: T, d: T, e: T)
    ensures o + [a] + [b] + [c] + [d] + [e] == o + [a, b, c, d, e]
  {}

  lemma Snoc6<T>(o: seq<T>, a: T, b: T, c: T, d: T, e: T, f: T)
    ensures o + [a] + [b] + [c] + [d] + [e] + [f] == o + [a, b, c, d, e, f]
  {}

  /** The four equal-length quarters of a concatenation. */
  lemma Quarters<T>(a: seq<T>, b: seq<T>, c: seq<T>, d: seq<T>, n: nat)
    requires |a| == |b| == |c| == |d| == n
    ensures var s := a + b + c + d;
      |s| == 4 * n && s[..n] == a && s[n..2 * n] == b && s[2 * n..3 * n] == c && s[3 * n..] == d
  {
    var s := a + b + c + d;
    assert s[..n] == a;
    assert s[n..2 * n] == b;
    assert s[2 * n..3 * n] == c;
    assert s[3 * n..] == d;
  }
}
