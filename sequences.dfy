/** Order-keeping selections: `a` is a subsequence of `b` when its elements
    occur in `b` at increasing positions. */
module Sequences {
  /** `f` gives, for each element of `a`, its position in `b`; the positions
      increase. */
  ghost predicate Embedding<T>(a: seq<T>, b: seq<T>, f: seq<nat>) {
    && |f| == |a|
    && (forall i :: 0 <= i < |f| ==> f[i] < |b| && b[f[i]] == a[i])
    && (forall i, j :: 0 <= i < j < |f| ==> f[i] < f[j])
  }

  ghost predicate IsSubsequence<T>(a: seq<T>, b: seq<T>) {
    exists f :: Embedding(a, b, f)
  }

  lemma SubsequenceOfItself<T>(a: seq<T>)
    ensures IsSubsequence(a, a)
  {
    var f: seq<nat> := seq(|a|, i requires 0 <= i < |a| => i);
    assert Embedding(a, a, f);
  }

  /** Appending an element to `b` keeps `a` a subsequence, with or without
      that element appended to `a` too. */
  lemma SubsequenceExtend<T>(a: seq<T>, b: seq<T>, x: T, keep: bool)
    requires IsSubsequence(a, b)
    ensures IsSubsequence(a + (if keep then [x] else []), b + [x])
  {
    var f: seq<nat> :| Embedding(a, b, f);
    if keep {
      var g: seq<nat> := f + [|b|];
      assert Embedding(a + [x], b + [x], g);
    } else {
      assert a + [] == a;
      assert Embedding(a, b + [x], f);
    }
  }
}
