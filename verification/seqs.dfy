/** Order-preserving filters over sequences of keys (tree paths). */
module Seqs {

  /** No two positions of `s` hold the same value. */
  predicate Distinct<T(==)>(s: seq<T>) {
    forall i, j :: 0 <= i < j < |s| ==> s[i] != s[j]
  }

  /** The elements of `s` that belong to `keep`, in their order in `s`. */
  function Keep(s: seq<string>, keep: set<string>): (r: seq<string>)
    ensures forall x :: x in r <==> x in s && x in keep
    ensures |r| <= |s|
    decreases |s|
  {
    if |s| == 0 then []
    else Keep(s[..|s| - 1], keep) + (if s[|s| - 1] in keep then [s[|s| - 1]] else [])
  }

  /** Filtering a sequence without repetitions yields one without repetitions. */
  lemma {:induction false} KeepDistinct(s: seq<string>, keep: set<string>)
    requires Distinct(s)
    ensures Distinct(Keep(s, keep))
    decreases |s|
  {
    if |s| > 0 {
      var init := s[..|s| - 1];
      assert Distinct(init);
      KeepDistinct(init, keep);
      assert s[|s| - 1] !in init;
    }
  }

  /** The filter only looks at the elements of `s`: two sets that agree on them
      keep the same subsequence. */
  lemma {:induction false} KeepCongruent(s: seq<string>, a: set<string>, b: set<string>)
    requires forall x :: x in s ==> (x in a <==> x in b)
    ensures Keep(s, a) == Keep(s, b)
    decreases |s|
  {
    if |s| > 0 {
      KeepCongruent(s[..|s| - 1], a, b);
    }
  }

  /** Filtering a one-element extension filters the prefix and then the new element. */
  lemma KeepSnoc(s: seq<string>, x: string, keep: set<string>)
    ensures Keep(s + [x], keep) == Keep(s, keep) + (if x in keep then [x] else [])
  {
    assert (s + [x])[..|s|] == s;
  }
}
