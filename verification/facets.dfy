/** The facet side-channel of a batch: Solr's flat `facet_fields.ancestor_id_path`
    array `[path, count, path, count, ...]`, and the `countbin` table postProcess
    builds from it (js/jquery.kmapstree.js:154-159). */
module Facets {

  /** One element of the flat facet array: a path label or a document count. */
  datatype FacetItem = Label(path: string) | Tally(count: int)

  /** The shape Solr gives the array: labels at even indices, counts at odd ones.
      The length may be odd, in which case the last label has no count. */
  predicate FacetShape(f: seq<FacetItem>) {
    forall i :: 0 <= i < |f| ==> (f[i].Label? <==> i % 2 == 0)
  }

  /** A `countbin` value: `count - 1`, or JavaScript's `NaN` for `undefined - 1`
      when the last label has no count after it. */
  datatype Bin = Num(value: int) | NaN

  /** JavaScript truthiness of a `countbin` value: zero and `NaN` are falsy. */
  predicate Truthy(b: Bin) {
    b.Num? && b.value != 0
  }

  /** The value stored for the label at even index `i`. */
  function BinAt(f: seq<FacetItem>, i: nat): Bin
    requires FacetShape(f) && i < |f| && i % 2 == 0
  {
    if i + 1 < |f| then Num(f[i + 1].count - 1) else NaN
  }

  /** In a well-shaped array the element after a label is a count. */
  lemma CountFollowsLabel(f: seq<FacetItem>, i: nat)
    requires FacetShape(f) && i + 1 < |f| && i % 2 == 0
    ensures f[i + 1].Tally?
  {
    assert (i + 1) % 2 == 1;
  }

  /** `countbin` after the first `k` iterations of the stride-2 loop: iteration
      `j` handles the label at index `2 * j` and overwrites any earlier entry. */
  function CountBinAfter(f: seq<FacetItem>, k: nat): map<string, Bin>
    requires FacetShape(f) && 2 * k <= |f| + 1
    decreases k
  {
    if k == 0 then map[]
    else CountBinAfter(f, k - 1)[f[2 * (k - 1)].path := BinAt(f, 2 * (k - 1))]
  }

  /** Number of iterations the loop `for (i = 0; i < len; i += 2)` performs. */
  function Iterations(f: seq<FacetItem>): (k: nat)
    ensures |f| <= 2 * k <= |f| + 1
  {
    (|f| + 1) / 2
  }

  /** The finished `countbin` table. */
  function CountBin(f: seq<FacetItem>): map<string, Bin>
    requires FacetShape(f)
  {
    CountBinAfter(f, Iterations(f))
  }

  /** The label at even index `i` is not repeated further on. */
  predicate LastLabel(f: seq<FacetItem>, i: nat)
    requires i < |f|
  {
    forall j :: i < j < |f| ==> f[j] != f[i]
  }

  /** Some index below `n` carries the label `p`. */
  predicate LabelledBelow(f: seq<FacetItem>, p: string, n: nat) {
    exists i :: 0 <= i < n && i < |f| && f[i] == Label(p)
  }

  /** The item at index `i` does not occur again below `n`. */
  predicate LastBelow(f: seq<FacetItem>, i: nat, n: nat)
    requires i < |f|
  {
    forall j :: i < j < n && j < |f| ==> f[j] != f[i]
  }

  /** After `k` iterations, exactly the labels at indices below `2k` have an entry. */
  lemma {:induction false} CountBinAfterKeys(f: seq<FacetItem>, k: nat)
    requires FacetShape(f) && 2 * k <= |f| + 1
    ensures forall p :: p in CountBinAfter(f, k) <==> LabelledBelow(f, p, 2 * k)
    decreases k
  {
    if k > 0 {
      CountBinAfterKeys(f, k - 1);
      var last := 2 * (k - 1);
      forall p
        ensures p in CountBinAfter(f, k) <==> LabelledBelow(f, p, 2 * k)
      {
        if p == f[last].path {
          assert f[last] == Label(p);
        } else if LabelledBelow(f, p, 2 * k) {
          var i :| 0 <= i < 2 * k && i < |f| && f[i] == Label(p);
          assert i != last && i != last + 1;
          assert LabelledBelow(f, p, 2 * (k - 1));
        }
      }
    }
  }

  /** After `k` iterations, a label at an even index below `2k` that is not
      repeated below `2k` holds the value computed from its own position. */
  lemma {:induction false} CountBinAfterValues(f: seq<FacetItem>, k: nat, i: nat)
    requires FacetShape(f) && 2 * k <= |f| + 1
    requires i < 2 * k && i < |f| && i % 2 == 0 && LastBelow(f, i, 2 * k)
    ensures f[i].path in CountBinAfter(f, k)
    ensures CountBinAfter(f, k)[f[i].path] == BinAt(f, i)
    decreases k
  {
    var last := 2 * (k - 1);
    if i != last {
      assert f[last] != f[i];
      CountBinAfterValues(f, k - 1, i);
    }
  }

  lemma CountBinKey(f: seq<FacetItem>, p: string)
    requires FacetShape(f)
    ensures p in CountBin(f) <==> LabelledBelow(f, p, |f|)
  {
    var k := Iterations(f);
    CountBinAfterKeys(f, k);
    if LabelledBelow(f, p, 2 * k) {
      var i :| 0 <= i < 2 * k && i < |f| && f[i] == Label(p);
      assert 0 <= i < |f|;
    }
  }

  lemma CountBinValue(f: seq<FacetItem>, i: nat)
    requires FacetShape(f) && i < |f| && i % 2 == 0 && LastLabel(f, i)
    ensures f[i].path in CountBin(f) && CountBin(f)[f[i].path] == BinAt(f, i)
    ensures i + 1 < |f| ==> f[i + 1].Tally? && BinAt(f, i) == Num(f[i + 1].count - 1)
  {
    var k := Iterations(f);
    assert LastBelow(f, i, 2 * k);
    CountBinAfterValues(f, k, i);
    if i + 1 < |f| {
      CountFollowsLabel(f, i);
    }
  }

  /** Every even index of the facet array whose label is not repeated later
      determines that label's entry: `countbin[facet[i]] == facet[i+1] - 1`, or NaN
      when the label is the last element.  A repeated label keeps its last value,
      and nothing but the labels gets an entry. */
  lemma CountBinLastWins(f: seq<FacetItem>)
    requires FacetShape(f)
    ensures forall p :: p in CountBin(f) <==> LabelledBelow(f, p, |f|)
    ensures forall i :: 0 <= i < |f| && i % 2 == 0 && LastLabel(f, i) ==>
      f[i].path in CountBin(f) && CountBin(f)[f[i].path] == BinAt(f, i)
    ensures forall i :: 0 <= i && i + 1 < |f| && i % 2 == 0 && LastLabel(f, i) ==>
      f[i].path in CountBin(f) && f[i + 1].Tally? &&
      CountBin(f)[f[i].path] == Num(f[i + 1].count - 1)
  {
    forall p
      ensures p in CountBin(f) <==> LabelledBelow(f, p, |f|)
    {
      CountBinKey(f, p);
    }
    forall i | 0 <= i < |f| && i % 2 == 0 && LastLabel(f, i)
      ensures f[i].path in CountBin(f) && CountBin(f)[f[i].path] == BinAt(f, i)
      ensures i + 1 < |f| ==> f[i + 1].Tally? && BinAt(f, i) == Num(f[i + 1].count - 1)
    {
      CountBinValue(f, i);
    }
  }

  /** The initial `lazy` flag of the node for `path`: the truthiness of
      `countbin[path]`, where a missing entry reads as `undefined` (falsy). */
  predicate InitialLazy(countbin: map<string, Bin>, path: string) {
    path in countbin && Truthy(countbin[path])
  }

  /** In terms of the facet array: a node starts lazy exactly when its path is a
      label whose last occurrence is followed by a count other than 1 (its own
      document).  A path with no facet entry, or whose last label has no count,
      starts non-lazy. */
  lemma InitialLazyFromFacets(f: seq<FacetItem>, path: string)
    requires FacetShape(f)
    ensures InitialLazy(CountBin(f), path) <==>
      exists i :: 0 <= i < |f| && f[i] == Label(path) && LastLabel(f, i) &&
        i + 1 < |f| && f[i + 1].count != 1
  {
    CountBinLastWins(f);
    if path in CountBin(f) {
      var i0 :| 0 <= i0 < |f| && f[i0] == Label(path);
      var i := LastOccurrence(f, i0);
      assert i % 2 == 0;
      assert CountBin(f)[path] == BinAt(f, i);
    }
  }

  /** The last index carrying the same item as index `i0`. */
  lemma LastOccurrence(f: seq<FacetItem>, i0: nat) returns (i: nat)
    requires i0 < |f|
    ensures i0 <= i < |f| && f[i] == f[i0] && LastLabel(f, i)
    decreases |f| - i0
  {
    if LastLabel(f, i0) {
      i := i0;
    } else {
      var j :| i0 < j < |f| && f[j] == f[i0];
      i := LastOccurrence(f, j);
    }
  }
}
