/** Bare product-state labels and their canonical order: the Cartesian product of
    `range(d)` over the subsystem dimensions, first subsystem slowest and last
    subsystem fastest, as `itertools.product` enumerates it. */
module BareLabels {
  import opened Options
  import opened Sequences

  /** A bare label as a caller may pass it: one integer per subsystem. */
  type Label = seq<int>

  /** The total Hilbert-space dimension for the given subsystem dimensions. */
  function Product(dims: seq<nat>): nat
  {
    if dims == [] then 1 else dims[0] * Product(dims[1..])
  }

  /** One excitation number per subsystem, each within that subsystem's range. */
  predicate ValidLabel(dims: seq<nat>, t: Label)
  {
    |t| == |dims| && forall i | 0 <= i < |t| :: 0 <= t[i] < dims[i]
  }

  lemma MixedRadixStep(i: nat, d: nat, j: nat, n: nat)
    requires i < d && j < n
    ensures i * n + j < d * n
  {
    calc {
      i * n + j;
    <
      i * n + n;
    ==
      (i + 1) * n;
    <=
      { assert i + 1 <= d; }
      d * n;
    }
  }

  /** The mixed-radix encoding of a valid label: its position in the canonical order. */
  function Rank(dims: seq<nat>, t: Label): (r: nat)
    requires ValidLabel(dims, t)
    ensures r < Product(dims)
  {
    if dims == [] then 0
    else
      assert ValidLabel(dims[1..], t[1..]);
      var rest := Rank(dims[1..], t[1..]);
      MixedRadixStep(t[0], dims[0], rest, Product(dims[1..]));
      t[0] * Product(dims[1..]) + rest
  }

  /** Every label of `tails` with `i` put in front. */
  function Prefixed(i: nat, tails: seq<Label>): (r: seq<Label>)
    ensures |r| == |tails|
    ensures forall j | 0 <= j < |tails| :: r[j] == [i] + tails[j]
  {
    seq(|tails|, j requires 0 <= j < |tails| => [i] + tails[j])
  }

  /** `range(d)` times `tails`, the first factor varying slowest. */
  function ProductRange(d: nat, tails: seq<Label>): (r: seq<Label>)
    ensures |r| == d * |tails|
  {
    if d == 0 then [] else ProductRange(d - 1, tails) + Prefixed(d - 1, tails)
  }

  /** The canonical sequence of bare labels for the subsystem dimensions `dims`. */
  function CanonicalLabels(dims: seq<nat>): (r: seq<Label>)
    ensures |r| == Product(dims)
  {
    if dims == [] then [[]] else ProductRange(dims[0], CanonicalLabels(dims[1..]))
  }

  /** Label `[i] + tails[j]` sits at position `i * |tails| + j` of `range(d)` times `tails`. */
  lemma {:induction false} ProductRangeAt(d: nat, tails: seq<Label>, i: nat, j: nat)
    requires i < d && j < |tails|
    ensures i * |tails| + j < |ProductRange(d, tails)|
    ensures ProductRange(d, tails)[i * |tails| + j] == [i] + tails[j]
  {
    MixedRadixStep(i, d, j, |tails|);
    if i < d - 1 {
      ProductRangeAt(d - 1, tails, i, j);
    } else {
      assert |ProductRange(d - 1, tails)| == i * |tails|;
    }
  }

  /** Every valid label occurs in the canonical sequence, at its mixed-radix position. */
  lemma {:induction false} CanonicalAt(dims: seq<nat>, t: Label)
    requires ValidLabel(dims, t)
    ensures Rank(dims, t) < |CanonicalLabels(dims)|
    ensures CanonicalLabels(dims)[Rank(dims, t)] == t
  {
    if dims != [] {
      assert ValidLabel(dims[1..], t[1..]);
      CanonicalAt(dims[1..], t[1..]);
      var tails := CanonicalLabels(dims[1..]);
      ProductRangeAt(dims[0], tails, t[0], Rank(dims[1..], t[1..]));
      assert [t[0]] + t[1..] == t;
    }
  }

  /** Within `range(d)` times the canonical labels of `dims[1..]`, every entry is a valid
      label for `dims` whose mixed-radix rank is its position. */
  lemma {:induction false} ProductRangeRanks(dims: seq<nat>, d: nat, k: nat)
    requires dims != [] && d <= dims[0]
    requires forall j | 0 <= j < |CanonicalLabels(dims[1..])| ::
      ValidLabel(dims[1..], CanonicalLabels(dims[1..])[j]) && Rank(dims[1..], CanonicalLabels(dims[1..])[j]) == j
    requires k < |ProductRange(d, CanonicalLabels(dims[1..]))|
    ensures ValidLabel(dims, ProductRange(d, CanonicalLabels(dims[1..]))[k])
    ensures Rank(dims, ProductRange(d, CanonicalLabels(dims[1..]))[k]) == k
  {
    var tails := CanonicalLabels(dims[1..]);
    var n := |tails|;
    if k < (d - 1) * n {
      ProductRangeRanks(dims, d - 1, k);
    } else {
      var j := k - (d - 1) * n;
      var t := [d - 1] + tails[j];
      assert ProductRange(d, tails)[k] == t;
      assert t[1..] == tails[j];
      assert ValidLabel(dims, t);
      assert Rank(dims, t) == (d - 1) * n + j;
    }
  }

  /** Every canonical label is valid and its mixed-radix rank is its position. */
  lemma {:induction false} CanonicalRankAt(dims: seq<nat>, k: nat)
    requires k < |CanonicalLabels(dims)|
    ensures ValidLabel(dims, CanonicalLabels(dims)[k])
    ensures Rank(dims, CanonicalLabels(dims)[k]) == k
  {
    if dims != [] {
      forall j | 0 <= j < |CanonicalLabels(dims[1..])|
        ensures ValidLabel(dims[1..], CanonicalLabels(dims[1..])[j])
        ensures Rank(dims[1..], CanonicalLabels(dims[1..])[j]) == j
      {
        CanonicalRankAt(dims[1..], j);
      }
      ProductRangeRanks(dims, dims[0], k);
    }
  }

  /** A label is canonical exactly when it is valid. */
  lemma CanonicalMembership(dims: seq<nat>, t: Label)
    ensures t in CanonicalLabels(dims) <==> ValidLabel(dims, t)
  {
    if ValidLabel(dims, t) {
      CanonicalAt(dims, t);
    }
    if t in CanonicalLabels(dims) {
      var k :| 0 <= k < |CanonicalLabels(dims)| && CanonicalLabels(dims)[k] == t;
      CanonicalRankAt(dims, k);
    }
  }

  /** Looking a label up in the canonical sequence (`list.index`) finds its mixed-radix
      position when the label is valid and misses otherwise. */
  lemma CanonicalIndexOf(dims: seq<nat>, t: Label)
    ensures IndexOf(CanonicalLabels(dims), t) == if ValidLabel(dims, t) then Some(Rank(dims, t)) else None
  {
    CanonicalMembership(dims, t);
    var r := IndexOf(CanonicalLabels(dims), t);
    if r.Some? {
      CanonicalRankAt(dims, r.value);
    }
  }

  /** No label occurs twice in the canonical sequence. */
  lemma CanonicalDistinct(dims: seq<nat>, a: nat, b: nat)
    requires a < |CanonicalLabels(dims)| && b < |CanonicalLabels(dims)|
    requires CanonicalLabels(dims)[a] == CanonicalLabels(dims)[b]
    ensures a == b
  {
    CanonicalRankAt(dims, a);
    CanonicalRankAt(dims, b);
  }

  /** Lexicographic order on labels of equal length. */
  predicate LexLess(s: Label, t: Label)
    requires |s| == |t|
  {
    s != [] && (s[0] < t[0] || (s[0] == t[0] && LexLess(s[1..], t[1..])))
  }

  /** The mixed-radix rank is strictly monotone in the lexicographic order. */
  lemma {:induction false} RankMonotone(dims: seq<nat>, s: Label, t: Label)
    requires ValidLabel(dims, s) && ValidLabel(dims, t)
    requires LexLess(s, t)
    ensures Rank(dims, s) < Rank(dims, t)
  {
    assert ValidLabel(dims[1..], s[1..]) && ValidLabel(dims[1..], t[1..]);
    var n := Product(dims[1..]);
    if s[0] < t[0] {
      var rs := Rank(dims[1..], s[1..]);
      MixedRadixStep(s[0], t[0], rs, n);
    } else {
      RankMonotone(dims[1..], s[1..], t[1..]);
    }
  }

  /** Two distinct labels of equal length are ordered one way or the other. */
  lemma {:induction false} LexTotal(s: Label, t: Label)
    requires |s| == |t| && s != t
    ensures LexLess(s, t) || LexLess(t, s)
  {
    if s[0] == t[0] {
      assert s == [s[0]] + s[1..] && t == [t[0]] + t[1..];
      LexTotal(s[1..], t[1..]);
    }
  }

  /** The canonical sequence is strictly increasing in lexicographic order. */
  lemma CanonicalSorted(dims: seq<nat>, a: nat, b: nat)
    requires a < b < |CanonicalLabels(dims)|
    ensures |CanonicalLabels(dims)[a]| == |CanonicalLabels(dims)[b]|
    ensures LexLess(CanonicalLabels(dims)[a], CanonicalLabels(dims)[b])
  {
    var s, t := CanonicalLabels(dims)[a], CanonicalLabels(dims)[b];
    CanonicalRankAt(dims, a);
    CanonicalRankAt(dims, b);
    LexTotal(s, t);
    if LexLess(t, s) {
      RankMonotone(dims, t, s);
    }
  }

  /** Two subsystems of dimensions 2 and 3. */
  lemma CanonicalTwoByThree()
    ensures CanonicalLabels([2, 3]) == [[0, 0], [0, 1], [0, 2], [1, 0], [1, 1], [1, 2]]
  {
    var dims: seq<nat> := [2, 3];
    var expected: seq<Label> := [[0, 0], [0, 1], [0, 2], [1, 0], [1, 1], [1, 2]];
    assert Product(dims) == 6 by {
      assert dims[1..] == [3] && [3][1..] == [];
    }
    forall k | 0 <= k < 6
      ensures CanonicalLabels(dims)[k] == expected[k]
    {
      assert ValidLabel(dims, expected[k]);
      assert dims[1..] == [3] && expected[k][1..] == [expected[k][1]];
      assert Rank(dims, expected[k]) == k;
      CanonicalAt(dims, expected[k]);
    }
  }
}
