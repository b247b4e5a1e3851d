/** Assigning each canonical bare basis state the dressed state it overlaps most. */
module OverlapMapper {
  import opened Options
  import opened Framework

  /** An overlap below this magnitude makes no assignment. */
  const Threshold: real := 0.5

  /** A matrix of overlap magnitudes at one parameter index: one row per dressed
      eigenvector, `dimension` columns. A column's maximum needs at least one row. */
  predicate IsOverlapMatrix(m: Matrix, dimension: nat)
  {
    && (dimension > 0 ==> |m| > 0)
    && forall r | 0 <= r < |m| :: |m[r]| == dimension
  }

  /** Every row of `m` has a column `b`. */
  predicate HasColumn(m: Matrix, b: nat)
  {
    forall r | 0 <= r < |m| :: b < |m[r]|
  }

  /** Row `r` holds the largest entry of column `b`, and no earlier row holds as large
      an entry: the first-occurrence argmax. */
  predicate IsFirstArgmax(m: Matrix, b: nat, r: nat)
    requires HasColumn(m, b)
  {
    && r < |m|
    && (forall k | 0 <= k < |m| :: m[k][b] <= m[r][b])
    && (forall k | 0 <= k < r :: m[k][b] < m[r][b])
  }

  /** Every entry of column `b` is below the threshold. */
  predicate BelowThreshold(m: Matrix, b: nat)
    requires HasColumn(m, b)
  {
    forall k | 0 <= k < |m| :: m[k][b] < Threshold
  }

  /** `argmax` of column `b` over rows `0 .. n-1`: ties go to the lowest row. */
  function FirstArgmax(m: Matrix, b: nat, n: nat): (r: nat)
    requires HasColumn(m, b) && 0 < n <= |m|
    ensures r < n
    ensures forall k | 0 <= k < n :: m[k][b] <= m[r][b]
    ensures forall k | 0 <= k < r :: m[k][b] < m[r][b]
  {
    if n == 1 then 0
    else
      var r := FirstArgmax(m, b, n - 1);
      if m[r][b] < m[n - 1][b] then n - 1 else r
  }

  /** The dressed index assigned to bare column `b`: its first-occurrence argmax row,
      or None when even the largest overlap is below the threshold. */
  function AssignColumn(m: Matrix, b: nat): (r: Option<nat>)
    requires HasColumn(m, b) && |m| > 0
    ensures r.None? <==> BelowThreshold(m, b)
    ensures r.Some? ==> IsFirstArgmax(m, b, r.value)
  {
    var maxPosition := FirstArgmax(m, b, |m|);
    if m[maxPosition][b] < Threshold then None else Some(maxPosition)
  }

  /** The assignment list at one parameter index: one entry per canonical bare column. */
  function SingleMapping(m: Matrix, dimension: nat): (r: seq<Option<nat>>)
    requires IsOverlapMatrix(m, dimension)
    ensures |r| == dimension
    ensures forall b | 0 <= b < dimension :: (r[b].None? <==> BelowThreshold(m, b))
    ensures forall b | 0 <= b < dimension :: r[b].Some? ==> IsFirstArgmax(m, b, r[b].value)
  {
    seq(dimension, b requires 0 <= b < dimension => AssignColumn(m, b))
  }

  /** The loop over bare basis indices that builds one assignment list. */
  method GenerateSingleMapping(overlapMatrix: Matrix, dimension: nat) returns (dressedIndices: seq<Option<nat>>)
    requires IsOverlapMatrix(overlapMatrix, dimension)
    ensures dressedIndices == SingleMapping(overlapMatrix, dimension)
  {
    dressedIndices := [];
    for bareBasisIndex := 0 to dimension
      invariant |dressedIndices| == bareBasisIndex
      invariant forall b | 0 <= b < bareBasisIndex :: dressedIndices[b] == AssignColumn(overlapMatrix, b)
    {
      var maxPosition := FirstArgmax(overlapMatrix, bareBasisIndex, |overlapMatrix|);
      var maxOverlap := overlapMatrix[maxPosition][bareBasisIndex];
      if maxOverlap < Threshold {
        dressedIndices := dressedIndices + [None];
      } else {
        dressedIndices := dressedIndices + [Some(maxPosition)];
      }
    }
  }

  /** The stored dressed data has an overlap matrix for every parameter index. */
  predicate WellFormedSpectrum(dressed: SpectrumData, dimension: nat)
  {
    && dressed.paramCount <= |dressed.stateTable|
    && forall p | 0 <= p < dressed.paramCount :: IsOverlapMatrix(dressed.stateTable[p], dimension)
  }

  /** The loop over parameter indices that builds one assignment list per index. */
  method GenerateMappings(dressed: SpectrumData, dimension: nat) returns (dressedIndicesList: seq<seq<Option<nat>>>)
    requires WellFormedSpectrum(dressed, dimension)
    ensures |dressedIndicesList| == dressed.paramCount
    ensures forall p | 0 <= p < dressed.paramCount ::
      dressedIndicesList[p] == SingleMapping(dressed.stateTable[p], dimension)
  {
    dressedIndicesList := [];
    for index := 0 to dressed.paramCount
      invariant |dressedIndicesList| == index
      invariant forall p | 0 <= p < index :: dressedIndicesList[p] == SingleMapping(dressed.stateTable[p], dimension)
    {
      var dressedIndices := GenerateSingleMapping(dressed.stateTable[index], dimension);
      dressedIndicesList := dressedIndicesList + [dressedIndices];
    }
  }

  /** A column whose largest overlap is exactly the threshold is assigned. */
  lemma ThresholdIsInclusive()
    ensures AssignColumn([[0.5], [0.25]], 0) == Some(0)
    ensures AssignColumn([[0.25], [0.4999]], 0) == None
  {
    var m: Matrix := [[0.25], [0.4999]];
    assert !(m[1][0] >= Threshold) && !(m[0][0] >= Threshold);
  }

  /** The first-occurrence argmax of a column is unique, so the assignment is fully
      determined by the contract of AssignColumn. */
  lemma FirstArgmaxUnique(m: Matrix, b: nat, r1: nat, r2: nat)
    requires HasColumn(m, b)
    requires IsFirstArgmax(m, b, r1) && IsFirstArgmax(m, b, r2)
    ensures r1 == r2
  {
    assert m[r1][b] == m[r2][b];
  }

  /** When two rows tie for the largest overlap, the lower row wins. */
  lemma TieGoesToLowerRow()
    ensures AssignColumn([[0.25], [0.75], [0.75]], 0) == Some(1)
  {
    var m: Matrix := [[0.25], [0.75], [0.75]];
    assert IsFirstArgmax(m, 0, 1);
    FirstArgmaxUnique(m, 0, 1, AssignColumn(m, 0).value);
  }

  /** With the 4-by-4 identity as overlap matrix every bare state maps to itself. */
  lemma IdentityMapping()
    ensures SingleMapping([[1.0, 0.0, 0.0, 0.0], [0.0, 1.0, 0.0, 0.0], [0.0, 0.0, 1.0, 0.0], [0.0, 0.0, 0.0, 1.0]], 4)
         == [Some(0), Some(1), Some(2), Some(3)]
  {
    var m: Matrix := [[1.0, 0.0, 0.0, 0.0], [0.0, 1.0, 0.0, 0.0], [0.0, 0.0, 1.0, 0.0], [0.0, 0.0, 0.0, 1.0]];
    forall b | 0 <= b < 4
      ensures SingleMapping(m, 4)[b] == Some(b)
    {
      assert m[b][b] == 1.0;
      assert IsFirstArgmax(m, b, b);
      FirstArgmaxUnique(m, b, b, SingleMapping(m, 4)[b].value);
    }
  }
}
