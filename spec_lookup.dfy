/** The spectrum lookup table of a Hilbert space or parameter sweep: it translates
    between dressed indices and bare product-state labels, and warns on every query
    once its owner has marked it out of sync. */
module SpecLookup {
  import opened Options
  import opened Sequences
  import opened BareLabels
  import opened Framework
  import opened OverlapMapper

  /** The Python exceptions a lookup operation can raise. */
  datatype Failure = TypeError | IndexError | ValueError

  /** A returned value or a raised exception. */
  datatype Outcome<+T> = Ok(value: T) | Err(failure: Failure)

  /** What a query guarded by the sync check produces: its outcome and the number of
      out-of-sync warnings it emitted on the way. */
  datatype Guarded<+T> = Guarded(outcome: Outcome<T>, warnings: nat)

  /** Bare eigendata of one subsystem: the entry for one parameter index, or the whole
      stored table. */
  datatype BareStates = AtParameter(states: Matrix) | WholeTable(table: seq<Matrix>)

  /** `bare_specdata_list or fallback`: a missing or empty list is falsy in Python. */
  function BareDataSource(bareSpecdataList: Option<seq<BareSpecData>>, fallback: seq<BareSpecData>): seq<BareSpecData>
  {
    if bareSpecdataList.Some? && bareSpecdataList.value != [] then bareSpecdataList.value else fallback
  }

  /** `get_subsys_index`: the subsystem's position in the owner's subsystem list. */
  function GetSubsysIndex(h: HilbertSpace, subsys: Subsystem): (r: Option<nat>)
    ensures r.None? <==> subsys !in h.subsystems
    ensures r.Some? ==> r.value < |h.subsystems| && h.subsystems[r.value] == subsys
  {
    IndexOf(h.subsystems, subsys)
  }

  /** Bare eigenvectors of `subsys` for the owner `owner`. A sweep reads the given list,
      or `lookupBareSpecdata` (its lookup's list) when none or an empty one is given,
      and picks the entry for `paramIndex` exactly when the subsystem is one the sweep
      updates; a Hilbert space always answers with the whole table of the given list. */
  function SharedLookupBareEigenstates(owner: Owner, paramIndex: nat, subsys: Subsystem,
                                       bareSpecdataList: Option<seq<BareSpecData>>,
                                       lookupBareSpecdata: seq<BareSpecData>): (r: Outcome<BareStates>)
    ensures owner.OtherOwner? ==> r == Err(TypeError)
    ensures !owner.OtherOwner? && subsys !in OwnerSpace(owner).subsystems ==> r == Err(ValueError)
    ensures owner.HilbertSpaceOwner? && subsys in owner.hilbertspace.subsystems && bareSpecdataList.None? ==>
      r == Err(TypeError)
    ensures owner.HilbertSpaceOwner? && r.Ok? ==>
      var i := GetSubsysIndex(owner.hilbertspace, subsys).value;
      bareSpecdataList.Some? && i < |bareSpecdataList.value| && r.value == WholeTable(bareSpecdataList.value[i].stateTable)
    ensures owner.SweepOwner? && r.Ok? ==>
      (r.value.AtParameter? <==> subsys in owner.sweep.subsysUpdateList)
    ensures owner.SweepOwner? && r.Ok? ==>
      var source := BareDataSource(bareSpecdataList, lookupBareSpecdata);
      var i := GetSubsysIndex(owner.sweep.hilbertspace, subsys).value;
      && i < |source|
      && (r.value.AtParameter? ==>
            paramIndex < |source[i].stateTable| && r.value.states == source[i].stateTable[paramIndex])
      && (r.value.WholeTable? ==> r.value.table == source[i].stateTable)
    ensures r.Err? && r.failure == IndexError ==>
      !owner.OtherOwner? && subsys in OwnerSpace(owner).subsystems
    ensures owner.SweepOwner? && subsys in owner.sweep.hilbertspace.subsystems ==>
      var source := BareDataSource(bareSpecdataList, lookupBareSpecdata);
      var i := GetSubsysIndex(owner.sweep.hilbertspace, subsys).value;
      && (r.Ok? <==> i < |source| && (subsys in owner.sweep.subsysUpdateList ==> paramIndex < |source[i].stateTable|))
      && (r.Err? ==> r.failure == IndexError)
    ensures owner.HilbertSpaceOwner? && subsys in owner.hilbertspace.subsystems && bareSpecdataList.Some? ==>
      var i := GetSubsysIndex(owner.hilbertspace, subsys).value;
      && (r.Ok? <==> i < |bareSpecdataList.value|)
      && (r.Err? ==> r.failure == IndexError)
  {
    match owner
    case SweepOwner(sweep) =>
      var source := BareDataSource(bareSpecdataList, lookupBareSpecdata);
      (match GetSubsysIndex(sweep.hilbertspace, subsys)
       case None => Err(ValueError)
       case Some(subsysIndex) =>
         if subsysIndex >= |source| then Err(IndexError)
         else if subsys in sweep.subsysUpdateList then
           (if paramIndex < |source[subsysIndex].stateTable|
            then Ok(AtParameter(source[subsysIndex].stateTable[paramIndex]))
            else Err(IndexError))
         else Ok(WholeTable(source[subsysIndex].stateTable)))
    case HilbertSpaceOwner(h) =>
      (match GetSubsysIndex(h, subsys)
       case None => Err(ValueError)
       case Some(subsysIndex) =>
         if bareSpecdataList.None? then Err(TypeError)
         else if subsysIndex >= |bareSpecdataList.value| then Err(IndexError)
         else Ok(WholeTable(bareSpecdataList.value[subsysIndex].stateTable)))
    case OtherOwner => Err(TypeError)
  }

  /** Only a subsystem the sweep updates has bare data that depends on the parameter
      index; for every other subsystem, and for a Hilbert-space owner, the answer is the
      same at every parameter index. */
  lemma BareEigenstatesParamIndependent(owner: Owner, p: nat, q: nat, subsys: Subsystem,
                                        bareSpecdataList: Option<seq<BareSpecData>>,
                                        lookupBareSpecdata: seq<BareSpecData>)
    requires owner.HilbertSpaceOwner? || (owner.SweepOwner? && subsys !in owner.sweep.subsysUpdateList)
    ensures SharedLookupBareEigenstates(owner, p, subsys, bareSpecdataList, lookupBareSpecdata)
         == SharedLookupBareEigenstates(owner, q, subsys, bareSpecdataList, lookupBareSpecdata)
  {
  }

  /** `_generate_bare_labels`: the canonical bare labels of a Hilbert space. */
  function GenerateBareLabels(h: HilbertSpace): (labels: seq<Label>)
    ensures |labels| == Dimension(h)
    ensures forall t :: t in labels <==> ValidLabel(SubsystemDims(h), t)
    ensures forall k | 0 <= k < |labels| ::
      ValidLabel(SubsystemDims(h), labels[k]) && Rank(SubsystemDims(h), labels[k]) == k
  {
    var dims := SubsystemDims(h);
    forall t ensures t in CanonicalLabels(dims) <==> ValidLabel(dims, t) {
      CanonicalMembership(dims, t);
    }
    forall k | 0 <= k < |CanonicalLabels(dims)|
      ensures ValidLabel(dims, CanonicalLabels(dims)[k]) && Rank(dims, CanonicalLabels(dims)[k]) == k
    {
      CanonicalRankAt(dims, k);
    }
    CanonicalLabels(dims)
  }

  class SpectrumLookup {
    const dressedSpecdata: SpectrumData
    const bareSpecdataList: seq<BareSpecData>
    const sweep: Option<ParameterSweep>
    const hilbertspace: HilbertSpace
    const canonicalBareLabels: seq<Label>
    const dressedIndices: seq<seq<Option<nat>>>
    var outOfSync: bool

    /** The subsystem dimensions of the Hilbert space the table was built for. */
    function Dims(): seq<nat>
    {
      SubsystemDims(hilbertspace)
    }

    /** The table as its constructor leaves it; only `outOfSync` changes afterwards. */
    predicate Valid()
    {
      && (sweep.Some? ==> hilbertspace == sweep.value.hilbertspace)
      && WellFormedSpectrum(dressedSpecdata, Dimension(hilbertspace))
      && canonicalBareLabels == CanonicalLabels(Dims())
      && |dressedIndices| == dressedSpecdata.paramCount
      && forall p | 0 <= p < |dressedIndices| ::
           dressedIndices[p] == SingleMapping(dressedSpecdata.stateTable[p], Dimension(hilbertspace))
    }

    /** Builds the table for a recognised owner: the canonical labels, one assignment
        list per parameter index, and an in-sync flag. */
    constructor (framework: Owner, dressedSpecdata: SpectrumData, bareSpecdataList: seq<BareSpecData>)
      requires !framework.OtherOwner?
      requires WellFormedSpectrum(dressedSpecdata, Dimension(OwnerSpace(framework)))
      ensures Valid() && !outOfSync
      ensures this.dressedSpecdata == dressedSpecdata && this.bareSpecdataList == bareSpecdataList
      ensures hilbertspace == OwnerSpace(framework)
      ensures sweep == if framework.SweepOwner? then Some(framework.sweep) else None
    {
      this.dressedSpecdata := dressedSpecdata;
      this.bareSpecdataList := bareSpecdataList;
      var h := OwnerSpace(framework);
      if framework.SweepOwner? {
        sweep := Some(framework.sweep);
      } else {
        sweep := None;
      }
      hilbertspace := h;
      canonicalBareLabels := GenerateBareLabels(h);
      var mappings := GenerateMappings(dressedSpecdata, Dimension(h));
      dressedIndices := mappings;
      outOfSync := false;
    }

    /** `check_sync_status`: the number of warnings a guarded query emits before it runs. */
    function CheckSyncStatus(): (warnings: nat)
      reads this
      ensures warnings <= 1
      ensures warnings == 1 <==> outOfSync
    {
      if outOfSync then 1 else 0
    }

    /** Called by the owner when its subsystems change without a regeneration. The
        answer of every query stays what it was; only the warnings change. */
    method MarkOutOfSync()
      requires Valid()
      modifies this
      ensures Valid() && outOfSync
      ensures forall t: Label, p: nat :: DressedIndex(t, p).outcome == old(DressedIndex(t, p)).outcome
      ensures forall d: nat, p: nat :: BareIndex(d, p).outcome == old(BareIndex(d, p)).outcome
      ensures forall t: Label, p: nat :: EnergyBareIndex(t, p).outcome == old(EnergyBareIndex(t, p)).outcome
      ensures forall d: nat, p: nat :: EnergyDressedIndex(d, p).outcome == old(EnergyDressedIndex(d, p)).outcome
      ensures forall subsys: Subsystem, p: nat :: BareEigenstates(subsys, p).outcome == old(BareEigenstates(subsys, p)).outcome
    {
      outOfSync := true;
    }

    /** The dressed index of a bare label: None for a label that is not canonical,
        otherwise the assignment-list entry at the label's mixed-radix position. */
    function DressedIndex(bareLabels: Label, paramIndex: nat): (r: Guarded<Option<nat>>)
      reads this
      requires Valid()
      ensures r.warnings == CheckSyncStatus()
      ensures !ValidLabel(Dims(), bareLabels) ==> r.outcome == Ok(None)
      ensures ValidLabel(Dims(), bareLabels) && paramIndex >= dressedSpecdata.paramCount ==>
        r.outcome == Err(IndexError)
      ensures ValidLabel(Dims(), bareLabels) && paramIndex < dressedSpecdata.paramCount ==>
        r.outcome == Ok(dressedIndices[paramIndex][Rank(Dims(), bareLabels)])
    {
      CanonicalIndexOf(Dims(), bareLabels);
      var outcome :=
        match IndexOf(canonicalBareLabels, bareLabels)
        case None => Ok(None)
        case Some(lookupPosition) =>
          if paramIndex < |dressedIndices| then Ok(dressedIndices[paramIndex][lookupPosition])
          else Err(IndexError);
      Guarded(outcome, CheckSyncStatus())
    }

    /** The bare label of a dressed index: the first canonical label whose assignment
        is that index, or None when no label is assigned to it. */
    function BareIndex(dressedIndex: nat, paramIndex: nat): (r: Guarded<Option<Label>>)
      reads this
      requires Valid()
      ensures r.warnings == CheckSyncStatus()
      ensures paramIndex >= dressedSpecdata.paramCount ==> r.outcome == Err(IndexError)
      ensures paramIndex < dressedSpecdata.paramCount && Some(dressedIndex) !in dressedIndices[paramIndex] ==>
        r.outcome == Ok(None)
      ensures paramIndex < dressedSpecdata.paramCount && Some(dressedIndex) in dressedIndices[paramIndex] ==>
        && r.outcome.Ok? && r.outcome.value.Some?
        && ValidLabel(Dims(), r.outcome.value.value)
        && dressedIndices[paramIndex][Rank(Dims(), r.outcome.value.value)] == Some(dressedIndex)
        && forall k | 0 <= k < Rank(Dims(), r.outcome.value.value) :: dressedIndices[paramIndex][k] != Some(dressedIndex)
    {
      if paramIndex >= |dressedIndices| then Guarded(Err(IndexError), CheckSyncStatus())
      else
        var lookupPosition := IndexOf(dressedIndices[paramIndex], Some(dressedIndex));
        if lookupPosition.None? then Guarded(Ok(None), CheckSyncStatus())
        else
          CanonicalRankAt(Dims(), lookupPosition.value);
          Guarded(Ok(Some(canonicalBareLabels[lookupPosition.value])), CheckSyncStatus())
    }

    /** The dressed energy of a bare label. The query is guarded and calls the guarded
        DressedIndex, so an out-of-sync table warns twice. */
    function EnergyBareIndex(bareTuples: Label, paramIndex: nat): (r: Guarded<Option<real>>)
      reads this
      requires Valid()
      ensures r.warnings == 2 * CheckSyncStatus()
      ensures DressedIndex(bareTuples, paramIndex).outcome.Err? ==> r.outcome == Err(IndexError)
      ensures DressedIndex(bareTuples, paramIndex).outcome == Ok(None) ==> r.outcome == Ok(None)
      ensures DressedIndex(bareTuples, paramIndex).outcome.Ok? && DressedIndex(bareTuples, paramIndex).outcome.value.Some? ==>
        var d := DressedIndex(bareTuples, paramIndex).outcome.value.value;
        r.outcome == if paramIndex < |dressedSpecdata.energyTable| && d < |dressedSpecdata.energyTable[paramIndex]|
                     then Ok(Some(dressedSpecdata.energyTable[paramIndex][d]))
                     else Err(IndexError)
    {
      var inner := DressedIndex(bareTuples, paramIndex);
      var outcome :=
        match inner.outcome
        case Err(e) => Err(e)
        case Ok(None) => Ok(None)
        case Ok(Some(d)) =>
          if paramIndex < |dressedSpecdata.energyTable| && d < |dressedSpecdata.energyTable[paramIndex]|
          then Ok(Some(dressedSpecdata.energyTable[paramIndex][d]))
          else Err(IndexError);
      Guarded(outcome, CheckSyncStatus() + inner.warnings)
    }

    /** The dressed energy at a dressed index: a direct table index, raising IndexError
        when either index is out of range. */
    function EnergyDressedIndex(dressedIndex: nat, paramIndex: nat): (r: Guarded<real>)
      reads this
      ensures r.warnings == CheckSyncStatus()
      ensures r.outcome.Ok? <==>
        paramIndex < |dressedSpecdata.energyTable| && dressedIndex < |dressedSpecdata.energyTable[paramIndex]|
      ensures r.outcome.Ok? ==> r.outcome.value == dressedSpecdata.energyTable[paramIndex][dressedIndex]
      ensures r.outcome.Err? ==> r.outcome.failure == IndexError
    {
      var outcome :=
        if paramIndex < |dressedSpecdata.energyTable| && dressedIndex < |dressedSpecdata.energyTable[paramIndex]|
        then Ok(dressedSpecdata.energyTable[paramIndex][dressedIndex])
        else Err(IndexError);
      Guarded(outcome, CheckSyncStatus())
    }

    /** Bare eigenvectors of a subsystem. The table hands its sweep to the shared lookup,
        so a table owned directly by a Hilbert space (no sweep) raises TypeError. */
    function BareEigenstates(subsys: Subsystem, paramIndex: nat): (r: Guarded<BareStates>)
      reads this
      ensures r.warnings == CheckSyncStatus()
      ensures sweep.None? ==> r.outcome == Err(TypeError)
      ensures sweep.Some? && r.outcome.Ok? ==>
        (r.outcome.value.AtParameter? <==> subsys in sweep.value.subsysUpdateList)
      ensures sweep.Some? ==>
        r.outcome == SharedLookupBareEigenstates(SweepOwner(sweep.value), paramIndex, subsys, None, bareSpecdataList)
    {
      var owner := if sweep.Some? then SweepOwner(sweep.value) else OtherOwner;
      Guarded(SharedLookupBareEigenstates(owner, paramIndex, subsys, None, bareSpecdataList), CheckSyncStatus())
    }
  }

  /** Construction: TypeError for an owner that is neither a Hilbert space nor a sweep,
      otherwise a fresh, in-sync table. */
  method NewSpectrumLookup(framework: Owner, dressedSpecdata: SpectrumData, bareSpecdataList: seq<BareSpecData>)
    returns (r: Outcome<SpectrumLookup>)
    requires !framework.OtherOwner? ==> WellFormedSpectrum(dressedSpecdata, Dimension(OwnerSpace(framework)))
    ensures r.Err? <==> framework.OtherOwner?
    ensures r.Err? ==> r.failure == TypeError
    ensures r.Ok? ==> fresh(r.value) && r.value.Valid() && !r.value.outOfSync
    ensures r.Ok? ==> r.value.hilbertspace == OwnerSpace(framework) && r.value.dressedSpecdata == dressedSpecdata
    ensures r.Ok? ==> r.value.sweep == (if framework.SweepOwner? then Some(framework.sweep) else None)
    ensures r.Ok? ==> r.value.bareSpecdataList == bareSpecdataList
  {
    if framework.OtherOwner? {
      return Err(TypeError);
    }
    var lookup := new SpectrumLookup(framework, dressedSpecdata, bareSpecdataList);
    return Ok(lookup);
  }

  /** Going from a dressed index to its bare label and back returns the dressed index. */
  lemma BareThenDressedRoundTrip(lookup: SpectrumLookup, d: nat, p: nat)
    requires lookup.Valid()
    requires lookup.BareIndex(d, p).outcome.Ok? && lookup.BareIndex(d, p).outcome.value.Some?
    ensures lookup.DressedIndex(lookup.BareIndex(d, p).outcome.value.value, p).outcome == Ok(Some(d))
  {
  }

  /** The other direction holds only up to the first preimage: a label assigned dressed
      index `d` leads back to the first canonical label assigned `d`, which is the label
      itself exactly when no earlier label is assigned `d`. */
  lemma DressedThenBareFindsFirstPreimage(lookup: SpectrumLookup, t: Label, p: nat, d: nat)
    requires lookup.Valid()
    requires lookup.DressedIndex(t, p).outcome == Ok(Some(d))
    ensures lookup.BareIndex(d, p).outcome.Ok? && lookup.BareIndex(d, p).outcome.value.Some?
    ensures ValidLabel(lookup.Dims(), t)
    ensures Rank(lookup.Dims(), lookup.BareIndex(d, p).outcome.value.value) <= Rank(lookup.Dims(), t)
    ensures lookup.BareIndex(d, p).outcome.value.value == t <==>
      forall k | 0 <= k < Rank(lookup.Dims(), t) :: lookup.dressedIndices[p][k] != Some(d)
  {
    var dims := lookup.Dims();
    var rank := Rank(dims, t);
    assert lookup.dressedIndices[p][rank] == Some(d);
    var s := lookup.BareIndex(d, p).outcome.value.value;
    if s == t {
    } else {
      if Rank(dims, s) == rank {
        CanonicalAt(dims, s);
        CanonicalAt(dims, t);
      }
    }
  }

  /** The energy of a bare label is the energy at its dressed index. */
  lemma EnergyBareIndexViaDressedIndex(lookup: SpectrumLookup, t: Label, p: nat, d: nat)
    requires lookup.Valid()
    requires lookup.DressedIndex(t, p).outcome == Ok(Some(d))
    ensures lookup.EnergyDressedIndex(d, p).outcome.Ok? ==>
      lookup.EnergyBareIndex(t, p).outcome == Ok(Some(lookup.EnergyDressedIndex(d, p).outcome.value))
    ensures lookup.EnergyDressedIndex(d, p).outcome.Err? ==>
      lookup.EnergyBareIndex(t, p).outcome == Err(IndexError)
  {
  }

  /** When every parameter index stores one energy per dressed eigenvector, the energy
      of a canonical label at a valid parameter index never raises. */
  lemma EnergyBareIndexTotal(lookup: SpectrumLookup, t: Label, p: nat)
    requires lookup.Valid()
    requires p < lookup.dressedSpecdata.paramCount <= |lookup.dressedSpecdata.energyTable|
    requires |lookup.dressedSpecdata.energyTable[p]| == |lookup.dressedSpecdata.stateTable[p]|
    ensures lookup.EnergyBareIndex(t, p).outcome.Ok?
    ensures lookup.EnergyBareIndex(t, p).outcome.value.Some? <==>
      ValidLabel(lookup.Dims(), t) && lookup.dressedIndices[p][Rank(lookup.Dims(), t)].Some?
  {
  }
  /** The table for two two-level subsystems whose overlap matrix is the identity,
      marked out of sync by its owner when `stale` holds. */
  method IdentityLookup(stale: bool) returns (lookup: SpectrumLookup)
    ensures fresh(lookup) && lookup.Valid() && lookup.outOfSync == stale
    ensures lookup.Dims() == [2, 2] && lookup.dressedSpecdata.paramCount == 1
    ensures lookup.dressedIndices == [[Some(0), Some(1), Some(2), Some(3)]]
    ensures lookup.dressedSpecdata.energyTable == [[-1.0, 0.0, 1.0, 2.0]]
    ensures lookup.sweep == None
  {
    var h := HilbertSpace([Subsystem(0, 2), Subsystem(1, 2)]);
    assert SubsystemDims(h) == [2, 2];
    assert Dimension(h) == 4 by {
      assert [2, 2][1..] == [2] && [2][1..] == [];
    }
    var identity: Matrix := [[1.0, 0.0, 0.0, 0.0], [0.0, 1.0, 0.0, 0.0], [0.0, 0.0, 1.0, 0.0], [0.0, 0.0, 0.0, 1.0]];
    var data := SpectrumData([[-1.0, 0.0, 1.0, 2.0]], [identity], 1);
    lookup := new SpectrumLookup(HilbertSpaceOwner(h), data, []);
    IdentityMapping();
    if stale {
      lookup.MarkOutOfSync();
    }
  }

  /** On that table bare label (1, 0) and dressed index 2 correspond both ways, and the
      energy of (1, 0) is the third dressed energy, whatever the sync flag. */
  lemma IdentityAnswers(lookup: SpectrumLookup)
    requires lookup.Valid() && lookup.Dims() == [2, 2] && lookup.dressedSpecdata.paramCount == 1
    requires lookup.dressedIndices == [[Some(0), Some(1), Some(2), Some(3)]]
    requires lookup.dressedSpecdata.energyTable == [[-1.0, 0.0, 1.0, 2.0]]
    ensures lookup.DressedIndex([1, 0], 0).outcome == Ok(Some(2))
    ensures lookup.BareIndex(2, 0).outcome == Ok(Some([1, 0]))
    ensures lookup.EnergyBareIndex([1, 0], 0).outcome == Ok(Some(1.0))
  {
    assert ValidLabel([2, 2], [1, 0]) && Rank([2, 2], [1, 0]) == 2 by {
      assert [2, 2][1..] == [2] && [1, 0][1..] == [0];
    }
    assert lookup.dressedIndices[0][2] == Some(2);
    assert lookup.DressedIndex([1, 0], 0).outcome == Ok(Some(2));
    assert lookup.dressedIndices[0][0] != Some(2) && lookup.dressedIndices[0][1] != Some(2);
    DressedThenBareFindsFirstPreimage(lookup, [1, 0], 0, 2);
    assert lookup.dressedSpecdata.energyTable[0][2] == 1.0;
  }

  /** In sync, the identity table answers without warnings. */
  method IdentityScenario()
  {
    var lookup := IdentityLookup(false);
    IdentityAnswers(lookup);
    assert lookup.DressedIndex([1, 0], 0) == Guarded(Ok(Some(2)), 0);
    assert lookup.BareIndex(2, 0) == Guarded(Ok(Some([1, 0])), 0);
    assert lookup.EnergyBareIndex([1, 0], 0) == Guarded(Ok(Some(1.0)), 0);
  }

  /** Once the same table is marked out of sync, the answers are unchanged and every
      query warns, the energy query twice. A table without a sweep cannot answer for
      bare eigenstates. */
  method StaleIdentityScenario()
  {
    var lookup := IdentityLookup(true);
    IdentityAnswers(lookup);
    assert lookup.DressedIndex([1, 0], 0) == Guarded(Ok(Some(2)), 1);
    assert lookup.BareIndex(2, 0) == Guarded(Ok(Some([1, 0])), 1);
    assert lookup.EnergyBareIndex([1, 0], 0) == Guarded(Ok(Some(1.0)), 2);
    assert lookup.BareEigenstates(Subsystem(0, 2), 0) == Guarded(Err(TypeError), 1);
  }
}
