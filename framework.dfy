/** The shapes of the collaborators the lookup table reads: the Hilbert space, the
    parameter sweep that may own it, and the stored spectral data. Only what the
    lookup uses is modelled; how these objects are built and diagonalised is not. */
module Framework {
  import opened BareLabels

  /** A subsystem of the composite system; `truncatedDim` is its bare-state count. */
  datatype Subsystem = Subsystem(id: nat, truncatedDim: nat)

  /** The composite system: its ordered list of subsystems. */
  datatype HilbertSpace = HilbertSpace(subsystems: seq<Subsystem>)

  /** `subsystem_dims`: one dimension per subsystem, in subsystem order. */
  function SubsystemDims(h: HilbertSpace): (dims: seq<nat>)
    ensures |dims| == |h.subsystems|
    ensures forall i | 0 <= i < |dims| :: dims[i] == h.subsystems[i].truncatedDim
  {
    seq(|h.subsystems|, i requires 0 <= i < |h.subsystems| => h.subsystems[i].truncatedDim)
  }

  /** `dimension`: the product of the subsystem dimensions. */
  function Dimension(h: HilbertSpace): nat
  {
    Product(SubsystemDims(h))
  }

  /** A sweep over external parameter values, wrapping a Hilbert space; the subsystems
      listed in `subsysUpdateList` have bare spectra that change across the sweep. */
  datatype ParameterSweep = ParameterSweep(hilbertspace: HilbertSpace, subsysUpdateList: seq<Subsystem>)

  /** The object handed to the lookup as its owner: a Hilbert space, a sweep, or
      anything else (which the lookup refuses). */
  datatype Owner =
    | HilbertSpaceOwner(hilbertspace: HilbertSpace)
    | SweepOwner(sweep: ParameterSweep)
    | OtherOwner

  /** The Hilbert space behind a recognised owner. */
  function OwnerSpace(owner: Owner): HilbertSpace
    requires !owner.OtherOwner?
  {
    if owner.SweepOwner? then owner.sweep.hilbertspace else owner.hilbertspace
  }

  /** A matrix of real numbers, stored row by row. */
  type Matrix = seq<seq<real>>

  /** Stored dressed spectral data. `stateTable[p]` stands for the eigenvectors at
      parameter index `p`, already converted to the matrix of overlap magnitudes (one
      row per dressed eigenvector, one column per canonical bare basis state);
      `energyTable[p]` holds the matching eigenenergies. */
  datatype SpectrumData = SpectrumData(energyTable: seq<seq<real>>, stateTable: seq<Matrix>, paramCount: nat)

  /** Stored bare spectral data of one subsystem: either one eigenvector array per
      parameter index or, for a subsystem the sweep does not update, its single table. */
  datatype BareSpecData = BareSpecData(stateTable: seq<Matrix>)
}
