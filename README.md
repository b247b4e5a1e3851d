# SpectrumLookup of scqubits, modelled in Dafny

scqubits describes a composite quantum system as a `HilbertSpace` of subsystems,
optionally wrapped in a `ParameterSweep`. Its `SpectrumLookup` translates between two
names for an eigenstate of the coupled system: the dressed index `j` (position in the
diagonalised spectrum) and the bare label, a tuple with one excitation number per
subsystem. This project models that table:

- `BareLabels`: the canonical bare labels, the Cartesian product of `range(d)` over
  the subsystem dimensions with the last subsystem varying fastest, as
  `itertools.product` builds it. It is proved that the sequence has length
  `product(dims)`, that it holds exactly the valid labels, each once, in strictly
  increasing lexicographic order, and that a label sits at its mixed-radix position
  `Rank`.
- `OverlapMapper`: for each bare column the first-occurrence argmax of the overlap
  magnitudes, or None when that maximum is below 0.5. The two loops of the source,
  over bare columns and over parameter indices, are methods proved against the
  functions `SingleMapping` and `AssignColumn`, whose contracts give the threshold
  rule (both directions) and the tie-break to the lowest row.
- `SpecLookup`: the `SpectrumLookup` class. Its data fields are `const`, because the
  source never changes them after `__init__`. `outOfSync` is the one mutable field.
  The queries `DressedIndex`, `BareIndex`, `EnergyBareIndex`, `EnergyDressedIndex`
  and `BareEigenstates` are functions that read the object. Each returns its outcome
  (a value, or the Python exception it raises) together with the number of
  out-of-sync warnings it emitted. Lemmas relate the queries: the bare-to-dressed
  round trip, the first-preimage behaviour of `BareIndex` on a non-injective
  assignment, and energy lookup through the dressed index.
- `Framework`: the shapes the table reads from its owner: subsystems and their
  dimensions, the sweep's update list, and the stored spectral data.
- `Sequences.IndexOf`: Python's `list.index`, with its ValueError turned into None.

Two behaviours of the code are worth noting:

- `energy_bare_index` is guarded and calls the guarded `dressed_index`. An
  out-of-sync table therefore makes two `warnings.warn` calls for it
  (`EnergyBareIndex` ensures `warnings == 2 * CheckSyncStatus()`). The model counts
  calls to `warnings.warn`; Python's default warning filter may display repeated
  identical warnings only once.
- `bare_eigenstates` passes `self._sweep` to `shared_lookup_bare_eigenstates`. For
  a table owned directly by a `HilbertSpace` that is `None`, so the call raises
  TypeError. `BareEigenstates` keeps that outcome.

The overlap matrix has one row per stored dressed eigenvector. That count may be
smaller than the dimension, so the model bounds assigned indices by the row count
and does not take it to be the dimension.

## Model

| member | source | states |
|---|---|---|
| `Sequences.IndexOf` | scqubits/core/spec_lookup.py:206-209 | `list.index` semantics: None exactly when the element is absent; otherwise the position of its first occurrence |
| `BareLabels.Rank` | scqubits/core/spec_lookup.py:117-121 | the mixed-radix position of a valid label is below the product of the dimensions |
| `BareLabels.CanonicalLabels` | scqubits/core/spec_lookup.py:117-121 | the canonical label sequence has length equal to the product of the subsystem dimensions |
| `BareLabels.CanonicalAt` | scqubits/core/spec_lookup.py:117-121 | every valid label occurs in the canonical sequence at its mixed-radix position |
| `BareLabels.CanonicalRankAt` | scqubits/core/spec_lookup.py:117-121 | every canonical entry is a valid label (one entry per subsystem, each in `[0, dims[i])`) whose mixed-radix rank is its position |
| `BareLabels.CanonicalMembership` | scqubits/core/spec_lookup.py:117-121 | a label is in the canonical sequence if and only if it is valid |
| `BareLabels.CanonicalIndexOf` | scqubits/core/spec_lookup.py:184-187 | `list.index` on the canonical sequence finds the mixed-radix position of a valid label and misses any other label |
| `BareLabels.CanonicalDistinct` | scqubits/core/spec_lookup.py:120 | no label occurs twice in the canonical sequence |
| `BareLabels.RankMonotone` | scqubits/core/spec_lookup.py:120 | the mixed-radix rank strictly increases with the lexicographic order of labels |
| `BareLabels.CanonicalSorted` | scqubits/core/spec_lookup.py:105-111 | the canonical sequence is strictly increasing lexicographically, last subsystem fastest |
| `BareLabels.CanonicalTwoByThree` | scqubits/core/spec_lookup.py:105-111 | for dimensions (2, 3) the labels are (0,0), (0,1), (0,2), (1,0), (1,1), (1,2) |
| `Framework.SubsystemDims` | scqubits/core/spec_lookup.py:117-119 | one dimension per subsystem, in subsystem order |
| `OverlapMapper.FirstArgmax` | scqubits/core/spec_lookup.py:159 | `argmax` of a column: a row holding the column maximum, with every earlier row strictly smaller |
| `OverlapMapper.AssignColumn` | scqubits/core/spec_lookup.py:159-164 | a column gets None exactly when all its magnitudes are below 0.5; otherwise it gets its first-occurrence argmax row |
| `OverlapMapper.SingleMapping` | scqubits/core/spec_lookup.py:157-165 | one entry per bare column; each None exactly when the column stays below 0.5, otherwise the first-occurrence argmax row |
| `OverlapMapper.GenerateSingleMapping` | scqubits/core/spec_lookup.py:141-165 | the loop over bare basis indices produces exactly `SingleMapping` of the overlap matrix |
| `OverlapMapper.GenerateMappings` | scqubits/core/spec_lookup.py:123-139 | exactly `param_count` lists, the `p`-th being the single mapping for parameter index `p` |
| `OverlapMapper.FirstArgmaxUnique` | scqubits/core/spec_lookup.py:159 | the first-occurrence argmax is unique, so the assignment is determined by its contract |
| `OverlapMapper.ThresholdIsInclusive` | scqubits/core/spec_lookup.py:161-164 | a maximum of exactly 0.5 is assigned; a maximum of 0.4999 is not |
| `OverlapMapper.TieGoesToLowerRow` | scqubits/core/spec_lookup.py:159 | when two rows tie for the maximum, the lower row is chosen |
| `OverlapMapper.IdentityMapping` | scqubits/core/spec_lookup.py:157-165 | the 4-by-4 identity overlap assigns every bare column to the same-numbered dressed row |
| `SpecLookup.GetSubsysIndex` | scqubits/core/spec_lookup.py:43 | the subsystem's index is its position in the owner's list; None exactly when it is absent |
| `SpecLookup.SharedLookupBareEigenstates` | scqubits/core/spec_lookup.py:23-50 | TypeError for an unrecognised owner and ValueError for a subsystem the owner lacks. A sweep reads the given list, or the lookup's list when none or an empty one is given. It succeeds exactly when that list has an entry for the subsystem and, for a subsystem in the update list, that entry has the parameter index; otherwise it raises IndexError. On success it returns the parameter entry exactly when the subsystem is in the update list, else the whole table. A Hilbert space returns the whole table of the given list, raises TypeError without a list, and raises IndexError exactly when the list has no entry for the subsystem |
| `SpecLookup.BareEigenstatesParamIndependent` | scqubits/core/spec_lookup.py:41-49 | for a Hilbert-space owner, or a subsystem the sweep does not update, the bare eigendata does not depend on the parameter index |
| `SpecLookup.GenerateBareLabels` | scqubits/core/spec_lookup.py:103-121 | the table's labels number `dimension`, are exactly the valid labels, and each sits at its mixed-radix position |
| `SpecLookup.SpectrumLookup.constructor` | scqubits/core/spec_lookup.py:84-101 | a recognised owner yields a table holding the canonical labels and one assignment list per parameter index, not out of sync |
| `SpecLookup.NewSpectrumLookup` | scqubits/core/spec_lookup.py:84-101 | construction raises TypeError exactly when the owner is neither a Hilbert space nor a sweep. Otherwise it yields a fresh, valid, in-sync table that stores the owner's Hilbert space, the sweep (None for a Hilbert-space owner), and the given dressed and bare data |
| `SpecLookup.SpectrumLookup.CheckSyncStatus` | scqubits/core/spec_lookup.py:53-61 | a guarded query emits one warning exactly when the table is out of sync |
| `SpecLookup.SpectrumLookup.MarkOutOfSync` | scqubits/core/spec_lookup.py:101 | the table stays valid and is now out of sync, and each of the five guarded queries has the same outcome as before |
| `SpecLookup.SpectrumLookup.DressedIndex` | scqubits/core/spec_lookup.py:167-188 | None for a label that is not canonical; IndexError for a canonical label at a parameter index out of range; otherwise the assignment entry at the label's mixed-radix position; one warning when out of sync |
| `SpecLookup.SpectrumLookup.BareIndex` | scqubits/core/spec_lookup.py:190-211 | IndexError for a parameter index out of range; None when no bare label is assigned the dressed index; otherwise the first label, in canonical order, assigned to it |
| `SpecLookup.SpectrumLookup.EnergyBareIndex` | scqubits/core/spec_lookup.py:247-266 | the energy at the label's dressed index when one is assigned, None when not, IndexError when a lookup index is out of range; two warnings when out of sync |
| `SpecLookup.SpectrumLookup.EnergyDressedIndex` | scqubits/core/spec_lookup.py:268-283 | `energy_table[p][d]` when both indices are in range, IndexError otherwise |
| `SpecLookup.SpectrumLookup.BareEigenstates` | scqubits/core/spec_lookup.py:285-299 | TypeError for a table without a sweep; otherwise the shared bare lookup on the sweep and the table's own bare data |
| `SpecLookup.BareThenDressedRoundTrip` | scqubits/core/spec_lookup.py:206-211 | whenever `bare_index(d, p)` returns a label, `dressed_index` of that label is `d` |
| `SpecLookup.DressedThenBareFindsFirstPreimage` | scqubits/core/spec_lookup.py:184-211 | if a label maps to `d`, then `bare_index(d, p)` returns a label no later in canonical order, and returns that label exactly when no earlier label maps to `d` |
| `SpecLookup.EnergyBareIndexViaDressedIndex` | scqubits/core/spec_lookup.py:263-283 | the energy of a bare label is `energy_dressed_index` of its dressed index |
| `SpecLookup.EnergyBareIndexTotal` | scqubits/core/spec_lookup.py:263-266 | with one energy per stored eigenvector, `energy_bare_index` at a valid parameter index never raises, and returns an energy exactly when the label is canonical and assigned |
| `SpecLookup.IdentityAnswers` | scqubits/core/spec_lookup.py:184-188 | with two two-level subsystems and the identity overlap, bare label (1, 0) and dressed index 2 correspond both ways, and the energy of (1, 0) is the third dressed energy |

## Left out

- `dressed_eigenstates` and `dressed_eigenenergies` (lines 213-245) return stored objects unchanged. They are not modelled.
- `bare_eigenenergies` (lines 301-322) is not modelled. It calls `self._hilbertspace.index` and `self._sweep.subsys_update_list`, which belong to classes that are not part of this model, and `_sweep` is `None` for a table owned by a Hilbert space.
- The `weakref.proxy` back-references (lines 87-94) are modelled as plain values. Object lifetime and garbage collection are not modelled.
- `convert_esys_to_ndarray` and `np.abs` (lines 155, 159-160) are not part of this model. `SpectrumData.stateTable[p]` is taken to be the matrix of overlap magnitudes already.
- `warnings.warn` output (lines 57-59) is modelled as a count of emitted warnings, not as I/O.
- `HilbertSpace`, `ParameterSweep` and `SpectrumData` are not part of this model beyond the fields the table reads. `get_subsys_index` is taken to be the first position in the subsystem list. The sweep's `lookup` is taken to be the table being queried.
- The owner's code that sets `_out_of_sync` is not part of this model. `MarkOutOfSync` stands for it.
- `HilbertSpace.dimension` is the exact product of the dimensions. Machine-integer overflow is not modelled.
- Single-threaded use only. Concurrent readers of the flag are not modelled.
- `SpecLookup.SpectrumLookup.DressedIndex`: parameter indices are non-negative. Python's negative indices, which count from the end of the list, are not modelled.
- `SpecLookup.SpectrumLookup.BareIndex`: the dressed index is a non-negative integer. The Python call `bare_index(None)` would find the first unassigned label; it is not modelled, and neither are negative parameter indices.
- `SpecLookup.SpectrumLookup.EnergyDressedIndex`: indices are non-negative. Negative indices, which count from the end of the list, are not modelled.
- `SpecLookup.SpectrumLookup.EnergyBareIndex`: negative parameter indices are not modelled.
- `SpecLookup.SharedLookupBareEigenstates`: the parameter index is non-negative. Negative indices into `state_table`, which count from the end of the list, are not modelled.
- `SpecLookup.SpectrumLookup.BareEigenstates`: the parameter index is non-negative. Negative indices into `state_table` are not modelled.
