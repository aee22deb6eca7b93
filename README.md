# pengWann core in Dafny

pengWann computes bonding descriptors from Wannier functions. The descriptors are the
Wannier-orbital Hamilton population (WOHP), the Wannier-orbital bond index (WOBI), the
projected density of states (pDOS), the density of energy (DOE) and the bond-weighted
distribution function (BWDF). This project models the package's core and proves
properties of that model:

- `common.dfy` (module `Common`): the error kinds Python raises (`Error`), a
  `Result`/`Option` pair, complex numbers, lattice vectors (`Offset`), Python's list
  indexing with negative indices (`PyIndex`), and the sum and concatenation facts used
  everywhere else.
- `arrays.dfy` (module `Arrays`): the numpy arrays the descriptors live in.
  - An array is `Grid(rows)`, energy-major. A k-summed curve of shape `(nE,)` is an
    `nE x 1` grid, and its integral is a one-element sequence.
  - `Zero` is the integer `0` that Python's `sum()` returns for an empty list.
  - `Add` fails with ValueError on mismatched shapes.
- `utils.dfy` (module `Utils`): `get_atom_indices`, `parse_id`, and `integrate`
  (trapezoid rule up to the first energy above the Fermi level).
- `records.dfy` (module `Records`): the `WannierInteraction` and `AtomicInteraction`
  records. Their WOHP/WOBI properties, `integrate`, `with_summed_descriptors` and
  `with_integrals` are modelled.
- `geometry.dfy` (module `Geometry`): the structure as a class whose `wannierCentres`
  site property `assign_wannier_centres` sets in place. Also
  `identify_onsite_interactions` and `identify_interatomic_interactions`.
- `descriptors.dfy` (module `Descriptors`): the `DescriptorCalculator`:
  - the DOS matrix and a density-matrix element;
  - `_process_interaction`, and `parallelise` as a sequential map;
  - `assign_descriptors`, `get_pdos`, `get_density_of_energy` and `get_bwdf`.
- `io.dfy` (module `Io`): the Wannier90 readers `read_U`, `read_eigenvalues` and
  `read_hamiltonian`. A file is its list of lines, each split on whitespace.

Modelling conventions:

- Floats are `real`.
- Python exceptions are `Err(...)` values naming the exception class.
- Loops that the source writes as loops are `method`s. Each is proved equal to a
  function, and the properties are proved about that function.
- `geometry.py` imports `integrate_descriptor` from `pengwann/utils.py`, which defines
  that function as `integrate`. The model calls `Utils.Integrate` in its place.

## Model

| member | source | states |
|---|---|---|
| Utils.GetAtomIndices | pengwann/utils.py:53-66 | the loop builds exactly the map `AtomIndices` |
| Utils.AtomIndicesProperties | pengwann/utils.py:53-66 | keys are the requested symbols; `i` is listed under `s` iff site `i` has species `s`; each list strictly increases; a list is empty iff the species is absent; no site is listed under two symbols |
| Utils.ParseId | pengwann/utils.py:135-141 | UnboundLocalError iff the identifier has no digit, and every other failure is ValueError; on success the symbol is the digit-free prefix before the first digit and the index is the value of the rest, which is all digits |
| Utils.ParseIdAtFirstDigit | pengwann/utils.py:135-141 | split at the first digit: success iff the rest is all digits, giving the prefix and the digits' value; ValueError otherwise |
| Utils.ParseIdTrailingLetter | pengwann/utils.py:135-138 | `"C1x"` raises ValueError, because `int("1x")` does |
| Utils.SplitIdentifier | pengwann/utils.py:135-141 | the scanning loop returns what `ParseId` specifies |
| Utils.ParseIdRoundTrip | pengwann/utils.py:135-141 | parsing `symbol + str(n)` gives back `(symbol, n)` for a digit-free symbol |
| Utils.LabelRoundTrip | pengwann/geometry.py:405 | a label `symbol + str(idx - num_wann + 1)` with a non-negative number parses back to the symbol and that number |
| Utils.LabelBeforeCentres | pengwann/geometry.py:491-494 | for a site before the Wannier centres the label's minus sign stays in the symbol: it parses to `(symbol + "-", num_wann - idx - 1)` |
| Utils.FermiIndex | pengwann/utils.py:164-167 | the first index whose energy exceeds `mu`: every earlier energy is at most `mu`, and None when every energy is |
| Utils.Integrate | pengwann/utils.py:164-171 | UnboundLocalError iff no energy exceeds `mu`; TypeError when the descriptor is the integer 0; otherwise one integral per column |
| Utils.IntegrateToFermiLevel | pengwann/utils.py:164-171 | the loop and trapezoid compute `Integrate` |
| Utils.IntegrateScale | pengwann/utils.py:169 | integrating `k * d` gives `k` times the integral of `d`, and fails exactly when that does |
| Utils.TrapezoidStep | pengwann/utils.py:169 | over ascending energies a non-negative curve never loses integral when one more sample is taken |
| Utils.TrapezoidGrows | pengwann/utils.py:169 | over ascending energies a non-negative curve has a non-negative trapezoid sum that grows with the prefix |
| Utils.IntegrateUsesPrefixOnly | pengwann/utils.py:169 | only the rows below the Fermi index matter: descriptors agreeing there integrate alike |
| Utils.IntegrateMonotone | pengwann/utils.py:164-169 | for ascending energies and a non-negative descriptor, raising the Fermi level never lowers the integral, which stays non-negative |
| Records.WannierInteraction.Wohp | pengwann/geometry.py:224-227 | defined iff both `h_ij` and the DOS matrix are; then entrywise `-h_ij * D`, with D's shape |
| Records.WannierInteraction.Wobi | pengwann/geometry.py:248-251 | defined iff both `p_ij` and the DOS matrix are; then entrywise `p_ij * D`, with D's shape |
| Records.WannierInteraction.Integrate | pengwann/geometry.py:253-269 | TypeError without a DOS matrix; the population is the integral of D; IWOHP and IWOBI are the integrals of the WOHP and WOBI when those exist and are unchanged otherwise; nothing else changes |
| Records.IntegratedWohpScalesPopulation | pengwann/geometry.py:259-263 | the IWOHP is `-h_ij` times the population |
| Records.IntegratedWobiScalesPopulation | pengwann/geometry.py:259-267 | the IWOBI is `p_ij` times the population |
| Records.IntegrateAll | pengwann/geometry.py:140-145 | succeeds iff every orbital's `integrate` does, and then holds their results in order |
| Records.AtomicInteraction.WithSummedDescriptors | pengwann/geometry.py:86-115 | TypeError when any orbital lacks a DOS matrix; WOHP (WOBI) is summed iff every orbital has `h_ij` (`p_ij`), and is kept otherwise; no orbitals gives the integer 0 for all three; other fields unchanged |
| Records.SummedDosEntries | pengwann/geometry.py:107-113 | the summed DOS matrix has the common shape, and each entry is the sum of the orbitals' entries |
| Records.SummedWohpEntries | pengwann/geometry.py:97-113 | the summed WOHP entry at `(e, k)` is the sum over orbitals of `-h_ij * D_ij[e, k]` |
| Records.SummedWobiEntries | pengwann/geometry.py:102-113 | the summed WOBI entry at `(e, k)` is the sum over orbitals of `p_ij * D_ij[e, k]` |
| Records.WohpOfUnitDos | pengwann/geometry.py:227 | example (one concrete input): a DOS of 1 and `h_ij = 2` give a WOHP of -2 |
| Records.Charge | pengwann/geometry.py:131-132 | charge plus population equals the valence, entry by entry |
| Records.IntegrateOptional | pengwann/geometry.py:126-138 | a missing descriptor keeps the old value; a present one is replaced by its integral or raises that integral's error |
| Records.AtomicInteraction.WithIntegrals | pengwann/geometry.py:117-147 | succeeds iff every present descriptor (and with `resolve_orbitals` every orbital) integrates; population, charge, IWOHP, IWOBI and the orbitals are set as the source sets them and kept where it skips them |
| Geometry.CentreLists | pengwann/geometry.py:335-364 | ValueError iff there is no `X0+` site; IndexError iff every site is `X0+` (the sentinel index `2 * len` is out of range); otherwise one list per site |
| Geometry.AssignWannierCentres | pengwann/geometry.py:316-367 | on success stores `CentreLists` as the site property; on error leaves it as it was |
| Geometry.SplitSites | pengwann/geometry.py:335-343 | the loop splits the sites into centres and atoms |
| Geometry.SplitFacts | pengwann/geometry.py:345-348 | no centres iff no `X0+` site; no atoms iff every site is `X0+` |
| Geometry.ClosestAtom | pengwann/geometry.py:354-361 | the scan returns the sentinel when there are no atoms, and the nearest atom otherwise |
| Geometry.NearestPos | pengwann/geometry.py:354-361 | the chosen atom is at least as close as every atom, and strictly closer than every earlier one (ties go to the first) |
| Geometry.NearestAtom | pengwann/geometry.py:356-361 | the nearest atom is a non-`X0+` site no farther than any other and strictly nearer than every earlier one |
| Geometry.AssignedPrefix | pengwann/geometry.py:352-364 | after the first `k` sites, each site's list is the closed form: a centre holds its nearest atom; an atom holds, in order, the centres assigned to it |
| Geometry.CentreListsLinks | pengwann/geometry.py:352-364 | each centre's list is `[nearest atom]`; centre `m` is in atom `s`'s list iff `m`'s list is `[s]`; atom lists strictly increase |
| Geometry.Onsite | pengwann/geometry.py:398-419 | KeyError without the site property; ValueError iff no site has a requested symbol |
| Geometry.OnsiteInteractions | pengwann/geometry.py:401-416 | the loop builds one on-site interaction per matching site |
| Geometry.IdentifyOnsiteInteractions | pengwann/geometry.py:370-421 | reads the site property and returns `Onsite` |
| Geometry.NoMatchingSite | pengwann/geometry.py:418-419 | no matching site iff no species is among the symbols |
| Geometry.OnsiteProperties | pengwann/geometry.py:401-416 | the matching sites, increasing, are exactly those whose species is requested; each interaction pairs a label with itself; its orbitals are `(c, c)` at the origin for each centre `c` of the site; its label parses back to the site's species and `idx - num_wann + 1` |
| Geometry.SymbolsOf | pengwann/geometry.py:460-466 | the collected symbols are distinct |
| Geometry.SymbolsOfExact | pengwann/geometry.py:460-466 | a symbol is collected iff it appears in some cutoff pair |
| Geometry.CollectSymbols | pengwann/geometry.py:460-466 | the loop collects `SymbolsOf` |
| Geometry.CutoffSpeciesIndexed | pengwann/geometry.py:468 | both species of every cutoff pair have an entry in the atom indices, the sites of that species |
| Geometry.CandidatePairs | pengwann/geometry.py:475-485 | distinct species give the full product; one species gives the pairs after each index |
| Geometry.ProductExact | pengwann/geometry.py:476-479 | `(i, j)` is a candidate iff `i` and `j` are in their lists |
| Geometry.UpperPairsExact | pengwann/geometry.py:482-485 | for increasing indices, `(i, j)` is a candidate iff both are listed and `i < j` (no self-interactions) |
| Geometry.CandidatesExact | pengwann/geometry.py:475-485 | candidates are exactly the site pairs of the two species, ordered `i < j` when the species agree |
| Geometry.KeepClose | pengwann/geometry.py:487-490 | a pair is kept iff it is a candidate closer than the cutoff |
| Geometry.KeptExactly | pengwann/geometry.py:475-490 | kept pairs are exactly the site pairs of the two species closer than the cutoff, without repeats of a same-species pair |
| Geometry.ClosePairInteractions | pengwann/geometry.py:487-506 | the loop builds one interaction per kept pair |
| Geometry.BuildPairOrbitals | pengwann/geometry.py:495-502 | the nested loop builds `PairOrbitals` |
| Geometry.PairOrbitalsLength | pengwann/geometry.py:495-502 | an atom pair has `|ci| * |cj|` Wannier interactions |
| Geometry.PairOrbitalsAt | pengwann/geometry.py:495-502 | entry `a * |cj| + b` pairs centre `ci[a]` with centre `cj[b]`, with their periodic images |
| Geometry.PairInteractionLabels | pengwann/geometry.py:491-494 | both labels parse back to their species and `index - num_wann + 1` |
| Geometry.Interatomic | pengwann/geometry.py:450-458 | ValueError iff the site property is missing or there is no `X0+` site |
| Geometry.IdentifyInteratomicInteractions | pengwann/geometry.py:424-508 | returns `Interatomic` |
| Geometry.NoMatchingAtoms | pengwann/geometry.py:472-508 | when no cutoff has both species present, the result is empty, not an error |
| Descriptors.DosMatrix | pengwann/descriptors.py:349-359 | shape `nE x nK` with `resolve_k`, `nE x 1` without |
| Descriptors.DosMatrixSumsOverK | pengwann/descriptors.py:353-357 | the k-summed DOS at `e` is the sum of the k-resolved row, the sum over all `(k, n)` |
| Descriptors.DosMatrixLinear | pengwann/descriptors.py:349-351 | the DOS matrix is linear in the DOS array: `x` times one array plus `y` times another gives `x` times the one DOS matrix entry plus `y` times the other, k-resolved or not |
| Descriptors.DosMatrixSpin | pengwann/descriptors.py:350 | every entry is `nspin` times the single-spin entry |
| Descriptors.DensityMatrixElement | pengwann/descriptors.py:398-407 | TypeError iff there is no occupation matrix |
| Descriptors.DensityMatrixMeanOverK | pengwann/descriptors.py:403-405 | the element is the occupation-weighted sum over bands and k-points divided by the number of k-points |
| Descriptors.ProcessInteraction | pengwann/descriptors.py:907-920 | sets the DOS matrix, and `p_ij` when asked (TypeError without occupations); nothing else changes |
| Descriptors.ProcessAll | pengwann/descriptors.py:803-820 | TypeError iff `p_ij` is asked for without an occupation matrix; otherwise the map keeps order and length, and entry `t` is `_process_interaction` of orbital `t`: the same orbital and `h_ij`, its DOS matrix, and `p_ij` the density-matrix element when asked for |
| Descriptors.Parallelise | pengwann/descriptors.py:792-826 | the sequential map computes `ProcessAll` |
| Descriptors.HoppingElement | pengwann/descriptors.py:606-612 | KeyError iff `bl_2 - bl_1` is not a key; IndexError iff `(i, j)` is outside that matrix; otherwise the real part of `H[R][i, j]` |
| Descriptors.Hoppings | pengwann/descriptors.py:602-618 | succeeds iff every lookup does; then each orbital gains its `h_ij`, in order |
| Descriptors.LookUpHopping | pengwann/descriptors.py:606-612 | the look-up of `H[bl_2 - bl_1][i, j].real` computes `HoppingElement`, KeyError and IndexError included |
| Descriptors.PrepareBatch | pengwann/descriptors.py:602-618 | the loop over interactions and orbitals builds the flat batch |
| Descriptors.RedistributeFlatten | pengwann/descriptors.py:624-633 | slicing a flattened batch back by the running count gives each interaction its own orbitals |
| Descriptors.SumAllExact | pengwann/descriptors.py:626-637 | succeeds iff every interaction sums, and then holds the sums in order |
| Descriptors.AssignDescriptors | pengwann/descriptors.py:594-639 | the method computes `AssignSpec`, the corrected assign_descriptors |
| Descriptors.SumShares | pengwann/descriptors.py:624-637 | the running-count loop sums each interaction's share of the processed batch |
| Descriptors.AssignOutcome | pengwann/descriptors.py:594-622 | succeeds iff the needed Hamiltonian/occupations are present and, for WOHP, every `h_ij` lookup succeeds |
| Descriptors.AssignLookupFails | pengwann/descriptors.py:606-612 | a failed lookup is the error raised, KeyError or IndexError |
| Descriptors.AssignSpecSums | pengwann/descriptors.py:620-639 | the result is the summed redistribution of the processed batch |
| Descriptors.AssignResult | pengwann/descriptors.py:602-639 | one result per interaction with the same pair id and a DOS matrix; each is its processed orbitals summed; each orbital has its DOS matrix, its looked-up `h_ij` if asked, the density-matrix element as `p_ij` if asked, and its population, IWOHP and IWOBI unchanged |
| Descriptors.AssignedOrbital | pengwann/descriptors.py:602-639 | orbital `u` of interaction `t` in the result is orbital `u` of interaction `t` processed: same orbital, its DOS matrix, the looked-up `h_ij` when asked, the density-matrix element as `p_ij` when asked, other fields unchanged |
| Descriptors.AssignAsWrittenExample | pengwann/descriptors.py:631-634 | one interaction with one orbital: the corrected version succeeds where the code as written raises TypeError |
| Descriptors.AssignAsWrittenFails | pengwann/descriptors.py:631-634 | whenever some interaction has orbitals, the code as written raises TypeError although the corrected version succeeds |
| Descriptors.SumAllUnprocessed | pengwann/geometry.py:93-95 | summing interactions whose orbitals have no DOS matrix succeeds iff none has orbitals, and fails with TypeError otherwise |
| Descriptors.Pdos | pengwann/descriptors.py:468-500 | over the corrected assign_descriptors (`AssignSpec`): KeyError without the site property; ValueError iff no site's species is among the requested symbols; success when some site's is |
| Descriptors.GetPdos | pengwann/descriptors.py:468-500 | the loop computes `Pdos` |
| Descriptors.PdosAtoms | pengwann/descriptors.py:470-498 | over the corrected assign_descriptors: one interaction per matching site, labelled `symbol + str(idx - num_wann + 1)` twice, with a DOS matrix for each centre's `(c, c)` orbital and no `h_ij` or `p_ij` |
| Descriptors.PdosSumsOrbitals | pengwann/descriptors.py:492-498 | over the corrected assign_descriptors: each pDOS entry is the sum of the on-site DOS entries of the site's centres |
| Descriptors.PdosAsWrittenFails | pengwann/descriptors.py:492-498 | with assign_descriptors as written, get_pdos raises TypeError as soon as a requested site has a Wannier centre, where the corrected get_pdos succeeds |
| Descriptors.DensityOfEnergy | pengwann/descriptors.py:676-697 | over the corrected assign_descriptors (`AssignSpec`): TypeError when some interaction lacks a WOHP, or when there is no Hamiltonian |
| Descriptors.GetDensityOfEnergy | pengwann/descriptors.py:676-697 | the method computes `DensityOfEnergy` |
| Descriptors.DoeLookupFails | pengwann/descriptors.py:683-691 | a failed lookup of some `h_ii` on the zero vector makes the DOE fail with KeyError or IndexError |
| Descriptors.DoeAsWrittenFails | pengwann/descriptors.py:683-691 | with assign_descriptors as written, get_density_of_energy raises TypeError whenever there is a Wannier function, every WOHP is present and every `h_ii` lookup succeeds, where the corrected version assigns the diagonal WOHP |
| Descriptors.DiagonalWohp | pengwann/descriptors.py:683-691 | over the corrected assign_descriptors: the diagonal interaction's summed WOHP at `e` is the sum of `-h_ii * D_ii(e)` |
| Descriptors.DoeEntries | pengwann/descriptors.py:683-697 | over the corrected assign_descriptors: with every WOHP k-summed and every `h_ii` present, DOE(e) is the sum of the interactions' WOHPs plus the sum of `-h_ii * D_ii(e)` |
| Descriptors.Bins.Centres | pengwann/descriptors.py:748-750 | `nbins` centres, centre `k` at `r_min + (k + 1/2) dr` |
| Descriptors.Bins.BinOf | pengwann/descriptors.py:774-779 | the bin found holds the distance, and no bin holds it when none is found |
| Descriptors.BinOfExact | pengwann/descriptors.py:774-779 | for positive widths a distance is binned iff it lies in `[r_min, r_max)`, and then in the only bin that holds it |
| Descriptors.LastBoundary | pengwann/descriptors.py:748-749 | the last bin boundary is `r_max` |
| Descriptors.SampleOf | pengwann/descriptors.py:755-766 | TypeError without an IWOHP; the weight is the IWOHP |
| Descriptors.AddSample | pengwann/descriptors.py:768-779 | keeps every bond with one histogram of `nbins` entries; ValueError iff the distance is binned and the IWOHP is not a single number |
| Descriptors.BondWeightedDistribution | pengwann/descriptors.py:745-781 | `nbins` is any integer: ValueError from `np.linspace` for `nbins <= -2`; for `nbins == -1`, `([], {})` iff there are no interactions, else the first interaction's own error or ValueError from `np.zeros(-1)`; ZeroDivisionError for zero bins; otherwise succeeds iff every pass of the loop does, with the bin centres and well-shaped histograms |
| Descriptors.Binned | pengwann/descriptors.py:747-781 | with at least one bin: succeeds iff every pass of the loop does, with `nbins` centres at `r_min + (k + 1/2) dr` and one `nbins`-entry histogram per bond |
| Descriptors.RecordInteraction | pengwann/descriptors.py:755-779 | one pass of the loop, including the bin scan that stops at the first matching bin |
| Descriptors.GetBwdf | pengwann/descriptors.py:745-781 | the loop computes `BondWeightedDistribution`, raising the first failure |
| Descriptors.AccumulateSums | pengwann/descriptors.py:752-779 | after the loop the bonds are listed once each, exactly the bonds seen, and bin `k` of bond `b` is the sum of the IWOHPs of that bond's interactions whose distance falls in bin `k` |
| Descriptors.BwdfHistograms | pengwann/descriptors.py:745-781 | a successful get_bwdf has positive `nbins` and such histograms, or has `nbins == -1` and no interactions |
| Io.ParseEach | pengwann/io.py:26 | all tokens convert (in order) or ValueError |
| Io.LineAt | pengwann/io.py:34 | `lines[idx]` with negative indices, IndexError outside |
| Io.ComplexOf | pengwann/io.py:42-46 | exactly two floats make the complex value; anything else is ValueError |
| Io.UHeader | pengwann/io.py:26 | line 1 without its last token must be exactly two integers |
| Io.ElementLinesBijective | pengwann/io.py:28-41 | within a block, `(row, col)` maps one to one onto the `num_wann^2` element lines (column-major) |
| Io.BlocksDisjoint | pengwann/io.py:28 | a block's lines end just before the next block's k-vector line |
| Io.ReadUContents | pengwann/io.py:26-55 | `num_kpoints` k-vectors and matrices of `num_wann x num_wann`; entry `[row][col]` of matrix `k` from line `block_k + row + col * num_wann`; k-vector from line `block_k - 1` |
| Io.ReadURow | pengwann/io.py:37-46 | the column loop reads one row |
| Io.ReadUBlock | pengwann/io.py:31-50 | the k-vector then the rows of one block |
| Io.ReadUFile | pengwann/io.py:21-55 | the loops compute `ReadU` |
| Io.LastFloat | pengwann/io.py:91 | the last token of the line as a float; IndexError on an empty line |
| Io.ReadEigenvaluesContents | pengwann/io.py:79-95 | `num_wann` (default `num_bands`) rows of `num_kpoints` values, entry `[c][k]` from line `c + k * num_bands` |
| Io.ReadEigenvaluesFile | pengwann/io.py:77-99 | the loops compute `ReadEigenvalues` |
| Io.ReadEigenvalueRow | pengwann/io.py:88-93 | the inner loop computes one band's row `EigenvalueRow`, stopping at the first line that fails to parse |
| Io.IntLine | pengwann/io.py:120-121 | a one-integer line, ValueError for a line of several tokens, IndexError past the end |
| Io.CeilDiv15 | pengwann/io.py:123 | the least `c` with `15 c >= nR` |
| Io.SliceFrom | pengwann/io.py:139 | Python's `lines[start:]`, with clamping and negative starts |
| Io.InitialHamiltonian | pengwann/io.py:125-137 | before the data, exactly the seven vectors (origin and `±1` on each axis), each with a zero matrix |
| Io.EntryOf | pengwann/io.py:139-147 | a line is skipped iff its first tokens are integers not forming a kept vector; a kept entry has its vector among the seven and indices within `num_wann` |
| Io.EntryOneBased | pengwann/io.py:144-147 | a well-formed line with `1 <= m, n <= num_wann` sets entry `(m - 1, n - 1)` |
| Io.StepEntry | pengwann/io.py:147 | one data line changes only the entry it names |
| Io.ReadHamiltonian | pengwann/io.py:120-149 | on success the keys are the seven vectors and every matrix is `num_wann x num_wann` |
| Io.ReadHamiltonianEntries | pengwann/io.py:123-147 | each entry is the value of the last data line from line `ceil(nR/15) + 3` that names it, and zero when none does |
| Io.ReadHamiltonianFile | pengwann/io.py:117-149 | the zero matrices then the assignment loop compute `ReadHamiltonian` |
| Io.AssignEntries | pengwann/io.py:139-147 | the assignment loop computes the fold over the data lines |

## Left out

- Process pool, shared memory and the progress bar of `parallelise` and `_parallel_wrapper`: the model maps over the orbitals in order, which is what `pool.imap` returns.
- Coefficient matrices (`get_coefficient_matrix`, `u`, `kpoints`, the spilling factor): the calculator holds the real part of `conj(C_i) * C_j` for each band and k-point as an abstract function `overlap`.
- `DescriptorCalculator.__init__`, `from_eigenvalues`, the Gaussian smearing of the DOS array, the `energies` property and `get_occupation_matrix`: the DOS array and the occupation matrix are fields of the calculator.
- `build_geometry`, pymatgen's `Structure`, `distance_matrix` and `distance_and_image`: the structure is its species list plus a distance function and an image function.
- File opening and `int()`/`float()` on tokens: the readers take the lines already split and parser functions that return None where Python raises ValueError.
- Floating-point rounding, infinities and NaN: floats are reals.
- numpy broadcasting between arrays of different shapes: adding two grids of different shapes is modelled as ValueError.
- `np.array` of ragged lists in `read_U` and `read_eigenvalues`: the model returns the nested lists.
- Utils.ParseId: `isdigit` and `int()` accept ASCII digits only; Python also accepts other Unicode digits, surrounding whitespace and underscores between digits.
- Geometry.Interatomic, Geometry.IdentifyInteratomicInteractions: the `radial_cutoffs` dict is an insertion-ordered sequence of (species pair, cutoff) entries. The model does not require distinct keys, which a dict guarantees; a repeated key would yield its interactions again.
- Geometry.AssignWannierCentres: the site property is stored as nested sequences rather than tuples.
- The `integrate_descriptor` import at `pengwann/geometry.py:29` names a function that `pengwann/utils.py` defines as `integrate`: the model uses `Utils.Integrate`.

## Findings

| source | as written | input that shows it | evidently intended | confidence | as-written member | corrected member |
|---|---|---|---|---|---|---|
| pengwann/descriptors.py:634 | `updated_interaction = interaction.with_summed_descriptors()` sums the interaction as passed in. Its orbitals have no DOS matrix, so `with_summed_descriptors` raises TypeError at `pengwann/geometry.py:95`. `intermediate_interaction`, holding the processed orbitals, is never used. get_pdos and get_density_of_energy call assign_descriptors and fail the same way (`PdosAsWrittenFails`, `DoeAsWrittenFails`); the model of both uses the corrected version. | one interaction `("C1", "C1")` with the single orbital `WannierInteraction(0, 0, bl_0, bl_0)`, `calc_wohp=False`, `calc_wobi=False` | `intermediate_interaction.with_summed_descriptors()` | high; not executed | Descriptors.AssignAsWrittenExample | Descriptors.AssignDescriptors |
