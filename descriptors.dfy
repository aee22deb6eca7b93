// pengwann/descriptors.py: the DescriptorCalculator. DOS matrices and
// density-matrix elements for pairs of Wannier functions, their assignment
// to batches of interactions, the pDOS, the density of energy and the
// bond-weighted distribution function.

module Descriptors {
  import opened Common
  import opened Arrays
  import opened Utils
  import opened Records
  import opened Geometry

  /**
   * What a DescriptorCalculator holds. The DOS array is sampled on
   * `numEnergies` energies, `numKpoints` k-points and `numBands` bands and
   * indexed `[e, k, n]`. `overlap(i, bl1, j, bl2, k, n)` stands for the real
   * part of `(C^{i,bl1}_{nk})^* C^{j,bl2}_{nk}`, the product of two
   * coefficient matrices; the Hamiltonian maps a lattice vector to a
   * `num_wann` x `num_wann` matrix and the occupation matrix is indexed
   * `[k, n]`.
   */
  datatype Calculator = Calculator(
    numEnergies: nat,
    numKpoints: nat,
    numBands: nat,
    dosArray: (nat, nat, nat) -> real,
    numWann: nat,
    nspin: int,
    overlap: (nat, Offset, nat, Offset, nat, nat) -> real,
    h: Option<map<Offset, seq<seq<Complex>>>>,
    occupation: Option<(nat, nat) -> real>)
  {
    /** A calculator with an occupation matrix has k-points to average over. */
    predicate WellFormed() {
      occupation.Some? ==> numKpoints > 0
    }
  }

  // ---------------------------------------------------------------------
  // get_dos_matrix

  /** The band terms `nspin * Re(c* c)[k, n] * dos[e, k, n]` of DOS entry `(e, k)`. */
  function DosTerms(dc: Calculator, w: WannierInteraction, e: nat, k: nat): seq<real> {
    seq(dc.numBands, n requires 0 <= n < dc.numBands =>
      dc.nspin as real * dc.overlap(w.i, w.bl1, w.j, w.bl2, k, n) * dc.dosArray(e, k, n))
  }

  /** Columns of a DOS matrix: one per k-point when k-resolved, a single one otherwise. */
  function DosWidth(dc: Calculator, resolveK: bool): nat {
    if resolveK then dc.numKpoints else 1
  }

  /** The band terms of energy `e`, one list per k-point. */
  function EnergyTerms(dc: Calculator, w: WannierInteraction, e: nat): (r: seq<seq<real>>)
    ensures |r| == dc.numKpoints
  {
    seq(dc.numKpoints, k requires 0 <= k < dc.numKpoints => DosTerms(dc, w, e, k))
  }

  /**
   * get_dos_matrix: summed over bands for every energy and k-point when
   * k-resolved, and over k-points and bands together otherwise.
   */
  function DosMatrix(dc: Calculator, w: WannierInteraction, resolveK: bool): (r: Array)
    ensures HasShape(r, dc.numEnergies, DosWidth(dc, resolveK))
  {
    if resolveK then
      Grid(seq(dc.numEnergies, e requires 0 <= e < dc.numEnergies => RowSums(EnergyTerms(dc, w, e))))
    else
      Grid(seq(dc.numEnergies, e requires 0 <= e < dc.numEnergies => [SumReals(RowSums(EnergyTerms(dc, w, e)))]))
  }

  /**
   * The unresolved DOS vector is the sum of the k-resolved DOS matrix over
   * k-points, and also the sum of all band terms of that energy taken
   * together, whatever the order of summation.
   */
  lemma DosMatrixSumsOverK(dc: Calculator, w: WannierInteraction, e: nat)
    requires e < dc.numEnergies
    ensures DosMatrix(dc, w, false).rows[e][0] == SumReals(DosMatrix(dc, w, true).rows[e])
    ensures DosMatrix(dc, w, false).rows[e][0] == SumReals(Concat(EnergyTerms(dc, w, e)))
  {
    SumRealsConcat(EnergyTerms(dc, w, e));
  }

  /**
   * `c` differs from `c1` and `c2` only in its DOS array, which is `x`
   * times that of `c1` plus `y` times that of `c2` at every energy, k-point
   * and band.
   */
  ghost predicate Superposed(x: real, c1: Calculator, y: real, c2: Calculator, c: Calculator) {
    c1.numEnergies == c2.numEnergies == c.numEnergies &&
    c1.numKpoints == c2.numKpoints == c.numKpoints &&
    c1.numBands == c2.numBands == c.numBands &&
    c1.nspin == c2.nspin == c.nspin &&
    c1.overlap == c2.overlap == c.overlap &&
    forall e: nat, k: nat, n: nat | e < c.numEnergies && k < c.numKpoints && n < c.numBands ::
      SuperposedAt(x, c1, y, c2, c, e, k, n)
  }

  /** The DOS array of `c` at energy `e`, k-point `k` and band `n` is `x` times that of `c1` plus `y` times that of `c2`. */
  ghost predicate SuperposedAt(x: real, c1: Calculator, y: real, c2: Calculator, c: Calculator, e: nat, k: nat, n: nat) {
    c.dosArray(e, k, n) == x * c1.dosArray(e, k, n) + y * c2.dosArray(e, k, n)
  }

  /**
   * The DOS matrix is linear in the DOS array: superposing two DOS arrays
   * superposes the DOS matrices entry by entry, k-resolved or not.
   */
  lemma DosMatrixLinear(x: real, c1: Calculator, y: real, c2: Calculator, c: Calculator,
                        w: WannierInteraction, resolveK: bool, e: nat, k: nat)
    requires Superposed(x, c1, y, c2, c)
    requires e < c.numEnergies && k < DosWidth(c, resolveK)
    ensures DosMatrix(c, w, resolveK).rows[e][k]
              == Lin(x, DosMatrix(c1, w, resolveK).rows[e][k], y, DosMatrix(c2, w, resolveK).rows[e][k])
  {
    DosMatrixRow(c, w, resolveK, e);
    DosMatrixRow(c1, w, resolveK, e);
    DosMatrixRow(c2, w, resolveK, e);
    DosRowLinear(x, c1, y, c2, c, w, resolveK, e, k);
  }

  lemma DosMatrixRow(dc: Calculator, w: WannierInteraction, resolveK: bool, e: nat)
    requires e < dc.numEnergies
    ensures DosMatrix(dc, w, resolveK).rows[e] == DosRow(dc, w, resolveK, e)
  {
  }

  /** Row `e` of the DOS matrix. */
  function DosRow(dc: Calculator, w: WannierInteraction, resolveK: bool, e: nat): (r: seq<real>)
    ensures |r| == DosWidth(dc, resolveK)
  {
    if resolveK then RowSums(EnergyTerms(dc, w, e)) else [SumReals(RowSums(EnergyTerms(dc, w, e)))]
  }

  lemma DosRowLinear(x: real, c1: Calculator, y: real, c2: Calculator, c: Calculator,
                     w: WannierInteraction, resolveK: bool, e: nat, k: nat)
    requires Superposed(x, c1, y, c2, c)
    requires e < c.numEnergies && k < DosWidth(c, resolveK)
    ensures DosRow(c, w, resolveK, e)[k] == Lin(x, DosRow(c1, w, resolveK, e)[k], y, DosRow(c2, w, resolveK, e)[k])
  {
    var t1, t2, t := EnergyTerms(c1, w, e), EnergyTerms(c2, w, e), EnergyTerms(c, w, e);
    EnergyTermsLinear(x, c1, y, c2, c, w, e);
    if resolveK {
      RowSumsLinearAt(x, t1, y, t2, t, k);
    } else {
      SumRowSumsLinear(x, t1, y, t2, t);
    }
  }

  /** Superposed calculators have superposed band sums at every k-point. */
  lemma EnergyTermsLinear(x: real, c1: Calculator, y: real, c2: Calculator, c: Calculator,
                          w: WannierInteraction, e: nat)
    requires Superposed(x, c1, y, c2, c) && e < c.numEnergies
    ensures LinearRows(x, EnergyTerms(c1, w, e), y, EnergyTerms(c2, w, e), EnergyTerms(c, w, e))
  {
    forall k | 0 <= k < c.numKpoints
      ensures SumReals(EnergyTerms(c, w, e)[k]) == Lin(x, SumReals(EnergyTerms(c1, w, e)[k]), y, SumReals(EnergyTerms(c2, w, e)[k]))
    {
      DosTermsLinear(x, c1, y, c2, c, w, e, k);
    }
  }

  lemma DosTermsLinear(x: real, c1: Calculator, y: real, c2: Calculator, c: Calculator,
                       w: WannierInteraction, e: nat, k: nat)
    requires Superposed(x, c1, y, c2, c) && e < c.numEnergies && k < c.numKpoints
    ensures SumReals(DosTerms(c, w, e, k)) == Lin(x, SumReals(DosTerms(c1, w, e, k)), y, SumReals(DosTerms(c2, w, e, k)))
  {
    var a, b := DosTerms(c1, w, e, k), DosTerms(c2, w, e, k);
    forall n | 0 <= n < c.numBands
      ensures DosTerms(c, w, e, k)[n] == x * a[n] + y * b[n]
    {
      DosTermLinear(x, c1, y, c2, c, w, e, k, n);
    }
    SumRealsLinear(x, a, y, b, DosTerms(c, w, e, k));
  }

  /** A single band term superposes like the DOS array it weighs. */
  lemma DosTermLinear(x: real, c1: Calculator, y: real, c2: Calculator, c: Calculator,
                      w: WannierInteraction, e: nat, k: nat, n: nat)
    requires Superposed(x, c1, y, c2, c) && e < c.numEnergies && k < c.numKpoints && n < c.numBands
    ensures DosTerms(c, w, e, k)[n] == x * DosTerms(c1, w, e, k)[n] + y * DosTerms(c2, w, e, k)[n]
  {
    var m := c.nspin as real * c.overlap(w.i, w.bl1, w.j, w.bl2, k, n);
    var d1, d2 := c1.dosArray(e, k, n), c2.dosArray(e, k, n);
    assert SuperposedAt(x, c1, y, c2, c, e, k, n);
    assert c.dosArray(e, k, n) == Lin(x, d1, y, d2);
    assert DosTerms(c, w, e, k)[n] == m * Lin(x, d1, y, d2);
    assert DosTerms(c1, w, e, k)[n] == m * d1;
    assert DosTerms(c2, w, e, k)[n] == m * d2;
    Distribute(m, x, d1, y, d2);
  }

  lemma Distribute(m: real, x: real, p: real, y: real, q: real)
    ensures m * Lin(x, p, y, q) == x * (m * p) + y * (m * q)
  {
  }

  /** The DOS matrix scales with `nspin`, the number of electrons per occupied band. */
  lemma DosMatrixSpin(dc: Calculator, w: WannierInteraction, resolveK: bool, e: nat, k: nat)
    requires e < dc.numEnergies && k < DosWidth(dc, resolveK)
    ensures DosMatrix(dc, w, resolveK).rows[e][k] == dc.nspin as real * DosMatrix(dc.(nspin := 1), w, resolveK).rows[e][k]
  {
    DosMatrixRow(dc, w, resolveK, e);
    DosMatrixRow(dc.(nspin := 1), w, resolveK, e);
    DosRowSpin(dc, w, resolveK, e, k);
  }

  lemma DosRowSpin(dc: Calculator, w: WannierInteraction, resolveK: bool, e: nat, k: nat)
    requires e < dc.numEnergies && k < DosWidth(dc, resolveK)
    ensures DosRow(dc, w, resolveK, e)[k] == Times(dc.nspin as real, DosRow(dc.(nspin := 1), w, resolveK, e)[k])
  {
    var t1, t := EnergyTerms(dc.(nspin := 1), w, e), EnergyTerms(dc, w, e);
    EnergyTermsSpin(dc, w, e);
    if resolveK {
      RowSumsScaleAt(dc.nspin as real, t1, t, k);
    } else {
      SumRowSumsScale(dc.nspin as real, t1, t);
    }
  }

  lemma EnergyTermsSpin(dc: Calculator, w: WannierInteraction, e: nat)
    ensures ScaledRows(dc.nspin as real, EnergyTerms(dc.(nspin := 1), w, e), EnergyTerms(dc, w, e))
  {
    forall k | 0 <= k < dc.numKpoints
      ensures SumReals(EnergyTerms(dc, w, e)[k]) == Times(dc.nspin as real, SumReals(EnergyTerms(dc.(nspin := 1), w, e)[k]))
    {
      DosTermsSpin(dc, w, e, k);
    }
  }

  lemma DosTermsSpin(dc: Calculator, w: WannierInteraction, e: nat, k: nat)
    ensures SumReals(DosTerms(dc, w, e, k)) == Times(dc.nspin as real, SumReals(DosTerms(dc.(nspin := 1), w, e, k)))
  {
    var a := DosTerms(dc.(nspin := 1), w, e, k);
    forall n | 0 <= n < dc.numBands
      ensures DosTerms(dc, w, e, k)[n] == dc.nspin as real * a[n]
    {
      DosTermSpin(dc, w, e, k, n);
    }
    SumRealsScale(dc.nspin as real, a, DosTerms(dc, w, e, k));
  }

  lemma DosTermSpin(dc: Calculator, w: WannierInteraction, e: nat, k: nat, n: nat)
    requires n < dc.numBands
    ensures DosTerms(dc, w, e, k)[n] == dc.nspin as real * DosTerms(dc.(nspin := 1), w, e, k)[n]
  {
    var s, o, d := dc.nspin as real, dc.overlap(w.i, w.bl1, w.j, w.bl2, k, n), dc.dosArray(e, k, n);
    assert DosTerms(dc, w, e, k)[n] == s * o * d;
    assert DosTerms(dc.(nspin := 1), w, e, k)[n] == 1 as real * o * d;
    Regroup(s, o, d);
  }

  lemma Regroup(s: real, o: real, d: real)
    ensures s * o * d == s * (1 as real * o * d)
  {
  }

  // ---------------------------------------------------------------------
  // get_density_matrix_element

  /** The terms `occ[k, n] * Re(c* c)[k, n]`, one row per k-point. */
  function OccupationTerms(dc: Calculator, occ: (nat, nat) -> real, w: WannierInteraction): seq<seq<real>> {
    seq(dc.numKpoints, k requires 0 <= k < dc.numKpoints =>
      seq(dc.numBands, n requires 0 <= n < dc.numBands => occ(k, n) * dc.overlap(w.i, w.bl1, w.j, w.bl2, k, n)))
  }

  /**
   * The real part of get_density_matrix_element: TypeError without an
   * occupation matrix, otherwise the occupation-weighted sum over bands
   * and k-points divided by the number of k-points.
   */
  function DensityMatrixElement(dc: Calculator, w: WannierInteraction): (r: Result<real>)
    requires dc.WellFormed()
    ensures r.Ok? <==> dc.occupation.Some?
    ensures r.Err? ==> r.error == TypeError
  {
    match dc.occupation
    case None => Err(TypeError)
    case Some(occ) => Ok(SumReals(Concat(OccupationTerms(dc, occ, w))) / dc.numKpoints as real)
  }

  /** The density-matrix element is the mean over k-points of the per-k-point band sums. */
  lemma DensityMatrixMeanOverK(dc: Calculator, w: WannierInteraction)
    requires dc.WellFormed() && dc.occupation.Some?
    ensures DensityMatrixElement(dc, w).value
              == SumReals(RowSums(OccupationTerms(dc, dc.occupation.value, w))) / dc.numKpoints as real
  {
    SumRealsConcat(OccupationTerms(dc, dc.occupation.value, w));
  }

  // ---------------------------------------------------------------------
  // _process_interaction and parallelise

  /** The fields a processed Wannier interaction keeps from its input. */
  predicate SameOrbital(a: WannierInteraction, b: WannierInteraction) {
    a.i == b.i && a.j == b.j && a.bl1 == b.bl1 && a.bl2 == b.bl2
  }

  /**
   * _process_interaction: sets the DOS matrix and, when asked for, the
   * density-matrix element `p_ij`; nothing else changes.
   */
  function ProcessInteraction(dc: Calculator, w: WannierInteraction, calcWobi: bool, resolveK: bool)
    : (r: Result<WannierInteraction>)
    requires dc.WellFormed()
    ensures r.Err? <==> calcWobi && dc.occupation.None?
    ensures r.Err? ==> r.error == TypeError
    ensures r.Ok? ==> r.value.(dosMatrix := w.dosMatrix, pij := w.pij) == w
    ensures r.Ok? ==> r.value.dosMatrix == Some(DosMatrix(dc, w, resolveK))
    ensures r.Ok? && calcWobi ==> r.value.pij == Some(DensityMatrixElement(dc, w).value)
    ensures r.Ok? && !calcWobi ==> r.value.pij == w.pij
  {
    var dos := DosMatrix(dc, w, resolveK);
    if calcWobi then
      var pij :- DensityMatrixElement(dc, w);
      Ok(w.(dosMatrix := Some(dos), pij := Some(pij)))
    else
      Ok(w.(dosMatrix := Some(dos)))
  }

  /**
   * What parallelise returns: TypeError when `p_ij` is asked for without an
   * occupation matrix, otherwise every Wannier interaction processed by
   * _process_interaction, in order.
   */
  function ProcessAll(dc: Calculator, ws: seq<WannierInteraction>, calcWobi: bool, resolveK: bool)
    : (r: Result<seq<WannierInteraction>>)
    requires dc.WellFormed()
    ensures r.Err? <==> calcWobi && dc.occupation.None?
    ensures r.Err? ==> r.error == TypeError
    ensures r.Ok? ==> |r.value| == |ws|
    ensures r.Ok? ==> forall t :: 0 <= t < |ws| ==>
              SameOrbital(r.value[t], ws[t]) && r.value[t].hij == ws[t].hij &&
              r.value[t].dosMatrix == Some(DosMatrix(dc, ws[t], resolveK)) &&
              (calcWobi ==> r.value[t].pij.Some?) && (!calcWobi ==> r.value[t].pij == ws[t].pij)
    ensures r.Ok? ==> forall t :: 0 <= t < |ws| ==> r.value[t] == ProcessInteraction(dc, ws[t], calcWobi, resolveK).value
  {
    if calcWobi && dc.occupation.None? then
      Err(TypeError)
    else
      Ok(seq(|ws|, t requires 0 <= t < |ws| => ProcessInteraction(dc, ws[t], calcWobi, resolveK).value))
  }

  /** parallelise, as the order-preserving sequential map it amounts to. */
  method Parallelise(dc: Calculator, ws: seq<WannierInteraction>, calcPij: bool, resolveK: bool)
    returns (r: Result<seq<WannierInteraction>>)
    requires dc.WellFormed()
    ensures r == ProcessAll(dc, ws, calcPij, resolveK)
  {
    if calcPij && dc.occupation.None? {
      return Err(TypeError);
    }
    var updated: seq<WannierInteraction> := [];
    for t := 0 to |ws|
      invariant |updated| == t
      invariant forall u :: 0 <= u < t ==> updated[u] == ProcessInteraction(dc, ws[u], calcPij, resolveK).value
    {
      var w := ProcessInteraction(dc, ws[t], calcPij, resolveK);
      updated := updated + [w.value];
    }
    assert updated == seq(|ws|, t requires 0 <= t < |ws| => ProcessInteraction(dc, ws[t], calcPij, resolveK).value);
    return Ok(updated);
  }

  // ---------------------------------------------------------------------
  // assign_descriptors

  /**
   * `h[bl_2 - bl_1][i, j].real`: KeyError when the Hamiltonian has no
   * matrix for that lattice vector, IndexError outside the matrix.
   */
  function HoppingElement(h: map<Offset, seq<seq<Complex>>>, w: WannierInteraction): (r: Result<real>)
    ensures r == Err(KeyError) <==> Minus(w.bl2, w.bl1) !in h
    ensures r == Err(IndexError) <==>
              Minus(w.bl2, w.bl1) in h && (w.i >= |h[Minus(w.bl2, w.bl1)]| || w.j >= |h[Minus(w.bl2, w.bl1)][w.i]|)
    ensures r.Ok? ==> r.value == h[Minus(w.bl2, w.bl1)][w.i][w.j].re
    ensures r.Err? ==> r.error == KeyError || r.error == IndexError
  {
    var bl := Minus(w.bl2, w.bl1);
    if bl !in h then Err(KeyError)
    else if w.i >= |h[bl]| || w.j >= |h[bl][w.i]| then Err(IndexError)
    else Ok(h[bl][w.i][w.j].re)
  }

  /** Every Wannier interaction of `ws` with its `h_ij` looked up; the first failed lookup raises. */
  function Hoppings(h: map<Offset, seq<seq<Complex>>>, ws: seq<WannierInteraction>): (r: Result<seq<WannierInteraction>>)
    ensures r.Ok? <==> forall t :: 0 <= t < |ws| ==> HoppingElement(h, ws[t]).Ok?
    ensures r.Ok? ==> |r.value| == |ws|
    ensures r.Ok? ==> forall t :: 0 <= t < |ws| ==> r.value[t] == ws[t].(hij := Some(HoppingElement(h, ws[t]).value))
    ensures r.Err? ==> r.error == KeyError || r.error == IndexError
  {
    if ws == [] then
      Ok([])
    else
      var prefix := ws[..|ws| - 1];
      var w := ws[|ws| - 1];
      assert forall t :: 0 <= t < |prefix| ==> prefix[t] == ws[t];
      var done := Hoppings(h, prefix);
      if done.Err? then
        Err(done.error)
      else
        match HoppingElement(h, w)
        case Err(e) =>
          Err(e)
        case Ok(hij) =>
          Ok(done.value + [w.(hij := Some(hij))])
  }

  /** The Wannier interactions of every atomic interaction, one list each. */
  function OrbitalLists(xs: seq<AtomicInteraction>): seq<seq<WannierInteraction>> {
    seq(|xs|, t requires 0 <= t < |xs| => xs[t].wannierInteractions)
  }

  /** The flat batch: all Wannier interactions, interaction by interaction. */
  function Flatten(xs: seq<AtomicInteraction>): seq<WannierInteraction> {
    Concat(OrbitalLists(xs))
  }

  /** Interaction `t`'s share of a batch: the slice `[running_count, running_count + len)`. */
  function Share(xs: seq<AtomicInteraction>, batch: seq<WannierInteraction>, t: nat): (r: seq<WannierInteraction>)
    requires t < |xs| && |batch| == |Flatten(xs)|
    ensures |r| == |xs[t].wannierInteractions|
  {
    ConcatSlice(OrbitalLists(xs), t);
    batch[Start(OrbitalLists(xs), t)..Start(OrbitalLists(xs), t + 1)]
  }

  /** Every interaction with its share of the batch in place of its Wannier interactions. */
  function Redistribute(xs: seq<AtomicInteraction>, batch: seq<WannierInteraction>): seq<AtomicInteraction>
    requires |batch| == |Flatten(xs)|
  {
    seq(|xs|, t requires 0 <= t < |xs| => xs[t].(wannierInteractions := Share(xs, batch, t)))
  }

  /** The shares partition the batch: redistributing the flat batch itself gives every interaction back. */
  lemma RedistributeFlatten(xs: seq<AtomicInteraction>)
    ensures Redistribute(xs, Flatten(xs)) == xs
  {
    forall t | 0 <= t < |xs|
      ensures Share(xs, Flatten(xs), t) == xs[t].wannierInteractions
    {
      ConcatSlice(OrbitalLists(xs), t);
    }
  }

  /** with_summed_descriptors of one interaction. */
  function Summed(x: AtomicInteraction): Result<AtomicInteraction> {
    x.WithSummedDescriptors()
  }

  /** with_summed_descriptors on every interaction, in order; the first failure raises. */
  function SumAll(ys: seq<AtomicInteraction>): Result<seq<AtomicInteraction>> {
    MapResults(Summed, ys)
  }

  /** The sum succeeds iff every interaction sums, and then holds their sums in order. */
  lemma SumAllExact(ys: seq<AtomicInteraction>)
    ensures SumAll(ys).Ok? <==> forall t :: 0 <= t < |ys| ==> ys[t].WithSummedDescriptors().Ok?
    ensures SumAll(ys).Ok? ==> |SumAll(ys).value| == |ys|
    ensures SumAll(ys).Ok? ==> forall t :: 0 <= t < |ys| ==> SumAll(ys).value[t] == ys[t].WithSummedDescriptors().value
  {
    MapResultsExact(Summed, ys);
  }

  /** The checks assign_descriptors makes before any work. */
  predicate Unavailable(dc: Calculator, calcWohp: bool, calcWobi: bool) {
    (calcWohp && dc.h.None?) || (calcWobi && dc.occupation.None?)
  }

  /** The batch sent to parallelise: with `h_ij` looked up when WOHPs are asked for. */
  function PreparedBatch(dc: Calculator, xs: seq<AtomicInteraction>, calcWohp: bool): (r: Result<seq<WannierInteraction>>)
    requires calcWohp ==> dc.h.Some?
    ensures r.Ok? ==> |r.value| == |Flatten(xs)|
  {
    if calcWohp then Hoppings(dc.h.value, Flatten(xs)) else Ok(Flatten(xs))
  }

  /**
   * assign_descriptors as the evidently intended algorithm: check the
   * inputs, look up `h_ij`, process the flat batch, hand each interaction
   * its share and sum the descriptors over it.
   */
  function AssignSpec(dc: Calculator, xs: seq<AtomicInteraction>, calcWohp: bool, calcWobi: bool, resolveK: bool)
    : (r: Result<seq<AtomicInteraction>>)
    requires dc.WellFormed()
    ensures Unavailable(dc, calcWohp, calcWobi) ==> r == Err(TypeError)
  {
    if Unavailable(dc, calcWohp, calcWobi) then
      Err(TypeError)
    else
      var batch :- PreparedBatch(dc, xs, calcWohp);
      var updated := ProcessAll(dc, batch, calcWobi, resolveK).value;
      SumAll(Redistribute(xs, updated))
  }

  /**
   * assign_descriptors as written: the sums are taken over the ORIGINAL
   * interaction rather than the one holding the processed Wannier
   * interactions.
   */
  function AssignAsWritten(dc: Calculator, xs: seq<AtomicInteraction>, calcWohp: bool, calcWobi: bool, resolveK: bool)
    : (r: Result<seq<AtomicInteraction>>)
    requires dc.WellFormed()
    ensures Unavailable(dc, calcWohp, calcWobi) ==> r == Err(TypeError)
  {
    if Unavailable(dc, calcWohp, calcWobi) then
      Err(TypeError)
    else
      var batch :- PreparedBatch(dc, xs, calcWohp);
      var updated := ProcessAll(dc, batch, calcWobi, resolveK).value;
      var _ := Redistribute(xs, updated);
      SumAll(xs)
  }

  /** Summing over Wannier interactions whose DOS matrices share one shape never fails. */
  lemma SummedOk(a: AtomicInteraction, nE: nat, width: nat)
    requires DosShaped(a.wannierInteractions, nE, width)
    ensures a.WithSummedDescriptors().Ok?
  {
    if a.wannierInteractions != [] {
      SummedDosEntries(a, nE, width);
    }
  }

  /** Processed Wannier interactions all carry DOS matrices of the calculator's shape. */
  lemma ProcessedShaped(dc: Calculator, ws: seq<WannierInteraction>, calcWobi: bool, resolveK: bool)
    requires dc.WellFormed() && ProcessAll(dc, ws, calcWobi, resolveK).Ok?
    ensures DosShaped(ProcessAll(dc, ws, calcWobi, resolveK).value, dc.numEnergies, DosWidth(dc, resolveK))
  {
  }

  /** Interaction `t`'s share holds the batch entries from its start offset on. */
  lemma ShareAt(xs: seq<AtomicInteraction>, batch: seq<WannierInteraction>, t: nat, u: nat)
    requires t < |xs| && |batch| == |Flatten(xs)| && u < |xs[t].wannierInteractions|
    ensures Start(OrbitalLists(xs), t) + u < |batch|
    ensures Share(xs, batch, t)[u] == batch[Start(OrbitalLists(xs), t) + u]
    ensures Flatten(xs)[Start(OrbitalLists(xs), t) + u] == xs[t].wannierInteractions[u]
  {
    ConcatSlice(OrbitalLists(xs), t);
    assert Flatten(xs)[Start(OrbitalLists(xs), t)..Start(OrbitalLists(xs), t + 1)][u]
      == Flatten(xs)[Start(OrbitalLists(xs), t) + u];
  }

  /**
   * assign_descriptors succeeds exactly when the inputs it needs are there
   * and every `h_ij` lookup succeeds.
   */
  lemma AssignOutcome(dc: Calculator, xs: seq<AtomicInteraction>, calcWohp: bool, calcWobi: bool, resolveK: bool)
    requires dc.WellFormed()
    ensures AssignSpec(dc, xs, calcWohp, calcWobi, resolveK).Ok? <==>
              !Unavailable(dc, calcWohp, calcWobi) && (calcWohp ==> Hoppings(dc.h.value, Flatten(xs)).Ok?)
  {
    if !Unavailable(dc, calcWohp, calcWobi) && PreparedBatch(dc, xs, calcWohp).Ok? {
      var batch := PreparedBatch(dc, xs, calcWohp).value;
      var updated := ProcessAll(dc, batch, calcWobi, resolveK).value;
      ProcessedShaped(dc, batch, calcWobi, resolveK);
      var ys := Redistribute(xs, updated);
      forall t | 0 <= t < |ys|
        ensures ys[t].WithSummedDescriptors().Ok?
      {
        forall u | 0 <= u < |ys[t].wannierInteractions|
          ensures Start(OrbitalLists(xs), t) + u < |updated|
          ensures ys[t].wannierInteractions[u] == updated[Start(OrbitalLists(xs), t) + u]
        {
          ShareAt(xs, updated, t, u);
        }
        SummedOk(ys[t], dc.numEnergies, DosWidth(dc, resolveK));
      }
      SumAllExact(ys);
    }
  }

  /**
   * What assign_descriptors promises about one Wannier interaction `w` of
   * the input and its counterpart `v` in the output: the same orbitals, now
   * carrying the DOS matrix, `h_ij` looked up when WOHPs were asked for and
   * `p_ij` set to the density-matrix element when WOBIs were, and otherwise
   * what `w` carried; population, IWOHP and IWOBI are left as they were.
   */
  predicate Assigned(dc: Calculator, w: WannierInteraction, v: WannierInteraction,
                     calcWohp: bool, calcWobi: bool, resolveK: bool) {
    && SameOrbital(v, w)
    && v.dosMatrix == Some(DosMatrix(dc, w, resolveK))
    && (calcWohp ==> dc.h.Some? && HoppingElement(dc.h.value, w).Ok? &&
                     v.hij == Some(HoppingElement(dc.h.value, w).value))
    && (!calcWohp ==> v.hij == w.hij)
    && (calcWobi ==> dc.WellFormed() && dc.occupation.Some? && v.pij == Some(DensityMatrixElement(dc, w).value))
    && (!calcWobi ==> v.pij == w.pij)
    && v.population == w.population && v.iwohp == w.iwohp && v.iwobi == w.iwobi
  }

  /**
   * What assign_descriptors returns: one interaction per input, in order,
   * each keeping its labels and its own Wannier interactions, each of them
   * `Assigned`, and a summed DOS matrix.
   */
  lemma AssignResult(dc: Calculator, xs: seq<AtomicInteraction>, calcWohp: bool, calcWobi: bool, resolveK: bool)
    requires dc.WellFormed() && AssignSpec(dc, xs, calcWohp, calcWobi, resolveK).Ok?
    ensures var r := AssignSpec(dc, xs, calcWohp, calcWobi, resolveK).value;
      && |r| == |xs|
      && forall t :: 0 <= t < |xs| ==>
           && r[t].pairId == xs[t].pairId
           && r[t].dosMatrix.Some?
           && |r[t].wannierInteractions| == |xs[t].wannierInteractions|
           && xs[t].(wannierInteractions := r[t].wannierInteractions).WithSummedDescriptors() == Ok(r[t])
           && forall u :: 0 <= u < |xs[t].wannierInteractions| ==>
                Assigned(dc, xs[t].wannierInteractions[u], r[t].wannierInteractions[u], calcWohp, calcWobi, resolveK)
  {
    var r := AssignSpec(dc, xs, calcWohp, calcWobi, resolveK).value;
    AssignSpecSums(dc, xs, calcWohp, calcWobi, resolveK);
    var updated := ProcessAll(dc, PreparedBatch(dc, xs, calcWohp).value, calcWobi, resolveK).value;
    SumAllExact(Redistribute(xs, updated));
    forall t | 0 <= t < |xs|
      ensures t < |r| && r[t].pairId == xs[t].pairId && r[t].dosMatrix.Some?
      ensures |r[t].wannierInteractions| == |xs[t].wannierInteractions|
      ensures xs[t].(wannierInteractions := r[t].wannierInteractions).WithSummedDescriptors() == Ok(r[t])
    {
      AssignedInteraction(dc, xs, calcWohp, calcWobi, resolveK, t);
    }
    forall t, u | 0 <= t < |xs| && 0 <= u < |xs[t].wannierInteractions|
      ensures Assigned(dc, xs[t].wannierInteractions[u], r[t].wannierInteractions[u], calcWohp, calcWobi, resolveK)
    {
      AssignedInteraction(dc, xs, calcWohp, calcWobi, resolveK, t);
      AssignedOrbital(dc, xs, calcWohp, calcWobi, resolveK, t, u);
    }
  }

  lemma AssignedInteraction(dc: Calculator, xs: seq<AtomicInteraction>, calcWohp: bool, calcWobi: bool, resolveK: bool, t: nat)
    requires dc.WellFormed() && AssignSpec(dc, xs, calcWohp, calcWobi, resolveK).Ok? && t < |xs|
    ensures var r := AssignSpec(dc, xs, calcWohp, calcWobi, resolveK).value;
      && |r| == |xs|
      && r[t].pairId == xs[t].pairId
      && r[t].dosMatrix.Some?
      && |r[t].wannierInteractions| == |xs[t].wannierInteractions|
      && xs[t].(wannierInteractions := r[t].wannierInteractions).WithSummedDescriptors() == Ok(r[t])
  {
    var batch := PreparedBatch(dc, xs, calcWohp).value;
    var updated := ProcessAll(dc, batch, calcWobi, resolveK).value;
    var ys := Redistribute(xs, updated);
    var r := AssignSpec(dc, xs, calcWohp, calcWobi, resolveK).value;
    assert r == SumAll(ys).value;
    SumAllExact(ys);
    assert r[t] == ys[t].WithSummedDescriptors().value;
    assert ys[t] == xs[t].(wannierInteractions := r[t].wannierInteractions);
  }

  lemma AssignedOrbital(dc: Calculator, xs: seq<AtomicInteraction>, calcWohp: bool, calcWobi: bool, resolveK: bool,
                        t: nat, u: nat)
    requires dc.WellFormed() && AssignSpec(dc, xs, calcWohp, calcWobi, resolveK).Ok?
    requires t < |xs| && u < |xs[t].wannierInteractions|
    ensures var r := AssignSpec(dc, xs, calcWohp, calcWobi, resolveK).value;
      && t < |r| && u < |r[t].wannierInteractions|
      && Assigned(dc, xs[t].wannierInteractions[u], r[t].wannierInteractions[u], calcWohp, calcWobi, resolveK)
  {
    AssignedShare(dc, xs, calcWohp, calcWobi, resolveK, t);
    var updated := ProcessAll(dc, PreparedBatch(dc, xs, calcWohp).value, calcWobi, resolveK).value;
    var r := AssignSpec(dc, xs, calcWohp, calcWobi, resolveK).value;
    ShareAt(xs, updated, t, u);
    var idx := Start(OrbitalLists(xs), t) + u;
    UpdatedAt(dc, xs, calcWohp, calcWobi, resolveK, idx);
    AssignedSame(dc, Flatten(xs)[idx], updated[idx], xs[t].wannierInteractions[u], r[t].wannierInteractions[u],
                 calcWohp, calcWobi, resolveK);
  }

  /** Interaction `t` of the result holds its share of the processed batch. */
  lemma AssignedShare(dc: Calculator, xs: seq<AtomicInteraction>, calcWohp: bool, calcWobi: bool, resolveK: bool, t: nat)
    requires dc.WellFormed() && AssignSpec(dc, xs, calcWohp, calcWobi, resolveK).Ok? && t < |xs|
    ensures !Unavailable(dc, calcWohp, calcWobi) && PreparedBatch(dc, xs, calcWohp).Ok?
    ensures ProcessAll(dc, PreparedBatch(dc, xs, calcWohp).value, calcWobi, resolveK).Ok?
    ensures var updated := ProcessAll(dc, PreparedBatch(dc, xs, calcWohp).value, calcWobi, resolveK).value;
            var r := AssignSpec(dc, xs, calcWohp, calcWobi, resolveK).value;
      && |updated| == |Flatten(xs)| && t < |r|
      && r[t].wannierInteractions == Share(xs, updated, t)
  {
    var batch := PreparedBatch(dc, xs, calcWohp).value;
    var updated := ProcessAll(dc, batch, calcWobi, resolveK).value;
    var ys := Redistribute(xs, updated);
    var r := AssignSpec(dc, xs, calcWohp, calcWobi, resolveK).value;
    assert r == SumAll(ys).value;
    SumAllExact(ys);
    assert r[t] == ys[t].WithSummedDescriptors().value;
  }

  lemma AssignedSame(dc: Calculator, w: WannierInteraction, v: WannierInteraction,
                     w': WannierInteraction, v': WannierInteraction, calcWohp: bool, calcWobi: bool, resolveK: bool)
    requires w == w' && v == v' && Assigned(dc, w, v, calcWohp, calcWobi, resolveK)
    ensures Assigned(dc, w', v', calcWohp, calcWobi, resolveK)
  {
  }

  /** Entry `idx` of the processed batch is entry `idx` of the flat batch, `Assigned`. */
  lemma UpdatedAt(dc: Calculator, xs: seq<AtomicInteraction>, calcWohp: bool, calcWobi: bool, resolveK: bool, idx: nat)
    requires dc.WellFormed() && !Unavailable(dc, calcWohp, calcWobi) && PreparedBatch(dc, xs, calcWohp).Ok?
    requires idx < |Flatten(xs)|
    ensures var updated := ProcessAll(dc, PreparedBatch(dc, xs, calcWohp).value, calcWobi, resolveK);
      && updated.Ok? && idx < |updated.value|
      && Assigned(dc, Flatten(xs)[idx], updated.value[idx], calcWohp, calcWobi, resolveK)
  {
    var batch := PreparedBatch(dc, xs, calcWohp).value;
    BatchAt(dc, xs, calcWohp, idx);
    DosMatrixOrbital(dc, batch[idx], Flatten(xs)[idx], resolveK);
  }

  /** Entry `idx` of the prepared batch is entry `idx` of the flat batch, with `h_ij` looked up when asked for. */
  lemma BatchAt(dc: Calculator, xs: seq<AtomicInteraction>, calcWohp: bool, idx: nat)
    requires (calcWohp ==> dc.h.Some?) && PreparedBatch(dc, xs, calcWohp).Ok? && idx < |Flatten(xs)|
    ensures var b := PreparedBatch(dc, xs, calcWohp).value[idx];
      && SameOrbital(b, Flatten(xs)[idx])
      && (calcWohp ==> HoppingElement(dc.h.value, Flatten(xs)[idx]).Ok? &&
                       b == Flatten(xs)[idx].(hij := Some(HoppingElement(dc.h.value, Flatten(xs)[idx]).value)))
      && (!calcWohp ==> b == Flatten(xs)[idx])
  {
  }

  /** The DOS matrix depends only on the two orbitals and their lattice vectors. */
  lemma DosMatrixOrbital(dc: Calculator, a: WannierInteraction, b: WannierInteraction, resolveK: bool)
    requires SameOrbital(a, b)
    ensures DosMatrix(dc, a, resolveK) == DosMatrix(dc, b, resolveK)
  {
    forall e | 0 <= e < dc.numEnergies
      ensures EnergyTerms(dc, a, e) == EnergyTerms(dc, b, e)
    {
      forall k | 0 <= k < dc.numKpoints
        ensures DosTerms(dc, a, e, k) == DosTerms(dc, b, e, k)
      {
      }
    }
    assert DosMatrix(dc, a, resolveK).rows == DosMatrix(dc, b, resolveK).rows;
  }

  // ---------------------------------------------------------------------
  // assign_descriptors, step by step

  /** The flat batch up to interaction `t` is the one up to `t - 1` followed by interaction `t`'s list. */
  lemma FlattenStep(xs: seq<AtomicInteraction>, t: nat)
    requires t < |xs|
    ensures Flatten(xs[..t + 1]) == Flatten(xs[..t]) + xs[t].wannierInteractions
  {
    assert OrbitalLists(xs[..t + 1])[..t] == OrbitalLists(xs[..t]);
  }

  /** The Wannier interactions met before and at `(t, u)` are a prefix of the flat batch. */
  lemma FlattenPrefix(xs: seq<AtomicInteraction>, t: nat, u: nat)
    requires t < |xs| && u < |xs[t].wannierInteractions|
    ensures |Flatten(xs[..t]) + xs[t].wannierInteractions[..u]| < |Flatten(xs)|
    ensures Flatten(xs)[..|Flatten(xs[..t]) + xs[t].wannierInteractions[..u]| + 1]
              == Flatten(xs[..t]) + xs[t].wannierInteractions[..u] + [xs[t].wannierInteractions[u]]
  {
    var ls := OrbitalLists(xs);
    var ws := xs[t].wannierInteractions;
    assert ls == ls[..t + 1] + ls[t + 1..];
    ConcatAppend(ls[..t + 1], ls[t + 1..]);
    assert OrbitalLists(xs[..t + 1]) == ls[..t + 1];
    FlattenStep(xs, t);
    assert ws == ws[..u] + [ws[u]] + ws[u + 1..];
  }

  /** Once a prefix fails a lookup, the whole list fails with the same error. */
  lemma {:induction false} HoppingsPrefixErr(h: map<Offset, seq<seq<Complex>>>, ws: seq<WannierInteraction>, n: nat)
    requires n <= |ws| && Hoppings(h, ws[..n]).Err?
    ensures Hoppings(h, ws) == Hoppings(h, ws[..n])
    decreases |ws| - n
  {
    if n == |ws| {
      assert ws[..n] == ws;
    } else {
      var prefix := ws[..|ws| - 1];
      assert prefix[..n] == ws[..n];
      HoppingsPrefixErr(h, prefix, n);
    }
  }

  /** A failed lookup at `(t, u)`, after successful ones before it, is the error of the whole batch. */
  lemma BatchFailsAt(h: map<Offset, seq<seq<Complex>>>, xs: seq<AtomicInteraction>, t: nat, u: nat)
    requires t < |xs| && u < |xs[t].wannierInteractions|
    requires Hoppings(h, Flatten(xs[..t]) + xs[t].wannierInteractions[..u]).Ok?
    requires HoppingElement(h, xs[t].wannierInteractions[u]).Err?
    ensures Hoppings(h, Flatten(xs)) == Err(HoppingElement(h, xs[t].wannierInteractions[u]).error)
  {
    var done := Flatten(xs[..t]) + xs[t].wannierInteractions[..u];
    var w := xs[t].wannierInteractions[u];
    FlattenPrefix(xs, t, u);
    FailsAfter(h, Flatten(xs), done, w);
  }

  /** A list that starts with successful lookups followed by a failing one fails with that error. */
  lemma FailsAfter(h: map<Offset, seq<seq<Complex>>>, all: seq<WannierInteraction>, done: seq<WannierInteraction>, w: WannierInteraction)
    requires |done| < |all| && all[..|done| + 1] == done + [w]
    requires Hoppings(h, done).Ok? && HoppingElement(h, w).Err?
    ensures Hoppings(h, all) == Err(HoppingElement(h, w).error)
  {
    HoppingsSnocErr(h, done, w);
    HoppingsPrefixErr(h, all, |done| + 1);
  }

  /** A failing lookup after successful ones is the error of the longer list. */
  lemma HoppingsSnocErr(h: map<Offset, seq<seq<Complex>>>, ws: seq<WannierInteraction>, w: WannierInteraction)
    requires Hoppings(h, ws).Ok? && HoppingElement(h, w).Err?
    ensures Hoppings(h, ws + [w]) == Err(HoppingElement(h, w).error)
  {
    HoppingsSnoc(h, ws, w);
  }

  /** Looking up one more Wannier interaction: the earlier error, its own error, or one more entry. */
  lemma HoppingsSnoc(h: map<Offset, seq<seq<Complex>>>, ws: seq<WannierInteraction>, w: WannierInteraction)
    ensures Hoppings(h, ws + [w]) ==
              if Hoppings(h, ws).Err? then Hoppings(h, ws)
              else if HoppingElement(h, w).Err? then Err(HoppingElement(h, w).error)
              else Ok(Hoppings(h, ws).value + [w.(hij := Some(HoppingElement(h, w).value))])
  {
    assert (ws + [w])[..|ws|] == ws;
  }

  /** The batch made of the Wannier interactions `ws`, with `h_ij` looked up when WOHPs are asked for. */
  function Batched(dc: Calculator, ws: seq<WannierInteraction>, calcWohp: bool): Result<seq<WannierInteraction>>
    requires calcWohp ==> dc.h.Some?
  {
    if calcWohp then Hoppings(dc.h.value, ws) else Ok(ws)
  }

  /** One more Wannier interaction in a batch that has not failed so far. */
  lemma BatchedSnoc(dc: Calculator, done: seq<WannierInteraction>, w: WannierInteraction, calcWohp: bool)
    requires (calcWohp ==> dc.h.Some?) && Batched(dc, done, calcWohp).Ok?
    ensures calcWohp && HoppingElement(dc.h.value, w).Ok? ==>
              Batched(dc, done + [w], calcWohp)
                == Ok(Batched(dc, done, calcWohp).value + [w.(hij := Some(HoppingElement(dc.h.value, w).value))])
    ensures !calcWohp ==> Batched(dc, done + [w], calcWohp) == Ok(Batched(dc, done, calcWohp).value + [w])
  {
    if calcWohp {
      HoppingsSnoc(dc.h.value, done, w);
    }
  }

  /** `hamiltonian[bl_vector][i, j].real`, with the KeyError and IndexError numpy raises. */
  method LookUpHopping(h: map<Offset, seq<seq<Complex>>>, w: WannierInteraction) returns (r: Result<real>)
    ensures r == HoppingElement(h, w)
  {
    var bl := Minus(w.bl2, w.bl1);
    if bl !in h {
      return Err(KeyError);
    }
    if w.i >= |h[bl]| || w.j >= |h[bl][w.i]| {
      return Err(IndexError);
    }
    return Ok(h[bl][w.i][w.j].re);
  }

  /** The first loop of assign_descriptors: look up `h_ij` orbital by orbital, interaction by interaction. */
  method PrepareBatch(dc: Calculator, xs: seq<AtomicInteraction>, calcWohp: bool) returns (r: Result<seq<WannierInteraction>>)
    requires calcWohp ==> dc.h.Some?
    ensures r == PreparedBatch(dc, xs, calcWohp)
  {
    var batch: seq<WannierInteraction> := [];
    for t := 0 to |xs|
      invariant Batched(dc, Flatten(xs[..t]), calcWohp) == Ok(batch)
    {
      ghost var before := Flatten(xs[..t]);
      var ws := xs[t].wannierInteractions;
      assert before + ws[..0] == before;
      for u := 0 to |ws|
        invariant Batched(dc, before + ws[..u], calcWohp) == Ok(batch)
      {
        var w := ws[u];
        ghost var done := before + ws[..u];
        AppendNext(before, ws, u);
        BatchedSnoc(dc, done, w, calcWohp);
        if calcWohp {
          var hij := LookUpHopping(dc.h.value, w);
          if hij.Err? {
            BatchFailsAt(dc.h.value, xs, t, u);
            return Err(hij.error);
          }
          batch := batch + [w.(hij := Some(hij.value))];
        } else {
          batch := batch + [w];
        }
      }
      assert ws[..|ws|] == ws;
      FlattenStep(xs, t);
    }
    assert xs[..|xs|] == xs;
    return Ok(batch);
  }

  /** A failed summation at `t`, after successful ones before it, is the error of the whole list. */
  lemma SumAllStopsAt(ys: seq<AtomicInteraction>, t: nat)
    requires t < |ys| && SumAll(ys[..t]).Ok? && ys[t].WithSummedDescriptors().Err?
    ensures SumAll(ys) == Err(ys[t].WithSummedDescriptors().error)
  {
    assert ys[..t + 1][..t] == ys[..t];
    SumAllPrefixErr(ys, t + 1);
  }

  /** Once a prefix fails to sum, the whole list fails with the same error. */
  lemma {:induction false} SumAllPrefixErr(ys: seq<AtomicInteraction>, n: nat)
    requires n <= |ys| && SumAll(ys[..n]).Err?
    ensures SumAll(ys) == SumAll(ys[..n])
    decreases |ys| - n
  {
    if n == |ys| {
      assert ys[..n] == ys;
    } else {
      var prefix := ys[..|ys| - 1];
      assert prefix[..n] == ys[..n];
      SumAllPrefixErr(prefix, n);
    }
  }

  /** Summing one more interaction appends its summed form. */
  lemma SumAllStep(ys: seq<AtomicInteraction>, t: nat)
    requires t < |ys| && SumAll(ys[..t]).Ok? && ys[t].WithSummedDescriptors().Ok?
    ensures SumAll(ys[..t + 1]) == Ok(SumAll(ys[..t]).value + [ys[t].WithSummedDescriptors().value])
  {
    assert ys[..t + 1][..t] == ys[..t];
  }

  /**
   * assign_descriptors with the summation taken over the interaction that
   * holds its share of the processed batch: check the inputs, build the
   * flat batch, process it, then walk the interactions with a running
   * offset into the processed batch.
   */
  method AssignDescriptors(dc: Calculator, xs: seq<AtomicInteraction>, calcWohp: bool, calcWobi: bool, resolveK: bool)
    returns (r: Result<seq<AtomicInteraction>>)
    requires dc.WellFormed()
    ensures r == AssignSpec(dc, xs, calcWohp, calcWobi, resolveK)
  {
    if calcWohp && dc.h.None? {
      return Err(TypeError);
    }
    if calcWobi && dc.occupation.None? {
      return Err(TypeError);
    }
    var batch :- PrepareBatch(dc, xs, calcWohp);
    var processed := Parallelise(dc, batch, calcWobi, resolveK);
    var updated := processed.value;
    AssignSpecSums(dc, xs, calcWohp, calcWobi, resolveK);
    r := SumShares(xs, updated);
  }

  /**
   * The last loop of assign_descriptors: hand each interaction the slice of
   * the processed batch at its running offset and sum its descriptors; the
   * first failure is raised.
   */
  method SumShares(xs: seq<AtomicInteraction>, updated: seq<WannierInteraction>) returns (r: Result<seq<AtomicInteraction>>)
    requires |updated| == |Flatten(xs)|
    ensures r == SumAll(Redistribute(xs, updated))
  {
    ghost var ys := Redistribute(xs, updated);
    var running := 0;
    var summedAll: seq<AtomicInteraction> := [];
    for t := 0 to |xs|
      invariant running == Start(OrbitalLists(xs), t)
      invariant SumAll(ys[..t]) == Ok(summedAll)
    {
      ShareStep(xs, updated, t, running, summedAll);
      var shared := updated[running..running + |xs[t].wannierInteractions|];
      var intermediate := xs[t].(wannierInteractions := shared);
      var outcome := intermediate.WithSummedDescriptors();
      if outcome.Err? {
        return Err(outcome.error);
      }
      var summed := outcome.value;
      summedAll := summedAll + [summed];
      running := running + |summed.wannierInteractions|;
    }
    assert ys[..|xs|] == ys;
    return Ok(summedAll);
  }

  /** One interaction of `SumShares`: its share starts at the running offset, and summing it extends or ends the sum. */
  lemma ShareStep(xs: seq<AtomicInteraction>, updated: seq<WannierInteraction>, t: nat, running: nat,
                  summedAll: seq<AtomicInteraction>)
    requires |updated| == |Flatten(xs)| && t < |xs|
    requires running == Start(OrbitalLists(xs), t)
    requires SumAll(Redistribute(xs, updated)[..t]) == Ok(summedAll)
    ensures running + |xs[t].wannierInteractions| <= |updated|
    ensures var ys := Redistribute(xs, updated);
            var x := xs[t].(wannierInteractions := updated[running..running + |xs[t].wannierInteractions|]);
            && (x.WithSummedDescriptors().Err? ==> SumAll(ys) == Err(x.WithSummedDescriptors().error))
            && (x.WithSummedDescriptors().Ok? ==>
                  && SumAll(ys[..t + 1]) == Ok(summedAll + [x.WithSummedDescriptors().value])
                  && running + |x.WithSummedDescriptors().value.wannierInteractions| == Start(OrbitalLists(xs), t + 1))
  {
    var ys := Redistribute(xs, updated);
    RedistributeAt(xs, updated, t);
    var x := xs[t].(wannierInteractions := updated[running..running + |xs[t].wannierInteractions|]);
    assert ys[t] == x;
    if x.WithSummedDescriptors().Err? {
      SumAllStopsAt(ys, t);
    } else {
      SumAllStep(ys, t);
      SummedKeepsOrbitals(x);
    }
  }

  /** Summing the descriptors keeps the Wannier interactions. */
  lemma SummedKeepsOrbitals(x: AtomicInteraction)
    requires x.WithSummedDescriptors().Ok?
    ensures x.WithSummedDescriptors().value.wannierInteractions == x.wannierInteractions
  {
    var y := x.WithSummedDescriptors().value;
    assert y.(dosMatrix := x.dosMatrix, wohp := x.wohp, wobi := x.wobi).wannierInteractions == y.wannierInteractions;
  }

  /** Past the input checks and the lookups, assign_descriptors is the sum over the redistributed batch, which succeeds. */
  lemma AssignSpecSums(dc: Calculator, xs: seq<AtomicInteraction>, calcWohp: bool, calcWobi: bool, resolveK: bool)
    requires dc.WellFormed() && !Unavailable(dc, calcWohp, calcWobi) && PreparedBatch(dc, xs, calcWohp).Ok?
    ensures var updated := ProcessAll(dc, PreparedBatch(dc, xs, calcWohp).value, calcWobi, resolveK);
      && updated.Ok?
      && SumAll(Redistribute(xs, updated.value)).Ok?
      && AssignSpec(dc, xs, calcWohp, calcWobi, resolveK) == SumAll(Redistribute(xs, updated.value))
  {
    AssignOutcome(dc, xs, calcWohp, calcWobi, resolveK);
  }

  /** Interaction `t` of the redistributed batch holds the slice starting at its running offset. */
  lemma RedistributeAt(xs: seq<AtomicInteraction>, batch: seq<WannierInteraction>, t: nat)
    requires t < |xs| && |batch| == |Flatten(xs)|
    ensures Start(OrbitalLists(xs), t + 1) == Start(OrbitalLists(xs), t) + |xs[t].wannierInteractions|
    ensures Start(OrbitalLists(xs), t + 1) <= |batch|
    ensures Redistribute(xs, batch)[t]
         == xs[t].(wannierInteractions := batch[Start(OrbitalLists(xs), t)..Start(OrbitalLists(xs), t + 1)])
  {
    ConcatSlice(OrbitalLists(xs), t);
  }

  // ---------------------------------------------------------------------
  // descriptors.py:634 as written

  /** The summed forms of interactions none of whose Wannier interactions has a DOS matrix fail, if at all, with TypeError. */
  lemma {:induction false} SumAllUnprocessed(ys: seq<AtomicInteraction>)
    requires forall t, u :: 0 <= t < |ys| && 0 <= u < |ys[t].wannierInteractions| ==>
               ys[t].wannierInteractions[u].dosMatrix.None?
    ensures SumAll(ys).Ok? <==> forall t :: 0 <= t < |ys| ==> ys[t].wannierInteractions == []
    ensures SumAll(ys).Err? ==> SumAll(ys).error == TypeError
  {
    if ys != [] {
      var prefix := ys[..|ys| - 1];
      SumAllUnprocessed(prefix);
      var last := ys[|ys| - 1];
      if last.wannierInteractions != [] {
        assert last.wannierInteractions[0].dosMatrix.None?;
        assert !AllHaveDos(last.wannierInteractions);
      }
      if forall t :: 0 <= t < |ys| ==> ys[t].wannierInteractions == [] {
        assert forall t :: 0 <= t < |prefix| ==> prefix[t] == ys[t];
      }
    }
  }

  /**
   * As written, assign_descriptors sums the interactions it was given, not
   * the ones holding the processed batch: on freshly identified
   * interactions (no DOS matrices yet), with at least one Wannier
   * interaction, it raises TypeError where the intended algorithm succeeds.
   */
  lemma AssignAsWrittenFails(dc: Calculator, xs: seq<AtomicInteraction>, calcWohp: bool, calcWobi: bool, resolveK: bool)
    requires dc.WellFormed() && !Unavailable(dc, calcWohp, calcWobi)
    requires calcWohp ==> Hoppings(dc.h.value, Flatten(xs)).Ok?
    requires forall t, u :: 0 <= t < |xs| && 0 <= u < |xs[t].wannierInteractions| ==>
               xs[t].wannierInteractions[u].dosMatrix.None?
    requires exists t :: 0 <= t < |xs| && xs[t].wannierInteractions != []
    ensures AssignSpec(dc, xs, calcWohp, calcWobi, resolveK).Ok?
    ensures AssignAsWritten(dc, xs, calcWohp, calcWobi, resolveK) == Err(TypeError)
  {
    AssignOutcome(dc, xs, calcWohp, calcWobi, resolveK);
    SumAllUnprocessed(xs);
  }

  /** The smallest such input: one on-site interaction with one Wannier function. */
  lemma AssignAsWrittenExample(dc: Calculator)
    requires dc.WellFormed()
    ensures var xs := [Unsummed(("C1", "C1"), [Bare(0, 0, Origin, Origin)])];
      AssignSpec(dc, xs, false, false, false).Ok? && AssignAsWritten(dc, xs, false, false, false) == Err(TypeError)
  {
    var xs := [Unsummed(("C1", "C1"), [Bare(0, 0, Origin, Origin)])];
    assert xs[0].wannierInteractions != [];
    AssignAsWrittenFails(dc, xs, false, false, false);
  }

  // ---------------------------------------------------------------------
  // get_pdos

  /**
   * get_pdos: KeyError without the "wannier_centres" site property,
   * ValueError when no site has a requested species; otherwise the on-site
   * interactions of the requested sites (labelled with the calculator's
   * Wannier-function count), with their DOS matrices assigned and summed.
   */
  function Pdos(dc: Calculator, species: seq<string>, centres: Option<seq<seq<nat>>>, symbols: seq<string>, resolveK: bool)
    : (r: Result<seq<AtomicInteraction>>)
    requires dc.WellFormed() && (centres.Some? ==> |centres.value| == |species|)
    ensures centres.None? <==> r == Err(KeyError)
    ensures centres.Some? ==> (r == Err(ValueError) <==> forall s :: s in species ==> s !in symbols)
    ensures centres.Some? && (exists s :: s in species && s in symbols) ==> r.Ok?
  {
    match centres
    case None => Err(KeyError)
    case Some(cs) =>
      PositionsBelow(|species|, MatchesSymbols(species, symbols), |species|);
      var xs := OnsiteFor(species, cs, dc.numWann, MatchingSites(species, symbols));
      NoMatchingSite(species, symbols);
      AssignOutcome(dc, xs, false, false, resolveK);
      if xs == [] then Err(ValueError) else AssignSpec(dc, xs, false, false, resolveK)
  }

  /** get_pdos on a structure, which it does not change. */
  method GetPdos(dc: Calculator, g: Structure, symbols: seq<string>, resolveK: bool) returns (r: Result<seq<AtomicInteraction>>)
    requires dc.WellFormed() && g.Valid()
    ensures r == Pdos(dc, g.species, g.wannierCentres, symbols, resolveK)
  {
    if g.wannierCentres.None? {
      return Err(KeyError);
    }
    var interactions := OnsiteInteractions(g.species, g.wannierCentres.value, symbols, dc.numWann);
    if interactions == [] {
      return Err(ValueError);
    }
    r := AssignDescriptors(dc, interactions, false, false, resolveK);
  }

  /**
   * The pDOS of the `t`-th requested atom: labelled `(label, label)` with
   * the atom's label, one Wannier interaction `(c, c, 0, 0)` per centre `c`
   * of the atom, in order, each carrying its on-site DOS matrix and no
   * `h_ij` or `p_ij`, and a summed DOS matrix, the atom's pDOS.
   */
  lemma PdosAtoms(dc: Calculator, species: seq<string>, centres: seq<seq<nat>>, symbols: seq<string>, resolveK: bool)
    requires dc.WellFormed() && |centres| == |species|
    requires Pdos(dc, species, Some(centres), symbols, resolveK).Ok?
    ensures var r := Pdos(dc, species, Some(centres), symbols, resolveK).value;
            var sites := MatchingSites(species, symbols);
      && Below(sites, |species|)
      && |r| == |sites|
      && forall t :: 0 <= t < |sites| ==>
           && r[t].pairId == (Label(species[sites[t]], sites[t], dc.numWann), Label(species[sites[t]], sites[t], dc.numWann))
           && r[t].dosMatrix.Some?
           && |r[t].wannierInteractions| == |centres[sites[t]]|
           && forall u :: 0 <= u < |centres[sites[t]]| ==>
                var c := centres[sites[t]][u];
                var v := r[t].wannierInteractions[u];
                v.i == c && v.j == c && v.bl1 == Origin && v.bl2 == Origin &&
                v.dosMatrix == Some(DosMatrix(dc, Bare(c, c, Origin, Origin), resolveK)) &&
                v.hij.None? && v.pij.None?
  {
    var sites := MatchingSites(species, symbols);
    PositionsBelow(|species|, MatchesSymbols(species, symbols), |species|);
    var xs := OnsiteFor(species, centres, dc.numWann, sites);
    AssignResult(dc, xs, false, false, resolveK);
  }

  /** The on-site DOS entries `D_cc(e, k)` of the centres `cs`, in order. */
  function OnsiteDosTerms(dc: Calculator, cs: seq<nat>, resolveK: bool, e: nat, k: nat): seq<real>
    requires e < dc.numEnergies && k < DosWidth(dc, resolveK)
  {
    seq(|cs|, u requires 0 <= u < |cs| => DosMatrix(dc, Bare(cs[u], cs[u], Origin, Origin), resolveK).rows[e][k])
  }

  /**
   * The pDOS of an atom with at least one centre is the sum of the pDOS of
   * its Wannier functions: every entry of its DOS matrix is the sum of the
   * on-site DOS entries of its centres.
   */
  lemma PdosSumsOrbitals(dc: Calculator, species: seq<string>, centres: seq<seq<nat>>, symbols: seq<string>,
                         resolveK: bool, t: nat)
    requires dc.WellFormed() && |centres| == |species| && Below(MatchingSites(species, symbols), |species|)
    requires Pdos(dc, species, Some(centres), symbols, resolveK).Ok?
    requires t < |MatchingSites(species, symbols)| && centres[MatchingSites(species, symbols)[t]] != []
    ensures var r := Pdos(dc, species, Some(centres), symbols, resolveK).value;
            var cs := centres[MatchingSites(species, symbols)[t]];
      && t < |r| && r[t].dosMatrix.Some?
      && HasShape(r[t].dosMatrix.value, dc.numEnergies, DosWidth(dc, resolveK))
      && forall e, k :: 0 <= e < dc.numEnergies && 0 <= k < DosWidth(dc, resolveK) ==>
           r[t].dosMatrix.value.rows[e][k] == SumReals(OnsiteDosTerms(dc, cs, resolveK, e, k))
  {
    var sites := MatchingSites(species, symbols);
    var xs := OnsiteFor(species, centres, dc.numWann, sites);
    var r := Pdos(dc, species, Some(centres), symbols, resolveK).value;
    assert r == AssignSpec(dc, xs, false, false, resolveK).value;
    AssignResult(dc, xs, false, false, resolveK);
    var cs := centres[sites[t]];
    var a := xs[t].(wannierInteractions := r[t].wannierInteractions);
    assert xs[t].wannierInteractions == DiagonalOrbitals(cs);
    forall u | 0 <= u < |a.wannierInteractions|
      ensures a.wannierInteractions[u].dosMatrix == Some(DosMatrix(dc, Bare(cs[u], cs[u], Origin, Origin), resolveK))
    {
      assert Assigned(dc, xs[t].wannierInteractions[u], r[t].wannierInteractions[u], false, false, resolveK);
    }
    OnsiteSum(dc, a, cs, resolveK);
  }

  /** Summing Wannier interactions that carry the on-site DOS matrices of `cs` sums those matrices entry by entry. */
  lemma OnsiteSum(dc: Calculator, a: AtomicInteraction, cs: seq<nat>, resolveK: bool)
    requires |a.wannierInteractions| == |cs| > 0
    requires forall u :: 0 <= u < |cs| ==>
               a.wannierInteractions[u].dosMatrix == Some(DosMatrix(dc, Bare(cs[u], cs[u], Origin, Origin), resolveK))
    ensures a.WithSummedDescriptors().Ok? && a.WithSummedDescriptors().value.dosMatrix.Some?
    ensures HasShape(a.WithSummedDescriptors().value.dosMatrix.value, dc.numEnergies, DosWidth(dc, resolveK))
    ensures forall e, k :: 0 <= e < dc.numEnergies && 0 <= k < DosWidth(dc, resolveK) ==>
              a.WithSummedDescriptors().value.dosMatrix.value.rows[e][k] == SumReals(OnsiteDosTerms(dc, cs, resolveK, e, k))
  {
    SummedDosEntries(a, dc.numEnergies, DosWidth(dc, resolveK));
    forall e, k | 0 <= e < dc.numEnergies && 0 <= k < DosWidth(dc, resolveK)
      ensures Entries(DosMatrices(a.wannierInteractions), e, k) == OnsiteDosTerms(dc, cs, resolveK, e, k)
    {
    }
  }

  /** get_pdos as written: the same steps, ending in assign_descriptors as written. */
  function PdosAsWritten(dc: Calculator, species: seq<string>, centres: Option<seq<seq<nat>>>, symbols: seq<string>, resolveK: bool)
    : Result<seq<AtomicInteraction>>
    requires dc.WellFormed() && (centres.Some? ==> |centres.value| == |species|)
  {
    match centres
    case None => Err(KeyError)
    case Some(cs) =>
      PositionsBelow(|species|, MatchesSymbols(species, symbols), |species|);
      var xs := OnsiteFor(species, cs, dc.numWann, MatchingSites(species, symbols));
      if xs == [] then Err(ValueError) else AssignAsWritten(dc, xs, false, false, resolveK)
  }

  /**
   * As written, get_pdos raises TypeError as soon as one requested site has
   * a Wannier centre, where the intended get_pdos succeeds.
   */
  lemma PdosAsWrittenFails(dc: Calculator, species: seq<string>, centres: seq<seq<nat>>, symbols: seq<string>,
                           resolveK: bool, t: nat)
    requires dc.WellFormed() && |centres| == |species| && Below(MatchingSites(species, symbols), |species|)
    requires t < |MatchingSites(species, symbols)| && centres[MatchingSites(species, symbols)[t]] != []
    ensures Pdos(dc, species, Some(centres), symbols, resolveK).Ok?
    ensures PdosAsWritten(dc, species, Some(centres), symbols, resolveK) == Err(TypeError)
  {
    var sites := MatchingSites(species, symbols);
    PositionsBelow(|species|, MatchesSymbols(species, symbols), |species|);
    var xs := OnsiteFor(species, centres, dc.numWann, sites);
    assert xs[t].wannierInteractions == DiagonalOrbitals(centres[sites[t]]);
    assert xs[t].wannierInteractions != [];
    forall a, u | 0 <= a < |xs| && 0 <= u < |xs[a].wannierInteractions|
      ensures xs[a].wannierInteractions[u].dosMatrix.None?
    {
      assert xs[a].wannierInteractions == DiagonalOrbitals(centres[sites[a]]);
    }
    AssignAsWrittenFails(dc, xs, false, false, resolveK);
  }

  // ---------------------------------------------------------------------
  // get_density_of_energy

  /** The interaction `("D1", "D1")` holding the diagonal terms `(i, i, 0, 0)` for every Wannier function. */
  function Diagonal(numWann: nat): (d: AtomicInteraction)
    ensures |d.wannierInteractions| == numWann
  {
    Unsummed(("D1", "D1"), seq(numWann, i requires 0 <= i < numWann => Bare(i, i, Origin, Origin)))
  }

  /** Some interaction has no WOHP yet. */
  predicate MissingWohp(xs: seq<AtomicInteraction>) {
    exists t :: 0 <= t < |xs| && xs[t].wohp.None?
  }

  /** The WOHP of every interaction, in order. */
  function AtomicWohps(xs: seq<AtomicInteraction>): seq<Option<Array>> {
    seq(|xs|, t requires 0 <= t < |xs| => xs[t].wohp)
  }

  /**
   * get_density_of_energy: TypeError when an interaction has no WOHP;
   * otherwise the diagonal interaction gets its WOHP from
   * assign_descriptors (k-summed, no WOBI), whose errors are raised, and
   * the DOE is the sum of every WOHP, the diagonal one last.
   */
  function DensityOfEnergy(dc: Calculator, xs: seq<AtomicInteraction>): (r: Result<Array>)
    requires dc.WellFormed()
    ensures MissingWohp(xs) ==> r == Err(TypeError)
    ensures !MissingWohp(xs) && dc.h.None? ==> r == Err(TypeError)
  {
    if MissingWohp(xs) then
      Err(TypeError)
    else
      var diagonal :- AssignSpec(dc, [Diagonal(dc.numWann)], true, false, false);
      PySum(AtomicWohps(xs) + AtomicWohps(diagonal))
  }

  /** get_density_of_energy: the WOHP check loop, then the diagonal terms and the sum. */
  method GetDensityOfEnergy(dc: Calculator, xs: seq<AtomicInteraction>) returns (r: Result<Array>)
    requires dc.WellFormed()
    ensures r == DensityOfEnergy(dc, xs)
  {
    for t := 0 to |xs|
      invariant forall u :: 0 <= u < t ==> xs[u].wohp.Some?
    {
      if xs[t].wohp.None? {
        return Err(TypeError);
      }
    }
    var diagonal :- AssignDescriptors(dc, [Diagonal(dc.numWann)], true, false, false);
    r := PySum(AtomicWohps(xs) + AtomicWohps(diagonal));
  }

  /**
   * With every WOHP present and a Hamiltonian, the DOE fails on a diagonal
   * term exactly when looking up some `h_ii` on the zero lattice vector
   * does, with KeyError or IndexError.
   */
  lemma DoeLookupFails(dc: Calculator, xs: seq<AtomicInteraction>)
    requires dc.WellFormed() && !MissingWohp(xs) && dc.h.Some?
    requires exists i :: 0 <= i < dc.numWann && HoppingElement(dc.h.value, Bare(i, i, Origin, Origin)).Err?
    ensures DensityOfEnergy(dc, xs).Err?
    ensures DensityOfEnergy(dc, xs).error == KeyError || DensityOfEnergy(dc, xs).error == IndexError
  {
    var d := Diagonal(dc.numWann);
    DiagonalBatch(dc.numWann);
    var i :| 0 <= i < dc.numWann && HoppingElement(dc.h.value, Bare(i, i, Origin, Origin)).Err?;
    assert d.wannierInteractions[i] == Bare(i, i, Origin, Origin);
    assert !Hoppings(dc.h.value, Flatten([d])).Ok?;
    AssignLookupFails(dc, [d], false, false);
  }

  /** The flat batch of the diagonal interaction alone is its own list. */
  lemma DiagonalBatch(numWann: nat)
    ensures Flatten([Diagonal(numWann)]) == Diagonal(numWann).wannierInteractions
  {
    var ls := OrbitalLists([Diagonal(numWann)]);
    assert ls == [Diagonal(numWann).wannierInteractions];
    assert ls[..|ls| - 1] == [];
    assert Concat(ls) == Concat(ls[..|ls| - 1]) + ls[|ls| - 1];
  }

  /** A failed `h_ij` lookup is the error of assign_descriptors, and is KeyError or IndexError. */
  lemma AssignLookupFails(dc: Calculator, xs: seq<AtomicInteraction>, calcWobi: bool, resolveK: bool)
    requires dc.WellFormed() && !Unavailable(dc, true, calcWobi) && Hoppings(dc.h.value, Flatten(xs)).Err?
    ensures AssignSpec(dc, xs, true, calcWobi, resolveK) == Err(Hoppings(dc.h.value, Flatten(xs)).error)
    ensures Hoppings(dc.h.value, Flatten(xs)).error == KeyError || Hoppings(dc.h.value, Flatten(xs)).error == IndexError
  {
  }

  /** Every `h_ii` can be looked up on the zero lattice vector. */
  predicate DiagonalAvailable(dc: Calculator) {
    dc.h.Some? && forall i :: 0 <= i < dc.numWann ==> HoppingElement(dc.h.value, Bare(i, i, Origin, Origin)).Ok?
  }

  /** The on-site WOHP terms `-h_ii * D_ii(e)` of the k-summed DOS, one per Wannier function. */
  function DiagonalTerms(dc: Calculator, e: nat): seq<real>
    requires DiagonalAvailable(dc) && e < dc.numEnergies
  {
    seq(dc.numWann, i requires 0 <= i < dc.numWann =>
      Times(-HoppingElement(dc.h.value, Bare(i, i, Origin, Origin)).value,
            DosMatrix(dc, Bare(i, i, Origin, Origin), false).rows[e][0]))
  }

  /**
   * The diagonal interaction's WOHP: assign_descriptors succeeds on it and
   * its summed WOHP is, at every energy, the sum of the on-site terms
   * `-h_ii * D_ii(e)`.
   */
  lemma DiagonalWohp(dc: Calculator)
    requires dc.WellFormed() && DiagonalAvailable(dc) && dc.numWann > 0
    ensures var r := AssignSpec(dc, [Diagonal(dc.numWann)], true, false, false);
      && r.Ok? && |r.value| == 1 && r.value[0].wohp.Some?
      && HasShape(r.value[0].wohp.value, dc.numEnergies, 1)
      && forall e :: 0 <= e < dc.numEnergies ==> r.value[0].wohp.value.rows[e][0] == SumReals(DiagonalTerms(dc, e))
  {
    var d := Diagonal(dc.numWann);
    DiagonalBatch(dc.numWann);
    assert forall t :: 0 <= t < dc.numWann ==> d.wannierInteractions[t] == Bare(t, t, Origin, Origin);
    AssignOutcome(dc, [d], true, false, false);
    AssignResult(dc, [d], true, false, false);
    var r := AssignSpec(dc, [d], true, false, false).value;
    var a := d.(wannierInteractions := r[0].wannierInteractions);
    forall u | 0 <= u < dc.numWann
      ensures a.wannierInteractions[u].dosMatrix == Some(DosMatrix(dc, Bare(u, u, Origin, Origin), false))
      ensures a.wannierInteractions[u].hij == Some(HoppingElement(dc.h.value, Bare(u, u, Origin, Origin)).value)
    {
      assert Assigned(dc, d.wannierInteractions[u], r[0].wannierInteractions[u], true, false, false);
    }
    DiagonalSum(dc, a);
  }

  /** Summing the processed diagonal terms gives the on-site WOHP sums. */
  lemma DiagonalSum(dc: Calculator, a: AtomicInteraction)
    requires DiagonalAvailable(dc) && |a.wannierInteractions| == dc.numWann > 0
    requires forall u :: 0 <= u < dc.numWann ==>
               && a.wannierInteractions[u].dosMatrix == Some(DosMatrix(dc, Bare(u, u, Origin, Origin), false))
               && a.wannierInteractions[u].hij == Some(HoppingElement(dc.h.value, Bare(u, u, Origin, Origin)).value)
    ensures a.WithSummedDescriptors().Ok? && a.WithSummedDescriptors().value.wohp.Some?
    ensures HasShape(a.WithSummedDescriptors().value.wohp.value, dc.numEnergies, 1)
    ensures forall e :: 0 <= e < dc.numEnergies ==>
              a.WithSummedDescriptors().value.wohp.value.rows[e][0] == SumReals(DiagonalTerms(dc, e))
  {
    var ws := a.wannierInteractions;
    assert DosShaped(ws, dc.numEnergies, 1) by {
      forall u | 0 <= u < dc.numWann
        ensures HasShape(ws[u].dosMatrix.value, dc.numEnergies, 1)
      {
        assert DosWidth(dc, false) == 1;
      }
    }
    SummedWohpEntries(a, dc.numEnergies, 1);
    forall e | 0 <= e < dc.numEnergies
      ensures HoppingTerms(ws, e, 0) == DiagonalTerms(dc, e)
    {
      DiagonalTermsAt(dc, ws, e);
    }
  }

  /** At one energy, the WOHP terms of the diagonal interaction are the on-site terms. */
  lemma DiagonalTermsAt(dc: Calculator, ws: seq<WannierInteraction>, e: nat)
    requires DiagonalAvailable(dc) && |ws| == dc.numWann && e < dc.numEnergies
    requires DosShaped(ws, dc.numEnergies, 1)
    requires forall u :: 0 <= u < dc.numWann ==>
               && ws[u].dosMatrix == Some(DosMatrix(dc, Bare(u, u, Origin, Origin), false))
               && ws[u].hij == Some(HoppingElement(dc.h.value, Bare(u, u, Origin, Origin)).value)
    ensures HoppingTerms(ws, e, 0) == DiagonalTerms(dc, e)
  {
    forall u | 0 <= u < dc.numWann
      ensures HoppingTerms(ws, e, 0)[u] == DiagonalTerms(dc, e)[u]
    {
    }
  }

  /** The k-summed WOHP of every interaction at energy `e` (0 where there is none). */
  function WohpsAt(xs: seq<AtomicInteraction>, e: nat): seq<real> {
    seq(|xs|, t requires 0 <= t < |xs| =>
      if xs[t].wohp.Some? && xs[t].wohp.value.Grid? && e < |xs[t].wohp.value.rows| && |xs[t].wohp.value.rows[e]| > 0
      then xs[t].wohp.value.rows[e][0] else 0.0)
  }

  /**
   * With every WOHP k-summed and every `h_ii` available, the DOE exists and
   * is, at every energy, the sum of the interactions' WOHPs plus the sum of
   * the on-site terms `-h_ii * D_ii(e)`.
   */
  lemma DoeEntries(dc: Calculator, xs: seq<AtomicInteraction>)
    requires dc.WellFormed() && DiagonalAvailable(dc) && dc.numWann > 0
    requires forall t :: 0 <= t < |xs| ==> xs[t].wohp.Some? && HasShape(xs[t].wohp.value, dc.numEnergies, 1)
    ensures DensityOfEnergy(dc, xs).Ok?
    ensures HasShape(DensityOfEnergy(dc, xs).value, dc.numEnergies, 1)
    ensures forall e :: 0 <= e < dc.numEnergies ==>
              DensityOfEnergy(dc, xs).value.rows[e][0] == SumReals(WohpsAt(xs, e)) + SumReals(DiagonalTerms(dc, e))
  {
    DiagonalWohp(dc);
    var r := AssignSpec(dc, [Diagonal(dc.numWann)], true, false, false).value;
    var all := AtomicWohps(xs) + AtomicWohps(r);
    assert AtomicWohps(r) == [r[0].wohp];
    assert !MissingWohp(xs);
    assert DensityOfEnergy(dc, xs) == PySum(all);
    PySumEntries(all, dc.numEnergies, 1);
    forall e | 0 <= e < dc.numEnergies
      ensures PySum(all).value.rows[e][0] == SumReals(WohpsAt(xs, e)) + SumReals(DiagonalTerms(dc, e))
    {
      EntriesSplit(xs, r[0], all, dc.numEnergies, e);
    }
  }

  /** The entries of the DOE sum at energy `e`: those of the interactions, then the diagonal one. */
  lemma EntriesSplit(xs: seq<AtomicInteraction>, d: AtomicInteraction, all: seq<Option<Array>>, nE: nat, e: nat)
    requires e < nE && d.wohp.Some? && HasShape(d.wohp.value, nE, 1)
    requires forall t :: 0 <= t < |xs| ==> xs[t].wohp.Some? && HasShape(xs[t].wohp.value, nE, 1)
    requires all == AtomicWohps(xs) + [d.wohp]
    ensures forall t :: 0 <= t < |all| ==> all[t].Some? && HasShape(all[t].value, nE, 1)
    ensures forall t :: 0 <= t < |all| ==>
              all[t].Some? && all[t].value.Grid? && e < |all[t].value.rows| && |all[t].value.rows[e]| == 1
    ensures |d.wohp.value.rows[e]| == 1
    ensures SumReals(Entries(all, e, 0)) == SumReals(WohpsAt(xs, e)) + d.wohp.value.rows[e][0]
  {
    assert |d.wohp.value.rows[e]| == 1;
    assert forall t :: 0 <= t < |xs| ==> |xs[t].wohp.value.rows[e]| == 1;
    assert Entries(all, e, 0) == WohpsAt(xs, e) + [d.wohp.value.rows[e][0]];
    SumRealsAppend(WohpsAt(xs, e), [d.wohp.value.rows[e][0]]);
  }

  /** get_density_of_energy as written: the same steps, with assign_descriptors as written. */
  function DensityOfEnergyAsWritten(dc: Calculator, xs: seq<AtomicInteraction>): Result<Array>
    requires dc.WellFormed()
  {
    if MissingWohp(xs) then
      Err(TypeError)
    else
      var diagonal :- AssignAsWritten(dc, [Diagonal(dc.numWann)], true, false, false);
      PySum(AtomicWohps(xs) + AtomicWohps(diagonal))
  }

  /**
   * As written, get_density_of_energy raises TypeError whenever there is a
   * Wannier function and every `h_ii` lookup succeeds, where the intended
   * version assigns the diagonal WOHP.
   */
  lemma DoeAsWrittenFails(dc: Calculator, xs: seq<AtomicInteraction>)
    requires dc.WellFormed() && !MissingWohp(xs) && DiagonalAvailable(dc) && dc.numWann > 0
    ensures AssignSpec(dc, [Diagonal(dc.numWann)], true, false, false).Ok?
    ensures DensityOfEnergyAsWritten(dc, xs) == Err(TypeError)
  {
    var xs := [Diagonal(dc.numWann)];
    DiagonalLookups(dc);
    DiagonalUnprocessed(dc.numWann);
    assert xs[0].wannierInteractions != [];
    AssignAsWrittenFails(dc, xs, true, false, false);
  }

  /** Every `h_ii` lookup succeeding is every lookup of the diagonal batch succeeding. */
  lemma DiagonalLookups(dc: Calculator)
    requires DiagonalAvailable(dc)
    ensures Hoppings(dc.h.value, Flatten([Diagonal(dc.numWann)])).Ok?
  {
    var ws := Diagonal(dc.numWann).wannierInteractions;
    DiagonalBatch(dc.numWann);
    forall t | 0 <= t < |ws|
      ensures HoppingElement(dc.h.value, ws[t]).Ok?
    {
      assert ws[t] == Bare(t, t, Origin, Origin);
    }
  }

  /** The diagonal interaction's Wannier interactions carry no DOS matrix yet. */
  lemma DiagonalUnprocessed(numWann: nat)
    ensures var xs := [Diagonal(numWann)];
      forall t, u :: 0 <= t < |xs| && 0 <= u < |xs[t].wannierInteractions| ==> xs[t].wannierInteractions[u].dosMatrix.None?
  {
  }

  // ---------------------------------------------------------------------
  // get_bwdf

  /** The species pair of a bond, `(symbol_i, symbol_j)`. */
  type Bond = (string, string)

  /** The distance bins: `count` bins of width `width` from `start`. */
  datatype Bins = Bins(start: real, width: real, count: nat)
  {
    /** Boundary `k` of the bins, `r_min + k * dr` (`np.linspace`). */
    function Boundary(k: nat): real {
      start + k as real * width
    }

    /** Bin `k` holds the distances `d` with `b_k <= d < b_{k+1}`. */
    predicate InBin(k: nat, d: real) {
      Boundary(k) <= d < Boundary(k + 1)
    }

    /** The first bin from `k` on that holds `d`. */
    function BinFrom(k: nat, d: real): (r: Option<nat>)
      ensures r.Some? ==> k <= r.value < count && InBin(r.value, d)
      ensures r.Some? ==> forall b :: k <= b < r.value ==> !InBin(b, d)
      ensures r.None? ==> forall b :: k <= b < count ==> !InBin(b, d)
      decreases count - k
    {
      if k >= count then None
      else if InBin(k, d) then Some(k)
      else BinFrom(k + 1, d)
    }

    /** The bin centres `b_k + dr / 2`, that is `r_min + (k + 1/2) dr`. */
    function Centres(): (r: seq<real>)
      ensures |r| == count
      ensures forall k :: 0 <= k < count ==> r[k] == start + (k as real + 0.5) * width
    {
      var r := seq(count, k requires 0 <= k < count => Boundary(k) + width / 2.0);
      assert forall k :: 0 <= k < count ==> r[k] == start + (k as real + 0.5) * width;
      r
    }

    /** The bin the loop over `zip(range(len(r)), intervals[:-1], intervals[1:])` stops at, if any. */
    function BinOf(d: real): (r: Option<nat>)
      ensures r.Some? ==> r.value < count && InBin(r.value, d)
      ensures r.None? ==> forall b :: 0 <= b < count ==> !InBin(b, d)
    {
      BinFrom(0, d)
    }
  }

  /** What one interaction contributes: its bond, the distance between its atoms and its IWOHP. */
  datatype Sample = Sample(bond: Bond, distance: real, weight: seq<real>)

  /** The bonds met so far, in order of first appearance, and one histogram per bond. */
  datatype Histogram = Histogram(bonds: seq<Bond>, values: map<Bond, seq<real>>)

  /** `np.zeros(n)`. */
  function Zeros(n: nat): (r: seq<real>)
    ensures |r| == n && forall k :: 0 <= k < n ==> r[k] == 0.0
  {
    seq(n, k requires 0 <= k < n => 0.0)
  }

  /** The bonds listed are exactly the keys of the histograms, each with one entry per bin. */
  ghost predicate WellShaped(h: Histogram, count: nat) {
    && (forall b :: b in h.values <==> b in h.bonds)
    && (forall b :: b in h.values ==> |h.values[b]| == count)
  }

  /**
   * The checks and look-ups of one pass of the loop: TypeError without an
   * IWOHP, the errors of parse_id on either label, IndexError for a site
   * index outside the distance matrix; the atom indices are recovered as
   * `i + num_wann - 1`.
   */
  function SampleOf(numWann: nat, n: nat, distance: (nat, nat) -> real, x: AtomicInteraction): (r: Result<Sample>)
    ensures x.iwohp.None? ==> r == Err(TypeError)
    ensures r.Ok? ==> r.value.weight == x.iwohp.value
  {
    if x.iwohp.None? then
      Err(TypeError)
    else
      var idI :- ParseId(x.pairId.0);
      var idJ :- ParseId(x.pairId.1);
      var a :- PyIndex(idI.1 + numWann - 1, n);
      var b :- PyIndex(idJ.1 + numWann - 1, n);
      Ok(Sample((idI.0, idJ.0), distance(a, b), x.iwohp.value))
  }

  /**
   * Record one sample: start a zero histogram for a bond seen for the first
   * time, then add the IWOHP to the bin holding the distance, if any;
   * numpy raises ValueError when that IWOHP is not a single number.
   */
  function AddSample(bins: Bins, h: Histogram, s: Sample): (r: Result<Histogram>)
    requires WellShaped(h, bins.count)
    ensures r.Ok? ==> WellShaped(r.value, bins.count)
    ensures r.Err? <==> bins.BinOf(s.distance).Some? && |s.weight| != 1
    ensures r.Err? ==> r.error == ValueError
  {
    var h1 := if s.bond in h.bonds then h else Histogram(h.bonds + [s.bond], h.values[s.bond := Zeros(bins.count)]);
    match bins.BinOf(s.distance)
    case None => Ok(h1)
    case Some(k) =>
      if |s.weight| != 1 then
        Err(ValueError)
      else
        var row := h1.values[s.bond];
        Ok(Histogram(h1.bonds, h1.values[s.bond := row[k := row[k] + s.weight[0]]]))
  }

  /** One pass of the loop over the interactions. */
  function BwdfStep(numWann: nat, n: nat, distance: (nat, nat) -> real, bins: Bins, h: Histogram, x: AtomicInteraction)
    : (r: Result<Histogram>)
    requires WellShaped(h, bins.count)
    ensures r.Ok? ==> WellShaped(r.value, bins.count)
  {
    var s :- SampleOf(numWann, n, distance, x);
    AddSample(bins, h, s)
  }

  /** The loop over the interactions, from empty histograms; the first failure is raised. */
  function Accumulate(numWann: nat, n: nat, distance: (nat, nat) -> real, bins: Bins, xs: seq<AtomicInteraction>)
    : (r: Result<Histogram>)
    ensures r.Ok? ==> WellShaped(r.value, bins.count)
  {
    if xs == [] then
      Ok(Histogram([], map[]))
    else
      var h :- Accumulate(numWann, n, distance, bins, xs[..|xs| - 1]);
      BwdfStep(numWann, n, distance, bins, h, xs[|xs| - 1])
  }

  /**
   * get_bwdf. `np.linspace` refuses a negative sample count, so `nbins <= -2`
   * raises ValueError. With `nbins == -1` there are no boundaries and no
   * centres: the first interaction still goes through the checks and
   * look-ups of the loop, then `np.zeros(-1)` for its bond, which is new,
   * raises ValueError. With `nbins == 0` the bin width `dr` divides by zero.
   * Otherwise the bin centres `r_min + (k + 1/2) dr` and the histograms of
   * every bond.
   */
  function BondWeightedDistribution(numWann: nat, species: seq<string>, distance: (nat, nat) -> real,
                                    xs: seq<AtomicInteraction>, rMin: real, rMax: real, nbins: int)
    : (r: Result<(seq<real>, Histogram)>)
    ensures nbins <= -2 ==> r == Err(ValueError)
    ensures nbins == -1 ==> (r.Ok? <==> xs == [])
    ensures nbins == -1 && xs != [] && SampleOf(numWann, |species|, distance, xs[0]).Err? ==>
              r == Err(SampleOf(numWann, |species|, distance, xs[0]).error)
    ensures nbins == -1 && xs != [] && SampleOf(numWann, |species|, distance, xs[0]).Ok? ==> r == Err(ValueError)
    ensures nbins == 0 ==> r == Err(ZeroDivisionError)
    ensures nbins > 0 ==>
              (r.Ok? <==> Accumulate(numWann, |species|, distance, Bins(rMin, (rMax - rMin) / nbins as real, nbins as nat), xs).Ok?)
    ensures r.Ok? ==> nbins == -1 || nbins > 0
    ensures r.Ok? && nbins == -1 ==> r.value == ([], Histogram([], map[]))
    ensures r.Ok? && nbins > 0 ==> |r.value.0| == nbins && WellShaped(r.value.1, nbins as nat)
    ensures r.Ok? && nbins > 0 ==> forall k :: 0 <= k < nbins ==>
              r.value.0[k] == rMin + (k as real + 0.5) * ((rMax - rMin) / nbins as real)
  {
    if nbins <= -2 then
      Err(ValueError)
    else if nbins == -1 then
      if xs == [] then
        Ok(([], Histogram([], map[])))
      else
        var _ :- SampleOf(numWann, |species|, distance, xs[0]);
        Err(ValueError)
    else if nbins == 0 then
      Err(ZeroDivisionError)
    else
      Binned(numWann, species, distance, xs, rMin, rMax, nbins)
  }

  /** get_bwdf with at least one bin: the bin centres, then the loop over the interactions. */
  function Binned(numWann: nat, species: seq<string>, distance: (nat, nat) -> real,
                  xs: seq<AtomicInteraction>, rMin: real, rMax: real, nbins: nat)
    : (r: Result<(seq<real>, Histogram)>)
    requires nbins > 0
    ensures r.Ok? <==> Accumulate(numWann, |species|, distance, Bins(rMin, (rMax - rMin) / nbins as real, nbins), xs).Ok?
    ensures r.Ok? ==> |r.value.0| == nbins && WellShaped(r.value.1, nbins)
    ensures r.Ok? ==> forall k :: 0 <= k < nbins ==>
              r.value.0[k] == rMin + (k as real + 0.5) * ((rMax - rMin) / nbins as real)
  {
    var dr := (rMax - rMin) / nbins as real;
    var bins := Bins(rMin, dr, nbins);
    var centres := bins.Centres();
    assert forall k :: 0 <= k < nbins ==> centres[k] == rMin + (k as real + 0.5) * dr;
    var h :- Accumulate(numWann, |species|, distance, bins, xs);
    assert WellShaped(h, nbins);
    Ok((centres, h))
  }

  /** Once `d` lies between boundary `k` and the last boundary, some bin from `k` on holds it. */
  lemma {:induction false} BinFromFinds(bins: Bins, k: nat, d: real)
    requires bins.width > 0.0
    requires bins.Boundary(k) <= d < bins.Boundary(bins.count)
    ensures bins.BinFrom(k, d).Some?
    decreases bins.count - k
  {
    if !bins.InBin(k, d) {
      BinFromFinds(bins, k + 1, d);
    }
  }

  /** The boundaries of bins of positive width increase. */
  lemma BoundaryMonotone(bins: Bins, a: nat, b: nat)
    requires bins.width > 0.0 && a <= b
    ensures bins.Boundary(a) <= bins.Boundary(b)
  {
    assert b as real * bins.width == a as real * bins.width + (b - a) as real * bins.width;
  }

  /**
   * For bins of positive width, a distance is counted exactly when it lies in
   * `[r_min, r_max)`, and then in exactly one bin.
   */
  lemma BinOfExact(bins: Bins, d: real)
    requires bins.width > 0.0
    ensures bins.BinOf(d).Some? <==> bins.start <= d < bins.Boundary(bins.count)
    ensures forall k: nat :: k < bins.count && bins.InBin(k, d) ==> bins.BinOf(d) == Some(k)
  {
    if bins.start <= d < bins.Boundary(bins.count) {
      assert bins.Boundary(0) == bins.start;
      BinFromFinds(bins, 0, d);
    }
    match bins.BinOf(d)
    case None =>
    case Some(j) =>
      BoundaryMonotone(bins, 0, j);
      BoundaryMonotone(bins, j + 1, bins.count);
      forall k: nat | k < bins.count && bins.InBin(k, d)
        ensures bins.BinOf(d) == Some(k)
      {
        if j < k {
          BoundaryMonotone(bins, j + 1, k);
        }
      }
  }

  /** The bins of get_bwdf end at `r_max`: `r_min + nbins * (r_max - r_min) / nbins`. */
  lemma LastBoundary(rMin: real, rMax: real, nbins: nat)
    requires nbins > 0
    ensures Bins(rMin, (rMax - rMin) / nbins as real, nbins).Boundary(nbins) == rMax
  {
  }

  /** The bond an interaction is recorded under, when its checks and look-ups succeed. */
  function BondAt(numWann: nat, n: nat, distance: (nat, nat) -> real, x: AtomicInteraction): (r: Option<Bond>)
    ensures r.Some? <==> SampleOf(numWann, n, distance, x).Ok?
  {
    match SampleOf(numWann, n, distance, x)
    case Ok(s) => Some(s.bond)
    case Err(_) => None
  }

  /** What interaction `x` adds to bin `k` of the histogram of bond `b`. */
  function Contribution(numWann: nat, n: nat, distance: (nat, nat) -> real, bins: Bins, x: AtomicInteraction, b: Bond, k: nat)
    : (r: real)
    ensures BondAt(numWann, n, distance, x) != Some(b) ==> r == 0.0
  {
    match SampleOf(numWann, n, distance, x)
    case Ok(s) =>
      if s.bond == b && bins.BinOf(s.distance) == Some(k) && |s.weight| == 1 then s.weight[0] else 0.0
    case Err(_) => 0.0
  }

  /** The contributions of every interaction to bin `k` of bond `b`, in order. */
  function Weights(numWann: nat, n: nat, distance: (nat, nat) -> real, bins: Bins, xs: seq<AtomicInteraction>, b: Bond, k: nat)
    : (r: seq<real>)
    ensures |r| == |xs|
  {
    seq(|xs|, t requires 0 <= t < |xs| => Contribution(numWann, n, distance, bins, xs[t], b, k))
  }

  predicate NoDuplicates<T(==)>(s: seq<T>) {
    forall a, b :: 0 <= a < b < |s| ==> s[a] != s[b]
  }

  /**
   * What the BWDF histograms mean: every interaction passed its checks; the
   * bonds are listed once each and are exactly the bonds of the
   * interactions; bin `k` of bond `b` is the sum of the IWOHPs of the
   * interactions of bond `b` whose distance falls in bin `k`.
   */
  ghost predicate Summarises(numWann: nat, n: nat, distance: (nat, nat) -> real, bins: Bins,
                             xs: seq<AtomicInteraction>, h: Histogram)
  {
    && NoDuplicates(h.bonds)
    && (forall t :: 0 <= t < |xs| ==> SampleOf(numWann, n, distance, xs[t]).Ok?)
    && BondsSeen(numWann, n, distance, xs, h)
    && BinsSum(numWann, n, distance, bins, xs, h)
  }

  /** The histograms are kept for exactly the bonds of the interactions. */
  ghost predicate BondsSeen(numWann: nat, n: nat, distance: (nat, nat) -> real, xs: seq<AtomicInteraction>, h: Histogram) {
    forall b :: b in h.values <==> exists t :: 0 <= t < |xs| && BondAt(numWann, n, distance, xs[t]) == Some(b)
  }

  /** Every bin holds the summed contributions to it. */
  ghost predicate BinsSum(numWann: nat, n: nat, distance: (nat, nat) -> real, bins: Bins, xs: seq<AtomicInteraction>, h: Histogram) {
    && WellShaped(h, bins.count)
    && forall b, k: nat :: b in h.values && k < bins.count ==>
         h.values[b][k] == SumReals(Weights(numWann, n, distance, bins, xs, b, k))
  }

  lemma WeightsSnoc(numWann: nat, n: nat, distance: (nat, nat) -> real, bins: Bins,
                    ys: seq<AtomicInteraction>, x: AtomicInteraction, b: Bond, k: nat)
    ensures SumReals(Weights(numWann, n, distance, bins, ys + [x], b, k))
         == SumReals(Weights(numWann, n, distance, bins, ys, b, k)) + Contribution(numWann, n, distance, bins, x, b, k)
  {
    var w := Weights(numWann, n, distance, bins, ys + [x], b, k);
    assert w[..|ys|] == Weights(numWann, n, distance, bins, ys, b, k);
  }

  /** A bond no interaction has contributes nothing. */
  lemma WeightsAbsent(numWann: nat, n: nat, distance: (nat, nat) -> real, bins: Bins,
                      ys: seq<AtomicInteraction>, b: Bond, k: nat)
    requires forall t :: 0 <= t < |ys| ==> BondAt(numWann, n, distance, ys[t]) != Some(b)
    ensures SumReals(Weights(numWann, n, distance, bins, ys, b, k)) == 0.0
  {
    var w := Weights(numWann, n, distance, bins, ys, b, k);
    SumRealsScale(0.0, w, w);
  }

  /** One pass of the loop keeps the histograms summarising the interactions seen so far. */
  lemma AccumulateStep(numWann: nat, n: nat, distance: (nat, nat) -> real, bins: Bins,
                       xs: seq<AtomicInteraction>, h: Histogram, h2: Histogram)
    requires xs != [] && Summarises(numWann, n, distance, bins, xs[..|xs| - 1], h)
    requires BwdfStep(numWann, n, distance, bins, h, xs[|xs| - 1]) == Ok(h2)
    ensures Summarises(numWann, n, distance, bins, xs, h2)
  {
    var ys, x := xs[..|xs| - 1], xs[|xs| - 1];
    assert ys + [x] == xs;
    assert SampleOf(numWann, n, distance, x).Ok?;
    assert forall t :: 0 <= t < |xs| ==> xs[t] == if t < |ys| then ys[t] else x;
    StepListed(numWann, n, distance, bins, h, x, h2);
    StepBonds(numWann, n, distance, bins, ys, h, x, h2);
    StepSums(numWann, n, distance, bins, ys, h, x, h2);
  }

  /** A pass of the loop lists the interaction's bond at the end when it is new, so each bond stays listed once. */
  lemma StepListed(numWann: nat, n: nat, distance: (nat, nat) -> real, bins: Bins, h: Histogram, x: AtomicInteraction, h2: Histogram)
    requires WellShaped(h, bins.count) && NoDuplicates(h.bonds)
    requires BwdfStep(numWann, n, distance, bins, h, x) == Ok(h2)
    ensures NoDuplicates(h2.bonds)
  {
    var s := SampleOf(numWann, n, distance, x).value;
    assert AddSample(bins, h, s) == Ok(h2);
    assert h2.bonds == if s.bond in h.bonds then h.bonds else h.bonds + [s.bond];
  }

  /** A pass of the loop adds the interaction's bond, if new, and no other. */
  lemma StepBonds(numWann: nat, n: nat, distance: (nat, nat) -> real, bins: Bins,
                  ys: seq<AtomicInteraction>, h: Histogram, x: AtomicInteraction, h2: Histogram)
    requires WellShaped(h, bins.count) && BondsSeen(numWann, n, distance, ys, h)
    requires BwdfStep(numWann, n, distance, bins, h, x) == Ok(h2)
    ensures BondsSeen(numWann, n, distance, ys + [x], h2)
  {
    var s := SampleOf(numWann, n, distance, x).value;
    var zs := ys + [x];
    assert AddSample(bins, h, s) == Ok(h2);
    assert zs[|ys|] == x;
    assert forall b :: b in h2.values <==> b in h.values || b == s.bond;
    forall b
      ensures b in h2.values <==> exists t :: 0 <= t < |zs| && BondAt(numWann, n, distance, zs[t]) == Some(b)
    {
      if b in h2.values && b != s.bond {
        var t :| 0 <= t < |ys| && BondAt(numWann, n, distance, ys[t]) == Some(b);
        assert zs[t] == ys[t];
      }
      if t :| 0 <= t < |zs| && BondAt(numWann, n, distance, zs[t]) == Some(b) {
        if t < |ys| {
          assert zs[t] == ys[t];
        }
      }
    }
  }

  /** A pass of the loop keeps every bin the sum of its contributions. */
  lemma StepSums(numWann: nat, n: nat, distance: (nat, nat) -> real, bins: Bins,
                 ys: seq<AtomicInteraction>, h: Histogram, x: AtomicInteraction, h2: Histogram)
    requires BondsSeen(numWann, n, distance, ys, h) && BinsSum(numWann, n, distance, bins, ys, h)
    requires BwdfStep(numWann, n, distance, bins, h, x) == Ok(h2)
    ensures BinsSum(numWann, n, distance, bins, ys + [x], h2)
  {
    assert WellShaped(h2, bins.count);
    forall b, k: nat | b in h2.values && k < bins.count
      ensures h2.values[b][k] == SumReals(Weights(numWann, n, distance, bins, ys + [x], b, k))
    {
      StepBin(numWann, n, distance, bins, ys, h, x, h2, b, k);
    }
  }

  /** One pass of the loop adds the interaction's contribution to each bin, starting new bonds from zero. */
  lemma StepBin(numWann: nat, n: nat, distance: (nat, nat) -> real, bins: Bins,
                ys: seq<AtomicInteraction>, h: Histogram, x: AtomicInteraction, h2: Histogram, b: Bond, k: nat)
    requires WellShaped(h, bins.count)
    requires b in h.values && k < bins.count ==> h.values[b][k] == SumReals(Weights(numWann, n, distance, bins, ys, b, k))
    requires b !in h.values ==> forall t :: 0 <= t < |ys| ==> BondAt(numWann, n, distance, ys[t]) != Some(b)
    requires BwdfStep(numWann, n, distance, bins, h, x) == Ok(h2)
    requires b in h2.values && k < bins.count
    ensures |h2.values[b]| == bins.count
    ensures h2.values[b][k] == SumReals(Weights(numWann, n, distance, bins, ys + [x], b, k))
  {
    var s := SampleOf(numWann, n, distance, x).value;
    assert AddSample(bins, h, s) == Ok(h2);
    AddSampleEntry(bins, h, s, h2, b, k);
    WeightsSnoc(numWann, n, distance, bins, ys, x, b, k);
    ContributionOf(numWann, n, distance, bins, x, s, b, k);
    if b !in h.values {
      WeightsAbsent(numWann, n, distance, bins, ys, b, k);
    }
  }

  lemma ContributionOf(numWann: nat, n: nat, distance: (nat, nat) -> real, bins: Bins, x: AtomicInteraction, s: Sample, b: Bond, k: nat)
    requires SampleOf(numWann, n, distance, x) == Ok(s)
    ensures Contribution(numWann, n, distance, bins, x, b, k)
         == if s.bond == b && bins.BinOf(s.distance) == Some(k) && |s.weight| == 1 then s.weight[0] else 0.0
  {
  }

  /** Entry `k` of a bond's histogram after one sample: its old value (zero if new) plus what the sample adds there. */
  lemma AddSampleEntry(bins: Bins, h: Histogram, s: Sample, h2: Histogram, b: Bond, k: nat)
    requires WellShaped(h, bins.count) && AddSample(bins, h, s) == Ok(h2)
    requires b in h2.values && k < bins.count
    ensures |h2.values[b]| == bins.count
    ensures h2.values[b][k]
         == (if b in h.values then h.values[b][k] else 0.0)
          + (if s.bond == b && bins.BinOf(s.distance) == Some(k) && |s.weight| == 1 then s.weight[0] else 0.0)
  {
    var row: seq<real> := if s.bond in h.bonds then h.values[s.bond] else Zeros(bins.count);
    if b != s.bond {
      assert h2.values[b] == h.values[b];
    } else {
      match bins.BinOf(s.distance)
      case None =>
        assert h2.values[b] == row;
      case Some(j) =>
        assert h2.values[b] == row[j := row[j] + s.weight[0]];
    }
  }

  /** The interactions that produce histograms are summarised by them, bin by bin. */
  lemma {:induction false} AccumulateSums(numWann: nat, n: nat, distance: (nat, nat) -> real, bins: Bins, xs: seq<AtomicInteraction>)
    requires Accumulate(numWann, n, distance, bins, xs).Ok?
    ensures Summarises(numWann, n, distance, bins, xs, Accumulate(numWann, n, distance, bins, xs).value)
  {
    if xs != [] {
      var ys := xs[..|xs| - 1];
      AccumulateSums(numWann, n, distance, bins, ys);
      AccumulateStep(numWann, n, distance, bins, xs, Accumulate(numWann, n, distance, bins, ys).value,
                     Accumulate(numWann, n, distance, bins, xs).value);
    }
  }

  /**
   * get_bwdf's result, when there is one, has positive bins and histograms
   * that summarise the interactions as `Summarises` states, or comes from
   * `nbins == -1` with no interactions at all.
   */
  lemma BwdfHistograms(numWann: nat, species: seq<string>, distance: (nat, nat) -> real,
                       xs: seq<AtomicInteraction>, rMin: real, rMax: real, nbins: int)
    requires BondWeightedDistribution(numWann, species, distance, xs, rMin, rMax, nbins).Ok?
    ensures nbins > 0 || (nbins == -1 && xs == [])
    ensures nbins > 0 ==>
              Summarises(numWann, |species|, distance, Bins(rMin, (rMax - rMin) / nbins as real, nbins as nat), xs,
                         BondWeightedDistribution(numWann, species, distance, xs, rMin, rMax, nbins).value.1)
  {
    if nbins > 0 {
      AccumulateSums(numWann, |species|, distance, Bins(rMin, (rMax - rMin) / nbins as real, nbins as nat), xs);
    }
  }

  /** Once a prefix of the interactions fails, the whole loop fails with the same error. */
  lemma {:induction false} AccumulatePrefixErr(numWann: nat, n: nat, distance: (nat, nat) -> real, bins: Bins,
                                               xs: seq<AtomicInteraction>, m: nat)
    requires m <= |xs| && Accumulate(numWann, n, distance, bins, xs[..m]).Err?
    ensures Accumulate(numWann, n, distance, bins, xs) == Accumulate(numWann, n, distance, bins, xs[..m])
    decreases |xs| - m
  {
    if m == |xs| {
      assert xs[..m] == xs;
    } else {
      var prefix := xs[..|xs| - 1];
      assert prefix[..m] == xs[..m];
      AccumulatePrefixErr(numWann, n, distance, bins, prefix, m);
    }
  }

  /** The loop raises the error of the first pass that fails. */
  lemma AccumulateStopsAt(numWann: nat, n: nat, distance: (nat, nat) -> real, bins: Bins,
                          xs: seq<AtomicInteraction>, t: nat, h: Histogram)
    requires t < |xs| && Accumulate(numWann, n, distance, bins, xs[..t]) == Ok(h)
    requires BwdfStep(numWann, n, distance, bins, h, xs[t]).Err?
    ensures Accumulate(numWann, n, distance, bins, xs) == Err(BwdfStep(numWann, n, distance, bins, h, xs[t]).error)
  {
    assert xs[..t + 1][..t] == xs[..t];
    AccumulatePrefixErr(numWann, n, distance, bins, xs, t + 1);
  }

  /**
   * One pass of get_bwdf's loop: the checks and look-ups, the new bond's
   * zero histogram, then the scan over the bins that stops at the first
   * bin holding the distance.
   */
  method RecordInteraction(numWann: nat, n: nat, distance: (nat, nat) -> real, bins: Bins, h: Histogram, x: AtomicInteraction)
    returns (r: Result<Histogram>)
    requires WellShaped(h, bins.count)
    ensures r == BwdfStep(numWann, n, distance, bins, h, x)
  {
    if x.iwohp.None? {
      return Err(TypeError);
    }
    var idI :- ParseId(x.pairId.0);
    var idJ :- ParseId(x.pairId.1);
    var a :- PyIndex(idI.1 + numWann - 1, n);
    var b :- PyIndex(idJ.1 + numWann - 1, n);
    var d := distance(a, b);
    var bond := (idI.0, idJ.0);
    ghost var s := Sample(bond, d, x.iwohp.value);
    assert SampleOf(numWann, n, distance, x) == Ok(s);
    var bonds, values := h.bonds, h.values;
    if bond !in bonds {
      bonds := bonds + [bond];
      values := values[bond := Zeros(bins.count)];
    }
    var k := 0;
    while k < bins.count
      invariant k <= bins.count
      invariant bins.BinFrom(k, d) == bins.BinOf(d)
      decreases bins.count - k
    {
      if bins.Boundary(k) <= d < bins.Boundary(k + 1) {
        if |x.iwohp.value| != 1 {
          return Err(ValueError);
        }
        var row := values[bond];
        values := values[bond := row[k := row[k] + x.iwohp.value[0]]];
        return Ok(Histogram(bonds, values));
      }
      k := k + 1;
    }
    return Ok(Histogram(bonds, values));
  }

  /**
   * get_bwdf: the bin centres, then one pass per interaction over the
   * bonds and histograms found so far.
   */
  method GetBwdf(dc: Calculator, xs: seq<AtomicInteraction>, g: Structure, rMin: real, rMax: real, nbins: int)
    returns (r: Result<(seq<real>, Histogram)>)
    ensures r == BondWeightedDistribution(dc.numWann, g.species, g.distance, xs, rMin, rMax, nbins)
  {
    if nbins <= -2 {
      return Err(ValueError);
    }
    if nbins == 0 {
      return Err(ZeroDivisionError);
    }
    if nbins == -1 {
      if xs == [] {
        return Ok(([], Histogram([], map[])));
      }
      var _ :- SampleOf(dc.numWann, |g.species|, g.distance, xs[0]);
      return Err(ValueError);
    }
    var bins := Bins(rMin, (rMax - rMin) / nbins as real, nbins as nat);
    var centres := bins.Centres();
    var h := Histogram([], map[]);
    for t := 0 to |xs|
      invariant Accumulate(dc.numWann, |g.species|, g.distance, bins, xs[..t]) == Ok(h)
    {
      var step := RecordInteraction(dc.numWann, |g.species|, g.distance, bins, h, xs[t]);
      if step.Err? {
        AccumulateStopsAt(dc.numWann, |g.species|, g.distance, bins, xs, t, h);
        return Err(step.error);
      }
      assert xs[..t + 1][..t] == xs[..t];
      h := step.value;
    }
    assert xs[..|xs|] == xs;
    return Ok((centres, h));
  }
}
