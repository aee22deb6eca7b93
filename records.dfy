// The interaction records of pengwann/geometry.py: WannierInteraction (one
// pair of Wannier functions) and AtomicInteraction (one pair of atoms and
// the Wannier interactions between them). Both are immutable NamedTuples
// updated by `_replace`, so each update here returns a new value.

module Records {
  import opened Common
  import opened Arrays
  import opened Utils

  /** `valence - population`, entry by entry. */
  function Charge(valence: int, population: seq<real>): (r: seq<real>)
    ensures |r| == |population|
    ensures forall c :: 0 <= c < |r| ==> r[c] + population[c] == valence as real
  {
    seq(|population|, c requires 0 <= c < |population| => valence as real - population[c])
  }

  /** Integrate `d` when it is present; otherwise keep the `current` field value. */
  function IntegrateOptional(energies: seq<real>, d: Option<Array>, mu: real, current: Option<seq<real>>)
    : (r: Result<Option<seq<real>>>)
    requires d.Some? ==> OnGrid(d.value, |energies|)
    ensures d.None? ==> r == Ok(current)
    ensures d.Some? ==> (r.Ok? <==> Integrate(energies, d.value, mu).Ok?)
    ensures d.Some? && r.Ok? ==> r.value == Some(Integrate(energies, d.value, mu).value)
    ensures d.Some? && r.Err? ==> r.error == Integrate(energies, d.value, mu).error
  {
    match d
    case None => Ok(current)
    case Some(a) =>
      var integral :- Integrate(energies, a, mu);
      Ok(Some(integral))
  }

  datatype WannierInteraction = WannierInteraction(
    i: nat,
    j: nat,
    bl1: Offset,
    bl2: Offset,
    dosMatrix: Option<Array>,
    hij: Option<real>,
    pij: Option<real>,
    iwohp: Option<seq<real>>,
    iwobi: Option<seq<real>>,
    population: Option<seq<real>>)
  {
    /** The WOHP, `-h_ij` times the DOS matrix, present only when both factors are. */
    function Wohp(): (r: Option<Array>)
      ensures r.Some? <==> hij.Some? && dosMatrix.Some?
      ensures r.Some? && dosMatrix.value.Grid? ==>
                r.value.Grid? && SameShape(r.value.rows, dosMatrix.value.rows) &&
                forall e, k :: 0 <= e < |r.value.rows| && 0 <= k < |r.value.rows[e]| ==>
                  r.value.rows[e][k] == Times(-hij.value, dosMatrix.value.rows[e][k])
    {
      if hij.None? || dosMatrix.None? then None else Some(Scale(-hij.value, dosMatrix.value))
    }

    /** The WOBI, `p_ij` times the DOS matrix, present only when both factors are. */
    function Wobi(): (r: Option<Array>)
      ensures r.Some? <==> pij.Some? && dosMatrix.Some?
      ensures r.Some? && dosMatrix.value.Grid? ==>
                r.value.Grid? && SameShape(r.value.rows, dosMatrix.value.rows) &&
                forall e, k :: 0 <= e < |r.value.rows| && 0 <= k < |r.value.rows[e]| ==>
                  r.value.rows[e][k] == Times(pij.value, dosMatrix.value.rows[e][k])
    {
      if pij.None? || dosMatrix.None? then None else Some(Scale(pij.value, dosMatrix.value))
    }

    /** The DOS matrix, when present, is sampled on `nE` energies. */
    ghost predicate Sampled(nE: nat) {
      dosMatrix.Some? ==> OnGrid(dosMatrix.value, nE)
    }

    /**
     * integrate: the population is always computed (TypeError without a DOS
     * matrix); IWOHP and IWOBI only when the WOHP and WOBI exist, and then
     * they are `-h_ij` and `p_ij` times the population.
     */
    function Integrate(energies: seq<real>, mu: real): (r: Result<WannierInteraction>)
      requires Sampled(|energies|)
      ensures dosMatrix.None? ==> r == Err(TypeError)
      ensures dosMatrix.Some? ==> (r.Ok? <==> Utils.Integrate(energies, dosMatrix.value, mu).Ok?)
      ensures r.Ok? ==> r.value.(population := population, iwohp := iwohp, iwobi := iwobi) == this
      ensures r.Ok? ==> r.value.population == Some(Utils.Integrate(energies, dosMatrix.value, mu).value)
      ensures r.Ok? && hij.None? ==> r.value.iwohp == iwohp
      ensures r.Ok? && hij.Some? ==> r.value.iwohp == Some(Utils.Integrate(energies, Wohp().value, mu).value)
      ensures r.Ok? && pij.None? ==> r.value.iwobi == iwobi
      ensures r.Ok? && pij.Some? ==> r.value.iwobi == Some(Utils.Integrate(energies, Wobi().value, mu).value)
    {
      match dosMatrix
      case None => Err(TypeError)
      case Some(dos) =>
        match Utils.Integrate(energies, dos, mu)
        case Err(error) => Err(error)
        case Ok(population) =>
          IntegrateScale(energies, if hij.Some? then -hij.value else 0.0, dos, mu);
          IntegrateScale(energies, if pij.Some? then pij.value else 0.0, dos, mu);
          var wohp := Wohp();
          var wobi := Wobi();
          var iwohp := if wohp.Some? then Some(Utils.Integrate(energies, wohp.value, mu).value) else this.iwohp;
          var iwobi := if wobi.Some? then Some(Utils.Integrate(energies, wobi.value, mu).value) else this.iwobi;
          Ok(this.(population := Some(population), iwohp := iwohp, iwobi := iwobi))
    }
  }

  predicate AllHaveDos(ws: seq<WannierInteraction>) {
    forall t :: 0 <= t < |ws| ==> ws[t].dosMatrix.Some?
  }

  predicate AllHaveHij(ws: seq<WannierInteraction>) {
    forall t :: 0 <= t < |ws| ==> ws[t].hij.Some?
  }

  predicate AllHavePij(ws: seq<WannierInteraction>) {
    forall t :: 0 <= t < |ws| ==> ws[t].pij.Some?
  }

  function DosMatrices(ws: seq<WannierInteraction>): seq<Option<Array>> {
    seq(|ws|, t requires 0 <= t < |ws| => ws[t].dosMatrix)
  }

  function Wohps(ws: seq<WannierInteraction>): seq<Option<Array>> {
    seq(|ws|, t requires 0 <= t < |ws| => ws[t].Wohp())
  }

  function Wobis(ws: seq<WannierInteraction>): seq<Option<Array>> {
    seq(|ws|, t requires 0 <= t < |ws| => ws[t].Wobi())
  }

  /** `sum(xs)` stored into an optional field. */
  function SumInto(xs: seq<Option<Array>>): Result<Option<Array>> {
    var s :- PySum(xs);
    Ok(Some(s))
  }

  /** Every Wannier interaction carries an `nE` x `nK` DOS matrix. */
  ghost predicate DosShaped(ws: seq<WannierInteraction>, nE: nat, nK: nat) {
    forall t :: 0 <= t < |ws| ==> ws[t].dosMatrix.Some? && HasShape(ws[t].dosMatrix.value, nE, nK)
  }

  /** The terms `-h_ij * dos[e][k]` of the summed WOHP at entry `(e, k)`. */
  function HoppingTerms(ws: seq<WannierInteraction>, e: nat, k: nat): seq<real>
    requires forall t :: 0 <= t < |ws| ==>
               (ws[t].hij.Some? && ws[t].dosMatrix.Some? && ws[t].dosMatrix.value.Grid? &&
                e < |ws[t].dosMatrix.value.rows| && k < |ws[t].dosMatrix.value.rows[e]|)
  {
    seq(|ws|, t requires 0 <= t < |ws| => Times(-ws[t].hij.value, ws[t].dosMatrix.value.rows[e][k]))
  }

  /** The terms `p_ij * dos[e][k]` of the summed WOBI at entry `(e, k)`. */
  function BondTerms(ws: seq<WannierInteraction>, e: nat, k: nat): seq<real>
    requires forall t :: 0 <= t < |ws| ==>
               (ws[t].pij.Some? && ws[t].dosMatrix.Some? && ws[t].dosMatrix.value.Grid? &&
                e < |ws[t].dosMatrix.value.rows| && k < |ws[t].dosMatrix.value.rows[e]|)
  {
    seq(|ws|, t requires 0 <= t < |ws| => Times(ws[t].pij.value, ws[t].dosMatrix.value.rows[e][k]))
  }

  /** Integrate every Wannier interaction, in order; the first failure is raised. */
  function IntegrateAll(ws: seq<WannierInteraction>, energies: seq<real>, mu: real)
    : (r: Result<seq<WannierInteraction>>)
    requires forall t :: 0 <= t < |ws| ==> ws[t].Sampled(|energies|)
    ensures r.Ok? <==> forall t :: 0 <= t < |ws| ==> ws[t].Integrate(energies, mu).Ok?
    ensures r.Ok? ==> (|r.value| == |ws| &&
              forall t :: 0 <= t < |ws| ==> ws[t].Integrate(energies, mu) == Ok(r.value[t]))
  {
    if ws == [] then
      Ok([])
    else
      var done :- IntegrateAll(ws[..|ws| - 1], energies, mu);
      var last :- ws[|ws| - 1].Integrate(energies, mu);
      Ok(done + [last])
  }

  datatype AtomicInteraction = AtomicInteraction(
    pairId: (string, string),
    wannierInteractions: seq<WannierInteraction>,
    dosMatrix: Option<Array>,
    wohp: Option<Array>,
    wobi: Option<Array>,
    iwohp: Option<seq<real>>,
    iwobi: Option<seq<real>>,
    population: Option<seq<real>>,
    charge: Option<seq<real>>)
  {
    /**
     * with_summed_descriptors: TypeError when any Wannier interaction lacks
     * a DOS matrix; otherwise the DOS matrix is the sum over the Wannier
     * interactions, and the WOHP (WOBI) is that sum too when every `h_ij`
     * (`p_ij`) is present and is left as it was otherwise.
     */
    function WithSummedDescriptors(): (r: Result<AtomicInteraction>)
      ensures !AllHaveDos(wannierInteractions) ==> r == Err(TypeError)
      ensures r.Ok? ==> r.value.(dosMatrix := dosMatrix, wohp := wohp, wobi := wobi) == this
      ensures r.Ok? ==> r.value.dosMatrix.Some?
      ensures r.Ok? && AllHaveHij(wannierInteractions) ==> r.value.wohp.Some?
      ensures r.Ok? && !AllHaveHij(wannierInteractions) ==> r.value.wohp == wohp
      ensures r.Ok? && AllHavePij(wannierInteractions) ==> r.value.wobi.Some?
      ensures r.Ok? && !AllHavePij(wannierInteractions) ==> r.value.wobi == wobi
      ensures wannierInteractions == [] ==>
                r == Ok(this.(dosMatrix := Some(Zero), wohp := Some(Zero), wobi := Some(Zero)))
    {
      if !AllHaveDos(wannierInteractions) then
        Err(TypeError)
      else
        var ws := wannierInteractions;
        var dos :- SumInto(DosMatrices(ws));
        var wohp :- if AllHaveHij(ws) then SumInto(Wohps(ws)) else Ok(this.wohp);
        var wobi :- if AllHavePij(ws) then SumInto(Wobis(ws)) else Ok(this.wobi);
        Ok(this.(dosMatrix := dos, wohp := wohp, wobi := wobi))
    }

    /** Every array the record holds is sampled on `nE` energies. */
    ghost predicate Sampled(nE: nat, resolveOrbitals: bool) {
      && (dosMatrix.Some? ==> OnGrid(dosMatrix.value, nE))
      && (wohp.Some? ==> OnGrid(wohp.value, nE))
      && (wobi.Some? ==> OnGrid(wobi.value, nE))
      && (resolveOrbitals ==> forall t :: 0 <= t < |wannierInteractions| ==> wannierInteractions[t].Sampled(nE))
    }

    /**
     * with_integrals: integrate whichever of the DOS matrix, WOHP and WOBI
     * exist (in that order), set the charge `valence - population` only when
     * both a DOS matrix and a valence are given, and integrate every Wannier
     * interaction when `resolveOrbitals` holds. It succeeds exactly when
     * every integration it attempts does.
     */
    function WithIntegrals(energies: seq<real>, mu: real, resolveOrbitals: bool, valence: Option<int>)
      : (r: Result<AtomicInteraction>)
      requires Sampled(|energies|, resolveOrbitals)
      ensures r.Ok? <==>
                && (dosMatrix.Some? ==> Integrate(energies, dosMatrix.value, mu).Ok?)
                && (wohp.Some? ==> Integrate(energies, wohp.value, mu).Ok?)
                && (wobi.Some? ==> Integrate(energies, wobi.value, mu).Ok?)
                && (resolveOrbitals ==>
                      forall t :: 0 <= t < |wannierInteractions| ==>
                        wannierInteractions[t].Integrate(energies, mu).Ok?)
      ensures r.Ok? ==>
                r.value.(wannierInteractions := wannierInteractions, iwohp := iwohp, iwobi := iwobi,
                         population := population, charge := charge) == this
      ensures r.Ok? && dosMatrix.Some? ==>
                r.value.population == Some(Integrate(energies, dosMatrix.value, mu).value)
      ensures r.Ok? && dosMatrix.None? ==> r.value.population == population
      ensures r.Ok? && dosMatrix.Some? && valence.Some? ==>
                r.value.charge.Some? && |r.value.charge.value| == |r.value.population.value| &&
                forall c :: 0 <= c < |r.value.charge.value| ==>
                  r.value.charge.value[c] + r.value.population.value[c] == valence.value as real
      ensures r.Ok? && (dosMatrix.None? || valence.None?) ==> r.value.charge == charge
      ensures r.Ok? && wohp.Some? ==> r.value.iwohp == Some(Integrate(energies, wohp.value, mu).value)
      ensures r.Ok? && wohp.None? ==> r.value.iwohp == iwohp
      ensures r.Ok? && wobi.Some? ==> r.value.iwobi == Some(Integrate(energies, wobi.value, mu).value)
      ensures r.Ok? && wobi.None? ==> r.value.iwobi == iwobi
      ensures r.Ok? && resolveOrbitals ==>
                |r.value.wannierInteractions| == |wannierInteractions| &&
                forall t :: 0 <= t < |wannierInteractions| ==>
                  wannierInteractions[t].Integrate(energies, mu) == Ok(r.value.wannierInteractions[t])
      ensures r.Ok? && !resolveOrbitals ==> r.value.wannierInteractions == wannierInteractions
    {
      var population :- IntegrateOptional(energies, dosMatrix, mu, this.population);
      var charge := if dosMatrix.Some? && valence.Some? then Some(Charge(valence.value, population.value)) else this.charge;
      var iwohp :- IntegrateOptional(energies, wohp, mu, this.iwohp);
      var iwobi :- IntegrateOptional(energies, wobi, mu, this.iwobi);
      var ws :- if resolveOrbitals then IntegrateAll(wannierInteractions, energies, mu) else Ok(wannierInteractions);
      Ok(this.(wannierInteractions := ws, iwohp := iwohp, iwobi := iwobi, population := population, charge := charge))
    }
  }

  /** A Wannier interaction that holds only its indices and lattice vectors. */
  function Bare(i: nat, j: nat, bl1: Offset, bl2: Offset): WannierInteraction {
    WannierInteraction(i, j, bl1, bl2, None, None, None, None, None, None)
  }

  /** An atomic interaction that holds only its labels and Wannier interactions. */
  function Unsummed(pairId: (string, string), ws: seq<WannierInteraction>): AtomicInteraction {
    AtomicInteraction(pairId, ws, None, None, None, None, None, None, None)
  }

  /** The integrated WOHP of a Wannier interaction is `-h_ij` times its population. */
  lemma IntegratedWohpScalesPopulation(w: WannierInteraction, energies: seq<real>, mu: real)
    requires w.Sampled(|energies|) && w.hij.Some? && w.Integrate(energies, mu).Ok?
    ensures w.Integrate(energies, mu).value.iwohp.Some? && w.Integrate(energies, mu).value.population.Some?
    ensures |w.Integrate(energies, mu).value.iwohp.value| == |w.Integrate(energies, mu).value.population.value|
    ensures forall c :: 0 <= c < |w.Integrate(energies, mu).value.iwohp.value| ==>
              w.Integrate(energies, mu).value.iwohp.value[c]
                == Times(-w.hij.value, w.Integrate(energies, mu).value.population.value[c])
  {
    var dos := w.dosMatrix.value;
    var v := w.Integrate(energies, mu).value;
    assert w.Wohp() == Some(Scale(-w.hij.value, dos));
    IntegrateScale(energies, -w.hij.value, dos, mu);
    assert v.iwohp == Some(Integrate(energies, Scale(-w.hij.value, dos), mu).value);
    assert v.population == Some(Integrate(energies, dos, mu).value);
  }

  /** The integrated WOBI of a Wannier interaction is `p_ij` times its population. */
  lemma IntegratedWobiScalesPopulation(w: WannierInteraction, energies: seq<real>, mu: real)
    requires w.Sampled(|energies|) && w.pij.Some? && w.Integrate(energies, mu).Ok?
    ensures w.Integrate(energies, mu).value.iwobi.Some? && w.Integrate(energies, mu).value.population.Some?
    ensures |w.Integrate(energies, mu).value.iwobi.value| == |w.Integrate(energies, mu).value.population.value|
    ensures forall c :: 0 <= c < |w.Integrate(energies, mu).value.iwobi.value| ==>
              w.Integrate(energies, mu).value.iwobi.value[c]
                == Times(w.pij.value, w.Integrate(energies, mu).value.population.value[c])
  {
    var dos := w.dosMatrix.value;
    var v := w.Integrate(energies, mu).value;
    assert w.Wobi() == Some(Scale(w.pij.value, dos));
    IntegrateScale(energies, w.pij.value, dos, mu);
    assert v.iwobi == Some(Integrate(energies, Scale(w.pij.value, dos), mu).value);
    assert v.population == Some(Integrate(energies, dos, mu).value);
  }

  /**
   * Summing over Wannier interactions whose DOS matrices are all `nE` x `nK`
   * succeeds, and each entry of the summed DOS matrix is the sum of the
   * corresponding entries.
   */
  lemma SummedDosEntries(a: AtomicInteraction, nE: nat, nK: nat)
    requires |a.wannierInteractions| > 0 && DosShaped(a.wannierInteractions, nE, nK)
    ensures a.WithSummedDescriptors().Ok?
    ensures HasShape(a.WithSummedDescriptors().value.dosMatrix.value, nE, nK)
    ensures forall e, k :: 0 <= e < nE && 0 <= k < nK ==>
              a.WithSummedDescriptors().value.dosMatrix.value.rows[e][k]
                == SumReals(Entries(DosMatrices(a.wannierInteractions), e, k))
  {
    var ws := a.wannierInteractions;
    PySumEntries(DosMatrices(ws), nE, nK);
    if AllHaveHij(ws) {
      WohpsShaped(ws, nE, nK);
      PySumEntries(Wohps(ws), nE, nK);
    }
    if AllHavePij(ws) {
      WobisShaped(ws, nE, nK);
      PySumEntries(Wobis(ws), nE, nK);
    }
  }

  lemma WohpsShaped(ws: seq<WannierInteraction>, nE: nat, nK: nat)
    requires DosShaped(ws, nE, nK) && AllHaveHij(ws)
    ensures forall t :: 0 <= t < |ws| ==> Wohps(ws)[t].Some? && HasShape(Wohps(ws)[t].value, nE, nK)
  {
    forall t | 0 <= t < |ws|
      ensures Wohps(ws)[t].Some? && HasShape(Wohps(ws)[t].value, nE, nK)
    {
      assert Wohps(ws)[t] == ws[t].Wohp();
    }
  }

  lemma WobisShaped(ws: seq<WannierInteraction>, nE: nat, nK: nat)
    requires DosShaped(ws, nE, nK) && AllHavePij(ws)
    ensures forall t :: 0 <= t < |ws| ==> Wobis(ws)[t].Some? && HasShape(Wobis(ws)[t].value, nE, nK)
  {
    forall t | 0 <= t < |ws|
      ensures Wobis(ws)[t].Some? && HasShape(Wobis(ws)[t].value, nE, nK)
    {
      assert Wobis(ws)[t] == ws[t].Wobi();
    }
  }

  /**
   * When every `h_ij` is present, each entry of the summed WOHP is the sum
   * over the Wannier interactions of `-h_ij` times their DOS entry.
   */
  lemma SummedWohpEntries(a: AtomicInteraction, nE: nat, nK: nat)
    requires |a.wannierInteractions| > 0 && DosShaped(a.wannierInteractions, nE, nK)
    requires AllHaveHij(a.wannierInteractions)
    ensures a.WithSummedDescriptors().Ok?
    ensures HasShape(a.WithSummedDescriptors().value.wohp.value, nE, nK)
    ensures forall e, k :: 0 <= e < nE && 0 <= k < nK ==>
              a.WithSummedDescriptors().value.wohp.value.rows[e][k]
                == SumReals(HoppingTerms(a.wannierInteractions, e, k))
  {
    var ws := a.wannierInteractions;
    SummedDosEntries(a, nE, nK);
    WohpsShaped(ws, nE, nK);
    PySumEntries(Wohps(ws), nE, nK);
    forall e, k | 0 <= e < nE && 0 <= k < nK
      ensures Entries(Wohps(ws), e, k) == HoppingTerms(ws, e, k)
    {
      WohpEntriesAt(ws, nE, nK, e, k);
    }
  }

  lemma WohpEntriesAt(ws: seq<WannierInteraction>, nE: nat, nK: nat, e: nat, k: nat)
    requires DosShaped(ws, nE, nK) && AllHaveHij(ws) && e < nE && k < nK
    requires forall t :: 0 <= t < |ws| ==> Wohps(ws)[t].Some? && HasShape(Wohps(ws)[t].value, nE, nK)
    ensures Entries(Wohps(ws), e, k) == HoppingTerms(ws, e, k)
  {
    forall t | 0 <= t < |ws|
      ensures Entries(Wohps(ws), e, k)[t] == HoppingTerms(ws, e, k)[t]
    {
      assert Wohps(ws)[t] == ws[t].Wohp();
    }
  }

  /**
   * When every `p_ij` is present, each entry of the summed WOBI is the sum
   * over the Wannier interactions of `p_ij` times their DOS entry.
   */
  lemma SummedWobiEntries(a: AtomicInteraction, nE: nat, nK: nat)
    requires |a.wannierInteractions| > 0 && DosShaped(a.wannierInteractions, nE, nK)
    requires AllHavePij(a.wannierInteractions)
    ensures a.WithSummedDescriptors().Ok?
    ensures HasShape(a.WithSummedDescriptors().value.wobi.value, nE, nK)
    ensures forall e, k :: 0 <= e < nE && 0 <= k < nK ==>
              a.WithSummedDescriptors().value.wobi.value.rows[e][k]
                == SumReals(BondTerms(a.wannierInteractions, e, k))
  {
    var ws := a.wannierInteractions;
    SummedDosEntries(a, nE, nK);
    WobisShaped(ws, nE, nK);
    PySumEntries(Wobis(ws), nE, nK);
    forall e, k | 0 <= e < nE && 0 <= k < nK
      ensures Entries(Wobis(ws), e, k) == BondTerms(ws, e, k)
    {
      WobiEntriesAt(ws, nE, nK, e, k);
    }
  }

  lemma WobiEntriesAt(ws: seq<WannierInteraction>, nE: nat, nK: nat, e: nat, k: nat)
    requires DosShaped(ws, nE, nK) && AllHavePij(ws) && e < nE && k < nK
    requires forall t :: 0 <= t < |ws| ==> Wobis(ws)[t].Some? && HasShape(Wobis(ws)[t].value, nE, nK)
    ensures Entries(Wobis(ws), e, k) == BondTerms(ws, e, k)
  {
    forall t | 0 <= t < |ws|
      ensures Entries(Wobis(ws), e, k)[t] == BondTerms(ws, e, k)[t]
    {
      assert Wobis(ws)[t] == ws[t].Wobi();
    }
  }

  /**
   * A Wannier interaction between orbitals 0 and 1 with zero lattice vectors,
   * a one-sample DOS matrix of 1 and `h_ij = 2` has WOHP -2.
   */
  lemma WohpOfUnitDos()
    ensures Bare(0, 1, Origin, Origin).(dosMatrix := Some(Grid([[1.0]])), hij := Some(2.0)).Wohp()
            == Some(Grid([[-2.0]]))
  {
    var w := Bare(0, 1, Origin, Origin).(dosMatrix := Some(Grid([[1.0]])), hij := Some(2.0));
    var rows := w.Wohp().value.rows;
    assert |rows| == 1 && |rows[0]| == 1 && rows[0][0] == -2.0 * 1.0;
    assert rows[0] == [-2.0];
    assert rows == [[-2.0]];
  }
}
