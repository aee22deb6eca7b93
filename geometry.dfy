// pengwann/geometry.py: assigning Wannier centres to their nearest atoms and
// enumerating the on-site and interatomic interactions of a structure. The
// pymatgen Structure is reduced to its species strings, a distance function
// and a periodic-image function; its "wannier_centres" site property is the
// one field these operations update.

module Geometry {
  import opened Common
  import opened Utils
  import opened Records

  /** The species string of a Wannier centre (an "X" dummy atom). */
  const Marker: string := "X0+"

  /**
   * The part of a pymatgen Structure the interaction code uses: the species
   * string of every site, the (periodic) distance between two sites, the
   * lattice vector of the periodic image of site `m` nearest to site `i`,
   * and the "wannier_centres" site property once it has been added.
   */
  class Structure {
    const species: seq<string>
    const distance: (nat, nat) -> real
    const image: (nat, nat) -> Offset
    var wannierCentres: Option<seq<seq<nat>>>

    /** The site property, when present, has one entry per site. */
    ghost predicate Valid()
      reads this
    {
      wannierCentres.Some? ==> |wannierCentres.value| == |species|
    }

    constructor(species: seq<string>, distance: (nat, nat) -> real, image: (nat, nat) -> Offset)
      ensures this.species == species && this.distance == distance && this.image == image
      ensures wannierCentres == None
      ensures Valid()
    {
      this.species := species;
      this.distance := distance;
      this.image := image;
      wannierCentres := None;
    }
  }

  function IsMarker(species: seq<string>): nat -> bool {
    (i: nat) => i < |species| && species[i] == Marker
  }

  function IsAtom(species: seq<string>): nat -> bool {
    (i: nat) => i < |species| && species[i] != Marker
  }

  /** The Wannier-centre sites, ascending. */
  function WannierSites(species: seq<string>): seq<nat> {
    Positions(|species|, IsMarker(species))
  }

  /** The atom sites, ascending. */
  function AtomSites(species: seq<string>): seq<nat> {
    Positions(|species|, IsAtom(species))
  }

  // ---------------------------------------------------------------------
  // assign_wannier_centres

  /**
   * The position in `atoms` of the atom nearest to site `i`, scanning in
   * order and replacing the best only on a strictly smaller distance: the
   * first atom at the minimum distance wins.
   */
  function NearestPos(distance: (nat, nat) -> real, i: nat, atoms: seq<nat>): (p: nat)
    requires |atoms| > 0
    ensures p < |atoms|
    ensures forall u :: 0 <= u < |atoms| ==> distance(i, atoms[p]) <= distance(i, atoms[u])
    ensures forall u :: 0 <= u < p ==> distance(i, atoms[u]) > distance(i, atoms[p])
  {
    if |atoms| == 1 then
      0
    else
      var q := NearestPos(distance, i, atoms[..|atoms| - 1]);
      if distance(i, atoms[|atoms| - 1]) < distance(i, atoms[q]) then |atoms| - 1 else q
  }

  /** The atom a Wannier centre `i` is assigned to. */
  function Nearest(distance: (nat, nat) -> real, i: nat, atoms: seq<nat>): nat
    requires |atoms| > 0
  {
    atoms[NearestPos(distance, i, atoms)]
  }

  /**
   * The per-site lists after the centres `ws` have been assigned in order:
   * each centre's list gets its atom and the atom's list gets the centre.
   */
  function Assigned(n: nat, distance: (nat, nat) -> real, atoms: seq<nat>, ws: seq<nat>): (lists: seq<seq<nat>>)
    requires |atoms| > 0 && Below(atoms, n) && Below(ws, n)
    ensures |lists| == n
  {
    if ws == [] then
      seq(n, s => [])
    else
      var lists := Assigned(n, distance, atoms, ws[..|ws| - 1]);
      var i := ws[|ws| - 1];
      var a := Nearest(distance, i, atoms);
      var withAtom := lists[i := lists[i] + [a]];
      withAtom[a := withAtom[a] + [i]]
  }

  /**
   * The "wannier_centres" property assign_wannier_centres computes:
   * ValueError without any centre; with centres but no atom, the sentinel
   * index `2 * len(geometry)` is out of range and raises IndexError.
   */
  function CentreLists(species: seq<string>, distance: (nat, nat) -> real): (r: Result<seq<seq<nat>>>)
    ensures r == Err(ValueError) <==> Marker !in species
    ensures r == Err(IndexError) <==> Marker in species && forall s :: s in species ==> s == Marker
    ensures r.Ok? ==> |r.value| == |species|
  {
    SplitFacts(species);
    var ws := WannierSites(species);
    var atoms := AtomSites(species);
    if ws == [] then
      Err(ValueError)
    else if atoms == [] then
      Err(IndexError)
    else
      Ok(Assigned(|species|, distance, atoms, ws))
  }

  /** There is a centre site exactly when "X0+" occurs, and an atom site exactly when another species does. */
  lemma SplitFacts(species: seq<string>)
    ensures WannierSites(species) == [] <==> Marker !in species
    ensures AtomSites(species) == [] <==> forall x :: x in species ==> x == Marker
    ensures Below(WannierSites(species), |species|) && Below(AtomSites(species), |species|)
  {
    SitesInRange(species, |species|);
    CentreSitesFacts(species);
    AtomSitesFacts(species);
  }

  lemma CentreSitesFacts(species: seq<string>)
    ensures WannierSites(species) == [] <==> Marker !in species
  {
    var ws := WannierSites(species);
    PositionsExact(|species|, IsMarker(species));
    if ws != [] {
      assert ws[0] in ws && species[ws[0]] in species;
    }
    if Marker in species {
      var j :| 0 <= j < |species| && species[j] == Marker;
      assert j in ws;
    }
  }

  lemma AtomSitesFacts(species: seq<string>)
    ensures AtomSites(species) == [] <==> forall x :: x in species ==> x == Marker
  {
    var atoms := AtomSites(species);
    PositionsExact(|species|, IsAtom(species));
    if atoms != [] {
      assert atoms[0] in atoms && species[atoms[0]] in species;
    }
    if exists x :: x in species && x != Marker {
      var x :| x in species && x != Marker;
      var j :| 0 <= j < |species| && species[j] == x;
      assert j in atoms;
    }
  }

  /**
   * assign_wannier_centres: split the sites into centres and atoms, give
   * every centre its nearest atom, record the link in both directions and
   * store the lists as the structure's "wannier_centres" property. On an
   * error the structure is left as it was.
   */
  method AssignWannierCentres(g: Structure) returns (r: Result<()>)
    requires g.Valid()
    modifies g
    ensures CentreLists(g.species, g.distance).Ok? ==>
              r == Ok(()) && g.wannierCentres == Some(CentreLists(g.species, g.distance).value)
    ensures CentreLists(g.species, g.distance).Err? ==>
              r == Err(CentreLists(g.species, g.distance).error) && g.wannierCentres == old(g.wannierCentres)
    ensures g.Valid()
  {
    var species := g.species;
    var n := |species|;
    var wannierIndices, atomIndices := SplitSites(species);
    if wannierIndices == [] {
      return Err(ValueError);
    }
    SplitFacts(species);

    var lists: seq<seq<nat>> := seq(n, s => []);
    for w := 0 to |wannierIndices|
      invariant |lists| == n
      invariant g.wannierCentres == old(g.wannierCentres)
      invariant Below(wannierIndices[..w], n)
      invariant |atomIndices| > 0 ==> lists == Assigned(n, g.distance, atomIndices, wannierIndices[..w])
      invariant |atomIndices| == 0 ==> w == 0
    {
      var i := wannierIndices[w];
      TakeNext(wannierIndices, w);
      var minIdx := ClosestAtom(g.distance, i, atomIndices, 2 * n);
      lists := lists[i := lists[i] + [minIdx]];
      if minIdx >= n {
        assert atomIndices == [];
        assert CentreLists(species, g.distance) == Err(IndexError);
        return Err(IndexError);
      }
      lists := lists[minIdx := lists[minIdx] + [i]];
      AssignedAppend(n, g.distance, atomIndices, wannierIndices[..w], i);
    }
    assert wannierIndices[..|wannierIndices|] == wannierIndices;
    assert CentreLists(species, g.distance) == Ok(lists);
    g.wannierCentres := Some(lists);
    r := Ok(());
  }

  /** The first loop of assign_wannier_centres: centre sites and atom sites, each ascending. */
  method SplitSites(species: seq<string>) returns (wannierIndices: seq<nat>, atomIndices: seq<nat>)
    ensures wannierIndices == WannierSites(species)
    ensures atomIndices == AtomSites(species)
  {
    wannierIndices := [];
    atomIndices := [];
    for idx := 0 to |species|
      invariant wannierIndices == Positions(idx, IsMarker(species))
      invariant atomIndices == Positions(idx, IsAtom(species))
    {
      if species[idx] == Marker {
        wannierIndices := wannierIndices + [idx];
      } else {
        atomIndices := atomIndices + [idx];
      }
    }
  }

  /**
   * The running minimum of assign_wannier_centres: start from an infinite
   * distance and the `sentinel` index, and take an atom only when it is
   * strictly closer.
   */
  method ClosestAtom(distance: (nat, nat) -> real, i: nat, atoms: seq<nat>, sentinel: nat) returns (minIdx: nat)
    ensures atoms == [] ==> minIdx == sentinel
    ensures atoms != [] ==> minIdx == Nearest(distance, i, atoms)
  {
    var minDistance: Option<real> := None;
    minIdx := sentinel;
    for a := 0 to |atoms|
      invariant a == 0 ==> minDistance == None && minIdx == sentinel
      invariant a > 0 ==> minIdx == Nearest(distance, i, atoms[..a])
      invariant a > 0 ==> minDistance == Some(distance(i, minIdx))
    {
      var d := distance(i, atoms[a]);
      if minDistance == None || d < minDistance.value {
        minDistance := Some(d);
        minIdx := atoms[a];
      }
      assert atoms[..a + 1][..a] == atoms[..a];
    }
    assert atoms[..|atoms|] == atoms;
  }

  /** Centre `m` is assigned to atom `s`. */
  function AssignedTo(species: seq<string>, distance: (nat, nat) -> real, s: nat): nat -> bool
    requires |AtomSites(species)| > 0
  {
    (m: nat) => m < |species| && species[m] == Marker && Nearest(distance, m, AtomSites(species)) == s
  }

  /** The list of site `s` once the centres below `k` have been assigned. */
  function ClosedForm(species: seq<string>, distance: (nat, nat) -> real, k: nat, s: nat): seq<nat>
    requires s < |species| && |AtomSites(species)| > 0
  {
    if species[s] == Marker then
      (if s < k then [Nearest(distance, s, AtomSites(species))] else [])
    else
      Positions(k, AssignedTo(species, distance, s))
  }

  /** Assigning one more centre `m` updates its list and its atom's list. */
  lemma AssignedAppend(n: nat, distance: (nat, nat) -> real, atoms: seq<nat>, ws: seq<nat>, m: nat)
    requires |atoms| > 0 && Below(atoms, n) && Below(ws, n) && m < n
    ensures Assigned(n, distance, atoms, ws + [m])
         == var before := Assigned(n, distance, atoms, ws);
            var a := Nearest(distance, m, atoms);
            var withAtom := before[m := before[m] + [a]];
            withAtom[a := withAtom[a] + [m]]
  {
    assert (ws + [m])[..|ws|] == ws;
  }

  /** Sites in `AtomSites` and `Positions(k, IsMarker)` are sites of the structure. */
  lemma SitesInRange(species: seq<string>, k: nat)
    requires k <= |species|
    ensures Below(AtomSites(species), |species|) && Below(Positions(k, IsMarker(species)), |species|)
    ensures forall u :: 0 <= u < |AtomSites(species)| ==>
              AtomSites(species)[u] < |species| && species[AtomSites(species)[u]] != Marker
    ensures forall t :: 0 <= t < |Positions(k, IsMarker(species))| ==>
              Positions(k, IsMarker(species))[t] < k && species[Positions(k, IsMarker(species))[t]] == Marker
  {
    var atoms := AtomSites(species);
    var ws := Positions(k, IsMarker(species));
    PositionsExact(|species|, IsAtom(species));
    PositionsExact(k, IsMarker(species));
    assert forall u :: 0 <= u < |atoms| ==> atoms[u] in atoms;
    assert forall t :: 0 <= t < |ws| ==> ws[t] in ws;
  }

  /** How the closed form changes when site `k - 1` is taken into account. */
  lemma ClosedFormStep(species: seq<string>, distance: (nat, nat) -> real, k: nat, s: nat)
    requires 0 < k <= |species| && s < |species| && |AtomSites(species)| > 0
    ensures species[k - 1] != Marker ==> ClosedForm(species, distance, k, s) == ClosedForm(species, distance, k - 1, s)
    ensures species[k - 1] == Marker && s == k - 1 ==>
              ClosedForm(species, distance, k, s) == [Nearest(distance, k - 1, AtomSites(species))]
    ensures species[k - 1] == Marker && s != k - 1 && s == Nearest(distance, k - 1, AtomSites(species)) ==>
              ClosedForm(species, distance, k, s) == ClosedForm(species, distance, k - 1, s) + [k - 1]
    ensures species[k - 1] == Marker && s != k - 1 && s != Nearest(distance, k - 1, AtomSites(species)) ==>
              ClosedForm(species, distance, k, s) == ClosedForm(species, distance, k - 1, s)
  {
    SitesInRange(species, k);
    var atoms := AtomSites(species);
    var p := NearestPos(distance, k - 1, atoms);
    assert species[atoms[p]] != Marker;
  }

  /** One step of `AssignedPrefix` at site `s`: from the centres below `j` to those below `k = j + 1`. */
  lemma AssignedStep(species: seq<string>, distance: (nat, nat) -> real, j: nat, k: nat, s: nat)
    requires k == j + 1 && k <= |species| && s < |species| && |AtomSites(species)| > 0
    requires Below(AtomSites(species), |species|)
    requires Below(Positions(j, IsMarker(species)), |species|) && Below(Positions(k, IsMarker(species)), |species|)
    requires Assigned(|species|, distance, AtomSites(species), Positions(j, IsMarker(species)))[s]
               == ClosedForm(species, distance, j, s)
    ensures Assigned(|species|, distance, AtomSites(species), Positions(k, IsMarker(species)))[s]
              == ClosedForm(species, distance, k, s)
  {
    var n := |species|;
    var atoms := AtomSites(species);
    var ws := Positions(k, IsMarker(species));
    var prev := Positions(j, IsMarker(species));
    ClosedFormStep(species, distance, k, s);
    if species[j] == Marker {
      assert ws == prev + [j];
      AssignedMarker(species, distance, j, s);
    } else {
      assert ws == prev;
    }
  }

  /** Assigning centre `j` changes only its own list and the list of its nearest atom. */
  lemma AssignedMarker(species: seq<string>, distance: (nat, nat) -> real, j: nat, s: nat)
    requires j < |species| && s < |species| && |AtomSites(species)| > 0 && species[j] == Marker
    requires Below(AtomSites(species), |species|) && Below(Positions(j, IsMarker(species)), |species|)
    ensures var atoms := AtomSites(species);
            var before := Assigned(|species|, distance, atoms, Positions(j, IsMarker(species)));
            var a := Nearest(distance, j, atoms);
            && a != j
            && Assigned(|species|, distance, atoms, Positions(j, IsMarker(species)) + [j])[s]
                 == if s == j then before[j] + [a] else if s == a then before[a] + [j] else before[s]
  {
    var atoms := AtomSites(species);
    AssignedAppend(|species|, distance, atoms, Positions(j, IsMarker(species)), j);
    SitesInRange(species, j + 1);
    var p := NearestPos(distance, j, atoms);
    assert species[atoms[p]] != Marker;
  }

  /** After the centres below `k` are assigned, each list has its closed form. */
  lemma {:induction false} AssignedPrefix(species: seq<string>, distance: (nat, nat) -> real, k: nat)
    requires k <= |species| && |AtomSites(species)| > 0
    ensures Below(AtomSites(species), |species|) && Below(Positions(k, IsMarker(species)), |species|)
    ensures forall s :: 0 <= s < |species| ==>
              Assigned(|species|, distance, AtomSites(species), Positions(k, IsMarker(species)))[s]
                == ClosedForm(species, distance, k, s)
  {
    SitesInRange(species, k);
    if k > 0 {
      AssignedPrefix(species, distance, k - 1);
      forall s | 0 <= s < |species|
        ensures Assigned(|species|, distance, AtomSites(species), Positions(k, IsMarker(species)))[s]
                  == ClosedForm(species, distance, k, s)
      {
        AssignedStep(species, distance, k - 1, k, s);
      }
    }
  }

  /**
   * The atom a centre is assigned to is at the minimum distance from it
   * among all atoms, and every atom with a lower site index is strictly
   * farther away.
   */
  lemma NearestAtom(species: seq<string>, distance: (nat, nat) -> real, m: nat)
    requires |AtomSites(species)| > 0
    ensures Nearest(distance, m, AtomSites(species)) < |species|
    ensures species[Nearest(distance, m, AtomSites(species))] != Marker
    ensures forall s :: 0 <= s < |species| && species[s] != Marker ==>
              distance(m, Nearest(distance, m, AtomSites(species))) <= distance(m, s)
    ensures forall s :: 0 <= s < Nearest(distance, m, AtomSites(species)) && species[s] != Marker ==>
              distance(m, s) > distance(m, Nearest(distance, m, AtomSites(species)))
  {
    var atoms := AtomSites(species);
    PositionsExact(|species|, IsAtom(species));
    var p := NearestPos(distance, m, atoms);
    assert atoms[p] in atoms;
    forall s | 0 <= s < |species| && species[s] != Marker
      ensures distance(m, atoms[p]) <= distance(m, s)
      ensures s < atoms[p] ==> distance(m, s) > distance(m, atoms[p])
    {
      assert s in atoms;
      var u :| 0 <= u < |atoms| && atoms[u] == s;
      if s < atoms[p] {
        assert u < p;
      }
    }
  }

  /**
   * In the computed property, every centre's list is its nearest atom
   * alone, and every atom's list holds exactly the centres whose list is
   * that atom, ascending: the link is recorded in both directions.
   */
  lemma CentreListsLinks(species: seq<string>, distance: (nat, nat) -> real)
    requires CentreLists(species, distance).Ok?
    ensures |AtomSites(species)| > 0
    ensures forall m :: 0 <= m < |species| && species[m] == Marker ==>
              CentreLists(species, distance).value[m] == [Nearest(distance, m, AtomSites(species))]
    ensures forall s, m: nat :: 0 <= s < |species| && species[s] != Marker ==>
              (m in CentreLists(species, distance).value[s] <==>
                 m < |species| && species[m] == Marker && CentreLists(species, distance).value[m] == [s])
    ensures forall s :: 0 <= s < |species| && species[s] != Marker ==>
              StrictlyIncreasing(CentreLists(species, distance).value[s])
  {
    var n := |species|;
    var lists := CentreLists(species, distance).value;
    AssignedPrefix(species, distance, n);
    assert lists == Assigned(n, distance, AtomSites(species), Positions(n, IsMarker(species)));
    forall s | 0 <= s < n && species[s] != Marker
      ensures forall m: nat :: m in lists[s] <==> m < n && species[m] == Marker && lists[m] == [s]
      ensures StrictlyIncreasing(lists[s])
    {
      assert lists[s] == ClosedForm(species, distance, n, s);
      PositionsExact(n, AssignedTo(species, distance, s));
      forall m: nat | m < n && species[m] == Marker
        ensures lists[m] == [Nearest(distance, m, AtomSites(species))]
      {
        assert lists[m] == ClosedForm(species, distance, n, m);
      }
    }
    forall m | 0 <= m < n && species[m] == Marker
      ensures lists[m] == [Nearest(distance, m, AtomSites(species))]
    {
      assert lists[m] == ClosedForm(species, distance, n, m);
    }
  }

  // ---------------------------------------------------------------------
  // identify_onsite_interactions

  function MatchesSymbols(species: seq<string>, symbols: seq<string>): nat -> bool {
    (i: nat) => i < |species| && species[i] in symbols
  }

  /** The sites whose species is one of `symbols`, ascending. */
  function MatchingSites(species: seq<string>, symbols: seq<string>): seq<nat> {
    Positions(|species|, MatchesSymbols(species, symbols))
  }

  /** The diagonal Wannier interactions `(c, c, 0, 0)` of a site's centres, in order. */
  function DiagonalOrbitals(centres: seq<nat>): seq<WannierInteraction> {
    seq(|centres|, t requires 0 <= t < |centres| => Bare(centres[t], centres[t], Origin, Origin))
  }

  /** The on-site interaction of site `idx`, labelled `(label, label)`. */
  function OnsiteInteraction(species: seq<string>, centres: seq<seq<nat>>, numWann: nat, idx: nat): AtomicInteraction
    requires idx < |species| && |centres| == |species|
  {
    var name := Label(species[idx], idx, numWann);
    Unsummed((name, name), DiagonalOrbitals(centres[idx]))
  }

  /** One on-site interaction per site of `sites`, in order. */
  function OnsiteFor(species: seq<string>, centres: seq<seq<nat>>, numWann: nat, sites: seq<nat>): seq<AtomicInteraction>
    requires |centres| == |species| && Below(sites, |species|)
  {
    seq(|sites|, t requires 0 <= t < |sites| => OnsiteInteraction(species, centres, numWann, sites[t]))
  }

  /**
   * The loop of identify_onsite_interactions (and of get_pdos): for every
   * site whose species is requested, an interaction with one diagonal
   * Wannier interaction per centre of the site.
   */
  method OnsiteInteractions(species: seq<string>, centres: seq<seq<nat>>, symbols: seq<string>, numWann: nat)
    returns (interactions: seq<AtomicInteraction>)
    requires |centres| == |species|
    ensures Below(MatchingSites(species, symbols), |species|)
    ensures interactions == OnsiteFor(species, centres, numWann, MatchingSites(species, symbols))
  {
    interactions := [];
    for idx := 0 to |species|
      invariant Below(Positions(idx, MatchesSymbols(species, symbols)), |species|)
      invariant interactions == OnsiteFor(species, centres, numWann, Positions(idx, MatchesSymbols(species, symbols)))
    {
      OnsiteStep(species, centres, symbols, numWann, idx);
      var symbol := species[idx];
      if symbol in symbols {
        var name := symbol + IntToString(idx - numWann + 1);
        var orbitals: seq<WannierInteraction> := [];
        for t := 0 to |centres[idx]|
          invariant orbitals == DiagonalOrbitals(centres[idx][..t])
        {
          var i := centres[idx][t];
          assert DiagonalOrbitals(centres[idx][..t + 1]) == orbitals + [Bare(i, i, Origin, Origin)];
          orbitals := orbitals + [Bare(i, i, Origin, Origin)];
        }
        assert centres[idx][..|centres[idx]|] == centres[idx];
        assert Unsummed((name, name), orbitals) == OnsiteInteraction(species, centres, numWann, idx);
        interactions := interactions + [Unsummed((name, name), orbitals)];
      }
    }
    PositionsBelow(|species|, MatchesSymbols(species, symbols), |species|);
  }

  /** Taking site `idx` into account appends its on-site interaction when its species is requested. */
  lemma OnsiteStep(species: seq<string>, centres: seq<seq<nat>>, symbols: seq<string>, numWann: nat, idx: nat)
    requires |centres| == |species| && idx < |species|
    ensures Below(Positions(idx, MatchesSymbols(species, symbols)), |species|)
    ensures Below(Positions(idx + 1, MatchesSymbols(species, symbols)), |species|)
    ensures OnsiteFor(species, centres, numWann, Positions(idx + 1, MatchesSymbols(species, symbols)))
         == OnsiteFor(species, centres, numWann, Positions(idx, MatchesSymbols(species, symbols)))
              + (if species[idx] in symbols then [OnsiteInteraction(species, centres, numWann, idx)] else [])
  {
    var p := MatchesSymbols(species, symbols);
    PositionsBelow(idx, p, |species|);
    PositionsBelow(idx + 1, p, |species|);
    var before := Positions(idx, p);
    if p(idx) {
      assert Positions(idx + 1, p) == before + [idx];
    } else {
      assert Positions(idx + 1, p) == before;
    }
  }

  /**
   * identify_onsite_interactions: KeyError without the "wannier_centres"
   * property, ValueError when no site has a requested species; the labels
   * count the centres present as "X0+" sites.
   */
  function Onsite(species: seq<string>, centres: Option<seq<seq<nat>>>, symbols: seq<string>)
    : (r: Result<seq<AtomicInteraction>>)
    requires centres.Some? ==> |centres.value| == |species|
    ensures centres.None? <==> r == Err(KeyError)
    ensures centres.Some? ==> (r == Err(ValueError) <==> forall s :: s in species ==> s !in symbols)
  {
    match centres
    case None => Err(KeyError)
    case Some(cs) =>
      PositionsBelow(|species|, MatchesSymbols(species, symbols), |species|);
      var xs := OnsiteFor(species, cs, |WannierSites(species)|, MatchingSites(species, symbols));
      NoMatchingSite(species, symbols);
      if xs == [] then Err(ValueError) else Ok(xs)
  }

  /** No site matches exactly when no species of the structure is requested. */
  lemma NoMatchingSite(species: seq<string>, symbols: seq<string>)
    ensures MatchingSites(species, symbols) == [] <==> forall s :: s in species ==> s !in symbols
  {
    var sites := MatchingSites(species, symbols);
    PositionsExact(|species|, MatchesSymbols(species, symbols));
    if sites != [] {
      assert sites[0] in sites && species[sites[0]] in species;
    }
    if exists s :: s in species && s in symbols {
      var s :| s in species && s in symbols;
      var j :| 0 <= j < |species| && species[j] == s;
      assert j in sites;
    }
  }

  /** identify_onsite_interactions on a structure, which it does not change. */
  method IdentifyOnsiteInteractions(g: Structure, symbols: seq<string>) returns (r: Result<seq<AtomicInteraction>>)
    requires g.Valid()
    ensures r == Onsite(g.species, g.wannierCentres, symbols)
  {
    if g.wannierCentres.None? {
      return Err(KeyError);
    }
    var numWann := |WannierSites(g.species)|;
    var interactions := OnsiteInteractions(g.species, g.wannierCentres.value, symbols, numWann);
    if interactions == [] {
      return Err(ValueError);
    }
    return Ok(interactions);
  }

  /**
   * The on-site interactions run over the requested sites in ascending
   * order, one each; interaction `t` carries one Wannier interaction
   * `(c, c, 0, 0)` per centre `c` of its site, in order, and, when the
   * centres come first in the site list, its label parses back to the
   * site's species and its index among the atoms.
   */
  lemma OnsiteProperties(species: seq<string>, centres: seq<seq<nat>>, symbols: seq<string>, numWann: nat)
    requires |centres| == |species|
    ensures Below(MatchingSites(species, symbols), |species|)
    ensures forall i: nat :: i in MatchingSites(species, symbols) <==> i < |species| && species[i] in symbols
    ensures StrictlyIncreasing(MatchingSites(species, symbols))
    ensures |OnsiteFor(species, centres, numWann, MatchingSites(species, symbols))| == |MatchingSites(species, symbols)|
    ensures forall t, u :: 0 <= t < |MatchingSites(species, symbols)| &&
                           0 <= u < |centres[MatchingSites(species, symbols)[t]]| ==>
              var x := OnsiteFor(species, centres, numWann, MatchingSites(species, symbols))[t];
              var c := centres[MatchingSites(species, symbols)[t]][u];
              |x.wannierInteractions| == |centres[MatchingSites(species, symbols)[t]]| &&
              x.pairId.0 == x.pairId.1 &&
              x.wannierInteractions[u] == Bare(c, c, Origin, Origin)
    ensures forall t :: 0 <= t < |MatchingSites(species, symbols)| &&
                        NoDigit(species[MatchingSites(species, symbols)[t]]) &&
                        MatchingSites(species, symbols)[t] + 1 >= numWann ==>
              ParseId(OnsiteFor(species, centres, numWann, MatchingSites(species, symbols))[t].pairId.0)
                == Ok((species[MatchingSites(species, symbols)[t]], MatchingSites(species, symbols)[t] - numWann + 1))
  {
    var sites := MatchingSites(species, symbols);
    PositionsExact(|species|, MatchesSymbols(species, symbols));
    PositionsBelow(|species|, MatchesSymbols(species, symbols), |species|);
    OnsiteOrbitals(species, centres, numWann, sites);
    OnsiteLabels(species, centres, numWann, sites);
  }

  /** Each on-site interaction pairs its label with itself and holds one diagonal orbital per centre. */
  lemma OnsiteOrbitals(species: seq<string>, centres: seq<seq<nat>>, numWann: nat, sites: seq<nat>)
    requires |centres| == |species| && Below(sites, |species|)
    ensures |OnsiteFor(species, centres, numWann, sites)| == |sites|
    ensures forall t, u :: 0 <= t < |sites| && 0 <= u < |centres[sites[t]]| ==>
              var x := OnsiteFor(species, centres, numWann, sites)[t];
              var c := centres[sites[t]][u];
              |x.wannierInteractions| == |centres[sites[t]]| &&
              x.pairId.0 == x.pairId.1 &&
              x.wannierInteractions[u] == Bare(c, c, Origin, Origin)
  {
  }

  /** The label of each on-site interaction parses back to its site's species and number. */
  lemma OnsiteLabels(species: seq<string>, centres: seq<seq<nat>>, numWann: nat, sites: seq<nat>)
    requires |centres| == |species| && Below(sites, |species|)
    ensures forall t :: 0 <= t < |sites| && NoDigit(species[sites[t]]) && sites[t] + 1 >= numWann ==>
              ParseId(OnsiteFor(species, centres, numWann, sites)[t].pairId.0)
                == Ok((species[sites[t]], sites[t] - numWann + 1))
  {
    forall t | 0 <= t < |sites| && NoDigit(species[sites[t]]) && sites[t] + 1 >= numWann
      ensures ParseId(OnsiteFor(species, centres, numWann, sites)[t].pairId.0)
                == Ok((species[sites[t]], sites[t] - numWann + 1))
    {
      LabelRoundTrip(species[sites[t]], sites[t], numWann);
    }
  }

  // ---------------------------------------------------------------------
  // identify_interatomic_interactions

  /** A cutoff entry: the ordered pair of species and the radial cutoff. */
  type Cutoff = ((string, string), real)

  /** No species occurs twice. */
  predicate Distinct(symbols: seq<string>) {
    forall a, b :: 0 <= a < b < |symbols| ==> symbols[a] != symbols[b]
  }

  function AddSymbol(symbols: seq<string>, s: string): (r: seq<string>)
    ensures forall x :: x in r <==> x in symbols || x == s
    ensures Distinct(symbols) ==> Distinct(r)
  {
    if s in symbols then symbols else symbols + [s]
  }

  /** The species named in the cutoff keys, each once, in order of first mention. */
  function SymbolsOf(cutoffs: seq<Cutoff>): (r: seq<string>)
    ensures Distinct(r)
  {
    if cutoffs == [] then
      []
    else
      var last := cutoffs[|cutoffs| - 1];
      AddSymbol(AddSymbol(SymbolsOf(cutoffs[..|cutoffs| - 1]), last.0.0), last.0.1)
  }

  /** Some cutoff key names species `x`. */
  ghost predicate Named(cutoffs: seq<Cutoff>, x: string) {
    exists c :: 0 <= c < |cutoffs| && (x == cutoffs[c].0.0 || x == cutoffs[c].0.1)
  }

  /** A species is collected exactly when some cutoff key names it. */
  lemma {:induction false} SymbolsOfExact(cutoffs: seq<Cutoff>)
    ensures forall x :: x in SymbolsOf(cutoffs) <==>
              exists c :: 0 <= c < |cutoffs| && (x == cutoffs[c].0.0 || x == cutoffs[c].0.1)
  {
    forall x
      ensures x in SymbolsOf(cutoffs) <==> Named(cutoffs, x)
    {
      SymbolCollected(cutoffs, x);
    }
  }

  lemma {:induction false} SymbolCollected(cutoffs: seq<Cutoff>, x: string)
    ensures x in SymbolsOf(cutoffs) <==> Named(cutoffs, x)
  {
    if cutoffs != [] {
      var n := |cutoffs| - 1;
      SymbolCollected(cutoffs[..n], x);
      NamedSplit(cutoffs, x);
    }
  }

  /** The keys naming `x` are those of the earlier entries and the last one. */
  lemma NamedSplit(cutoffs: seq<Cutoff>, x: string)
    requires cutoffs != []
    ensures Named(cutoffs, x) <==>
              Named(cutoffs[..|cutoffs| - 1], x) || x == cutoffs[|cutoffs| - 1].0.0 || x == cutoffs[|cutoffs| - 1].0.1
  {
    var n := |cutoffs| - 1;
    var prefix := cutoffs[..n];
    if Named(prefix, x) {
      var c :| 0 <= c < |prefix| && (x == prefix[c].0.0 || x == prefix[c].0.1);
      assert cutoffs[c] == prefix[c];
    }
    if Named(cutoffs, x) {
      var c :| 0 <= c < |cutoffs| && (x == cutoffs[c].0.0 || x == cutoffs[c].0.1);
      if c < n {
        assert cutoffs[c] == prefix[c];
      }
    }
  }

  /** The loop of identify_interatomic_interactions that collects `symbols_list`. */
  method CollectSymbols(cutoffs: seq<Cutoff>) returns (symbols: seq<string>)
    ensures symbols == SymbolsOf(cutoffs)
  {
    symbols := [];
    for c := 0 to |cutoffs|
      invariant symbols == SymbolsOf(cutoffs[..c])
    {
      var pair := cutoffs[c].0;
      if pair.0 !in symbols {
        symbols := symbols + [pair.0];
      }
      if pair.1 !in symbols {
        symbols := symbols + [pair.1];
      }
      assert cutoffs[..c + 1][..c] == cutoffs[..c];
    }
    assert cutoffs[..|cutoffs|] == cutoffs;
  }

  /** The pairs `(i, j)` for every `j` of `js`. */
  function Row(i: nat, js: seq<nat>): seq<(nat, nat)> {
    seq(|js|, b requires 0 <= b < |js| => (i, js[b]))
  }

  /** The candidate pairs of two different species: the full cross-product, row by row. */
  function Product(xs: seq<nat>, ys: seq<nat>): seq<(nat, nat)> {
    Concat(seq(|xs|, a requires 0 <= a < |xs| => Row(xs[a], ys)))
  }

  /** The candidate pairs of one species: each site with every later one. */
  function UpperPairs(xs: seq<nat>): seq<(nat, nat)> {
    Concat(seq(|xs|, a requires 0 <= a < |xs| => Row(xs[a], xs[a + 1..])))
  }

  /** `possible_interactions` for the species pair `(si, sj)`. */
  function Candidates(species: seq<string>, si: string, sj: string): seq<(nat, nat)> {
    if si != sj then Product(SitesOf(species, si), SitesOf(species, sj)) else UpperPairs(SitesOf(species, si))
  }

  /**
   * The nested loops building `possible_interactions` from the two species'
   * site tuples; `xs == ys` when the species are the same.
   */
  method CandidatePairs(xs: seq<nat>, ys: seq<nat>, sameSpecies: bool) returns (pairs: seq<(nat, nat)>)
    ensures !sameSpecies ==> pairs == Product(xs, ys)
    ensures sameSpecies ==> pairs == UpperPairs(xs)
  {
    ghost var rows := if sameSpecies then seq(|xs|, a requires 0 <= a < |xs| => Row(xs[a], xs[a + 1..]))
                      else seq(|xs|, a requires 0 <= a < |xs| => Row(xs[a], ys));
    pairs := [];
    for a := 0 to |xs|
      invariant pairs == Concat(rows[..a])
    {
      var i := xs[a];
      var js := if sameSpecies then xs[a + 1..] else ys;
      assert rows[a] == Row(i, js);
      for b := 0 to |js|
        invariant pairs == Concat(rows[..a]) + Row(i, js[..b])
      {
        pairs := pairs + [(i, js[b])];
        assert Row(i, js[..b + 1]) == Row(i, js[..b]) + [(i, js[b])];
      }
      assert js[..|js|] == js;
      assert rows[..a + 1][..a] == rows[..a];
    }
    assert rows[..|xs|] == rows;
  }

  /** The Wannier interactions `(m, n, bl_1, bl_2)` of centre `m` of site `i` with every centre `n` of site `j`. */
  function OrbitalRow(image: (nat, nat) -> Offset, i: nat, m: nat, j: nat, cj: seq<nat>): seq<WannierInteraction> {
    seq(|cj|, b requires 0 <= b < |cj| => Bare(m, cj[b], image(i, m), image(j, cj[b])))
  }

  /** The Wannier interactions of an atom pair: `m` over the centres of `i` outside, `n` over those of `j` inside. */
  function PairOrbitals(image: (nat, nat) -> Offset, i: nat, ci: seq<nat>, j: nat, cj: seq<nat>): seq<WannierInteraction> {
    Concat(seq(|ci|, a requires 0 <= a < |ci| => OrbitalRow(image, i, ci[a], j, cj)))
  }

  /** The nested loops over `wannier_centres[i]` and `wannier_centres[j]`. */
  method BuildPairOrbitals(image: (nat, nat) -> Offset, i: nat, ci: seq<nat>, j: nat, cj: seq<nat>)
    returns (orbitals: seq<WannierInteraction>)
    ensures orbitals == PairOrbitals(image, i, ci, j, cj)
  {
    ghost var rows := seq(|ci|, a requires 0 <= a < |ci| => OrbitalRow(image, i, ci[a], j, cj));
    orbitals := [];
    for a := 0 to |ci|
      invariant orbitals == Concat(rows[..a])
    {
      var m := ci[a];
      for b := 0 to |cj|
        invariant orbitals == Concat(rows[..a]) + OrbitalRow(image, i, m, j, cj[..b])
      {
        var n := cj[b];
        orbitals := orbitals + [Bare(m, n, image(i, m), image(j, n))];
        assert OrbitalRow(image, i, m, j, cj[..b + 1]) == OrbitalRow(image, i, m, j, cj[..b]) + [Bare(m, n, image(i, m), image(j, n))];
      }
      assert cj[..|cj|] == cj;
      assert rows[..a + 1][..a] == rows[..a];
    }
    assert rows[..|ci|] == rows;
  }

  /** The centres recorded for site `i` (none for an index outside the structure). */
  function CentresAt(centres: seq<seq<nat>>, i: nat): seq<nat> {
    if i < |centres| then centres[i] else []
  }

  /** The interaction of atoms `i` and `j`, labelled with their species and atom indices. */
  function PairInteraction(image: (nat, nat) -> Offset, centres: seq<seq<nat>>, numWann: nat,
                           si: string, sj: string, pair: (nat, nat)): AtomicInteraction
  {
    var (i, j) := pair;
    Unsummed((Label(si, i, numWann), Label(sj, j, numWann)),
             PairOrbitals(image, i, CentresAt(centres, i), j, CentresAt(centres, j)))
  }

  /** The candidate pairs strictly closer than `cutoff`, in order. */
  function KeepClose(distance: (nat, nat) -> real, pairs: seq<(nat, nat)>, cutoff: real): (kept: seq<(nat, nat)>)
    ensures forall p :: p in kept <==> p in pairs && distance(p.0, p.1) < cutoff
  {
    if pairs == [] then
      []
    else
      var last := pairs[|pairs| - 1];
      var prev := KeepClose(distance, pairs[..|pairs| - 1], cutoff);
      assert pairs == pairs[..|pairs| - 1] + [last];
      prev + (if distance(last.0, last.1) < cutoff then [last] else [])
  }

  /** One interaction per pair, in order. */
  function PairInteractions(image: (nat, nat) -> Offset, centres: seq<seq<nat>>, numWann: nat,
                            si: string, sj: string, pairs: seq<(nat, nat)>): seq<AtomicInteraction>
  {
    seq(|pairs|, t requires 0 <= t < |pairs| => PairInteraction(image, centres, numWann, si, sj, pairs[t]))
  }

  /** The interactions emitted for one cutoff entry. */
  function CutoffInteractions(species: seq<string>, distance: (nat, nat) -> real, image: (nat, nat) -> Offset,
                              centres: seq<seq<nat>>, numWann: nat, entry: Cutoff): seq<AtomicInteraction>
  {
    var ((si, sj), cutoff) := entry;
    PairInteractions(image, centres, numWann, si, sj, KeepClose(distance, Candidates(species, si, sj), cutoff))
  }

  /** The inner loop over `possible_interactions`: keep each pair within the cutoff and build its interaction. */
  method ClosePairInteractions(distance: (nat, nat) -> real, image: (nat, nat) -> Offset, centres: seq<seq<nat>>,
                               numWann: nat, si: string, sj: string, candidates: seq<(nat, nat)>, cutoff: real)
    returns (interactions: seq<AtomicInteraction>)
    ensures interactions == PairInteractions(image, centres, numWann, si, sj, KeepClose(distance, candidates, cutoff))
  {
    interactions := [];
    for t := 0 to |candidates|
      invariant interactions == PairInteractions(image, centres, numWann, si, sj, KeepClose(distance, candidates[..t], cutoff))
    {
      var (i, j) := candidates[t];
      KeepCloseStep(distance, candidates, cutoff, t);
      if distance(i, j) < cutoff {
        var pairId := (si + IntToString(i - numWann + 1), sj + IntToString(j - numWann + 1));
        var orbitals := BuildPairOrbitals(image, i, CentresAt(centres, i), j, CentresAt(centres, j));
        PairInteractionsAppend(image, centres, numWann, si, sj, KeepClose(distance, candidates[..t], cutoff), (i, j));
        interactions := interactions + [Unsummed(pairId, orbitals)];
      }
    }
    assert candidates[..|candidates|] == candidates;
  }

  /** Filtering one more candidate appends it exactly when it is within the cutoff. */
  lemma KeepCloseStep(distance: (nat, nat) -> real, candidates: seq<(nat, nat)>, cutoff: real, t: nat)
    requires t < |candidates|
    ensures KeepClose(distance, candidates[..t + 1], cutoff)
         == KeepClose(distance, candidates[..t], cutoff)
            + (if distance(candidates[t].0, candidates[t].1) < cutoff then [candidates[t]] else [])
  {
    assert candidates[..t + 1][..t] == candidates[..t];
  }

  lemma PairInteractionsAppend(image: (nat, nat) -> Offset, centres: seq<seq<nat>>, numWann: nat,
                               si: string, sj: string, pairs: seq<(nat, nat)>, pair: (nat, nat))
    ensures PairInteractions(image, centres, numWann, si, sj, pairs + [pair])
         == PairInteractions(image, centres, numWann, si, sj, pairs) + [PairInteraction(image, centres, numWann, si, sj, pair)]
  {
  }

  /** The interactions of the cutoff entries, entry by entry. */
  function AllCutoffInteractions(species: seq<string>, distance: (nat, nat) -> real, image: (nat, nat) -> Offset,
                                 centres: seq<seq<nat>>, numWann: nat, cutoffs: seq<Cutoff>): seq<AtomicInteraction>
  {
    if cutoffs == [] then
      []
    else
      AllCutoffInteractions(species, distance, image, centres, numWann, cutoffs[..|cutoffs| - 1])
        + CutoffInteractions(species, distance, image, centres, numWann, cutoffs[|cutoffs| - 1])
  }

  /**
   * identify_interatomic_interactions: ValueError without the
   * "wannier_centres" property or without any "X0+" site; otherwise every
   * candidate pair of every cutoff entry strictly within its cutoff.
   */
  function Interatomic(species: seq<string>, distance: (nat, nat) -> real, image: (nat, nat) -> Offset,
                       centres: Option<seq<seq<nat>>>, cutoffs: seq<Cutoff>): (r: Result<seq<AtomicInteraction>>)
    ensures r.Err? <==> centres.None? || Marker !in species
    ensures r.Err? ==> r.error == ValueError
  {
    SplitFacts(species);
    if centres.None? then
      Err(ValueError)
    else if |WannierSites(species)| == 0 then
      Err(ValueError)
    else
      Ok(AllCutoffInteractions(species, distance, image, centres.value, |WannierSites(species)|, cutoffs))
  }

  /** Taking one more cutoff entry appends its interactions. */
  lemma AllCutoffStep(species: seq<string>, distance: (nat, nat) -> real, image: (nat, nat) -> Offset,
                      centres: seq<seq<nat>>, numWann: nat, cutoffs: seq<Cutoff>, c: nat)
    requires c < |cutoffs|
    ensures AllCutoffInteractions(species, distance, image, centres, numWann, cutoffs[..c + 1])
         == AllCutoffInteractions(species, distance, image, centres, numWann, cutoffs[..c])
              + CutoffInteractions(species, distance, image, centres, numWann, cutoffs[c])
  {
    assert cutoffs[..c + 1][..c] == cutoffs[..c];
  }

  /** Both species of a cutoff key have an entry in the atom-index dictionary, holding their sites. */
  lemma CutoffSpeciesIndexed(species: seq<string>, cutoffs: seq<Cutoff>, c: nat)
    requires c < |cutoffs|
    ensures cutoffs[c].0.0 in AtomIndices(species, SymbolsOf(cutoffs))
    ensures cutoffs[c].0.1 in AtomIndices(species, SymbolsOf(cutoffs))
    ensures AtomIndices(species, SymbolsOf(cutoffs))[cutoffs[c].0.0] == SitesOf(species, cutoffs[c].0.0)
    ensures AtomIndices(species, SymbolsOf(cutoffs))[cutoffs[c].0.1] == SitesOf(species, cutoffs[c].0.1)
  {
    SymbolsOfExact(cutoffs);
  }

  /** identify_interatomic_interactions on a structure, which it does not change. */
  method IdentifyInteratomicInteractions(g: Structure, cutoffs: seq<Cutoff>) returns (r: Result<seq<AtomicInteraction>>)
    ensures r == Interatomic(g.species, g.distance, g.image, g.wannierCentres, cutoffs)
  {
    if g.wannierCentres.None? {
      return Err(ValueError);
    }
    var numWann := |WannierSites(g.species)|;
    if numWann == 0 {
      return Err(ValueError);
    }
    var symbols := CollectSymbols(cutoffs);
    var atomIndices := GetAtomIndices(g.species, symbols);
    var centres := g.wannierCentres.value;
    var interactions: seq<AtomicInteraction> := [];
    for c := 0 to |cutoffs|
      invariant interactions == AllCutoffInteractions(g.species, g.distance, g.image, centres, numWann, cutoffs[..c])
    {
      var entry := cutoffs[c];
      var si, sj, cutoff := entry.0.0, entry.0.1, entry.1;
      CutoffSpeciesIndexed(g.species, cutoffs, c);
      assert si in atomIndices && atomIndices[si] == SitesOf(g.species, si);
      assert sj in atomIndices && atomIndices[sj] == SitesOf(g.species, sj);
      var candidates := CandidatePairs(atomIndices[si], atomIndices[sj], si == sj);
      assert candidates == Candidates(g.species, si, sj);
      var kept := ClosePairInteractions(g.distance, g.image, centres, numWann, si, sj, candidates, cutoff);
      assert kept == CutoffInteractions(g.species, g.distance, g.image, centres, numWann, entry);
      AllCutoffStep(g.species, g.distance, g.image, centres, numWann, cutoffs, c);
      interactions := interactions + kept;
    }
    assert cutoffs[..|cutoffs|] == cutoffs;
    return Ok(interactions);
  }

  // ---------------------------------------------------------------------
  // Properties of the interatomic enumeration

  /** The cross-product of `xs` and `ys` has `|xs| * |ys|` pairs. */
  lemma ProductLength(xs: seq<nat>, ys: seq<nat>)
    ensures |Product(xs, ys)| == |xs| * |ys|
  {
    var rows := seq(|xs|, a requires 0 <= a < |xs| => Row(xs[a], ys));
    assert Product(xs, ys) == Concat(rows);
    ConcatUniformLength(rows, |ys|);
  }

  /** The cross-product is laid out row by row: `(xs[a], ys[b])` sits at `a * |ys| + b`. */
  lemma ProductAt(xs: seq<nat>, ys: seq<nat>, a: nat, b: nat)
    requires a < |xs| && b < |ys|
    ensures a * |ys| + b < |Product(xs, ys)| && Product(xs, ys)[a * |ys| + b] == (xs[a], ys[b])
  {
    var rows := seq(|xs|, a requires 0 <= a < |xs| => Row(xs[a], ys));
    assert Product(xs, ys) == Concat(rows);
    ConcatUniformAt(rows, |ys|, a, b);
  }

  /** The cross-product holds exactly the pairs `(x, y)` with `x` in `xs` and `y` in `ys`. */
  lemma ProductExact(xs: seq<nat>, ys: seq<nat>)
    ensures forall p :: p in Product(xs, ys) <==> p.0 in xs && p.1 in ys
  {
    var rows := seq(|xs|, a requires 0 <= a < |xs| => Row(xs[a], ys));
    forall p | p in Product(xs, ys) ensures p.0 in xs && p.1 in ys {
      ConcatMember(rows, p);
    }
    forall p: (nat, nat) | p.0 in xs && p.1 in ys ensures p in Product(xs, ys) {
      var a :| 0 <= a < |xs| && xs[a] == p.0;
      var b :| 0 <= b < |ys| && ys[b] == p.1;
      assert rows[a][b] == p;
      ConcatMember(rows, p);
    }
  }

  /** Over ascending sites, the upper triangle holds exactly the pairs `(x, y)` of sites with `x < y`. */
  lemma UpperPairsExact(xs: seq<nat>)
    requires StrictlyIncreasing(xs)
    ensures forall p :: p in UpperPairs(xs) <==> p.0 in xs && p.1 in xs && p.0 < p.1
  {
    forall p: (nat, nat) | p in UpperPairs(xs) ensures p.0 in xs && p.1 in xs && p.0 < p.1 {
      UpperPairSound(xs, p);
    }
    forall p: (nat, nat) | p.0 in xs && p.1 in xs && p.0 < p.1 ensures p in UpperPairs(xs) {
      UpperPairComplete(xs, p);
    }
  }

  lemma UpperPairSound(xs: seq<nat>, p: (nat, nat))
    requires StrictlyIncreasing(xs) && p in UpperPairs(xs)
    ensures p.0 in xs && p.1 in xs && p.0 < p.1
  {
    var rows := seq(|xs|, a requires 0 <= a < |xs| => Row(xs[a], xs[a + 1..]));
    ConcatMember(rows, p);
    var a :| 0 <= a < |rows| && p in rows[a];
    var b :| 0 <= b < |rows[a]| && rows[a][b] == p;
    assert xs[a + 1..][b] == xs[a + 1 + b];
  }

  lemma UpperPairComplete(xs: seq<nat>, p: (nat, nat))
    requires StrictlyIncreasing(xs) && p.0 in xs && p.1 in xs && p.0 < p.1
    ensures p in UpperPairs(xs)
  {
    var rows := seq(|xs|, a requires 0 <= a < |xs| => Row(xs[a], xs[a + 1..]));
    var a :| 0 <= a < |xs| && xs[a] == p.0;
    var c :| 0 <= c < |xs| && xs[c] == p.1;
    assert a < c;
    assert rows[a][c - a - 1] == p;
    ConcatMember(rows, p);
  }

  /**
   * The candidates for a species pair are exactly the pairs of sites of
   * those species, and, when the two species are the same, each unordered
   * pair once with the lower index first.
   */
  lemma CandidatesExact(species: seq<string>, si: string, sj: string)
    ensures forall p :: p in Candidates(species, si, sj) <==>
              p.0 < |species| && p.1 < |species| && species[p.0] == si && species[p.1] == sj &&
              (si == sj ==> p.0 < p.1)
  {
    PositionsExact(|species|, SpeciesIs(species, si));
    PositionsExact(|species|, SpeciesIs(species, sj));
    if si != sj {
      ProductExact(SitesOf(species, si), SitesOf(species, sj));
    } else {
      UpperPairsExact(SitesOf(species, si));
    }
  }

  /**
   * The pairs kept for a cutoff entry: sites of the two species strictly
   * closer than the cutoff (lower index first for a single species).
   */
  lemma KeptExactly(species: seq<string>, distance: (nat, nat) -> real, si: string, sj: string, cutoff: real)
    ensures forall p :: p in KeepClose(distance, Candidates(species, si, sj), cutoff) <==>
              p.0 < |species| && p.1 < |species| && species[p.0] == si && species[p.1] == sj &&
              (si == sj ==> p.0 < p.1) && distance(p.0, p.1) < cutoff
  {
    CandidatesExact(species, si, sj);
  }

  /** An atom pair has one Wannier interaction per pair of their centres. */
  lemma PairOrbitalsLength(image: (nat, nat) -> Offset, i: nat, ci: seq<nat>, j: nat, cj: seq<nat>)
    ensures |PairOrbitals(image, i, ci, j, cj)| == |ci| * |cj|
  {
    var rows := seq(|ci|, a requires 0 <= a < |ci| => OrbitalRow(image, i, ci[a], j, cj));
    assert PairOrbitals(image, i, ci, j, cj) == Concat(rows);
    ConcatUniformLength(rows, |cj|);
  }

  /**
   * The Wannier interactions of an atom pair form a |ci| x |cj| table:
   * entry `a * |cj| + b` pairs centre `ci[a]` of `i` with centre `cj[b]`
   * of `j`, each with the lattice vector of its image nearest its atom.
   */
  lemma PairOrbitalsAt(image: (nat, nat) -> Offset, i: nat, ci: seq<nat>, j: nat, cj: seq<nat>, a: nat, b: nat)
    requires a < |ci| && b < |cj|
    ensures a * |cj| + b < |PairOrbitals(image, i, ci, j, cj)| &&
            PairOrbitals(image, i, ci, j, cj)[a * |cj| + b] == Bare(ci[a], cj[b], image(i, ci[a]), image(j, cj[b]))
  {
    var rows := seq(|ci|, a requires 0 <= a < |ci| => OrbitalRow(image, i, ci[a], j, cj));
    assert PairOrbitals(image, i, ci, j, cj) == Concat(rows);
    ConcatUniformAt(rows, |cj|, a, b);
  }

  /**
   * A cutoff entry naming a species with no site contributes nothing, so
   * when no cutoff entry matches the structure the result is an empty list
   * rather than an error.
   */
  lemma {:induction false} NoMatchingAtoms(species: seq<string>, distance: (nat, nat) -> real, image: (nat, nat) -> Offset,
                                           centres: seq<seq<nat>>, numWann: nat, cutoffs: seq<Cutoff>)
    requires forall c :: 0 <= c < |cutoffs| ==> cutoffs[c].0.0 !in species || cutoffs[c].0.1 !in species
    ensures AllCutoffInteractions(species, distance, image, centres, numWann, cutoffs) == []
  {
    if cutoffs != [] {
      var prefix := cutoffs[..|cutoffs| - 1];
      assert forall c :: 0 <= c < |prefix| ==> prefix[c] == cutoffs[c];
      NoMatchingAtoms(species, distance, image, centres, numWann, prefix);
      var ((si, sj), cutoff) := cutoffs[|cutoffs| - 1];
      CandidatesExact(species, si, sj);
    }
  }

  /**
   * Each interatomic interaction is labelled with its two atoms' species
   * and indices among the atoms, and carries the pair's full table of
   * Wannier interactions.
   */
  lemma PairInteractionLabels(image: (nat, nat) -> Offset, centres: seq<seq<nat>>, numWann: nat,
                              si: string, sj: string, i: nat, j: nat)
    requires NoDigit(si) && NoDigit(sj) && i + 1 >= numWann && j + 1 >= numWann
    ensures ParseId(PairInteraction(image, centres, numWann, si, sj, (i, j)).pairId.0) == Ok((si, i - numWann + 1))
    ensures ParseId(PairInteraction(image, centres, numWann, si, sj, (i, j)).pairId.1) == Ok((sj, j - numWann + 1))
    ensures |PairInteraction(image, centres, numWann, si, sj, (i, j)).wannierInteractions|
              == |CentresAt(centres, i)| * |CentresAt(centres, j)|
  {
    LabelRoundTrip(si, i, numWann);
    LabelRoundTrip(sj, j, numWann);
    PairOrbitalsLength(image, i, CentresAt(centres, i), j, CentresAt(centres, j));
  }
}
