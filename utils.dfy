// pengwann/utils.py: sorting site indices by species, parsing atom labels
// such as "Ga1", and integrating an energy-resolved descriptor up to the
// Fermi level.

module Utils {
  import opened Common
  import opened Arrays

  // ---------------------------------------------------------------------
  // get_atom_indices

  /** The site predicate "site `i` exists and has species `symbol`". */
  function SpeciesIs(species: seq<string>, symbol: string): nat -> bool {
    (i: nat) => i < |species| && species[i] == symbol
  }

  /** The site indices whose species is `symbol`, ascending. */
  function SitesOf(species: seq<string>, symbol: string): seq<nat> {
    Positions(|species|, SpeciesIs(species, symbol))
  }

  /** The dictionary get_atom_indices returns: one entry per requested symbol. */
  function AtomIndices(species: seq<string>, symbols: seq<string>): map<string, seq<nat>> {
    map s | s in symbols :: SitesOf(species, s)
  }

  /**
   * get_atom_indices: first an empty list for every requested symbol, then
   * one pass over the sites appending each index to its species' list.
   */
  method GetAtomIndices(species: seq<string>, symbols: seq<string>) returns (atomIndices: map<string, seq<nat>>)
    ensures atomIndices == AtomIndices(species, symbols)
  {
    var lists: map<string, seq<nat>> := map[];
    for t := 0 to |symbols|
      invariant lists.Keys == set s | s in symbols[..t]
      invariant forall s :: s in lists ==> lists[s] == []
    {
      lists := lists[symbols[t] := []];
    }
    assert symbols[..|symbols|] == symbols;
    for idx := 0 to |species|
      invariant lists.Keys == set s | s in symbols
      invariant forall s :: s in lists ==> lists[s] == Positions(idx, SpeciesIs(species, s))
    {
      var symbol := species[idx];
      if symbol in symbols {
        lists := lists[symbol := lists[symbol] + [idx]];
      }
    }
    atomIndices := lists;
  }

  /**
   * Every requested symbol is a key; its tuple holds exactly the sites of
   * that species, ascending, and is empty when no site has it; tuples of
   * distinct symbols share no index.
   */
  lemma AtomIndicesProperties(species: seq<string>, symbols: seq<string>)
    ensures AtomIndices(species, symbols).Keys == set s | s in symbols
    ensures forall s, i: nat :: s in symbols ==>
              (i in AtomIndices(species, symbols)[s] <==> i < |species| && species[i] == s)
    ensures forall s :: s in symbols ==> StrictlyIncreasing(AtomIndices(species, symbols)[s])
    ensures forall s :: s in symbols ==> (AtomIndices(species, symbols)[s] == [] <==> s !in species)
    ensures forall s1, s2, i: nat ::
              (s1 in symbols && s2 in symbols && s1 != s2 && i in AtomIndices(species, symbols)[s1]) ==>
              i !in AtomIndices(species, symbols)[s2]
  {
    var ai := AtomIndices(species, symbols);
    forall s | s in symbols
      ensures forall i: nat :: i in ai[s] <==> i < |species| && species[i] == s
      ensures StrictlyIncreasing(ai[s])
      ensures ai[s] == [] <==> s !in species
    {
      assert ai[s] == SitesOf(species, s);
      SitesOfExact(species, s);
    }
  }

  /** The sites listed for `s` are exactly those of species `s`, ascending, and none when `s` is absent. */
  lemma SitesOfExact(species: seq<string>, s: string)
    ensures forall i: nat :: i in SitesOf(species, s) <==> i < |species| && species[i] == s
    ensures StrictlyIncreasing(SitesOf(species, s))
    ensures SitesOf(species, s) == [] <==> s !in species
  {
    var sites := SitesOf(species, s);
    PositionsExact(|species|, SpeciesIs(species, s));
    if s in species {
      var i :| 0 <= i < |species| && species[i] == s;
      assert i in sites;
    }
    if sites != [] {
      assert sites[0] in sites;
    }
  }

  // ---------------------------------------------------------------------
  // Atom labels and parse_id

  predicate IsDigit(c: char) {
    '0' <= c <= '9'
  }

  predicate NoDigit(s: string) {
    forall k :: 0 <= k < |s| ==> !IsDigit(s[k])
  }

  predicate AllDigits(s: string) {
    forall k :: 0 <= k < |s| ==> IsDigit(s[k])
  }

  /** The index of the first digit of `s`, if any. */
  function FirstDigit(s: string): (r: Option<nat>)
    ensures r.Some? ==> r.value < |s| && IsDigit(s[r.value]) && NoDigit(s[..r.value])
    ensures r.None? ==> NoDigit(s)
  {
    if s == [] then
      None
    else if IsDigit(s[0]) then
      Some(0)
    else
      match FirstDigit(s[1..])
      case None => None
      case Some(i) =>
        assert s[..i + 1] == [s[0]] + s[1..][..i];
        Some(i + 1)
  }

  /** The value of a string of decimal digits, read left to right. */
  function DigitsValue(s: string): nat
    requires AllDigits(s)
  {
    if s == [] then 0 else DigitsValue(s[..|s| - 1]) * 10 + (s[|s| - 1] as int - '0' as int)
  }

  /**
   * parse_id: the symbol is everything before the first digit and the index
   * is `int()` of the rest. With no digit at all, `symbol` and `index` are
   * never bound and the return raises UnboundLocalError; a rest that is not
   * all digits makes `int()` raise ValueError.
   */
  function ParseId(identifier: string): (r: Result<(string, int)>)
    ensures r == Err(UnboundLocalError) <==> NoDigit(identifier)
    ensures r.Err? && !NoDigit(identifier) ==> r.error == ValueError
    ensures r.Ok? ==> NoDigit(r.value.0) && |r.value.0| < |identifier|
    ensures r.Ok? ==> identifier[..|r.value.0|] == r.value.0 && AllDigits(identifier[|r.value.0|..])
    ensures r.Ok? ==> r.value.1 == DigitsValue(identifier[|r.value.0|..])
  {
    match FirstDigit(identifier)
    case None => Err(UnboundLocalError)
    case Some(i) =>
      if AllDigits(identifier[i..]) then
        Ok((identifier[..i], DigitsValue(identifier[i..])))
      else
        Err(ValueError)
  }

  /** parse_id's loop: scan for the first digit, then split there. */
  method SplitIdentifier(identifier: string) returns (r: Result<(string, int)>)
    ensures r == ParseId(identifier)
  {
    var i := 0;
    while i < |identifier|
      invariant i <= |identifier|
      invariant NoDigit(identifier[..i])
    {
      if IsDigit(identifier[i]) {
        FirstDigitAt(identifier, i);
        if AllDigits(identifier[i..]) {
          return Ok((identifier[..i], DigitsValue(identifier[i..])));
        }
        return Err(ValueError);
      }
      assert identifier[..i + 1] == identifier[..i] + [identifier[i]];
      i := i + 1;
    }
    assert identifier[..i] == identifier;
    return Err(UnboundLocalError);
  }

  function DigitChar(d: nat): char
    requires d < 10
  {
    ('0' as int + d) as char
  }

  /** Python's `str(n)` for a non-negative integer. */
  function NatToString(n: nat): string {
    if n < 10 then [DigitChar(n)] else NatToString(n / 10) + [DigitChar(n % 10)]
  }

  /** Python's `str(n)` for any integer. */
  function IntToString(n: int): string {
    if n < 0 then "-" + NatToString(-n) else NatToString(n)
  }

  /** The label geometry.py gives site `idx`: `symbol + str(idx - num_wann + 1)`. */
  function Label(symbol: string, idx: nat, numWann: nat): string {
    symbol + IntToString(idx - numWann + 1)
  }

  lemma {:induction false} NatToStringDigits(n: nat)
    ensures |NatToString(n)| > 0 && AllDigits(NatToString(n))
    ensures DigitsValue(NatToString(n)) == n
  {
    if n >= 10 {
      NatToStringDigits(n / 10);
      var s := NatToString(n);
      assert s[..|s| - 1] == NatToString(n / 10);
    }
  }

  /** The first digit is the one at `i` exactly when no digit comes before it. */
  lemma FirstDigitAt(s: string, i: nat)
    requires i < |s| && IsDigit(s[i]) && NoDigit(s[..i])
    ensures FirstDigit(s) == Some(i)
  {
    var f := FirstDigit(s);
    assert s[..i + 1][i] == s[i];
  }

  /**
   * Split at the first digit `i`: parse_id succeeds iff everything from `i`
   * on is a digit, giving the prefix and the value of the digits, and
   * raises ValueError otherwise.
   */
  lemma ParseIdAtFirstDigit(identifier: string, i: nat)
    requires i < |identifier| && IsDigit(identifier[i]) && NoDigit(identifier[..i])
    ensures ParseId(identifier).Ok? <==> AllDigits(identifier[i..])
    ensures ParseId(identifier).Err? ==> ParseId(identifier).error == ValueError
    ensures ParseId(identifier).Ok? ==>
              ParseId(identifier).value.0 == identifier[..i] &&
              ParseId(identifier).value.1 == DigitsValue(identifier[i..])
  {
    FirstDigitAt(identifier, i);
  }

  /** `int("1x")` fails: "C1x" raises ValueError. */
  lemma ParseIdTrailingLetter()
    ensures ParseId("C1x") == Err(ValueError)
  {
    var s := "C1x";
    assert s[..1] == "C" && s[1..] == "1x";
    ParseIdAtFirstDigit(s, 1);
    assert !AllDigits(s[1..]) by { assert !IsDigit(s[1..][1]); }
  }

  /** A digit-free prefix followed by a non-empty digit string parses back into its two parts. */
  lemma ParseIdSplit(symbol: string, digits: string)
    requires NoDigit(symbol)
    requires |digits| > 0 && AllDigits(digits)
    ensures ParseId(symbol + digits) == Ok((symbol, DigitsValue(digits)))
  {
    var s := symbol + digits;
    assert s[..|symbol|] == symbol && s[|symbol|..] == digits;
    FirstDigitAt(s, |symbol|);
  }

  /** parse_id inverts `symbol + str(n)` for a digit-free symbol and `n >= 0`. */
  lemma ParseIdRoundTrip(symbol: string, n: nat)
    requires NoDigit(symbol)
    ensures ParseId(symbol + NatToString(n)) == Ok((symbol, n))
  {
    NatToStringDigits(n);
    ParseIdSplit(symbol, NatToString(n));
  }

  /**
   * When the Wannier-centre sites come first (`idx >= num_wann - 1`), the
   * label of site `idx` parses back to its symbol and `idx - num_wann + 1`,
   * so `index + num_wann - 1` recovers the site.
   */
  lemma LabelRoundTrip(symbol: string, idx: nat, numWann: nat)
    requires NoDigit(symbol)
    requires idx + 1 >= numWann
    ensures ParseId(Label(symbol, idx, numWann)) == Ok((symbol, idx - numWann + 1))
  {
    var n: nat := idx - numWann + 1;
    assert Label(symbol, idx, numWann) == symbol + NatToString(n);
    ParseIdRoundTrip(symbol, n);
  }

  /**
   * An atom listed before the centres gets a negative label such as "Ga-2",
   * which parse_id reads as symbol "Ga-" and index 2: the label is not inverted.
   */
  lemma LabelBeforeCentres(symbol: string, idx: nat, numWann: nat)
    requires NoDigit(symbol)
    requires idx + 1 < numWann
    ensures ParseId(Label(symbol, idx, numWann)) == Ok((symbol + "-", numWann - idx - 1))
  {
    var prefix, m := symbol + "-", numWann - idx - 1;
    assert NoDigit(prefix) by {
      forall t | 0 <= t < |prefix|
        ensures !IsDigit(prefix[t])
      {
        if t < |symbol| {
          assert prefix[t] == symbol[t];
        }
      }
    }
    assert IntToString(idx - numWann + 1) == "-" + NatToString(m);
    assert Label(symbol, idx, numWann) == prefix + NatToString(m);
    ParseIdRoundTrip(prefix, m);
  }

  // ---------------------------------------------------------------------
  // integrate

  /** The first index whose energy is strictly above `mu` (the loop with `break`). */
  function FermiIndex(energies: seq<real>, mu: real): (r: Option<nat>)
    ensures r.Some? ==> r.value < |energies| && energies[r.value] > mu
    ensures r.Some? ==> forall t :: 0 <= t < r.value ==> energies[t] <= mu
    ensures r.None? ==> forall t :: 0 <= t < |energies| ==> energies[t] <= mu
  {
    if energies == [] then
      None
    else if energies[0] > mu then
      Some(0)
    else
      match FermiIndex(energies[1..], mu)
      case None => None
      case Some(i) => Some(i + 1)
  }

  /** scipy's trapezoid(ys, xs) in exact arithmetic: the sum of the trapezia between consecutive samples. */
  function Trapezoid(xs: seq<real>, ys: seq<real>): real
    requires |xs| == |ys|
  {
    if |xs| <= 1 then
      0.0
    else
      Trapezoid(xs[..|xs| - 1], ys[..|ys| - 1])
        + (xs[|xs| - 1] - xs[|xs| - 2]) * (ys[|ys| - 2] + ys[|ys| - 1]) / 2.0
  }

  function Width(rows: seq<seq<real>>): nat {
    if rows == [] then 0 else |rows[0]|
  }

  /** `a` is sampled on an energy grid of `nE` points (or is the scalar zero). */
  ghost predicate OnGrid(a: Array, nE: nat) {
    a.Grid? ==> HasShape(a, nE, Width(a.rows))
  }

  function Column(rows: seq<seq<real>>, c: nat): seq<real>
    requires forall e :: 0 <= e < |rows| ==> c < |rows[e]|
  {
    seq(|rows|, e requires 0 <= e < |rows| => rows[e][c])
  }

  /**
   * integrate (called integrate_descriptor in geometry.py): trapezoid rule
   * over the samples `[0, fermi_idx)`, column by column. No energy above
   * `mu` leaves `fermi_idx` unbound (UnboundLocalError); slicing the integer
   * zero raises TypeError.
   */
  function Integrate(energies: seq<real>, descriptor: Array, mu: real): (r: Result<seq<real>>)
    requires OnGrid(descriptor, |energies|)
    ensures r == Err(UnboundLocalError) <==> FermiIndex(energies, mu).None?
    ensures r == Err(TypeError) <==> FermiIndex(energies, mu).Some? && descriptor.Zero?
    ensures r.Ok? ==> descriptor.Grid? && |r.value| == Width(descriptor.rows)
  {
    match FermiIndex(energies, mu)
    case None => Err(UnboundLocalError)
    case Some(f) =>
      match descriptor
      case Zero => Err(TypeError)
      case Grid(rows) =>
        Ok(seq(Width(rows), c requires 0 <= c < Width(rows) =>
          Trapezoid(energies[..f], Column(rows[..f], c))))
  }

  /**
   * integrate's loop: walk the energies until one exceeds `mu`, then apply
   * the trapezoid rule to the samples before it.
   */
  method IntegrateToFermiLevel(energies: seq<real>, descriptor: Array, mu: real) returns (r: Result<seq<real>>)
    requires OnGrid(descriptor, |energies|)
    ensures r == Integrate(energies, descriptor, mu)
  {
    var fermiIdx: Option<nat> := None;
    var idx := 0;
    while idx < |energies|
      invariant idx <= |energies|
      invariant forall t :: 0 <= t < idx ==> energies[t] <= mu
    {
      if energies[idx] > mu {
        fermiIdx := Some(idx);
        break;
      }
      idx := idx + 1;
    }
    match fermiIdx
    case None =>
      r := Err(UnboundLocalError);
    case Some(f) =>
      match descriptor
      case Zero =>
        r := Err(TypeError);
      case Grid(rows) =>
        r := Ok(seq(Width(rows), c requires 0 <= c < Width(rows) =>
          Trapezoid(energies[..f], Column(rows[..f], c))));
  }

  /** Scaling the samples scales the trapezoid sum. */
  lemma {:induction false} TrapezoidScale(xs: seq<real>, ys: seq<real>, k: real, zs: seq<real>)
    requires |xs| == |ys| == |zs|
    requires forall t :: 0 <= t < |zs| ==> zs[t] == Times(k, ys[t])
    ensures Trapezoid(xs, zs) == Times(k, Trapezoid(xs, ys))
  {
    var n := |xs|;
    if n > 1 {
      TrapezoidScale(xs[..n - 1], ys[..n - 1], k, zs[..n - 1]);
      var w := xs[n - 1] - xs[n - 2];
      assert w * (zs[n - 2] + zs[n - 1]) == k * (w * (ys[n - 2] + ys[n - 1]));
    }
  }

  /**
   * Integration is linear: integrating `k * d` gives `k` times the integral
   * of `d`, and fails exactly when integrating `d` does.
   */
  lemma IntegrateScale(energies: seq<real>, k: real, d: Array, mu: real)
    requires OnGrid(d, |energies|)
    ensures OnGrid(Scale(k, d), |energies|)
    ensures Integrate(energies, Scale(k, d), mu).Ok? <==> Integrate(energies, d, mu).Ok?
    ensures Integrate(energies, Scale(k, d), mu).Ok? ==>
              |Integrate(energies, Scale(k, d), mu).value| == |Integrate(energies, d, mu).value| &&
              forall c :: 0 <= c < |Integrate(energies, d, mu).value| ==>
                Integrate(energies, Scale(k, d), mu).value[c] == Times(k, Integrate(energies, d, mu).value[c])
  {
    if d.Grid? && FermiIndex(energies, mu).Some? {
      var f := FermiIndex(energies, mu).value;
      var s := Scale(k, d);
      assert Width(s.rows) == Width(d.rows);
      forall c | 0 <= c < Width(d.rows)
        ensures Trapezoid(energies[..f], Column(s.rows[..f], c)) == Times(k, Trapezoid(energies[..f], Column(d.rows[..f], c)))
      {
        TrapezoidScale(energies[..f], Column(d.rows[..f], c), k, Column(s.rows[..f], c));
      }
    }
  }

  ghost predicate Ascending(xs: seq<real>) {
    forall a, b :: 0 <= a <= b < |xs| ==> xs[a] <= xs[b]
  }

  ghost predicate NonNegative(a: Array) {
    a.Grid? ==> forall e, k :: 0 <= e < |a.rows| && 0 <= k < |a.rows[e]| ==> a.rows[e][k] >= 0.0
  }

  /** One more sample adds one trapezium. */
  lemma TrapezoidLast(xs: seq<real>, ys: seq<real>, b: nat)
    requires |xs| == |ys| && 2 <= b <= |xs|
    ensures Trapezoid(xs[..b], ys[..b])
         == Trapezoid(xs[..b - 1], ys[..b - 1]) + (xs[b - 1] - xs[b - 2]) * (ys[b - 2] + ys[b - 1]) / 2.0
  {
    assert xs[..b][..b - 1] == xs[..b - 1];
    assert ys[..b][..b - 1] == ys[..b - 1];
  }

  /** Over ascending abscissae a non-negative curve gains a non-negative trapezium per sample. */
  lemma TrapezoidStep(xs: seq<real>, ys: seq<real>, b: nat)
    requires |xs| == |ys| && 1 <= b <= |xs|
    requires Ascending(xs)
    requires forall t :: 0 <= t < |ys| ==> ys[t] >= 0.0
    ensures Trapezoid(xs[..b - 1], ys[..b - 1]) <= Trapezoid(xs[..b], ys[..b])
  {
    if b >= 2 {
      TrapezoidLast(xs, ys, b);
      var w := xs[b - 1] - xs[b - 2];
      var h := ys[b - 2] + ys[b - 1];
      assert w >= 0.0 && h >= 0.0;
      assert w * h >= 0.0;
    } else {
      assert |xs[..b]| == 1 && |xs[..b - 1]| == 0;
    }
  }

  /** Over ascending abscissae a non-negative curve has a non-negative, growing running integral. */
  lemma {:induction false} TrapezoidGrows(xs: seq<real>, ys: seq<real>, a: nat, b: nat)
    requires |xs| == |ys| && a <= b <= |xs|
    requires Ascending(xs)
    requires forall t :: 0 <= t < |ys| ==> ys[t] >= 0.0
    ensures 0.0 <= Trapezoid(xs[..a], ys[..a]) <= Trapezoid(xs[..b], ys[..b])
    decreases b
  {
    if b == 0 {
      assert |xs[..0]| == 0;
    } else if a == b {
      TrapezoidGrows(xs, ys, b - 1, b - 1);
      TrapezoidStep(xs, ys, b);
    } else {
      TrapezoidGrows(xs, ys, a, b - 1);
      TrapezoidStep(xs, ys, b);
    }
  }

  /**
   * Only the samples before the first energy above `mu` matter: two
   * descriptors that agree there integrate to the same values.
   */
  lemma IntegrateUsesPrefixOnly(energies: seq<real>, d1: Array, d2: Array, mu: real)
    requires OnGrid(d1, |energies|) && OnGrid(d2, |energies|)
    requires d1.Grid? && d2.Grid? && Width(d1.rows) == Width(d2.rows)
    requires FermiIndex(energies, mu).Some?
    requires d1.rows[..FermiIndex(energies, mu).value] == d2.rows[..FermiIndex(energies, mu).value]
    ensures Integrate(energies, d1, mu) == Integrate(energies, d2, mu)
  {
    var f := FermiIndex(energies, mu).value;
    forall c | 0 <= c < Width(d1.rows)
      ensures Column(d1.rows[..f], c) == Column(d2.rows[..f], c)
    {
    }
  }

  /**
   * For ascending energies and a non-negative descriptor the integral is
   * non-negative and does not decrease as the Fermi level rises.
   */
  lemma IntegrateMonotone(energies: seq<real>, d: Array, mu1: real, mu2: real)
    requires OnGrid(d, |energies|)
    requires Ascending(energies) && NonNegative(d)
    requires mu1 <= mu2
    requires Integrate(energies, d, mu2).Ok?
    ensures Integrate(energies, d, mu1).Ok?
    ensures |Integrate(energies, d, mu1).value| == |Integrate(energies, d, mu2).value|
    ensures forall c :: 0 <= c < |Integrate(energies, d, mu1).value| ==>
              0.0 <= Integrate(energies, d, mu1).value[c] <= Integrate(energies, d, mu2).value[c]
  {
    var f1 := FermiIndex(energies, mu1).value;
    var f2 := FermiIndex(energies, mu2).value;
    assert f1 <= f2;
    var rows := d.rows;
    forall c | 0 <= c < Width(rows)
      ensures 0.0 <= Trapezoid(energies[..f1], Column(rows[..f1], c))
                  <= Trapezoid(energies[..f2], Column(rows[..f2], c))
    {
      var ys := Column(rows, c);
      assert Column(rows[..f1], c) == ys[..f1];
      assert Column(rows[..f2], c) == ys[..f2];
      TrapezoidGrows(energies, ys, f1, f2);
    }
  }
}
