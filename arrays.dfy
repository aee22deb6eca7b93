// The numpy arrays that carry pengWann's energy-resolved descriptors, as
// exact reals, with the two operations the records apply to them: scaling by
// a matrix element and Python's built-in sum().

module Arrays {
  import opened Common

  /**
   * A descriptor array, indexed energy first. A k-resolved DOS matrix or WOHP
   * has one column per k-point; a k-summed curve (numpy shape (energy,)) is
   * kept as a grid with a single column. `Zero` is the integer 0 that
   * Python's sum() returns for an empty list.
   */
  datatype Array = Zero | Grid(rows: seq<seq<real>>)

  /** `a` is an `nE` x `width` grid. */
  ghost predicate HasShape(a: Array, nE: nat, width: nat) {
    a.Grid? && |a.rows| == nE && forall e :: 0 <= e < nE ==> |a.rows[e]| == width
  }

  predicate SameShape(a: seq<seq<real>>, b: seq<seq<real>>) {
    |a| == |b| && forall e :: 0 <= e < |a| ==> |a[e]| == |b[e]|
  }

  /** Element-wise `c * a`; `c * 0` stays the scalar zero. */
  function Scale(c: real, a: Array): (r: Array)
    ensures a.Zero? ==> r.Zero?
    ensures a.Grid? ==> r.Grid? && SameShape(r.rows, a.rows)
    ensures a.Grid? ==> forall e, k :: 0 <= e < |a.rows| && 0 <= k < |a.rows[e]| ==> r.rows[e][k] == Times(c, a.rows[e][k])
  {
    match a
    case Zero => Zero
    case Grid(rows) =>
      Grid(seq(|rows|, e requires 0 <= e < |rows| =>
        seq(|rows[e]|, k requires 0 <= k < |rows[e]| => c * rows[e][k])))
  }

  /**
   * numpy's `a + b`: the scalar zero is the identity, grids add element by
   * element, and grids of different shapes raise ValueError (broadcasting
   * between different shapes is not modelled).
   */
  function Add(a: Array, b: Array): (r: Result<Array>)
  {
    match (a, b)
    case (Zero, _) => Ok(b)
    case (_, Zero) => Ok(a)
    case (Grid(x), Grid(y)) =>
      if SameShape(x, y) then
        Ok(Grid(seq(|x|, e requires 0 <= e < |x| =>
          seq(|x[e]|, k requires 0 <= k < |x[e]| => x[e][k] + y[e][k]))))
      else
        Err(ValueError)
  }

  /**
   * Python's `sum(xs)`: start from the integer 0 and add left to right. A
   * missing value (None) raises TypeError when it is reached.
   */
  function PySum(xs: seq<Option<Array>>): Result<Array> {
    if xs == [] then
      Ok(Zero)
    else
      var acc :- PySum(xs[..|xs| - 1]);
      match xs[|xs| - 1]
      case None => Err(TypeError)
      case Some(a) => Add(acc, a)
  }

  /** The entry `(e, k)` of every array in `xs`. */
  function Entries(xs: seq<Option<Array>>, e: nat, k: nat): seq<real>
    requires forall t :: 0 <= t < |xs| ==>
               (xs[t].Some? && xs[t].value.Grid? && e < |xs[t].value.rows| && k < |xs[t].value.rows[e]|)
  {
    seq(|xs|, t requires 0 <= t < |xs| => xs[t].value.rows[e][k])
  }

  /**
   * The sum of a non-empty list of `nE` x `width` grids is an `nE` x `width`
   * grid whose every entry is the sum of the corresponding entries.
   */
  lemma {:induction false} PySumEntries(xs: seq<Option<Array>>, nE: nat, width: nat)
    requires |xs| > 0
    requires forall t :: 0 <= t < |xs| ==> xs[t].Some? && HasShape(xs[t].value, nE, width)
    ensures PySum(xs).Ok? && HasShape(PySum(xs).value, nE, width)
    ensures forall e, k :: 0 <= e < nE && 0 <= k < width ==>
      (forall t :: 0 <= t < |xs| ==> HasShape(xs[t].value, nE, width) && |xs[t].value.rows[e]| == width) &&
      PySum(xs).value.rows[e][k] == SumReals(Entries(xs, e, k))
  {
    var prefix := xs[..|xs| - 1];
    var last := xs[|xs| - 1].value;
    if |xs| == 1 {
      assert PySum(prefix) == Ok(Zero);
      forall e, k | 0 <= e < nE && 0 <= k < width
        ensures PySum(xs).value.rows[e][k] == SumReals(Entries(xs, e, k))
      {
        assert Entries(xs, e, k)[..0] == [];
      }
    } else {
      PySumEntries(prefix, nE, width);
      var acc := PySum(prefix).value;
      assert SameShape(acc.rows, last.rows);
      forall e, k | 0 <= e < nE && 0 <= k < width
        ensures PySum(xs).value.rows[e][k] == SumReals(Entries(xs, e, k))
      {
        assert Entries(xs, e, k)[..|xs| - 1] == Entries(prefix, e, k);
      }
    }
  }

  /** A list of same-shaped grids with a None in it makes sum() raise TypeError. */
  lemma {:induction false} PySumMissing(xs: seq<Option<Array>>, nE: nat, width: nat, t: nat)
    requires t < |xs| && xs[t].None?
    requires forall u :: 0 <= u < |xs| && xs[u].Some? ==> HasShape(xs[u].value, nE, width)
    ensures PySum(xs) == Err(TypeError)
  {
    var prefix := xs[..|xs| - 1];
    if t == |xs| - 1 {
      if PySum(prefix).Ok? {
        assert PySum(xs) == Err(TypeError);
      }
      PySumOutcome(prefix, nE, width);
    } else {
      PySumMissing(prefix, nE, width, t);
    }
  }

  /** Over same-shaped grids, sum() fails only with TypeError, and succeeds on a shaped grid or zero. */
  lemma {:induction false} PySumOutcome(xs: seq<Option<Array>>, nE: nat, width: nat)
    requires forall u :: 0 <= u < |xs| && xs[u].Some? ==> HasShape(xs[u].value, nE, width)
    ensures PySum(xs).Err? ==> PySum(xs).error == TypeError
    ensures PySum(xs).Ok? ==> PySum(xs).value.Zero? || HasShape(PySum(xs).value, nE, width)
  {
    if xs != [] {
      PySumOutcome(xs[..|xs| - 1], nE, width);
    }
  }
}
