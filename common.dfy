// Shared vocabulary of the pengWann model: optional values, the Python
// exceptions the modelled code raises, complex numbers, lattice vectors,
// exact-real sums and the index lists that Python loops build by appending.

module Common {

  datatype Option<+T> = None | Some(value: T)

  /** The Python exceptions raised by the modelled code. */
  datatype Error =
    | ValueError
    | TypeError
    | KeyError
    | IndexError
    | UnboundLocalError
    | ZeroDivisionError

  /** A computation that either returns a value or raises one of the exceptions above. */
  datatype Result<+T> = Ok(value: T) | Err(error: Error) {
    predicate IsFailure() {
      Err?
    }

    function PropagateFailure<U>(): Result<U>
      requires Err?
    {
      Err(error)
    }

    function Extract(): T
      requires Ok?
    {
      value
    }
  }

  /** `f` applied to every element in order; the first failure is the result. */
  function MapResults<T, U>(f: T -> Result<U>, xs: seq<T>): Result<seq<U>> {
    if xs == [] then
      Ok([])
    else
      var done :- MapResults(f, xs[..|xs| - 1]);
      var last :- f(xs[|xs| - 1]);
      Ok(done + [last])
  }

  /** The map succeeds iff `f` succeeds on every element, and then holds the results in order. */
  lemma {:induction false} MapResultsExact<T, U>(f: T -> Result<U>, xs: seq<T>)
    ensures MapResults(f, xs).Ok? <==> forall t :: 0 <= t < |xs| ==> f(xs[t]).Ok?
    ensures MapResults(f, xs).Ok? ==> |MapResults(f, xs).value| == |xs|
    ensures MapResults(f, xs).Ok? ==> forall t :: 0 <= t < |xs| ==> MapResults(f, xs).value[t] == f(xs[t]).value
  {
    if xs != [] {
      var prefix, last := xs[..|xs| - 1], xs[|xs| - 1];
      MapResultsExact(f, prefix);
      if MapResults(f, prefix).Err? {
        var t :| 0 <= t < |prefix| && f(prefix[t]).Err?;
        assert xs[t] == prefix[t];
      } else if f(last).Ok? {
        var done := MapResults(f, prefix).value;
        forall t | 0 <= t < |xs|
          ensures f(xs[t]).Ok? && MapResults(f, xs).value[t] == f(xs[t]).value
        {
          if t < |prefix| {
            assert xs[t] == prefix[t];
          }
        }
      }
    }
  }

  datatype Complex = Complex(re: real, im: real)

  /** An integer Bravais lattice vector. */
  type Offset = (int, int, int)

  const Origin: Offset := (0, 0, 0)

  /** Component-wise difference `a - b` of two lattice vectors. */
  function Minus(a: Offset, b: Offset): Offset {
    (a.0 - b.0, a.1 - b.1, a.2 - b.2)
  }

  /** Exact sum of a sequence of reals, accumulated left to right. */
  function SumReals(s: seq<real>): real {
    if s == [] then 0.0 else SumReals(s[..|s| - 1]) + s[|s| - 1]
  }

  lemma {:induction false} SumRealsAppend(a: seq<real>, b: seq<real>)
    ensures SumReals(a + b) == SumReals(a) + SumReals(b)
    decreases |b|
  {
    if b == [] {
      assert a + b == a;
    } else {
      assert (a + b)[..|a + b| - 1] == a + b[..|b| - 1];
      SumRealsAppend(a, b[..|b| - 1]);
    }
  }

  lemma {:induction false} SumRealsNonNegative(s: seq<real>)
    requires forall t :: 0 <= t < |s| ==> s[t] >= 0.0
    ensures SumReals(s) >= 0.0
  {
    if s != [] {
      SumRealsNonNegative(s[..|s| - 1]);
    }
  }

  /** Entry-wise sum: the sum of `a[t] + b[t]` is the sum of `a` plus the sum of `b`. */
  lemma {:induction false} SumRealsAdd(a: seq<real>, b: seq<real>, c: seq<real>)
    requires |a| == |b| == |c|
    requires forall t :: 0 <= t < |c| ==> c[t] == a[t] + b[t]
    ensures SumReals(c) == SumReals(a) + SumReals(b)
  {
    if c != [] {
      SumRealsAdd(a[..|a| - 1], b[..|b| - 1], c[..|c| - 1]);
    }
  }

  /** Scaling every term scales the sum. */
  lemma {:induction false} SumRealsScale(k: real, a: seq<real>, c: seq<real>)
    requires |a| == |c|
    requires forall t :: 0 <= t < |c| ==> c[t] == k * a[t]
    ensures SumReals(c) == k * SumReals(a)
  {
    if c != [] {
      SumRealsScale(k, a[..|a| - 1], c[..|c| - 1]);
    }
  }

  /** A linear combination of two sequences sums to the same combination of their sums. */
  lemma {:induction false} SumRealsLinear(x: real, a: seq<real>, y: real, b: seq<real>, c: seq<real>)
    requires |a| == |b| == |c|
    requires forall t :: 0 <= t < |c| ==> c[t] == x * a[t] + y * b[t]
    ensures SumReals(c) == x * SumReals(a) + y * SumReals(b)
  {
    if c != [] {
      SumRealsLinear(x, a[..|a| - 1], y, b[..|b| - 1], c[..|c| - 1]);
    }
  }

  ghost predicate StrictlyIncreasing(s: seq<nat>) {
    forall a, b :: 0 <= a < b < |s| ==> s[a] < s[b]
  }

  /** Every index in `xs` is below `n`. */
  predicate Below(xs: seq<nat>, n: nat) {
    forall t :: 0 <= t < |xs| ==> xs[t] < n
  }

  /**
   * The indices `i < n` with `p(i)`, in ascending order: the list that
   * `for i in range(n): if p(i): xs.append(i)` builds.
   */
  function Positions(n: nat, p: nat -> bool): seq<nat> {
    if n == 0 then [] else Positions(n - 1, p) + (if p(n - 1) then [n - 1] else [])
  }

  lemma {:induction false} PositionsExact(n: nat, p: nat -> bool)
    ensures forall i: nat :: i in Positions(n, p) <==> i < n && p(i)
    ensures StrictlyIncreasing(Positions(n, p))
  {
    if n > 0 {
      PositionsExact(n - 1, p);
      var prev := Positions(n - 1, p);
      forall a | 0 <= a < |prev|
        ensures prev[a] < n - 1
      {
        assert prev[a] in prev;
      }
      if p(n - 1) {
        var cur := prev + [n - 1];
        assert Positions(n, p) == cur;
        assert forall i: nat :: i in cur <==> i in prev || i == n - 1;
        forall a, b | 0 <= a < b < |cur|
          ensures cur[a] < cur[b]
        {
          assert cur[a] == prev[a];
        }
      } else {
        assert Positions(n, p) == prev;
      }
    }
  }

  lemma PositionsBelow(n: nat, p: nat -> bool, m: nat)
    requires n <= m
    ensures Below(Positions(n, p), m)
  {
    PositionsExact(n, p);
    assert forall t :: 0 <= t < |Positions(n, p)| ==> Positions(n, p)[t] in Positions(n, p);
  }

  /** Concatenation of a list of lists, in order. */
  function Concat<T>(xss: seq<seq<T>>): seq<T> {
    if xss == [] then [] else Concat(xss[..|xss| - 1]) + xss[|xss| - 1]
  }

  /** Where list `t` of `xss` starts inside `Concat(xss)`. */
  function Start<T>(xss: seq<seq<T>>, t: nat): nat
    requires t <= |xss|
  {
    |Concat(xss[..t])|
  }

  lemma {:induction false} ConcatAppend<T>(xss: seq<seq<T>>, yss: seq<seq<T>>)
    ensures Concat(xss + yss) == Concat(xss) + Concat(yss)
    decreases |yss|
  {
    if yss == [] {
      assert xss + yss == xss;
    } else {
      var zss, last := xss + yss[..|yss| - 1], yss[|yss| - 1];
      assert xss + yss == zss + [last];
      assert (zss + [last])[..|zss|] == zss;
      assert Concat(xss + yss) == Concat(zss) + last;
      ConcatAppend(xss, yss[..|yss| - 1]);
      assert Concat(yss) == Concat(yss[..|yss| - 1]) + last;
    }
  }

  /**
   * Slicing `Concat(xss)` at the running offsets gives every list back:
   * `Concat(xss)[Start(t) .. Start(t) + |xss[t]|] == xss[t]`.
   */
  lemma {:induction false} ConcatSlice<T>(xss: seq<seq<T>>, t: nat)
    requires t < |xss|
    ensures Start(xss, t + 1) == Start(xss, t) + |xss[t]|
    ensures Start(xss, t + 1) <= |Concat(xss)|
    ensures Concat(xss)[Start(xss, t)..Start(xss, t + 1)] == xss[t]
  {
    assert xss[..t + 1][..t] == xss[..t];
    assert Concat(xss[..t + 1]) == Concat(xss[..t]) + xss[t];
    assert xss == xss[..t + 1] + xss[t + 1..];
    ConcatAppend(xss[..t + 1], xss[t + 1..]);
  }

  /** An element of a concatenation comes from one of the lists, and every list's elements are in it. */
  lemma {:induction false} ConcatMember<T>(xss: seq<seq<T>>, x: T)
    ensures x in Concat(xss) <==> exists t :: 0 <= t < |xss| && x in xss[t]
  {
    if xss != [] {
      var prefix := xss[..|xss| - 1];
      ConcatMember(prefix, x);
      if x in Concat(prefix) {
        var t :| 0 <= t < |prefix| && x in prefix[t];
        assert xss[t] == prefix[t];
      }
      if exists t :: 0 <= t < |xss| && x in xss[t] {
        var t :| 0 <= t < |xss| && x in xss[t];
        if t < |xss| - 1 {
          assert prefix[t] == xss[t];
        }
      }
    }
  }

  /** Concatenating `n` lists of length `w` gives `n * w` elements. */
  lemma {:induction false} ConcatUniformLength<T>(xss: seq<seq<T>>, w: nat)
    requires forall t :: 0 <= t < |xss| ==> |xss[t]| == w
    ensures |Concat(xss)| == |xss| * w
  {
    if xss != [] {
      ConcatUniformLength(xss[..|xss| - 1], w);
      assert |xss| * w == (|xss| - 1) * w + w;
    }
  }

  /**
   * Concatenating lists that all have length `w` lays them out row by row:
   * element `b` of list `a` sits at `a * w + b`.
   */
  lemma {:induction false} ConcatUniformAt<T>(xss: seq<seq<T>>, w: nat, a: nat, b: nat)
    requires forall t :: 0 <= t < |xss| ==> |xss[t]| == w
    requires a < |xss| && b < w
    ensures a * w + b < |Concat(xss)| && Concat(xss)[a * w + b] == xss[a][b]
  {
    var n := |xss|;
    var prefix := xss[..n - 1];
    ConcatUniformLength(prefix, w);
    assert Concat(xss) == Concat(prefix) + xss[n - 1];
    if a < n - 1 {
      RowBefore(a, n - 1, w);
      ConcatUniformAt(prefix, w, a, b);
      assert prefix[a] == xss[a];
    } else {
      assert a * w == (n - 1) * w;
    }
  }

  /** Row `a` of a row-major layout ends no later than row `n` starts, for `a < n`. */
  lemma {:induction false} RowBefore(a: nat, n: nat, w: nat)
    requires a < n
    ensures a * w + w <= n * w
  {
    if n == a + 1 {
      assert (a + 1) * w == a * w + w;
    } else {
      RowBefore(a, n - 1, w);
      assert n * w == (n - 1) * w + w;
    }
  }

  /** The sum of every list of `xss`. */
  function RowSums(xss: seq<seq<real>>): (r: seq<real>)
    ensures |r| == |xss|
  {
    seq(|xss|, t requires 0 <= t < |xss| => SumReals(xss[t]))
  }

  /** Summing a concatenation is summing the sums of its parts. */
  lemma {:induction false} SumRealsConcat(xss: seq<seq<real>>)
    ensures SumReals(Concat(xss)) == SumReals(RowSums(xss))
  {
    if xss != [] {
      var n := |xss|;
      var prefix := xss[..n - 1];
      SumRealsConcat(prefix);
      SumRealsAppend(Concat(prefix), xss[n - 1]);
      assert RowSums(xss)[..n - 1] == RowSums(prefix);
    }
  }

  /**
   * The linear combination `x * p + y * q`. Statements about superposed
   * quantities are made through it, so that replacing `p` or `q` by an
   * equal term is plain equality reasoning rather than a nonlinear step.
   */
  function Lin(x: real, p: real, y: real, q: real): real {
    x * p + y * q
  }

  /** Every list of `c` sums to `Lin` of the sums of the matching lists of `a` and `b`. */
  predicate LinearRows(x: real, a: seq<seq<real>>, y: real, b: seq<seq<real>>, c: seq<seq<real>>) {
    |a| == |b| == |c| &&
    forall t :: 0 <= t < |c| ==> SumReals(c[t]) == Lin(x, SumReals(a[t]), y, SumReals(b[t]))
  }

  /** Lists related row by row as in `LinearRows` have row sums whose totals are related the same way. */
  lemma SumRowSumsLinear(x: real, a: seq<seq<real>>, y: real, b: seq<seq<real>>, c: seq<seq<real>>)
    requires LinearRows(x, a, y, b, c)
    ensures SumReals(RowSums(c)) == Lin(x, SumReals(RowSums(a)), y, SumReals(RowSums(b)))
  {
    SumRealsLinear(x, RowSums(a), y, RowSums(b), RowSums(c));
  }

  /** Under `LinearRows`, the row sums are related entry by entry. */
  lemma RowSumsLinearAt(x: real, a: seq<seq<real>>, y: real, b: seq<seq<real>>, c: seq<seq<real>>, k: nat)
    requires LinearRows(x, a, y, b, c) && k < |c|
    ensures RowSums(c)[k] == Lin(x, RowSums(a)[k], y, RowSums(b)[k])
  {
  }

  /** The product `x * p`, named for the same reason as `Lin`. */
  function Times(x: real, p: real): real {
    x * p
  }

  /** Every list of `c` sums to `x` times the sum of the matching list of `a`. */
  predicate ScaledRows(x: real, a: seq<seq<real>>, c: seq<seq<real>>) {
    |a| == |c| &&
    forall t :: 0 <= t < |c| ==> SumReals(c[t]) == Times(x, SumReals(a[t]))
  }

  /** Lists related row by row as in `ScaledRows` have row sums whose totals are scaled the same way. */
  lemma SumRowSumsScale(x: real, a: seq<seq<real>>, c: seq<seq<real>>)
    requires ScaledRows(x, a, c)
    ensures SumReals(RowSums(c)) == Times(x, SumReals(RowSums(a)))
  {
    SumRealsScale(x, RowSums(a), RowSums(c));
  }

  /** Under `ScaledRows`, the row sums are scaled entry by entry. */
  lemma RowSumsScaleAt(x: real, a: seq<seq<real>>, c: seq<seq<real>>, k: nat)
    requires ScaledRows(x, a, c) && k < |c|
    ensures RowSums(c)[k] == Times(x, RowSums(a)[k])
  {
  }

  /** The length of a concatenation is the sum of the lengths. */
  lemma {:induction false} ConcatLength<T>(xss: seq<seq<T>>)
    ensures |Concat(xss)| == Start(xss, |xss|)
  {
    assert xss[..|xss|] == xss;
  }

  /**
   * Python's `xs[idx]` on a sequence of length `n` (and numpy's along one
   * axis): `-n <= idx < n` is accepted, negative indices counting from the
   * end; anything else raises IndexError.
   */
  function PyIndex(idx: int, n: nat): (r: Result<nat>)
    ensures r.Ok? <==> -(n as int) <= idx < n
    ensures r.Err? ==> r.error == IndexError
    ensures r.Ok? ==> r.value < n && (r.value == idx || r.value == idx + n)
  {
    if 0 <= idx < n then Ok(idx)
    else if -(n as int) <= idx < 0 then Ok(idx + n)
    else Err(IndexError)
  }

  /** Extending a prefix of `b` by its next element. */
  lemma AppendNext<T>(a: seq<T>, b: seq<T>, u: nat)
    requires u < |b|
    ensures a + b[..u] + [b[u]] == a + b[..u + 1]
  {
    assert b[..u + 1] == b[..u] + [b[u]];
  }

  /** The prefix of `s` one element longer. */
  lemma TakeNext<T>(s: seq<T>, u: nat)
    requires u < |s|
    ensures s[..u + 1] == s[..u] + [s[u]]
  {
  }
}
