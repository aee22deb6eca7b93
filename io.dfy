// The Wannier90 text readers: the unitary matrices of `seedname_u.mat`,
// the eigenvalues of `seedname.eig` and the real-space Hamiltonian of
// `seedname_hr.dat`. A file is given as its lines, each already split on
// whitespace; turning a token into an int or a float is a parser passed in,
// which answers None where Python's `int()` or `float()` raises ValueError.

module Io {
  import opened Common

  /** One line of a file, split on whitespace (`line.split()`). */
  type Line = seq<string>

  type Matrix = seq<seq<Complex>>

  // ---------------------------------------------------------------------
  // Loops that build a list and stop at the first failure

  /**
   * The list `[f(0), ..., f(n - 1)]` built by a loop that appends one item
   * per pass and raises the first failure.
   */
  function Collect<T>(n: nat, f: nat -> Result<T>): (r: Result<seq<T>>)
    ensures r.Ok? <==> forall i :: 0 <= i < n ==> f(i).Ok?
    ensures r.Ok? ==> |r.value| == n && forall i :: 0 <= i < n ==> r.value[i] == f(i).value
    ensures r.Err? ==> exists i :: 0 <= i < n && f(i) == Err(r.error) && forall j :: 0 <= j < i ==> f(j).Ok?
  {
    if n == 0 then
      Ok([])
    else
      var xs :- Collect(n - 1, f);
      var x :- f(n - 1);
      Ok(xs + [x])
  }

  /** A pass that fails after passes that all succeeded is the failure the loop raises. */
  lemma CollectStopsAt<T>(n: nat, f: nat -> Result<T>, t: nat)
    requires t < n && Collect(t, f).Ok? && f(t).Err?
    ensures Collect(n, f) == Err(f(t).error)
  {
  }

  /** One more successful pass appends its item. */
  lemma CollectStep<T>(f: nat -> Result<T>, t: nat, xs: seq<T>, x: T)
    requires Collect(t, f) == Ok(xs) && f(t) == Ok(x)
    ensures Collect(t + 1, f) == Ok(xs + [x])
  {
  }

  /** `Option` to `Result`, None being the ValueError of `int()` or `float()`. */
  function Parsed<T>(v: Option<T>): (r: Result<T>)
    ensures r.Ok? <==> v.Some?
    ensures r.Ok? ==> r.value == v.value
    ensures r.Err? ==> r.error == ValueError
  {
    match v
    case Some(x) => Ok(x)
    case None => Err(ValueError)
  }

  function TokenParser<T>(tokens: seq<string>, parse: string -> Option<T>): nat -> Result<T> {
    (i: nat) => if i < |tokens| then Parsed(parse(tokens[i])) else Err(ValueError)
  }

  /** `[parse(s) for s in tokens]`: every token converted, or ValueError. */
  function ParseEach<T>(tokens: seq<string>, parse: string -> Option<T>): (r: Result<seq<T>>)
    ensures r.Ok? <==> forall i :: 0 <= i < |tokens| ==> parse(tokens[i]).Some?
    ensures r.Ok? ==> |r.value| == |tokens| && forall i :: 0 <= i < |tokens| ==> r.value[i] == parse(tokens[i]).value
    ensures r.Err? ==> r.error == ValueError
  {
    assert forall i :: 0 <= i < |tokens| ==> TokenParser(tokens, parse)(i) == Parsed(parse(tokens[i]));
    Collect(|tokens|, TokenParser(tokens, parse))
  }

  /** The number of passes of `range(n)`. */
  function Range(n: int): (r: nat)
    ensures n >= 0 ==> r == n
    ensures n < 0 ==> r == 0
  {
    if n < 0 then 0 else n
  }

  /** `lines[idx]`, with Python's negative indices and its IndexError. */
  function LineAt(lines: seq<Line>, idx: int): (r: Result<Line>)
    ensures r.Ok? <==> -(|lines| as int) <= idx < |lines|
    ensures r.Err? ==> r.error == IndexError
    ensures 0 <= idx < |lines| ==> r == Ok(lines[idx])
    ensures idx < 0 && r.Ok? ==> r.value == lines[idx + |lines|]
  {
    var i :- PyIndex(idx, |lines|);
    Ok(lines[i])
  }

  /** `real, imaginary = [float(s) for s in tokens]`: exactly two floats. */
  function ComplexOf(tokens: Line, parseFloat: string -> Option<real>): (r: Result<Complex>)
    ensures r.Ok? <==> |tokens| == 2 && parseFloat(tokens[0]).Some? && parseFloat(tokens[1]).Some?
    ensures r.Ok? ==> r.value == Complex(parseFloat(tokens[0]).value, parseFloat(tokens[1]).value)
    ensures r.Err? ==> r.error == ValueError
  {
    var v :- ParseEach(tokens, parseFloat);
    if |v| != 2 then Err(ValueError) else Ok(Complex(v[0], v[1]))
  }

  // ---------------------------------------------------------------------
  // read_U

  /** `s[:-1]`. */
  function AllButLast<T>(s: seq<T>): (r: seq<T>)
    ensures |r| == if s == [] then 0 else |s| - 1
    ensures forall i :: 0 <= i < |r| ==> r[i] == s[i]
  {
    if s == [] then [] else s[..|s| - 1]
  }

  /**
   * Line 1 of `seedname_u.mat` without its last token is
   * `num_kpoints num_wann`.
   */
  function UHeader(lines: seq<Line>, parseInt: string -> Option<int>): (r: Result<(int, int)>)
    ensures r.Ok? <==>
              && |lines| > 1 && |lines[1]| == 3
              && parseInt(lines[1][0]).Some? && parseInt(lines[1][1]).Some?
    ensures r.Ok? ==> r.value == (parseInt(lines[1][0]).value, parseInt(lines[1][1]).value)
  {
    var l :- LineAt(lines, 1);
    var ns :- ParseEach(AllButLast(l), parseInt);
    if |ns| != 2 then Err(ValueError) else Ok((ns[0], ns[1]))
  }

  /** The first element line of k-point `k`'s block; its k-vector is on the line before. */
  function Block(k: nat, numWann: int): int {
    k * (numWann * numWann + 2) + 4
  }

  /** The line holding `U^k[row][col]`: the block is stored column by column. */
  function ElementLine(k: nat, numWann: int, row: nat, col: nat): int {
    Block(k, numWann) + row + col * numWann
  }

  function KPointAt(lines: seq<Line>, k: nat, numWann: int, parseFloat: string -> Option<real>): Result<seq<real>> {
    var l :- LineAt(lines, Block(k, numWann) - 1);
    ParseEach(l, parseFloat)
  }

  function ElementAt(lines: seq<Line>, k: nat, numWann: int, row: nat, col: nat, parseFloat: string -> Option<real>)
    : Result<Complex>
  {
    var l :- LineAt(lines, ElementLine(k, numWann, row, col));
    ComplexOf(l, parseFloat)
  }

  function RowPass(lines: seq<Line>, k: nat, numWann: int, row: nat, parseFloat: string -> Option<real>)
    : nat -> Result<Complex>
  {
    (col: nat) => ElementAt(lines, k, numWann, row, col, parseFloat)
  }

  function URow(lines: seq<Line>, k: nat, numWann: int, row: nat, parseFloat: string -> Option<real>)
    : Result<seq<Complex>>
  {
    Collect(Range(numWann), RowPass(lines, k, numWann, row, parseFloat))
  }

  function MatrixPass(lines: seq<Line>, k: nat, numWann: int, parseFloat: string -> Option<real>)
    : nat -> Result<seq<Complex>>
  {
    (row: nat) => URow(lines, k, numWann, row, parseFloat)
  }

  /** One pass of the loop over the blocks: the k-vector, then the matrix row by row. */
  function UBlock(lines: seq<Line>, k: nat, numWann: int, parseFloat: string -> Option<real>)
    : Result<(Matrix, seq<real>)>
  {
    var kpoint :- KPointAt(lines, k, numWann, parseFloat);
    var u :- Collect(Range(numWann), MatrixPass(lines, k, numWann, parseFloat));
    Ok((u, kpoint))
  }

  function BlockPass(lines: seq<Line>, numWann: int, parseFloat: string -> Option<real>)
    : nat -> Result<(Matrix, seq<real>)>
  {
    (k: nat) => UBlock(lines, k, numWann, parseFloat)
  }

  function Firsts<A, B>(ps: seq<(A, B)>): (r: seq<A>)
    ensures |r| == |ps| && forall t :: 0 <= t < |ps| ==> r[t] == ps[t].0
  {
    seq(|ps|, t requires 0 <= t < |ps| => ps[t].0)
  }

  function Seconds<A, B>(ps: seq<(A, B)>): (r: seq<B>)
    ensures |r| == |ps| && forall t :: 0 <= t < |ps| ==> r[t] == ps[t].1
  {
    seq(|ps|, t requires 0 <= t < |ps| => ps[t].1)
  }

  /** read_U: the matrices `U^k` and the k-points, in file order. */
  function ReadU(lines: seq<Line>, parseInt: string -> Option<int>, parseFloat: string -> Option<real>)
    : Result<(seq<Matrix>, seq<seq<real>>)>
  {
    var header :- UHeader(lines, parseInt);
    var blocks :- Collect(Range(header.0), BlockPass(lines, header.1, parseFloat));
    Ok((Firsts(blocks), Seconds(blocks)))
  }

  /**
   * Within a block, `(row, col) -> row + col * num_wann` maps the
   * `num_wann x num_wann` entries one to one onto the `num_wann^2` lines
   * from the block's start.
   */
  lemma ElementLinesBijective(k: nat, numWann: nat)
    ensures forall row: nat, col: nat :: row < numWann && col < numWann ==>
              Block(k, numWann) <= ElementLine(k, numWann, row, col) < Block(k, numWann) + numWann * numWann
    ensures forall row: nat, col: nat, row': nat, col': nat ::
              (row < numWann && col < numWann && row' < numWann && col' < numWann &&
               ElementLine(k, numWann, row, col) == ElementLine(k, numWann, row', col')) ==> row == row' && col == col'
    ensures forall i :: 0 <= i < numWann * numWann ==>
              ElementLine(k, numWann, i % numWann, i / numWann) == Block(k, numWann) + i
  {
    forall row: nat, col: nat | row < numWann && col < numWann
      ensures Block(k, numWann) <= ElementLine(k, numWann, row, col) < Block(k, numWann) + numWann * numWann
    {
      assert col * numWann + numWann <= numWann * numWann by {
        RowBefore(col, numWann, numWann);
      }
    }
    forall row: nat, col: nat, row': nat, col': nat |
      row < numWann && col < numWann && row' < numWann && col' < numWann &&
      ElementLine(k, numWann, row, col) == ElementLine(k, numWann, row', col')
      ensures row == row' && col == col'
    {
      ColumnMajorInjective(numWann, row, col, row', col');
    }
    forall i | 0 <= i < numWann * numWann
      ensures ElementLine(k, numWann, i % numWann, i / numWann) == Block(k, numWann) + i
    {
      assert i == i % numWann + (i / numWann) * numWann;
    }
  }

  lemma ColumnMajorInjective(w: nat, row: nat, col: nat, row': nat, col': nat)
    requires row < w && row' < w && row + col * w == row' + col' * w
    ensures row == row' && col == col'
  {
    if col < col' {
      RowBefore(col, col', w);
    } else if col' < col {
      RowBefore(col', col, w);
    }
  }

  /**
   * Blocks never overlap: every line block `k` reads lies before the
   * k-vector line of block `k + 1`.
   */
  lemma BlocksDisjoint(k: nat, numWann: nat)
    ensures Block(k + 1, numWann) - 1 == Block(k, numWann) + numWann * numWann + 1
  {
    assert (k + 1) * (numWann * numWann + 2) == k * (numWann * numWann + 2) + numWann * numWann + 2;
  }

  /**
   * What read_U returns: `num_kpoints` k-vectors and `num_kpoints`
   * matrices of `num_wann x num_wann` entries, entry `[row][col]` of
   * matrix `k` being the two floats of line `block_k + row + col * num_wann`
   * and k-vector `k` the floats of line `block_k - 1`.
   */
  lemma ReadUContents(lines: seq<Line>, parseInt: string -> Option<int>, parseFloat: string -> Option<real>)
    requires ReadU(lines, parseInt, parseFloat).Ok?
    ensures var (numKpoints, numWann) := UHeader(lines, parseInt).value;
            var (us, kpoints) := ReadU(lines, parseInt, parseFloat).value;
      && |us| == |kpoints| == Range(numKpoints)
      && forall k :: 0 <= k < |us| ==>
           && KPointAt(lines, k, numWann, parseFloat) == Ok(kpoints[k])
           && |us[k]| == Range(numWann)
           && forall row :: 0 <= row < |us[k]| ==>
                && |us[k][row]| == Range(numWann)
                && forall col :: 0 <= col < |us[k][row]| ==>
                     ElementAt(lines, k, numWann, row, col, parseFloat) == Ok(us[k][row][col])
  {
    var (numKpoints, numWann) := UHeader(lines, parseInt).value;
    var blocks := Collect(Range(numKpoints), BlockPass(lines, numWann, parseFloat)).value;
    forall k | 0 <= k < |blocks|
      ensures KPointAt(lines, k, numWann, parseFloat) == Ok(blocks[k].1)
      ensures |blocks[k].0| == Range(numWann)
      ensures forall row :: 0 <= row < Range(numWann) ==>
                && |blocks[k].0[row]| == Range(numWann)
                && forall col :: 0 <= col < Range(numWann) ==>
                     ElementAt(lines, k, numWann, row, col, parseFloat) == Ok(blocks[k].0[row][col])
    {
      assert BlockPass(lines, numWann, parseFloat)(k) == Ok(blocks[k]);
      BlockContents(lines, k, numWann, parseFloat, blocks[k]);
    }
  }

  /** A block read without error holds the k-point's coordinates and the `U^k` entries of its element lines. */
  lemma BlockContents(lines: seq<Line>, k: nat, numWann: int, parseFloat: string -> Option<real>,
                      block: (Matrix, seq<real>))
    requires UBlock(lines, k, numWann, parseFloat) == Ok(block)
    ensures KPointAt(lines, k, numWann, parseFloat) == Ok(block.1)
    ensures |block.0| == Range(numWann)
    ensures forall row :: 0 <= row < Range(numWann) ==>
              && |block.0[row]| == Range(numWann)
              && forall col :: 0 <= col < Range(numWann) ==>
                   ElementAt(lines, k, numWann, row, col, parseFloat) == Ok(block.0[row][col])
  {
    var rows := Collect(Range(numWann), MatrixPass(lines, k, numWann, parseFloat)).value;
    assert block.0 == rows;
    forall row | 0 <= row < Range(numWann)
      ensures |rows[row]| == Range(numWann)
      ensures forall col :: 0 <= col < Range(numWann) ==>
                ElementAt(lines, k, numWann, row, col, parseFloat) == Ok(rows[row][col])
    {
      assert MatrixPass(lines, k, numWann, parseFloat)(row) == Ok(rows[row]);
      forall col | 0 <= col < Range(numWann)
        ensures ElementAt(lines, k, numWann, row, col, parseFloat) == Ok(rows[row][col])
      {
        assert RowPass(lines, k, numWann, row, parseFloat)(col) == Ok(rows[row][col]);
      }
    }
  }

  /** The innermost loop of read_U: one row of `U^k`, reading across the columns. */
  method ReadURow(lines: seq<Line>, k: nat, numWann: int, row: nat, parseFloat: string -> Option<real>)
    returns (r: Result<seq<Complex>>)
    ensures r == URow(lines, k, numWann, row, parseFloat)
  {
    var f := RowPass(lines, k, numWann, row, parseFloat);
    var elements: seq<Complex> := [];
    for col := 0 to Range(numWann)
      invariant Collect(col, f) == Ok(elements)
    {
      var l := LineAt(lines, ElementLine(k, numWann, row, col));
      if l.Err? {
        CollectStopsAt(Range(numWann), f, col);
        return Err(l.error);
      }
      var element := ComplexOf(l.value, parseFloat);
      assert f(col) == element;
      if element.Err? {
        CollectStopsAt(Range(numWann), f, col);
        return Err(element.error);
      }
      CollectStep(f, col, elements, element.value);
      elements := elements + [element.value];
    }
    return Ok(elements);
  }

  /** One pass of read_U's loop over the blocks: the k-vector, then the rows. */
  method ReadUBlock(lines: seq<Line>, k: nat, numWann: int, parseFloat: string -> Option<real>)
    returns (r: Result<(Matrix, seq<real>)>)
    ensures r == UBlock(lines, k, numWann, parseFloat)
  {
    var kpoint :- KPointAt(lines, k, numWann, parseFloat);
    var f := MatrixPass(lines, k, numWann, parseFloat);
    var u: Matrix := [];
    for row := 0 to Range(numWann)
      invariant Collect(row, f) == Ok(u)
    {
      var elements := ReadURow(lines, k, numWann, row, parseFloat);
      assert f(row) == elements;
      if elements.Err? {
        CollectStopsAt(Range(numWann), f, row);
        return Err(elements.error);
      }
      CollectStep(f, row, u, elements.value);
      u := u + [elements.value];
    }
    return Ok((u, kpoint));
  }

  /** read_U, pass by pass. */
  method ReadUFile(lines: seq<Line>, parseInt: string -> Option<int>, parseFloat: string -> Option<real>)
    returns (r: Result<(seq<Matrix>, seq<seq<real>>)>)
    ensures r == ReadU(lines, parseInt, parseFloat)
  {
    var header :- UHeader(lines, parseInt);
    var numKpoints, numWann := header.0, header.1;
    var f := BlockPass(lines, numWann, parseFloat);
    var uList: seq<Matrix> := [];
    var kpointsList: seq<seq<real>> := [];
    ghost var blocks: seq<(Matrix, seq<real>)> := [];
    for k := 0 to Range(numKpoints)
      invariant Collect(k, f) == Ok(blocks)
      invariant uList == Firsts(blocks) && kpointsList == Seconds(blocks)
    {
      var block := ReadUBlock(lines, k, numWann, parseFloat);
      assert f(k) == block;
      if block.Err? {
        CollectStopsAt(Range(numKpoints), f, k);
        return Err(block.error);
      }
      CollectStep(f, k, blocks, block.value);
      blocks := blocks + [block.value];
      kpointsList := kpointsList + [block.value.1];
      uList := uList + [block.value.0];
    }
    return Ok((uList, kpointsList));
  }

  // ---------------------------------------------------------------------
  // read_eigenvalues

  /** `float(lines[idx].split()[-1])`. */
  function LastFloat(lines: seq<Line>, idx: int, parseFloat: string -> Option<real>): (r: Result<real>)
    ensures r.Ok? <==> LineAt(lines, idx).Ok? && |LineAt(lines, idx).value| > 0
                       && parseFloat(Last(LineAt(lines, idx).value)).Some?
    ensures r.Ok? ==> r.value == parseFloat(Last(LineAt(lines, idx).value)).value
    ensures LineAt(lines, idx).Ok? && LineAt(lines, idx).value == [] ==> r == Err(IndexError)
  {
    var l :- LineAt(lines, idx);
    if l == [] then Err(IndexError) else Parsed(parseFloat(Last(l)))
  }

  function Last<T>(s: seq<T>): T
    requires s != []
  {
    s[|s| - 1]
  }

  function EigenvaluePass(lines: seq<Line>, numBands: int, c: nat, parseFloat: string -> Option<real>)
    : nat -> Result<real>
  {
    (k: nat) => LastFloat(lines, c + k * numBands, parseFloat)
  }

  function EigenvalueRow(lines: seq<Line>, numBands: int, numKpoints: int, c: nat, parseFloat: string -> Option<real>)
    : Result<seq<real>>
  {
    Collect(Range(numKpoints), EigenvaluePass(lines, numBands, c, parseFloat))
  }

  function EigenvalueRowPass(lines: seq<Line>, numBands: int, numKpoints: int, parseFloat: string -> Option<real>)
    : nat -> Result<seq<real>>
  {
    (c: nat) => EigenvalueRow(lines, numBands, numKpoints, c, parseFloat)
  }

  /** read_eigenvalues: one row per band up to `num_wann` (default `num_bands`), one column per k-point. */
  function ReadEigenvalues(lines: seq<Line>, numBands: int, numKpoints: int, numWann: Option<int>,
                           parseFloat: string -> Option<real>): Result<seq<seq<real>>>
  {
    var rows := if numWann.None? then numBands else numWann.value;
    Collect(Range(rows), EigenvalueRowPass(lines, numBands, numKpoints, parseFloat))
  }

  /**
   * What read_eigenvalues returns: `num_wann x num_kpoints` values, entry
   * `[c][k]` being the last float of line `c + k * num_bands`.
   */
  lemma ReadEigenvaluesContents(lines: seq<Line>, numBands: int, numKpoints: int, numWann: Option<int>,
                                parseFloat: string -> Option<real>)
    requires ReadEigenvalues(lines, numBands, numKpoints, numWann, parseFloat).Ok?
    ensures var e := ReadEigenvalues(lines, numBands, numKpoints, numWann, parseFloat).value;
      && |e| == Range(if numWann.None? then numBands else numWann.value)
      && forall c :: 0 <= c < |e| ==>
           && |e[c]| == Range(numKpoints)
           && forall k :: 0 <= k < |e[c]| ==> LastFloat(lines, c + k * numBands, parseFloat) == Ok(e[c][k])
  {
    var e := ReadEigenvalues(lines, numBands, numKpoints, numWann, parseFloat).value;
    forall c | 0 <= c < |e|
      ensures |e[c]| == Range(numKpoints)
      ensures forall k :: 0 <= k < |e[c]| ==> LastFloat(lines, c + k * numBands, parseFloat) == Ok(e[c][k])
    {
      assert EigenvalueRowPass(lines, numBands, numKpoints, parseFloat)(c) == Ok(e[c]);
      forall k | 0 <= k < |e[c]|
        ensures LastFloat(lines, c + k * numBands, parseFloat) == Ok(e[c][k])
      {
        assert EigenvaluePass(lines, numBands, c, parseFloat)(k) == Ok(e[c][k]);
      }
    }
  }

  /** read_eigenvalues, pass by pass. */
  method ReadEigenvaluesFile(lines: seq<Line>, numBands: int, numKpoints: int, numWann: Option<int>,
                             parseFloat: string -> Option<real>)
    returns (r: Result<seq<seq<real>>>)
    ensures r == ReadEigenvalues(lines, numBands, numKpoints, numWann, parseFloat)
  {
    var rows := if numWann.None? then numBands else numWann.value;
    var f := EigenvalueRowPass(lines, numBands, numKpoints, parseFloat);
    var eigenvalues: seq<seq<real>> := [];
    for c := 0 to Range(rows)
      invariant Collect(c, f) == Ok(eigenvalues)
    {
      var row := ReadEigenvalueRow(lines, numBands, numKpoints, c, parseFloat);
      assert f(c) == row;
      if row.Err? {
        CollectStopsAt(Range(rows), f, c);
        return Err(row.error);
      }
      CollectStep(f, c, eigenvalues, row.value);
      eigenvalues := eigenvalues + [row.value];
    }
    return Ok(eigenvalues);
  }

  /** The inner loop of read_eigenvalues: the energies of band `c` at every k-point. */
  method ReadEigenvalueRow(lines: seq<Line>, numBands: int, numKpoints: int, c: nat, parseFloat: string -> Option<real>)
    returns (r: Result<seq<real>>)
    ensures r == EigenvalueRow(lines, numBands, numKpoints, c, parseFloat)
  {
    var g := EigenvaluePass(lines, numBands, c, parseFloat);
    var row: seq<real> := [];
    for k := 0 to Range(numKpoints)
      invariant Collect(k, g) == Ok(row)
    {
      var eigenvalue := LastFloat(lines, c + k * numBands, parseFloat);
      assert g(k) == eigenvalue;
      if eigenvalue.Err? {
        CollectStopsAt(Range(numKpoints), g, k);
        return Err(eigenvalue.error);
      }
      CollectStep(g, k, row, eigenvalue.value);
      row := row + [eigenvalue.value];
    }
    return Ok(row);
  }

  // ---------------------------------------------------------------------
  // read_hamiltonian

  /** `int(lines[idx])`: the line must be a single integer. */
  function IntLine(lines: seq<Line>, idx: int, parseInt: string -> Option<int>): (r: Result<int>)
    ensures 0 <= idx < |lines| && |lines[idx]| == 1 && parseInt(lines[idx][0]).Some? ==>
              r == Ok(parseInt(lines[idx][0]).value)
    ensures 0 <= idx < |lines| && |lines[idx]| != 1 ==> r == Err(ValueError)
    ensures idx >= |lines| ==> r == Err(IndexError)
  {
    var l :- LineAt(lines, idx);
    if |l| != 1 then Err(ValueError) else Parsed(parseInt(l[0]))
  }

  /** `int(np.ceil(n / 15))`: the least `c` with `15 * c >= n`. */
  function CeilDiv15(n: int): (c: int)
    ensures 15 * c >= n && 15 * (c - 1) < n
  {
    (n + 14) / 15
  }

  /** `s[start:]`, with Python's clamping of the start and its negative starts. */
  function SliceFrom<T>(s: seq<T>, start: int): (r: seq<T>)
    ensures 0 <= start <= |s| ==> r == s[start..]
    ensures start > |s| ==> r == []
    ensures start < 0 ==> r == s[if start + |s| < 0 then 0 else start + |s|..]
  {
    if start > |s| then []
    else if start >= 0 then s[start..]
    else if start + |s| < 0 then s
    else s[start + |s|..]
  }

  /** The lattice vector with `element` at position `idx` and zeros elsewhere. */
  function Axis(idx: nat, element: int): Offset {
    if idx == 0 then (element, 0, 0) else if idx == 1 then (0, element, 0) else (0, 0, element)
  }

  /** The lattice vectors read_hamiltonian keeps: the origin and its six neighbours. */
  const HamiltonianKeys: set<Offset> :=
    {Origin, (1, 0, 0), (-1, 0, 0), (0, 1, 0), (0, -1, 0), (0, 0, 1), (0, 0, -1)}

  /** `np.zeros((n, n), dtype=complex)`. */
  function ZeroMatrix(n: nat): (r: Matrix)
    ensures |r| == n && forall a :: 0 <= a < n ==> |r[a]| == n && forall b :: 0 <= b < n ==> r[a][b] == Complex(0.0, 0.0)
  {
    seq(n, a requires 0 <= a < n => seq(n, b requires 0 <= b < n => Complex(0.0, 0.0)))
  }

  /** The zero matrices placed before the data are read: the origin, then `±1` along the first `idx` axes. */
  function InitialUpTo(idx: nat, numWann: nat): map<Offset, Matrix>
    requires idx <= 3
  {
    if idx == 0 then map[Origin := ZeroMatrix(numWann)]
    else InitialUpTo(idx - 1, numWann)[Axis(idx - 1, 1) := ZeroMatrix(numWann)][Axis(idx - 1, -1) := ZeroMatrix(numWann)]
  }

  /** Every key holds a `num_wann x num_wann` matrix. */
  predicate Square(h: map<Offset, Matrix>, numWann: nat) {
    forall r :: r in h ==> |h[r]| == numWann && forall a :: 0 <= a < numWann ==> |h[r][a]| == numWann
  }

  /** The dictionary built before the data: the seven lattice vectors, each with a zero matrix. */
  lemma InitialHamiltonian(numWann: nat)
    ensures InitialUpTo(3, numWann).Keys == HamiltonianKeys
    ensures forall r :: r in HamiltonianKeys ==> InitialUpTo(3, numWann)[r] == ZeroMatrix(numWann)
  {
    var z := ZeroMatrix(numWann);
    assert InitialUpTo(1, numWann) == map[Origin := z][(1, 0, 0) := z][(-1, 0, 0) := z];
    assert InitialUpTo(2, numWann) == InitialUpTo(1, numWann)[(0, 1, 0) := z][(0, -1, 0) := z];
    assert InitialUpTo(3, numWann) == InitialUpTo(2, numWann)[(0, 0, 1) := z][(0, 0, -1) := z];
  }

  /** One data line that is kept: lattice vector `r`, 0-based entry `(m, n)`, value `value`. */
  datatype Entry = Entry(r: Offset, m: nat, n: nat, value: Complex)

  function Min(a: nat, b: nat): nat {
    if a < b then a else b
  }

  /**
   * One data line: the first three tokens as a lattice vector; a line
   * whose vector is not kept is skipped; otherwise `m` and `n`, 1-based in
   * the file, and the value, placed with numpy's indexing.
   */
  function EntryOf(numWann: nat, data: Line, parseInt: string -> Option<int>, parseFloat: string -> Option<real>)
    : (r: Result<Option<Entry>>)
    ensures r.Ok? && r.value.Some? ==> r.value.value.r in HamiltonianKeys && r.value.value.m < numWann && r.value.value.n < numWann
    ensures r == Ok(None) <==>
              ParseEach(data[..Min(3, |data|)], parseInt).Ok? &&
              (|data| < 3 || (parseInt(data[0]).value, parseInt(data[1]).value, parseInt(data[2]).value) !in HamiltonianKeys)
  {
    var rs :- ParseEach(data[..Min(3, |data|)], parseInt);
    if |rs| != 3 || (rs[0], rs[1], rs[2]) !in HamiltonianKeys then
      Ok(None)
    else
      var mn :- ParseEach(data[3..Min(5, |data|)], parseInt);
      if |mn| != 2 then
        Err(ValueError)
      else
        var value :- ComplexOf(data[5..], parseFloat);
        var m :- PyIndex(mn[0] - 1, numWann);
        var n :- PyIndex(mn[1] - 1, numWann);
        Ok(Some(Entry((rs[0], rs[1], rs[2]), m, n, value)))
  }

  /**
   * A line of seven tokens whose vector is kept and whose `m`, `n` lie in
   * `1..num_wann` sets entry `(m - 1, n - 1)`.
   */
  lemma EntryOneBased(numWann: nat, data: Line, parseInt: string -> Option<int>, parseFloat: string -> Option<real>,
                      r: Offset, m: int, n: int, value: Complex)
    requires |data| == 7
    requires parseInt(data[0]) == Some(r.0) && parseInt(data[1]) == Some(r.1) && parseInt(data[2]) == Some(r.2)
    requires r in HamiltonianKeys
    requires parseInt(data[3]) == Some(m) && parseInt(data[4]) == Some(n)
    requires 1 <= m <= numWann && 1 <= n <= numWann
    requires parseFloat(data[5]) == Some(value.re) && parseFloat(data[6]) == Some(value.im)
    ensures EntryOf(numWann, data, parseInt, parseFloat) == Ok(Some(Entry(r, m - 1, n - 1, value)))
  {
    assert data[..Min(3, |data|)] == data[..3];
    assert data[3..Min(5, |data|)] == [data[3], data[4]];
    assert data[5..] == [data[5], data[6]];
  }

  /** `H[R][m, n] = value` for a kept line; nothing for a skipped one. */
  function HamiltonianStep(numWann: nat, h: map<Offset, Matrix>, data: Line,
                           parseInt: string -> Option<int>, parseFloat: string -> Option<real>)
    : (r: Result<map<Offset, Matrix>>)
    requires h.Keys == HamiltonianKeys && Square(h, numWann)
    ensures r.Ok? ==> r.value.Keys == HamiltonianKeys && Square(r.value, numWann)
  {
    var e :- EntryOf(numWann, data, parseInt, parseFloat);
    match e
    case None => Ok(h)
    case Some(x) => Ok(h[x.r := h[x.r][x.m := h[x.r][x.m][x.n := x.value]]])
  }

  /** The loop over the data lines, raising the first failure. */
  function HamiltonianFold(numWann: nat, h: map<Offset, Matrix>, data: seq<Line>,
                           parseInt: string -> Option<int>, parseFloat: string -> Option<real>)
    : (r: Result<map<Offset, Matrix>>)
    requires h.Keys == HamiltonianKeys && Square(h, numWann)
    ensures r.Ok? ==> r.value.Keys == HamiltonianKeys && Square(r.value, numWann)
  {
    if data == [] then
      Ok(h)
    else
      var h1 :- HamiltonianFold(numWann, h, data[..|data| - 1], parseInt, parseFloat);
      HamiltonianStep(numWann, h1, data[|data| - 1], parseInt, parseFloat)
  }

  /** Where the data starts: after the header lines and the `ceil(nR / 15)` lines of degeneracies. */
  function DataStart(nR: int): int {
    CeilDiv15(nR) + 3
  }

  /** read_hamiltonian. */
  function ReadHamiltonian(lines: seq<Line>, parseInt: string -> Option<int>, parseFloat: string -> Option<real>)
    : (r: Result<map<Offset, Matrix>>)
    ensures r.Ok? ==> r.value.Keys == HamiltonianKeys
    ensures r.Ok? ==> IntLine(lines, 1, parseInt).Ok? && IntLine(lines, 1, parseInt).value >= 0
                      && Square(r.value, IntLine(lines, 1, parseInt).value)
  {
    var numWann :- IntLine(lines, 1, parseInt);
    var numRpoints :- IntLine(lines, 2, parseInt);
    if numWann < 0 then
      Err(ValueError)
    else
      InitialHamiltonian(numWann);
      HamiltonianFold(numWann, InitialUpTo(3, numWann), SliceFrom(lines, DataStart(numRpoints)), parseInt, parseFloat)
  }

  /**
   * The value a run of data lines leaves in entry `(m, n)` of `r`: that of
   * the last kept line writing it, or `initial` when none does.
   */
  function Written(numWann: nat, data: seq<Line>, r: Offset, m: nat, n: nat, initial: Complex,
                   parseInt: string -> Option<int>, parseFloat: string -> Option<real>): Complex
  {
    if data == [] then
      initial
    else
      match EntryOf(numWann, data[|data| - 1], parseInt, parseFloat)
      case Ok(Some(x)) =>
        if x.r == r && x.m == m && x.n == n then x.value
        else Written(numWann, data[..|data| - 1], r, m, n, initial, parseInt, parseFloat)
      case _ => Written(numWann, data[..|data| - 1], r, m, n, initial, parseInt, parseFloat)
  }

  /** Each entry after the loop is the last value written to it, or what it held before. */
  lemma {:induction false} HamiltonianFoldEntries(numWann: nat, h: map<Offset, Matrix>, data: seq<Line>,
                                                  parseInt: string -> Option<int>, parseFloat: string -> Option<real>)
    requires h.Keys == HamiltonianKeys && Square(h, numWann)
    requires HamiltonianFold(numWann, h, data, parseInt, parseFloat).Ok?
    ensures var h2 := HamiltonianFold(numWann, h, data, parseInt, parseFloat).value;
            forall r, m: nat, n: nat :: r in HamiltonianKeys && m < numWann && n < numWann ==>
              h2[r][m][n] == Written(numWann, data, r, m, n, h[r][m][n], parseInt, parseFloat)
  {
    if data != [] {
      var prefix := data[..|data| - 1];
      HamiltonianFoldEntries(numWann, h, prefix, parseInt, parseFloat);
      var h1 := HamiltonianFold(numWann, h, prefix, parseInt, parseFloat).value;
      var h2 := HamiltonianFold(numWann, h, data, parseInt, parseFloat).value;
      assert HamiltonianStep(numWann, h1, data[|data| - 1], parseInt, parseFloat) == Ok(h2);
      forall r, m: nat, n: nat | r in HamiltonianKeys && m < numWann && n < numWann
        ensures h2[r][m][n] == Written(numWann, data, r, m, n, h[r][m][n], parseInt, parseFloat)
      {
        StepEntry(numWann, h1, data[|data| - 1], parseInt, parseFloat, h2, r, m, n);
      }
    }
  }

  /** One data line changes only the entry it names. */
  lemma StepEntry(numWann: nat, h1: map<Offset, Matrix>, line: Line,
                  parseInt: string -> Option<int>, parseFloat: string -> Option<real>,
                  h2: map<Offset, Matrix>, r: Offset, m: nat, n: nat)
    requires h1.Keys == HamiltonianKeys && Square(h1, numWann)
    requires HamiltonianStep(numWann, h1, line, parseInt, parseFloat) == Ok(h2)
    requires r in HamiltonianKeys && m < numWann && n < numWann
    ensures EntryOf(numWann, line, parseInt, parseFloat).Ok?
    ensures h2[r][m][n] == match EntryOf(numWann, line, parseInt, parseFloat).value
                           case Some(x) => if x.r == r && x.m == m && x.n == n then x.value else h1[r][m][n]
                           case None => h1[r][m][n]
  {
  }

  /**
   * What read_hamiltonian returns: the seven lattice vectors, each with a
   * `num_wann x num_wann` matrix whose entry `(m, n)` is the value of the
   * last data line, from line `ceil(nR / 15) + 3` on, that names it, and
   * zero when no line does.
   */
  lemma ReadHamiltonianEntries(lines: seq<Line>, parseInt: string -> Option<int>, parseFloat: string -> Option<real>)
    requires ReadHamiltonian(lines, parseInt, parseFloat).Ok?
    ensures var h := ReadHamiltonian(lines, parseInt, parseFloat).value;
            var numWann := IntLine(lines, 1, parseInt).value;
            var data := SliceFrom(lines, DataStart(IntLine(lines, 2, parseInt).value));
      && numWann >= 0
      && h.Keys == HamiltonianKeys
      && forall r, m: nat, n: nat :: r in HamiltonianKeys && m < numWann && n < numWann ==>
           h[r][m][n] == Written(numWann, data, r, m, n, Complex(0.0, 0.0), parseInt, parseFloat)
  {
    var numWann := IntLine(lines, 1, parseInt).value;
    var data := SliceFrom(lines, DataStart(IntLine(lines, 2, parseInt).value));
    InitialHamiltonian(numWann);
    HamiltonianFoldEntries(numWann, InitialUpTo(3, numWann), data, parseInt, parseFloat);
  }

  /** Once a prefix of the data fails, the whole loop fails with the same error. */
  lemma {:induction false} HamiltonianPrefixErr(numWann: nat, h: map<Offset, Matrix>, data: seq<Line>, t: nat,
                                                parseInt: string -> Option<int>, parseFloat: string -> Option<real>)
    requires h.Keys == HamiltonianKeys && Square(h, numWann)
    requires t <= |data| && HamiltonianFold(numWann, h, data[..t], parseInt, parseFloat).Err?
    ensures HamiltonianFold(numWann, h, data, parseInt, parseFloat) == HamiltonianFold(numWann, h, data[..t], parseInt, parseFloat)
    decreases |data| - t
  {
    if t == |data| {
      assert data[..t] == data;
    } else {
      var prefix := data[..|data| - 1];
      assert prefix[..t] == data[..t];
      HamiltonianPrefixErr(numWann, h, prefix, t, parseInt, parseFloat);
    }
  }

  /** read_hamiltonian, pass by pass: the zero matrices, then one assignment per kept data line. */
  method ReadHamiltonianFile(lines: seq<Line>, parseInt: string -> Option<int>, parseFloat: string -> Option<real>)
    returns (r: Result<map<Offset, Matrix>>)
    ensures r == ReadHamiltonian(lines, parseInt, parseFloat)
  {
    var numWann :- IntLine(lines, 1, parseInt);
    var numRpoints :- IntLine(lines, 2, parseInt);
    var startIdx := DataStart(numRpoints);
    if numWann < 0 {
      return Err(ValueError);
    }
    var h := map[Origin := ZeroMatrix(numWann)];
    for idx := 0 to 3
      invariant h == InitialUpTo(idx, numWann)
    {
      h := h[Axis(idx, 1) := ZeroMatrix(numWann)];
      h := h[Axis(idx, -1) := ZeroMatrix(numWann)];
    }
    InitialHamiltonian(numWann);
    r := AssignEntries(numWann, h, SliceFrom(lines, startIdx), parseInt, parseFloat);
  }

  /** The loop over the data lines of read_hamiltonian, assigning `H[R][m, n]` in place. */
  method AssignEntries(numWann: nat, h0: map<Offset, Matrix>, data: seq<Line>,
                       parseInt: string -> Option<int>, parseFloat: string -> Option<real>)
    returns (r: Result<map<Offset, Matrix>>)
    requires h0.Keys == HamiltonianKeys && Square(h0, numWann)
    ensures r == HamiltonianFold(numWann, h0, data, parseInt, parseFloat)
  {
    var h := h0;
    for t := 0 to |data|
      invariant h.Keys == HamiltonianKeys && Square(h, numWann)
      invariant HamiltonianFold(numWann, h0, data[..t], parseInt, parseFloat) == Ok(h)
    {
      assert data[..t + 1][..t] == data[..t];
      var entry := EntryOf(numWann, data[t], parseInt, parseFloat);
      if entry.Err? {
        HamiltonianPrefixErr(numWann, h0, data, t + 1, parseInt, parseFloat);
        return Err(entry.error);
      }
      ghost var before := h;
      if entry.value.Some? {
        var x := entry.value.value;
        h := h[x.r := h[x.r][x.m := h[x.r][x.m][x.n := x.value]]];
      }
      assert HamiltonianStep(numWann, before, data[t], parseInt, parseFloat) == Ok(h);
    }
    assert data[..|data|] == data;
    return Ok(h);
  }
}
