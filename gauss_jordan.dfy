/**
 * `Matrix.inverse` (src/plugin/wave-sensor-algorithms.js, lines 101-180):
 * Gauss-Jordan elimination with partial pivoting on the augmented matrix
 * [A | I], followed by back substitution, row normalisation and extraction
 * of the right half.
 *
 * The specification functions below follow the source's loops step by step
 * on the augmented matrix (each loop becomes a recursive function over the
 * loop index), and carry closed forms of what each loop does as their
 * postconditions.  The method `Inverse` runs the loops in place on one
 * buffer and is proved to compute `GaussJordanInverse`.
 *
 * The source divides by the pivot at line 140 (only when a row lies below it)
 * and at line 166.  It never checks for a zero pivot: JavaScript would go on
 * with Infinity and NaN entries.  Here a zero divisor ends the computation
 * with `Err(ZeroPivot)`.
 */
module GaussJordan {
  import opened Matrices
  import opened Js

  /** [A | I]: the n x 2n matrix built at lines 106-115. */
  function Augmented(m: Matrix): (g: Matrix)
    requires m.Valid() && m.rows == m.cols
    ensures g.Valid() && g.rows == m.rows && g.cols == 2 * m.rows
    ensures forall i, j :: 0 <= i < m.rows && 0 <= j < 2 * m.rows ==>
      g.Get(i, j) == if j < m.rows then m.Get(i, j) else if j == i + m.rows then 1.0 else 0.0
  {
    var n := m.rows;
    var f := (i: nat, j: nat) => if i < n && j < n then m.Get(i, j) else if j == i + n then 1.0 else 0.0;
    TableEntries(n, 2 * n, f);
    Table(n, 2 * n, f)
  }

  // ---------------------------------------------------------------------------
  // The single loops, as recursive functions with closed forms
  // ---------------------------------------------------------------------------

  /**
   * The pivot search of lines 120-127 from row j on, `best` being the row
   * kept so far: a row replaces it only when its entry is strictly larger in
   * absolute value.
   */
  function PivotFrom(g: Matrix, col: nat, j: nat, best: nat): (p: nat)
    requires g.Valid() && col < g.cols && best < g.rows
    ensures p < g.rows
    ensures p == best || j <= p
    decreases g.rows - j
  {
    if j >= g.rows then best
    else PivotFrom(g, col, j + 1, if Abs(g.Get(j, col)) > Abs(g.Get(best, col)) then j else best)
  }

  /** The pivot row chosen for column i (lines 120-127): row i or a row below it, never one above. */
  function Pivot(g: Matrix, i: nat): (p: nat)
    requires g.Valid() && i < g.rows && i < g.cols
    ensures i <= p < g.rows
  {
    PivotFrom(g, i, i + 1, i)
  }

  /** The row exchange of lines 131-135 from column j on. */
  function SwapRowsFrom(g: Matrix, i: nat, p: nat, j: nat): (h: Matrix)
    requires g.Valid() && i < g.rows && p < g.rows && j <= g.cols
    ensures h.Valid() && h.rows == g.rows && h.cols == g.cols
    decreases g.cols - j
  {
    if j == g.cols then g
    else
      var temp := g.Get(i, j);
      SwapRowsFrom(g.Set(i, j, g.Get(p, j)).Set(p, j, temp), i, p, j + 1)
  }

  /** From column j on, rows i and p of the result are rows p and i of g. */
  lemma {:induction false} SwapRowsFromEntries(g: Matrix, i: nat, p: nat, j: nat)
    requires g.Valid() && i < g.rows && p < g.rows && j <= g.cols
    ensures forall r, c :: 0 <= r < g.rows && 0 <= c < g.cols ==>
      SwapRowsFrom(g, i, p, j).Get(r, c) ==
        if c < j then g.Get(r, c) else if r == i then g.Get(p, c) else if r == p then g.Get(i, c) else g.Get(r, c)
    decreases g.cols - j
  {
    if j < g.cols {
      var g1 := g.Set(i, j, g.Get(p, j));
      SetFrame(g, i, j, g.Get(p, j));
      SetFrame(g1, p, j, g.Get(i, j));
      SwapRowsFromEntries(g1.Set(p, j, g.Get(i, j)), i, p, j + 1);
    }
  }

  /** Lines 120-136: column i's pivot row brought up to row i. */
  function PivotSwapped(g: Matrix, i: nat): (s: Matrix)
    requires g.Valid() && i < g.rows && i < g.cols
    ensures s.Valid() && s.rows == g.rows && s.cols == g.cols
  {
    var p := Pivot(g, i);
    if p != i then SwapRowsFrom(g, i, p, 0) else g
  }

  /**
   * Row `dst` less `factor` times row `src`, over the columns from k on: the
   * innermost loops at lines 141-147 and 155-161.
   */
  function SubtractRowFrom(g: Matrix, dst: nat, src: nat, factor: real, k: nat): (h: Matrix)
    requires g.Valid() && dst < g.rows && src < g.rows && k <= g.cols
    ensures h.Valid() && h.rows == g.rows && h.cols == g.cols
    decreases g.cols - k
  {
    if k == g.cols then g
    else SubtractRowFrom(g.Set(dst, k, Reduced(g.Get(dst, k), factor, g.Get(src, k))), dst, src, factor, k + 1)
  }

  /** Only row `dst` changes, and only from column k on, where it becomes dst - factor * src. */
  lemma {:induction false} SubtractRowFromEntries(g: Matrix, dst: nat, src: nat, factor: real, k: nat)
    requires g.Valid() && dst < g.rows && src < g.rows && dst != src && k <= g.cols
    ensures forall r, c :: 0 <= r < g.rows && 0 <= c < g.cols ==>
      SubtractRowFrom(g, dst, src, factor, k).Get(r, c) ==
        if r == dst && k <= c then g.Get(dst, c) - factor * g.Get(src, c) else g.Get(r, c)
    decreases g.cols - k
  {
    if k < g.cols {
      SetFrame(g, dst, k, Reduced(g.Get(dst, k), factor, g.Get(src, k)));
      SubtractRowFromEntries(g.Set(dst, k, Reduced(g.Get(dst, k), factor, g.Get(src, k))), dst, src, factor, k + 1);
    }
  }

  /** x less factor times y: the value written at lines 142-146 and 156-160. */
  function Reduced(x: real, factor: real, y: real): real { x - factor * y }

  /** Row i divided by `factor` from column j on (lines 165-168). */
  function DivideRowFrom(g: Matrix, i: nat, factor: real, j: nat): (h: Matrix)
    requires g.Valid() && i < g.rows && j <= g.cols && factor != 0.0
    ensures h.Valid() && h.rows == g.rows && h.cols == g.cols
    decreases g.cols - j
  {
    if j == g.cols then g
    else DivideRowFrom(g.Set(i, j, g.Get(i, j) / factor), i, factor, j + 1)
  }

  /** Only row i changes, and only from column j on, where it is divided by `factor`. */
  lemma {:induction false} DivideRowFromEntries(g: Matrix, i: nat, factor: real, j: nat)
    requires g.Valid() && i < g.rows && j <= g.cols && factor != 0.0
    ensures forall r, c :: 0 <= r < g.rows && 0 <= c < g.cols ==>
      DivideRowFrom(g, i, factor, j).Get(r, c) == if r == i && j <= c then g.Get(i, c) / factor else g.Get(r, c)
    decreases g.cols - j
  {
    if j < g.cols {
      SetFrame(g, i, j, g.Get(i, j) / factor);
      DivideRowFromEntries(g.Set(i, j, g.Get(i, j) / factor), i, factor, j + 1);
    }
  }

  /**
   * Lines 139-148 for the rows from j on: each loses g(r, i) / g(i, i) times
   * the pivot row, from column i on, which zeroes its column-i entry.
   */
  function EliminateFrom(g: Matrix, i: nat, j: nat): (h: Matrix)
    requires g.Valid() && i < g.rows && i < g.cols && i < j
    requires j < g.rows ==> g.Get(i, i) != 0.0
    ensures h.Valid() && h.rows == g.rows && h.cols == g.cols
    decreases g.rows - j
  {
    if j >= g.rows then g
    else
      var next := SubtractRowFrom(g, j, i, g.Get(j, i) / g.Get(i, i), i);
      SubtractRowFromEntries(g, j, i, g.Get(j, i) / g.Get(i, i), i);
      EliminateFrom(next, i, j + 1)
  }

  /**
   * The elimination loop of lines 118-149 from pivot column i on.  A zero
   * pivot with rows left below it would be divided by at line 140.
   */
  function Forward(g: Matrix, i: nat): (r: Result<Matrix>)
    requires g.Valid() && g.rows <= g.cols && i <= g.rows
    ensures r.Ok? ==> r.value.Valid() && r.value.rows == g.rows && r.value.cols == g.cols
    ensures r.Err? ==> r.error == ZeroPivot
    decreases g.rows - i
  {
    if i == g.rows then Ok(g)
    else
      var s := PivotSwapped(g, i);
      if i + 1 < g.rows && s.Get(i, i) == 0.0 then Err(ZeroPivot)
      else Forward(EliminateFrom(s, i, i + 1), i + 1)
  }

  /** Lines 153-162 for row i from column j on: row i loses g(i, j) times row j. */
  function SubstituteFrom(g: Matrix, i: nat, j: nat): (h: Matrix)
    requires g.Valid() && g.rows <= g.cols && i < j <= g.rows
    ensures h.Valid() && h.rows == g.rows && h.cols == g.cols
    decreases g.rows - j
  {
    if j == g.rows then g
    else SubstituteFrom(SubtractRowFrom(g, i, j, g.Get(i, j), j), i, j + 1)
  }

  /**
   * Back substitution and normalisation (lines 152-169) for the rows t-1
   * down to 0.  The diagonal entry is divided by at line 166.
   */
  function Backward(g: Matrix, t: nat): (r: Result<Matrix>)
    requires g.Valid() && g.rows <= g.cols && t <= g.rows
    ensures r.Ok? ==> r.value.Valid() && r.value.rows == g.rows && r.value.cols == g.cols
    ensures r.Err? ==> r.error == ZeroPivot
    decreases t
  {
    if t == 0 then Ok(g)
    else
      var h := SubstituteFrom(g, t - 1, t);
      if h.Get(t - 1, t - 1) == 0.0 then Err(ZeroPivot)
      else Backward(DivideRowFrom(h, t - 1, h.Get(t - 1, t - 1), 0), t - 1)
  }

  /** The right half of the augmented matrix (lines 171-177). */
  function RightHalf(g: Matrix): (inv: Matrix)
    requires g.Valid() && g.cols == 2 * g.rows
    ensures inv.Valid() && inv.rows == g.rows && inv.cols == g.rows
    ensures forall i, j :: 0 <= i < g.rows && 0 <= j < g.rows ==> inv.Get(i, j) == g.Get(i, j + g.rows)
  {
    var f := (i: nat, j: nat) => if i < g.rows && j < g.rows then g.Get(i, j + g.rows) else 0.0;
    TableEntries(g.rows, g.rows, f);
    Table(g.rows, g.rows, f)
  }

  /** `inverse` (lines 101-180). */
  function GaussJordanInverse(m: Matrix): (r: Result<Matrix>)
    requires m.Valid()
    ensures r.Ok? ==> r.value.Valid() && r.value.rows == m.rows && r.value.cols == m.rows
  {
    if m.rows != m.cols then Err(NotSquare)
    else match Forward(Augmented(m), 0)
      case Err(e) => Err(e)
      case Ok(f) =>
        match Backward(f, f.rows)
        case Err(e) => Err(e)
        case Ok(b) => Ok(RightHalf(b))
  }

  // ---------------------------------------------------------------------------
  // Properties
  // ---------------------------------------------------------------------------

  /** The result fails with NotSquare exactly for a non-square matrix; a result is n x n. */
  lemma InverseShape(m: Matrix)
    requires m.Valid()
    ensures GaussJordanInverse(m) == Err(NotSquare) <==> m.rows != m.cols
    ensures GaussJordanInverse(m).Err? ==> GaussJordanInverse(m).error in {NotSquare, ZeroPivot}
    ensures GaussJordanInverse(m).Ok? ==>
      var inv := GaussJordanInverse(m).value;
      inv.Valid() && inv.rows == m.rows && inv.cols == m.rows
  {
  }

  lemma {:induction false} PivotFromFirstMax(g: Matrix, col: nat, lo: nat, j: nat, best: nat)
    requires g.Valid() && col < g.cols && lo <= best < j <= g.rows
    requires forall r :: lo <= r < j ==> Abs(g.Get(r, col)) <= Abs(g.Get(best, col))
    requires forall r :: lo <= r < best ==> Abs(g.Get(r, col)) < Abs(g.Get(best, col))
    ensures var p := PivotFrom(g, col, j, best);
      lo <= p &&
      (forall r :: lo <= r < g.rows ==> Abs(g.Get(r, col)) <= Abs(g.Get(p, col))) &&
      (forall r :: lo <= r < p ==> Abs(g.Get(r, col)) < Abs(g.Get(p, col)))
    decreases g.rows - j
  {
    if j < g.rows {
      var next := if Abs(g.Get(j, col)) > Abs(g.Get(best, col)) then j else best;
      PivotFromFirstMax(g, col, lo, j + 1, next);
    }
  }

  /**
   * The pivot is the first row at or below i whose column-i entry is largest
   * in absolute value (the comparison at line 123 is strict).
   */
  lemma PivotIsFirstMax(g: Matrix, i: nat)
    requires g.Valid() && i < g.rows && i < g.cols
    ensures i <= Pivot(g, i) < g.rows
    ensures forall r :: i <= r < g.rows ==> Abs(g.Get(r, i)) <= Abs(g.Get(Pivot(g, i), i))
    ensures forall r :: i <= r < Pivot(g, i) ==> Abs(g.Get(r, i)) < Abs(g.Get(Pivot(g, i), i))
  {
    PivotFromFirstMax(g, i, i, i + 1, i);
  }

  /**
   * After the exchange, the pivot is zero exactly when the whole of column i
   * from row i down is zero: elimination fails only on such a column.
   */
  lemma PivotZeroIffColumnZero(g: Matrix, i: nat)
    requires g.Valid() && i < g.rows && i < g.cols
    ensures PivotSwapped(g, i).Get(i, i) == 0.0 <==> forall r :: i <= r < g.rows ==> g.Get(r, i) == 0.0
  {
    PivotIsFirstMax(g, i);
    var p := Pivot(g, i);
    SwapRowsFromEntries(g, i, p, 0);
    assert PivotSwapped(g, i).Get(i, i) == g.Get(p, i);
    if g.Get(p, i) == 0.0 {
      forall r | i <= r < g.rows
        ensures g.Get(r, i) == 0.0
      {
        assert Abs(g.Get(r, i)) <= Abs(g.Get(p, i));
      }
    }
  }

  /** `[a]` has inverse `[1/a]`, and fails exactly when a == 0: the case of the 4-state filter's S. */
  lemma InverseOneByOne(a: real)
    ensures Matrix(1, 1, [a]).Valid()
    ensures GaussJordanInverse(Matrix(1, 1, [a])) == if a == 0.0 then Err(ZeroPivot) else Ok(Matrix(1, 1, [1.0 / a]))
  {
    var m := Matrix(1, 1, [a]);
    assert m.Valid();
    var g := Augmented(m);
    assert g.Get(0, 0) == a && g.Get(0, 1) == 1.0;
    assert Pivot(g, 0) == 0;
    assert EliminateFrom(g, 0, 1) == g;
    assert Forward(g, 1) == Ok(g);
    assert Forward(g, 0) == Ok(g);
    assert SubstituteFrom(g, 0, 1) == g;
    if a != 0.0 {
      var d := DivideRowFrom(g, 0, a, 0);
      DivideRowFromEntries(g, 0, a, 0);
      assert Backward(g, 1) == Ok(d);
      var inv := RightHalf(d);
      assert inv.Get(0, 0) == 1.0 / a;
      Ext(inv, Matrix(1, 1, [1.0 / a]));
    }
  }

  // ---------------------------------------------------------------------------
  // The algorithm in place on one buffer
  // ---------------------------------------------------------------------------

  /** Lines 106-115: a zero n x 2n buffer receives A on the left and 1 at (i, i + n). */
  method FillAugmented(aug: array<real>, m: Matrix)
    requires m.Valid() && m.rows == m.cols && aug.Length == Times(m.rows, 2 * m.rows)
    requires forall k :: 0 <= k < aug.Length ==> aug[k] == 0.0
    modifies aug
    ensures aug[..] == Augmented(m).data
  {
    var n := m.rows;
    var w := 2 * n;
    ghost var target := Augmented(m);
    IdxFacts(n, w);
    for i := 0 to n
      invariant forall p, q :: 0 <= p < n && 0 <= q < w ==> aug[Idx(p, q, w)] == if p < i then target.Get(p, q) else 0.0
    {
      for j := 0 to n
        invariant forall p, q :: 0 <= p < n && 0 <= q < w ==>
          aug[Idx(p, q, w)] == if p < i || (p == i && q < j) then target.Get(p, q) else 0.0
      {
        aug[Idx(i, j, w)] := m.Get(i, j);
      }
      aug[Idx(i, i + n, w)] := 1.0;
    }
    Filled(aug[..], target);
  }

  /** Lines 120-127 on the buffer. */
  method FindPivot(aug: array<real>, n: nat, w: nat, i: nat) returns (maxRow: nat)
    requires aug.Length == Times(n, w) && i < n && i < w
    ensures maxRow == Pivot(Matrix(n, w, aug[..]), i)
  {
    ghost var g := Matrix(n, w, aug[..]);
    maxRow := i;
    for j := i + 1 to n
      invariant maxRow < n
      invariant PivotFrom(g, i, j, maxRow) == Pivot(g, i)
    {
      IdxBounds(j, i, n, w);
      IdxBounds(maxRow, i, n, w);
      if Abs(aug[Idx(j, i, w)]) > Abs(aug[Idx(maxRow, i, w)]) {
        maxRow := j;
      }
    }
  }

  /** Lines 131-135 on the buffer. */
  method SwapRows(aug: array<real>, n: nat, w: nat, i: nat, p: nat)
    requires aug.Length == Times(n, w) && i < n && p < n
    modifies aug
    ensures Matrix(n, w, aug[..]) == SwapRowsFrom(Matrix(n, w, old(aug[..])), i, p, 0)
  {
    ghost var goal := SwapRowsFrom(Matrix(n, w, aug[..]), i, p, 0);
    for j := 0 to w
      invariant SwapRowsFrom(Matrix(n, w, aug[..]), i, p, j) == goal
    {
      IdxBounds(i, j, n, w);
      IdxBounds(p, j, n, w);
      var temp := aug[Idx(i, j, w)];
      aug[Idx(i, j, w)] := aug[Idx(p, j, w)];
      aug[Idx(p, j, w)] := temp;
    }
  }

  /** The innermost loops at lines 141-147 and 155-161 on the buffer. */
  method SubtractRow(aug: array<real>, n: nat, w: nat, dst: nat, src: nat, factor: real, k: nat)
    requires aug.Length == Times(n, w) && dst < n && src < n && k <= w
    modifies aug
    ensures Matrix(n, w, aug[..]) == SubtractRowFrom(Matrix(n, w, old(aug[..])), dst, src, factor, k)
  {
    ghost var goal := SubtractRowFrom(Matrix(n, w, aug[..]), dst, src, factor, k);
    for c := k to w
      invariant SubtractRowFrom(Matrix(n, w, aug[..]), dst, src, factor, c) == goal
    {
      ghost var before := Matrix(n, w, aug[..]);
      SubtractEntry(aug, n, w, dst, src, factor, c);
      SubtractRowFromStep(before, dst, src, factor, c);
    }
  }

  /** One assignment of the loop at lines 141-147 or 155-161. */
  method SubtractEntry(aug: array<real>, n: nat, w: nat, dst: nat, src: nat, factor: real, c: nat)
    requires aug.Length == Times(n, w) && dst < n && src < n && c < w
    modifies aug
    ensures var g := Matrix(n, w, old(aug[..]));
      Matrix(n, w, aug[..]) == g.Set(dst, c, Reduced(g.Get(dst, c), factor, g.Get(src, c)))
  {
    IdxBounds(dst, c, n, w);
    IdxBounds(src, c, n, w);
    var g := Matrix(n, w, aug[..]);
    var v := Reduced(aug[Idx(dst, c, w)], factor, aug[Idx(src, c, w)]);
    aug[Idx(dst, c, w)] := v;
    assert aug[..] == g.data[Idx(dst, c, w) := v];
  }

  /** One iteration of the loop SubtractRowFrom describes. */
  lemma SubtractRowFromStep(g: Matrix, dst: nat, src: nat, factor: real, k: nat)
    requires g.Valid() && dst < g.rows && src < g.rows && k < g.cols
    ensures SubtractRowFrom(g, dst, src, factor, k) == SubtractRowFrom(g.Set(dst, k, Reduced(g.Get(dst, k), factor, g.Get(src, k))), dst, src, factor, k + 1)
  {
  }

  /** Lines 165-168 on the buffer. */
  method DivideRow(aug: array<real>, n: nat, w: nat, i: nat, factor: real)
    requires aug.Length == Times(n, w) && i < n && factor != 0.0
    modifies aug
    ensures Matrix(n, w, aug[..]) == DivideRowFrom(Matrix(n, w, old(aug[..])), i, factor, 0)
  {
    ghost var goal := DivideRowFrom(Matrix(n, w, aug[..]), i, factor, 0);
    for j := 0 to w
      invariant DivideRowFrom(Matrix(n, w, aug[..]), i, factor, j) == goal
    {
      IdxBounds(i, j, n, w);
      aug[Idx(i, j, w)] := aug[Idx(i, j, w)] / factor;
    }
  }

  /** Lines 171-177: the right half copied into a fresh n x n buffer. */
  method Extract(aug: array<real>, n: nat) returns (inv: Matrix)
    requires aug.Length == Times(n, 2 * n)
    ensures inv == RightHalf(Matrix(n, 2 * n, aug[..]))
  {
    ghost var g := Matrix(n, 2 * n, aug[..]);
    var buf := new real[Times(n, n)](_ => 0.0);
    IdxFacts(n, n);
    IdxFacts(n, 2 * n);
    for i := 0 to n
      invariant forall p, q :: 0 <= p < i && 0 <= q < n ==> buf[Idx(p, q, n)] == g.Get(p, q + n)
    {
      for j := 0 to n
        invariant forall p, q :: 0 <= p < i && 0 <= q < n ==> buf[Idx(p, q, n)] == g.Get(p, q + n)
        invariant forall q :: 0 <= q < j ==> buf[Idx(i, q, n)] == g.Get(i, q + n)
      {
        buf[Idx(i, j, n)] := aug[Idx(i, j + n, 2 * n)];
      }
    }
    Filled(buf[..], RightHalf(g));
    inv := Matrix(n, n, buf[..]);
  }

  /** The loop at lines 139-148: rows below i lose a multiple of the pivot row. */
  method Eliminate(aug: array<real>, n: nat, w: nat, i: nat)
    requires aug.Length == Times(n, w) && i < n && i < w
    requires i + 1 < n ==> Matrix(n, w, aug[..]).Get(i, i) != 0.0
    modifies aug
    ensures Matrix(n, w, aug[..]) == EliminateFrom(Matrix(n, w, old(aug[..])), i, i + 1)
  {
    ghost var s := Matrix(n, w, aug[..]);
    for j := i + 1 to n
      invariant Matrix(n, w, aug[..]).Get(i, i) == s.Get(i, i)
      invariant EliminateFrom(Matrix(n, w, aug[..]), i, j) == EliminateFrom(s, i, i + 1)
    {
      ghost var before := Matrix(n, w, aug[..]);
      IdxBounds(j, i, n, w);
      IdxBounds(i, i, n, w);
      var x, y := aug[Idx(j, i, w)], aug[Idx(i, i, w)];
      EliminateFromStep(before, i, j, x, y);
      var factor := x / y;
      SubtractRow(aug, n, w, j, i, factor, i);
    }
  }

  /** One iteration of the loop EliminateFrom describes; row i is left as it was. */
  lemma EliminateFromStep(g: Matrix, i: nat, j: nat, x: real, y: real)
    requires g.Valid() && i < j < g.rows && i < g.cols && g.Get(i, i) != 0.0
    requires x == g.Get(j, i) && y == g.Get(i, i)
    ensures SubtractRowFrom(g, j, i, x / y, i).Get(i, i) == g.Get(i, i)
    ensures EliminateFrom(g, i, j) == EliminateFrom(SubtractRowFrom(g, j, i, x / y, i), i, j + 1)
  {
    SubtractRowFromEntries(g, j, i, x / y, i);
  }

  /** One pass of the loop at lines 118-149: pivot search, row exchange, elimination. */
  method ForwardStep(aug: array<real>, n: nat, w: nat, i: nat) returns (ok: bool)
    requires aug.Length == Times(n, w) && i < n && n <= w
    modifies aug
    ensures var s := PivotSwapped(Matrix(n, w, old(aug[..])), i);
      (ok <==> !(i + 1 < n && s.Get(i, i) == 0.0)) &&
      (ok ==> Matrix(n, w, aug[..]) == EliminateFrom(s, i, i + 1))
  {
    ghost var before := Matrix(n, w, aug[..]);
    var p := FindPivot(aug, n, w, i);
    if p != i {
      SwapRows(aug, n, w, i, p);
    }
    assert Matrix(n, w, aug[..]) == PivotSwapped(before, i);
    IdxBounds(i, i, n, w);
    if i + 1 < n && aug[Idx(i, i, w)] == 0.0 {
      return false;
    }
    Eliminate(aug, n, w, i);
    return true;
  }

  /** The loop at lines 153-162 for row i. */
  method Substitute(aug: array<real>, n: nat, w: nat, i: nat)
    requires aug.Length == Times(n, w) && i < n <= w
    modifies aug
    ensures Matrix(n, w, aug[..]) == SubstituteFrom(Matrix(n, w, old(aug[..])), i, i + 1)
  {
    ghost var g := Matrix(n, w, aug[..]);
    for j := i + 1 to n
      invariant SubstituteFrom(Matrix(n, w, aug[..]), i, j) == SubstituteFrom(g, i, i + 1)
    {
      ghost var before := Matrix(n, w, aug[..]);
      IdxBounds(i, j, n, w);
      var factor := aug[Idx(i, j, w)];
      SubstituteFromStep(before, i, j, factor);
      SubtractRow(aug, n, w, i, j, factor, j);
    }
  }

  /** One iteration of the loop SubstituteFrom describes. */
  lemma SubstituteFromStep(g: Matrix, i: nat, j: nat, x: real)
    requires g.Valid() && g.rows <= g.cols && i < j < g.rows && x == g.Get(i, j)
    ensures SubstituteFrom(g, i, j) == SubstituteFrom(SubtractRowFrom(g, i, j, x, j), i, j + 1)
  {
  }

  /** One pass of the loop at lines 152-169: back substitution and normalisation of row i. */
  method BackwardStep(aug: array<real>, n: nat, w: nat, i: nat) returns (ok: bool)
    requires aug.Length == Times(n, w) && i < n <= w
    modifies aug
    ensures var h := SubstituteFrom(Matrix(n, w, old(aug[..])), i, i + 1);
      (ok <==> h.Get(i, i) != 0.0) &&
      (ok ==> Matrix(n, w, aug[..]) == DivideRowFrom(h, i, h.Get(i, i), 0))
  {
    Substitute(aug, n, w, i);
    IdxBounds(i, i, n, w);
    var factor := aug[Idx(i, i, w)];
    if factor == 0.0 {
      return false;
    }
    DivideRow(aug, n, w, i, factor);
    return true;
  }

  /** One unfolding of Forward. */
  lemma ForwardUnfold(g: Matrix, i: nat)
    requires g.Valid() && g.rows <= g.cols && i < g.rows
    ensures var s := PivotSwapped(g, i);
      Forward(g, i) == if i + 1 < g.rows && s.Get(i, i) == 0.0 then Err(ZeroPivot)
                       else Forward(EliminateFrom(s, i, i + 1), i + 1)
  {
  }

  /** The elimination loop of lines 118-149 on the buffer. */
  method ForwardPhase(aug: array<real>, n: nat, w: nat) returns (ok: bool)
    requires aug.Length == Times(n, w) && n <= w
    modifies aug
    ensures var f := Forward(Matrix(n, w, old(aug[..])), 0);
      (ok <==> f.Ok?) && (ok ==> f.value == Matrix(n, w, aug[..]))
  {
    ghost var forward := Forward(Matrix(n, w, aug[..]), 0);
    for i := 0 to n
      invariant Forward(Matrix(n, w, aug[..]), i) == forward
    {
      ForwardUnfold(Matrix(n, w, aug[..]), i);
      ok := ForwardStep(aug, n, w, i);
      if !ok {
        return;
      }
    }
    ok := true;
  }

  /** One unfolding of Backward. */
  lemma BackwardUnfold(g: Matrix, t: nat)
    requires g.Valid() && g.rows <= g.cols && 0 < t <= g.rows
    ensures var h := SubstituteFrom(g, t - 1, t);
      Backward(g, t) == if h.Get(t - 1, t - 1) == 0.0 then Err(ZeroPivot)
                        else Backward(DivideRowFrom(h, t - 1, h.Get(t - 1, t - 1), 0), t - 1)
  {
  }

  /** The back-substitution loop of lines 152-169 on the buffer. */
  method BackwardPhase(aug: array<real>, n: nat, w: nat) returns (ok: bool)
    requires aug.Length == Times(n, w) && n <= w
    modifies aug
    ensures var b := Backward(Matrix(n, w, old(aug[..])), n);
      (ok <==> b.Ok?) && (ok ==> b.value == Matrix(n, w, aug[..]))
  {
    ghost var backward := Backward(Matrix(n, w, aug[..]), n);
    for i := n downto 0
      invariant Backward(Matrix(n, w, aug[..]), i) == backward
    {
      BackwardUnfold(Matrix(n, w, aug[..]), i + 1);
      ok := BackwardStep(aug, n, w, i);
      if !ok {
        return;
      }
    }
    ok := true;
  }

  /**
   * `inverse` (lines 101-180) in place on the augmented buffer: the result is
   * the specification's, so NotSquare exactly for a non-square matrix and
   * otherwise an n x n matrix or a zero pivot.
   */
  method Inverse(m: Matrix) returns (r: Result<Matrix>)
    requires m.Valid()
    ensures r == GaussJordanInverse(m)
  {
    if m.rows != m.cols {
      return Err(NotSquare);
    }
    var n := m.rows;
    var w := 2 * n;
    var aug := new real[Times(n, w)](_ => 0.0);
    FillAugmented(aug, m);
    var ok := ForwardPhase(aug, n, w);
    if !ok {
      return Err(ZeroPivot);
    }
    ok := BackwardPhase(aug, n, w);
    if !ok {
      return Err(ZeroPivot);
    }
    var inv := Extract(aug, n);
    r := Ok(inv);
  }
}
