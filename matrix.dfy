/**
 * Dense, row-major, fixed-shape matrices over a flat buffer
 * (`Matrix` in src/plugin/wave-sensor-algorithms.js).
 *
 * Numbers are idealised as Dafny `real`: the JavaScript doubles' rounding,
 * overflow and NaN are not modelled.  A matrix is a value; every operation
 * returns a new one.  Each operation appears twice: as a specification
 * function (`Product`, `Transposed`, ...) stating what the entries are, and as
 * a method (`Multiply`, `Transpose`, ...) that fills a fresh buffer in the
 * source's nested loops and is proved to produce the specification's value.
 */
module Matrices {

  /** The source's thrown errors, plus the point where it divides by a zero pivot. */
  datatype MatrixError =
    | DimensionMismatch  // "Matrix dimensions do not match ..."
    | NotSquare          // "Matrix must be square for inverse"
    | ZeroPivot          // division by a zero pivot inside inverse (no throw in the source)

  datatype Result<T> = Ok(value: T) | Err(error: MatrixError)

  /**
   * a * b, written as a recursive function so that the verifier reasons about
   * buffer positions through the lemmas below instead of nonlinear arithmetic.
   */
  function Times(a: nat, b: nat): nat
  {
    if a == 0 then 0 else Times(a - 1, b) + b
  }

  /** Row-major position of entry (i, j) in a buffer with `cols` columns. */
  function Idx(i: nat, j: nat, cols: nat): nat { Times(i, cols) + j }

  /** Row of buffer position k (k / cols). */
  function RowOf(k: nat, cols: nat): nat
    requires cols > 0
  {
    if k < cols then 0 else RowOf(k - cols, cols) + 1
  }

  /** Column of buffer position k (k % cols). */
  function ColOf(k: nat, cols: nat): nat
    requires cols > 0
  {
    if k < cols then k else ColOf(k - cols, cols)
  }

  lemma {:induction false} TimesMono(a: nat, b: nat, c: nat)
    requires a <= b
    ensures Times(a, c) <= Times(b, c)
    decreases b
  {
    if a < b { TimesMono(a, b - 1, c); }
  }

  lemma IdxBounds(i: nat, j: nat, rows: nat, cols: nat)
    requires i < rows && j < cols
    ensures Idx(i, j, cols) < Times(rows, cols)
  {
    TimesMono(i + 1, rows, cols);
  }

  lemma {:induction false} IdxRowCol(i: nat, j: nat, cols: nat)
    requires j < cols
    ensures RowOf(Idx(i, j, cols), cols) == i && ColOf(Idx(i, j, cols), cols) == j
  {
    if i > 0 {
      IdxRowCol(i - 1, j, cols);
      assert Idx(i, j, cols) - cols == Idx(i - 1, j, cols);
    }
  }

  /** In-range (row, column) pairs land inside the buffer and are recovered from their position. */
  lemma IdxFacts(rows: nat, cols: nat)
    ensures forall i: nat, j: nat :: i < rows && j < cols ==> Idx(i, j, cols) < Times(rows, cols)
    ensures forall i: nat, j: nat :: j < cols ==> RowOf(Idx(i, j, cols), cols) == i && ColOf(Idx(i, j, cols), cols) == j
  {
    forall i: nat, j: nat | j < cols
      ensures i < rows ==> Idx(i, j, cols) < Times(rows, cols)
      ensures RowOf(Idx(i, j, cols), cols) == i && ColOf(Idx(i, j, cols), cols) == j
    {
      IdxRowCol(i, j, cols);
      if i < rows { IdxBounds(i, j, rows, cols); }
    }
  }

  /** Every buffer position is the position of a unique in-range (row, column) pair. */
  lemma {:induction false} Decompose(k: nat, rows: nat, cols: nat)
    requires k < Times(rows, cols)
    ensures cols > 0 && RowOf(k, cols) < rows && ColOf(k, cols) < cols
    ensures Idx(RowOf(k, cols), ColOf(k, cols), cols) == k
    decreases rows
  {
    if cols == 0 {
      TimesZero(rows);
    } else if k >= cols {
      Decompose(k - cols, rows - 1, cols);
    }
  }

  lemma {:induction false} TimesZero(a: nat)
    ensures Times(a, 0) == 0
  {
    if a > 0 { TimesZero(a - 1); }
  }

  datatype Matrix = Matrix(rows: nat, cols: nat, data: seq<real>) {

    /** The buffer holds exactly rows*cols entries. */
    predicate Valid() { |data| == Times(rows, cols) }

    function Get(i: nat, j: nat): real
      requires Valid() && i < rows && j < cols
    {
      IdxBounds(i, j, rows, cols);
      data[Idx(i, j, cols)]
    }

    /** The matrix with entry (i, j) replaced by v (`set`, lines 21-23). */
    function Set(i: nat, j: nat, v: real): (m: Matrix)
      requires Valid() && i < rows && j < cols
      ensures m.Valid() && m.rows == rows && m.cols == cols
      ensures m.Get(i, j) == v
    {
      IdxBounds(i, j, rows, cols);
      Matrix(rows, cols, data[Idx(i, j, cols) := v])
    }
  }

  /** `set` leaves every other entry as it was. */
  lemma SetFrame(m: Matrix, i: nat, j: nat, v: real)
    requires m.Valid() && i < m.rows && j < m.cols
    ensures forall p, q :: 0 <= p < m.rows && 0 <= q < m.cols && (p, q) != (i, j) ==> m.Set(i, j, v).Get(p, q) == m.Get(p, q)
  {
    IdxFacts(m.rows, m.cols);
  }

  /** Two valid matrices of one shape with equal entries are equal. */
  lemma Ext(a: Matrix, b: Matrix)
    requires a.Valid() && b.Valid() && a.rows == b.rows && a.cols == b.cols
    requires forall i, j :: 0 <= i < a.rows && 0 <= j < a.cols ==> a.Get(i, j) == b.Get(i, j)
    ensures a == b
  {
    forall k | 0 <= k < |a.data|
      ensures a.data[k] == b.data[k]
    {
      Decompose(k, a.rows, a.cols);
      assert a.Get(RowOf(k, a.cols), ColOf(k, a.cols)) == b.Get(RowOf(k, a.cols), ColOf(k, a.cols));
    }
  }

  /** A buffer whose every (i, j) position holds t's entry is t's buffer. */
  lemma Filled(buf: seq<real>, t: Matrix)
    requires t.Valid() && |buf| == Times(t.rows, t.cols)
    requires forall i, j :: 0 <= i < t.rows && 0 <= j < t.cols ==> Idx(i, j, t.cols) < |buf| && buf[Idx(i, j, t.cols)] == t.Get(i, j)
    ensures buf == t.data
  {
    forall k | 0 <= k < |buf|
      ensures buf[k] == t.data[k]
    {
      Decompose(k, t.rows, t.cols);
      assert buf[Idx(RowOf(k, t.cols), ColOf(k, t.cols), t.cols)] == t.Get(RowOf(k, t.cols), ColOf(k, t.cols));
    }
  }

  // ---------------------------------------------------------------------------
  // Specification functions
  // ---------------------------------------------------------------------------

  /**
   * The rows x cols matrix whose entry (i, j) is f(i, j), laid out row by row
   * as the source's buffers are.
   */
  function {:induction false} Table(rows: nat, cols: nat, f: (nat, nat) -> real): (m: Matrix)
    ensures m.Valid() && m.rows == rows && m.cols == cols
    decreases rows
  {
    if rows == 0 then Matrix(0, cols, [])
    else Matrix(rows, cols, Table(rows - 1, cols, f).data + seq(cols, j requires 0 <= j < cols => f(rows - 1, j)))
  }

  /** Entry (i, j) of the table is f(i, j). */
  lemma {:induction false} TableEntries(rows: nat, cols: nat, f: (nat, nat) -> real)
    ensures forall i, j :: 0 <= i < rows && 0 <= j < cols ==> Table(rows, cols, f).Get(i, j) == f(i, j)
    decreases rows
  {
    if rows > 0 {
      TableEntries(rows - 1, cols, f);
      var top := Table(rows - 1, cols, f);
      var m := Table(rows, cols, f);
      forall i, j | 0 <= i < rows && 0 <= j < cols
        ensures m.Get(i, j) == f(i, j)
      {
        if i < rows - 1 {
          IdxBounds(i, j, rows - 1, cols);
          assert m.Get(i, j) == top.Get(i, j);
        }
      }
    }
  }

  /** A rows x cols matrix of zeros (`new Matrix(rows, cols)`, line 6). */
  function Zeros(rows: nat, cols: nat): (m: Matrix)
    ensures m.Valid() && m.rows == rows && m.cols == cols
    ensures forall i, j :: 0 <= i < rows && 0 <= j < cols ==> m.Get(i, j) == 0.0
  {
    var f := (i: nat, j: nat) => 0.0;
    TableEntries(rows, cols, f);
    Table(rows, cols, f)
  }

  /** 1 on the diagonal, 0 elsewhere. */
  function IdentityOf(n: nat): (m: Matrix)
    ensures m.Valid() && m.rows == n && m.cols == n
    ensures forall i, j :: 0 <= i < n && 0 <= j < n ==> m.Get(i, j) == if i == j then 1.0 else 0.0
  {
    var f := (i: nat, j: nat) => if i == j then 1.0 else 0.0;
    TableEntries(n, n, f);
    Table(n, n, f)
  }

  /** Sum over t < k of a(i, t) * b(t, j), accumulated left to right. */
  function RowCol(a: Matrix, b: Matrix, i: nat, j: nat, k: nat): real
    requires a.Valid() && b.Valid() && a.cols == b.rows
    requires i < a.rows && j < b.cols && k <= a.cols
  {
    if k == 0 then 0.0 else RowCol(a, b, i, j, k - 1) + a.Get(i, k - 1) * b.Get(k - 1, j)
  }

  /** The matrix product: a rows x b.cols matrix of row-by-column sums. */
  function Product(a: Matrix, b: Matrix): (m: Matrix)
    requires a.Valid() && b.Valid() && a.cols == b.rows
    ensures m.Valid() && m.rows == a.rows && m.cols == b.cols
    ensures forall i, j :: 0 <= i < a.rows && 0 <= j < b.cols ==> m.Get(i, j) == RowCol(a, b, i, j, a.cols)
  {
    var f := (i: nat, j: nat) => if i < a.rows && j < b.cols then RowCol(a, b, i, j, a.cols) else 0.0;
    TableEntries(a.rows, b.cols, f);
    Table(a.rows, b.cols, f)
  }

  /** The transpose: entry (i, j) is m(j, i). */
  function Transposed(m: Matrix): (t: Matrix)
    requires m.Valid()
    ensures t.Valid() && t.rows == m.cols && t.cols == m.rows
    ensures forall i, j :: 0 <= i < m.cols && 0 <= j < m.rows ==> t.Get(i, j) == m.Get(j, i)
  {
    var f := (i: nat, j: nat) => if i < m.cols && j < m.rows then m.Get(j, i) else 0.0;
    TableEntries(m.cols, m.rows, f);
    Table(m.cols, m.rows, f)
  }

  /** Entrywise sum of two matrices of one shape. */
  function Sum(a: Matrix, b: Matrix): (m: Matrix)
    requires a.Valid() && b.Valid() && a.rows == b.rows && a.cols == b.cols
    ensures m.Valid() && m.rows == a.rows && m.cols == a.cols
    ensures forall i, j :: 0 <= i < a.rows && 0 <= j < a.cols ==> m.Get(i, j) == a.Get(i, j) + b.Get(i, j)
  {
    var f := (i: nat, j: nat) => if i < a.rows && j < a.cols then a.Get(i, j) + b.Get(i, j) else 0.0;
    TableEntries(a.rows, a.cols, f);
    Table(a.rows, a.cols, f)
  }

  /** Entrywise difference of two matrices of one shape. */
  function Difference(a: Matrix, b: Matrix): (m: Matrix)
    requires a.Valid() && b.Valid() && a.rows == b.rows && a.cols == b.cols
    ensures m.Valid() && m.rows == a.rows && m.cols == a.cols
    ensures forall i, j :: 0 <= i < a.rows && 0 <= j < a.cols ==> m.Get(i, j) == a.Get(i, j) - b.Get(i, j)
  {
    var f := (i: nat, j: nat) => if i < a.rows && j < a.cols then a.Get(i, j) - b.Get(i, j) else 0.0;
    TableEntries(a.rows, a.cols, f);
    Table(a.rows, a.cols, f)
  }

  /** Every entry multiplied by `factor`. */
  function Scaled(m: Matrix, factor: real): (s: Matrix)
    requires m.Valid()
    ensures s.Valid() && s.rows == m.rows && s.cols == m.cols
    ensures forall i, j :: 0 <= i < m.rows && 0 <= j < m.cols ==> s.Get(i, j) == m.Get(i, j) * factor
  {
    var f := (i: nat, j: nat) => if i < m.rows && j < m.cols then m.Get(i, j) * factor else 0.0;
    TableEntries(m.rows, m.cols, f);
    Table(m.rows, m.cols, f)
  }

  ghost predicate Symmetric(m: Matrix)
  {
    m.Valid() && m.rows == m.cols &&
    forall i, j :: 0 <= i < m.rows && 0 <= j < m.rows ==> m.Get(i, j) == m.Get(j, i)
  }

  // ---------------------------------------------------------------------------
  // Algebraic facts about the specification functions
  // ---------------------------------------------------------------------------

  /** Transposing twice gives back the original matrix. */
  lemma TransposeTwice(m: Matrix)
    requires m.Valid()
    ensures Transposed(Transposed(m)) == m
  {
    Ext(Transposed(Transposed(m)), m);
  }

  lemma RowColStep(a: Matrix, b: Matrix, i: nat, j: nat, k: nat)
    requires a.Valid() && b.Valid() && a.cols == b.rows
    requires i < a.rows && j < b.cols && 0 < k <= a.cols
    ensures RowCol(a, b, i, j, k) == RowCol(a, b, i, j, k - 1) + a.Get(i, k - 1) * b.Get(k - 1, j)
  {
  }

  /**
   * Row-by-column sums of a·b agree with those of bt·at when bt and at hold
   * the transposes' entries.  Stated over arbitrary matrices so that the
   * induction does not see how Transposed builds its buffer.
   */
  lemma {:induction false} RowColTransposed(a: Matrix, b: Matrix, bt: Matrix, at: Matrix, i: nat, j: nat, k: nat)
    requires a.Valid() && b.Valid() && a.cols == b.rows
    requires at.Valid() && at.rows == a.cols && at.cols == a.rows
    requires bt.Valid() && bt.rows == b.cols && bt.cols == b.rows
    requires forall p, q :: 0 <= p < a.rows && 0 <= q < a.cols ==> at.Get(q, p) == a.Get(p, q)
    requires forall p, q :: 0 <= p < b.rows && 0 <= q < b.cols ==> bt.Get(q, p) == b.Get(p, q)
    requires i < a.rows && j < b.cols && k <= a.cols
    ensures RowCol(a, b, i, j, k) == RowCol(bt, at, j, i, k)
  {
    if k > 0 {
      RowColTransposed(a, b, bt, at, i, j, k - 1);
      RowColStep(bt, at, j, i, k);
      RowColStep(a, b, i, j, k);
      assert bt.Get(j, k - 1) == b.Get(k - 1, j);
      assert at.Get(k - 1, i) == a.Get(i, k - 1);
    }
  }

  /** (a·b)ᵀ = bᵀ·aᵀ. */
  lemma TransposeProduct(a: Matrix, b: Matrix)
    requires a.Valid() && b.Valid() && a.cols == b.rows
    ensures Transposed(Product(a, b)) == Product(Transposed(b), Transposed(a))
  {
    forall i, j | 0 <= i < b.cols && 0 <= j < a.rows
      ensures Transposed(Product(a, b)).Get(i, j) == Product(Transposed(b), Transposed(a)).Get(i, j)
    {
      RowColTransposed(a, b, Transposed(b), Transposed(a), j, i, a.cols);
    }
    Ext(Transposed(Product(a, b)), Product(Transposed(b), Transposed(a)));
  }

  // Associativity goes through a grid g whose entry (l, t) is
  // a(i, l) * b(l, t) * c(t, j): both sides of (a·b)·c = a·(b·c) at (i, j)
  // total the grid, one column by column and the other row by row.

  /** Sum over t < m of g(l, t). */
  ghost function RowSum(g: Matrix, l: nat, m: nat): real
    requires g.Valid() && l < g.rows && m <= g.cols
  {
    if m == 0 then 0.0 else RowSum(g, l, m - 1) + g.Get(l, m - 1)
  }

  /** Sum over l < n of g(l, t). */
  ghost function ColSum(g: Matrix, t: nat, n: nat): real
    requires g.Valid() && t < g.cols && n <= g.rows
  {
    if n == 0 then 0.0 else ColSum(g, t, n - 1) + g.Get(n - 1, t)
  }

  /** The first n row sums (each over the first m columns), added up. */
  ghost function RowsTotal(g: Matrix, n: nat, m: nat): real
    requires g.Valid() && n <= g.rows && m <= g.cols
  {
    if n == 0 then 0.0 else RowsTotal(g, n - 1, m) + RowSum(g, n - 1, m)
  }

  /** The first m column sums (each over the first n rows), added up. */
  ghost function ColsTotal(g: Matrix, m: nat, n: nat): real
    requires g.Valid() && n <= g.rows && m <= g.cols
  {
    if m == 0 then 0.0 else ColsTotal(g, m - 1, n) + ColSum(g, m - 1, n)
  }

  lemma {:induction false} RowsTotalEmpty(g: Matrix, n: nat)
    requires g.Valid() && n <= g.rows
    ensures RowsTotal(g, n, 0) == 0.0
  {
    if n > 0 { RowsTotalEmpty(g, n - 1); }
  }

  /** Widening every row sum by column m adds column m's sum. */
  lemma {:induction false} RowsTotalStep(g: Matrix, n: nat, m: nat)
    requires g.Valid() && n <= g.rows && m < g.cols
    ensures RowsTotal(g, n, m + 1) == RowsTotal(g, n, m) + ColSum(g, m, n)
  {
    if n > 0 { RowsTotalStep(g, n - 1, m); }
  }

  /** A grid totals the same whether summed by rows or by columns. */
  lemma {:induction false} TotalsAgree(g: Matrix, n: nat, m: nat)
    requires g.Valid() && n <= g.rows && m <= g.cols
    ensures RowsTotal(g, n, m) == ColsTotal(g, m, n)
  {
    if m == 0 {
      RowsTotalEmpty(g, n);
    } else {
      TotalsAgree(g, n, m - 1);
      RowsTotalStep(g, n, m - 1);
    }
  }

  /** The grid of a·b·c at (i, j): entry (l, t) is a(i, l) * (b(l, t) * c(t, j)). */
  ghost predicate IsGrid(g: Matrix, a: Matrix, b: Matrix, c: Matrix, i: nat, j: nat)
    requires a.Valid() && b.Valid() && c.Valid() && a.cols == b.rows && b.cols == c.rows
    requires i < a.rows && j < c.cols
  {
    g.Valid() && g.rows == a.cols && g.cols == b.cols &&
    forall l, t :: 0 <= l < a.cols && 0 <= t < b.cols ==> g.Get(l, t) == a.Get(i, l) * (b.Get(l, t) * c.Get(t, j))
  }

  lemma Distribute(x: real, s: real, r: real, y: real, z: real)
    requires s == r + y * z
    ensures x * s == x * r + x * (y * z)
  {
  }

  lemma DistributeRight(s: real, r: real, x: real, y: real, z: real)
    requires s == r + x * y
    ensures s * z == r * z + x * (y * z)
  {
  }

  /** a(i, l) times the first m terms of (b·c)(l, j) is the first m entries of grid row l. */
  lemma {:induction false} RowSumScaled(g: Matrix, a: Matrix, b: Matrix, c: Matrix, i: nat, j: nat, l: nat, m: nat)
    requires a.Valid() && b.Valid() && c.Valid() && a.cols == b.rows && b.cols == c.rows
    requires i < a.rows && j < c.cols && IsGrid(g, a, b, c, i, j)
    requires l < a.cols && m <= b.cols
    ensures a.Get(i, l) * RowCol(b, c, l, j, m) == RowSum(g, l, m)
  {
    if m > 0 {
      RowSumScaled(g, a, b, c, i, j, l, m - 1);
      RowColStep(b, c, l, j, m);
      Distribute(a.Get(i, l), RowCol(b, c, l, j, m), RowCol(b, c, l, j, m - 1), b.Get(l, m - 1), c.Get(m - 1, j));
    }
  }

  /** The first n terms of (a·b)(i, t), times c(t, j), is the first n entries of grid column t. */
  lemma {:induction false} ColSumScaled(g: Matrix, a: Matrix, b: Matrix, c: Matrix, i: nat, j: nat, t: nat, n: nat)
    requires a.Valid() && b.Valid() && c.Valid() && a.cols == b.rows && b.cols == c.rows
    requires i < a.rows && j < c.cols && IsGrid(g, a, b, c, i, j)
    requires t < b.cols && n <= a.cols
    ensures RowCol(a, b, i, t, n) * c.Get(t, j) == ColSum(g, t, n)
  {
    if n > 0 {
      ColSumScaled(g, a, b, c, i, j, t, n - 1);
      RowColStep(a, b, i, t, n);
      DistributeRight(RowCol(a, b, i, t, n), RowCol(a, b, i, t, n - 1), a.Get(i, n - 1), b.Get(n - 1, t), c.Get(t, j));
    }
  }

  /** ((a·b)·c)(i, j), summed over its first m terms, totals the grid's first m columns. */
  lemma {:induction false} ProductLeftTotal(g: Matrix, a: Matrix, b: Matrix, c: Matrix, ab: Matrix, i: nat, j: nat, m: nat)
    requires a.Valid() && b.Valid() && c.Valid() && a.cols == b.rows && b.cols == c.rows
    requires i < a.rows && j < c.cols && IsGrid(g, a, b, c, i, j)
    requires ab.Valid() && ab.rows == a.rows && ab.cols == b.cols
    requires forall l, t :: 0 <= l < a.rows && 0 <= t < b.cols ==> ab.Get(l, t) == RowCol(a, b, l, t, a.cols)
    requires m <= b.cols
    ensures RowCol(ab, c, i, j, m) == ColsTotal(g, m, a.cols)
  {
    if m > 0 {
      ProductLeftTotal(g, a, b, c, ab, i, j, m - 1);
      RowColStep(ab, c, i, j, m);
      ColSumScaled(g, a, b, c, i, j, m - 1, a.cols);
      assert ColsTotal(g, m, a.cols) == ColsTotal(g, m - 1, a.cols) + ColSum(g, m - 1, a.cols);
      SameProduct(ab.Get(i, m - 1), RowCol(a, b, i, m - 1, a.cols), c.Get(m - 1, j));
    }
  }

  /** (a·(b·c))(i, j), summed over its first n terms, totals the grid's first n rows. */
  lemma {:induction false} ProductRightTotal(g: Matrix, a: Matrix, b: Matrix, c: Matrix, bc: Matrix, i: nat, j: nat, n: nat)
    requires a.Valid() && b.Valid() && c.Valid() && a.cols == b.rows && b.cols == c.rows
    requires i < a.rows && j < c.cols && IsGrid(g, a, b, c, i, j)
    requires bc.Valid() && bc.rows == b.rows && bc.cols == c.cols
    requires forall l, t :: 0 <= l < b.rows && 0 <= t < c.cols ==> bc.Get(l, t) == RowCol(b, c, l, t, b.cols)
    requires n <= a.cols
    ensures RowCol(a, bc, i, j, n) == RowsTotal(g, n, b.cols)
  {
    if n > 0 {
      ProductRightTotal(g, a, b, c, bc, i, j, n - 1);
      RowColStep(a, bc, i, j, n);
      RowSumScaled(g, a, b, c, i, j, n - 1, b.cols);
      SameProduct(bc.Get(n - 1, j), RowCol(b, c, n - 1, j, b.cols), a.Get(i, n - 1));
    }
  }

  /** Equal factors give equal products. */
  lemma SameProduct(x: real, y: real, z: real)
    requires x == y
    ensures x * z == y * z && z * x == z * y
  {
  }

  /** The grid of a·b·c at (i, j), built entry by entry. */
  ghost function Grid(a: Matrix, b: Matrix, c: Matrix, i: nat, j: nat): (g: Matrix)
    requires a.Valid() && b.Valid() && c.Valid() && a.cols == b.rows && b.cols == c.rows
    requires i < a.rows && j < c.cols
    ensures IsGrid(g, a, b, c, i, j)
  {
    var f := (l: nat, t: nat) => if l < a.cols && t < b.cols then a.Get(i, l) * (b.Get(l, t) * c.Get(t, j)) else 0.0;
    TableEntries(a.cols, b.cols, f);
    Table(a.cols, b.cols, f)
  }

  /** Entry (i, j) of (a·b)·c and of a·(b·c) both total the grid. */
  lemma ProductAssociativeAt(a: Matrix, b: Matrix, c: Matrix, i: nat, j: nat)
    requires a.Valid() && b.Valid() && c.Valid() && a.cols == b.rows && b.cols == c.rows
    requires i < a.rows && j < c.cols
    ensures RowCol(Product(a, b), c, i, j, b.cols) == RowCol(a, Product(b, c), i, j, a.cols)
  {
    var g := Grid(a, b, c, i, j);
    ProductLeftTotal(g, a, b, c, Product(a, b), i, j, b.cols);
    ProductRightTotal(g, a, b, c, Product(b, c), i, j, a.cols);
    TotalsAgree(g, a.cols, b.cols);
  }

  /** The matrix product is associative. */
  lemma ProductAssociative(a: Matrix, b: Matrix, c: Matrix)
    requires a.Valid() && b.Valid() && c.Valid() && a.cols == b.rows && b.cols == c.rows
    ensures Product(Product(a, b), c) == Product(a, Product(b, c))
  {
    forall i, j | 0 <= i < a.rows && 0 <= j < c.cols
      ensures Product(Product(a, b), c).Get(i, j) == Product(a, Product(b, c)).Get(i, j)
    {
      ProductAssociativeAt(a, b, c, i, j);
    }
    Ext(Product(Product(a, b), c), Product(a, Product(b, c)));
  }

  /** A square matrix is symmetric exactly when it equals its transpose. */
  lemma SymmetricIffTransposeFixed(m: Matrix)
    requires m.Valid() && m.rows == m.cols
    ensures Symmetric(m) <==> Transposed(m) == m
  {
    if Symmetric(m) { Ext(Transposed(m), m); }
    if Transposed(m) == m {
      forall i, j | 0 <= i < m.rows && 0 <= j < m.rows
        ensures m.Get(i, j) == m.Get(j, i)
      {
        assert Transposed(m).Get(i, j) == m.Get(j, i);
      }
    }
  }

  /** F·P·Fᵀ is symmetric whenever P is: covariance propagation keeps symmetry. */
  lemma CongruenceSymmetric(f: Matrix, p: Matrix)
    requires f.Valid() && Symmetric(p) && f.cols == p.rows
    ensures Symmetric(Product(Product(f, p), Transposed(f)))
  {
    var ft := Transposed(f);
    var fp := Product(f, p);
    var m := Product(fp, ft);
    SymmetricIffTransposeFixed(p);
    calc {
      Transposed(m);
      { TransposeProduct(fp, ft); }
      Product(Transposed(ft), Transposed(fp));
      { TransposeTwice(f); TransposeProduct(f, p); }
      Product(f, Product(Transposed(p), ft));
      Product(f, Product(p, ft));
      { ProductAssociative(f, p, ft); }
      m;
    }
    SymmetricIffTransposeFixed(m);
  }

  /** The entrywise sum of two symmetric matrices is symmetric. */
  lemma SumSymmetric(a: Matrix, b: Matrix)
    requires Symmetric(a) && Symmetric(b) && a.rows == b.rows
    ensures Symmetric(Sum(a, b))
  {
  }

  // ---------------------------------------------------------------------------
  // The operations as the source runs them: nested loops filling a fresh buffer
  // ---------------------------------------------------------------------------

  /** `Matrix.identity(size)` (lines 9-15): a zero buffer with 1 written on the diagonal. */
  method Identity(size: nat) returns (m: Matrix)
    ensures m == IdentityOf(size)
  {
    var buf := new real[Times(size, size)](_ => 0.0);
    IdxFacts(size, size);
    for i := 0 to size
      invariant forall p, q :: 0 <= p < size && 0 <= q < size ==>
        buf[Idx(p, q, size)] == if p == q && p < i then 1.0 else 0.0
    {
      buf[Idx(i, i, size)] := 1.0;
    }
    Filled(buf[..], IdentityOf(size));
    m := Matrix(size, size, buf[..]);
  }

  /** The innermost loop of `multiply` (lines 34-37). */
  method RowTimesColumn(a: Matrix, b: Matrix, i: nat, j: nat) returns (sum: real)
    requires a.Valid() && b.Valid() && a.cols == b.rows && i < a.rows && j < b.cols
    ensures sum == RowCol(a, b, i, j, a.cols)
  {
    sum := 0.0;
    for k := 0 to a.cols
      invariant sum == RowCol(a, b, i, j, k)
    {
      sum := sum + a.Get(i, k) * b.Get(k, j);
    }
  }

  /**
   * `multiply` (lines 25-43): fails exactly when the inner dimensions differ;
   * otherwise entry (i, j) is the sum over k of a(i, k) * b(k, j).
   */
  method Multiply(a: Matrix, b: Matrix) returns (r: Result<Matrix>)
    requires a.Valid() && b.Valid()
    ensures r.Err? <==> a.cols != b.rows
    ensures r.Err? ==> r.error == DimensionMismatch
    ensures r.Ok? ==> r.value == Product(a, b)
  {
    if a.cols != b.rows {
      return Err(DimensionMismatch);
    }
    var buf := new real[Times(a.rows, b.cols)](_ => 0.0);
    IdxFacts(a.rows, b.cols);
    for i := 0 to a.rows
      invariant forall p, q :: 0 <= p < i && 0 <= q < b.cols ==> buf[Idx(p, q, b.cols)] == RowCol(a, b, p, q, a.cols)
    {
      for j := 0 to b.cols
        invariant forall p, q :: 0 <= p < i && 0 <= q < b.cols ==> buf[Idx(p, q, b.cols)] == RowCol(a, b, p, q, a.cols)
        invariant forall q :: 0 <= q < j ==> buf[Idx(i, q, b.cols)] == RowCol(a, b, i, q, a.cols)
      {
        var sum := RowTimesColumn(a, b, i, j);
        buf[Idx(i, j, b.cols)] := sum;
      }
    }
    Filled(buf[..], Product(a, b));
    r := Ok(Matrix(a.rows, b.cols, buf[..]));
  }

  /** `transpose` (lines 45-55): entry (i, j) is written to position (j, i) of a cols x rows buffer. */
  method Transpose(m: Matrix) returns (t: Matrix)
    requires m.Valid()
    ensures t == Transposed(m)
  {
    var buf := new real[Times(m.cols, m.rows)](_ => 0.0);
    IdxFacts(m.cols, m.rows);
    for i := 0 to m.rows
      invariant forall p, q :: 0 <= p < i && 0 <= q < m.cols ==> buf[Idx(q, p, m.rows)] == m.Get(p, q)
    {
      for j := 0 to m.cols
        invariant forall p, q :: 0 <= p < i && 0 <= q < m.cols ==> buf[Idx(q, p, m.rows)] == m.Get(p, q)
        invariant forall q :: 0 <= q < j ==> buf[Idx(q, i, m.rows)] == m.Get(i, q)
      {
        buf[Idx(j, i, m.rows)] := m.Get(i, j);
      }
    }
    Filled(buf[..], Transposed(m));
    t := Matrix(m.cols, m.rows, buf[..]);
  }

  /** `add` (lines 57-71): fails on any row or column mismatch, otherwise entrywise. */
  method Add(a: Matrix, b: Matrix) returns (r: Result<Matrix>)
    requires a.Valid() && b.Valid()
    ensures r.Err? <==> a.rows != b.rows || a.cols != b.cols
    ensures r.Err? ==> r.error == DimensionMismatch
    ensures r.Ok? ==> r.value == Sum(a, b)
  {
    if a.rows != b.rows || a.cols != b.cols {
      return Err(DimensionMismatch);
    }
    var buf := new real[Times(a.rows, a.cols)](_ => 0.0);
    IdxFacts(a.rows, a.cols);
    for i := 0 to a.rows
      invariant forall p, q :: 0 <= p < i && 0 <= q < a.cols ==> buf[Idx(p, q, a.cols)] == a.Get(p, q) + b.Get(p, q)
    {
      for j := 0 to a.cols
        invariant forall p, q :: 0 <= p < i && 0 <= q < a.cols ==> buf[Idx(p, q, a.cols)] == a.Get(p, q) + b.Get(p, q)
        invariant forall q :: 0 <= q < j ==> buf[Idx(i, q, a.cols)] == a.Get(i, q) + b.Get(i, q)
      {
        buf[Idx(i, j, a.cols)] := a.Get(i, j) + b.Get(i, j);
      }
    }
    Filled(buf[..], Sum(a, b));
    r := Ok(Matrix(a.rows, a.cols, buf[..]));
  }

  /** `subtract` (lines 73-87): fails on any row or column mismatch, otherwise entrywise. */
  method Subtract(a: Matrix, b: Matrix) returns (r: Result<Matrix>)
    requires a.Valid() && b.Valid()
    ensures r.Err? <==> a.rows != b.rows || a.cols != b.cols
    ensures r.Err? ==> r.error == DimensionMismatch
    ensures r.Ok? ==> r.value == Difference(a, b)
  {
    if a.rows != b.rows || a.cols != b.cols {
      return Err(DimensionMismatch);
    }
    var buf := new real[Times(a.rows, a.cols)](_ => 0.0);
    IdxFacts(a.rows, a.cols);
    for i := 0 to a.rows
      invariant forall p, q :: 0 <= p < i && 0 <= q < a.cols ==> buf[Idx(p, q, a.cols)] == a.Get(p, q) - b.Get(p, q)
    {
      for j := 0 to a.cols
        invariant forall p, q :: 0 <= p < i && 0 <= q < a.cols ==> buf[Idx(p, q, a.cols)] == a.Get(p, q) - b.Get(p, q)
        invariant forall q :: 0 <= q < j ==> buf[Idx(i, q, a.cols)] == a.Get(i, q) - b.Get(i, q)
      {
        buf[Idx(i, j, a.cols)] := a.Get(i, j) - b.Get(i, j);
      }
    }
    Filled(buf[..], Difference(a, b));
    r := Ok(Matrix(a.rows, a.cols, buf[..]));
  }

  /** `scale` (lines 89-99): every entry multiplied by `factor`; never fails. */
  method Scale(m: Matrix, factor: real) returns (s: Matrix)
    requires m.Valid()
    ensures s == Scaled(m, factor)
  {
    var buf := new real[Times(m.rows, m.cols)](_ => 0.0);
    IdxFacts(m.rows, m.cols);
    for i := 0 to m.rows
      invariant forall p, q :: 0 <= p < i && 0 <= q < m.cols ==> buf[Idx(p, q, m.cols)] == m.Get(p, q) * factor
    {
      ScaleRowInto(buf, m, factor, i);
    }
    ScaledFilled(buf[..], m, factor);
    s := Matrix(m.rows, m.cols, buf[..]);
  }

  /** The inner loop of `scale` (lines 93-95) for row i; the other rows keep their values. */
  method ScaleRowInto(buf: array<real>, m: Matrix, factor: real, i: nat)
    requires m.Valid() && i < m.rows && buf.Length == Times(m.rows, m.cols)
    modifies buf
    ensures forall q :: 0 <= q < m.cols ==> Idx(i, q, m.cols) < buf.Length && buf[Idx(i, q, m.cols)] == m.Get(i, q) * factor
    ensures forall p, q :: 0 <= p < m.rows && p != i && 0 <= q < m.cols ==>
      Idx(p, q, m.cols) < buf.Length && buf[Idx(p, q, m.cols)] == old(buf[Idx(p, q, m.cols)])
  {
    IdxFacts(m.rows, m.cols);
    for j := 0 to m.cols
      invariant forall q :: 0 <= q < j ==> buf[Idx(i, q, m.cols)] == m.Get(i, q) * factor
      invariant forall p, q :: 0 <= p < m.rows && p != i && 0 <= q < m.cols ==> buf[Idx(p, q, m.cols)] == old(buf[Idx(p, q, m.cols)])
    {
      buf[Idx(i, j, m.cols)] := m.Get(i, j) * factor;
    }
  }

  lemma ScaledFilled(buf: seq<real>, m: Matrix, factor: real)
    requires m.Valid() && |buf| == Times(m.rows, m.cols)
    requires forall p, q :: 0 <= p < m.rows && 0 <= q < m.cols ==> Idx(p, q, m.cols) < |buf| && buf[Idx(p, q, m.cols)] == m.Get(p, q) * factor
    ensures buf == Scaled(m, factor).data
  {
    Filled(buf, Scaled(m, factor));
  }
}
