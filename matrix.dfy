/**
 * Dense row-major matrices (src/matrix.rs).
 *
 * A `Matrix` is a value: `rows`, `cols` and a flat `data` buffer in which
 * element (r, c) lives at offset r * cols + c. Every operation builds a new
 * matrix. The shape checks that panic in the source are preconditions here.
 * Elements are `real`: floating-point rounding is not modelled.
 */
module Matrices {

  // ---------------------------------------------------------------------------
  // Flat offsets
  // ---------------------------------------------------------------------------

  /** Offset of element (r, c) in a row-major buffer whose rows have `width` elements. */
  function Offset(r: nat, c: nat, width: nat): nat
  {
    r * width + c
  }

  lemma MulMonotone(a: nat, b: nat, k: nat)
    requires a <= b
    ensures a * k <= b * k
  {
    assert b * k == a * k + (b - a) * k;
  }

  /** Every (r, c) inside a height × width rectangle has an offset inside the buffer. */
  lemma OffsetInRange(r: nat, c: nat, height: nat, width: nat)
    requires r < height && c < width
    ensures Offset(r, c, width) < height * width
  {
    MulMonotone(r + 1, height, width);
    assert (r + 1) * width == r * width + width;
  }

  /** OffsetInRange for every (r, c) at once. */
  lemma OffsetsInRange(height: nat, width: nat)
    ensures forall r, c :: 0 <= r < height && 0 <= c < width ==> Offset(r, c, width) < height * width
  {
    forall r, c | 0 <= r < height && 0 <= c < width
      ensures Offset(r, c, width) < height * width
    {
      OffsetInRange(r, c, height, width);
    }
  }

  /** Every offset inside a height × width buffer comes from exactly one (row, column) pair. */
  lemma OffsetSplit(i: nat, height: nat, width: nat)
    requires i < height * width
    ensures width > 0 && i / width < height && i % width < width
    ensures Offset(i / width, i % width, width) == i
  {
    if i / width >= height {
      MulMonotone(height, i / width, width);
    }
  }

  // ---------------------------------------------------------------------------
  // Row concatenation
  // ---------------------------------------------------------------------------

  /** The rows of `grid` joined end to end (Rust's `into_iter().flatten()`). */
  function Flatten<T>(grid: seq<seq<T>>): seq<T>
  {
    if grid == [] then [] else Flatten(grid[..|grid| - 1]) + grid[|grid| - 1]
  }

  /** Every row of `grid` has `width` elements. */
  predicate Rectangular<T>(grid: seq<seq<T>>, width: nat)
  {
    forall i :: 0 <= i < |grid| ==> |grid[i]| == width
  }

  /** Flattening a rectangular grid lays it out row-major. */
  lemma {:induction false} FlattenRectangular<T>(grid: seq<seq<T>>, width: nat)
    requires Rectangular(grid, width)
    ensures |Flatten(grid)| == |grid| * width
    ensures forall r, c :: 0 <= r < |grid| && 0 <= c < width ==>
              Offset(r, c, width) < |Flatten(grid)| && Flatten(grid)[Offset(r, c, width)] == grid[r][c]
  {
    if grid != [] {
      var n := |grid|;
      var init := grid[..n - 1];
      FlattenRectangular(init, width);
      assert Flatten(grid) == Flatten(init) + grid[n - 1];
      assert n * width == (n - 1) * width + width;
      forall r, c | 0 <= r < n && 0 <= c < width
        ensures Offset(r, c, width) < |Flatten(grid)| && Flatten(grid)[Offset(r, c, width)] == grid[r][c]
      {
        OffsetInRange(r, c, n, width);
        if r < n - 1 {
          assert init[r] == grid[r];
        }
      }
    }
  }

  // ---------------------------------------------------------------------------
  // The matrix value
  // ---------------------------------------------------------------------------

  datatype Matrix = Matrix(rows: nat, cols: nat, data: seq<real>)
  {
    /** The storage holds exactly rows * cols elements. */
    predicate Valid()
    {
      |data| == rows * cols
    }

    /** Element (r, c): `data[r * cols + c]`. */
    function Get(r: nat, c: nat): real
      requires Valid() && r < rows && c < cols
    {
      OffsetInRange(r, c, rows, cols);
      data[Offset(r, c, cols)]
    }
  }

  /** Two matrices of the same shape. */
  predicate SameShape(a: Matrix, b: Matrix)
  {
    a.Valid() && b.Valid() && a.rows == b.rows && a.cols == b.cols
  }

  // ---------------------------------------------------------------------------
  // Constructors
  // ---------------------------------------------------------------------------

  /** `Matrix::zero`: fills a fresh buffer of rows * cols zeros, one push at a time. */
  method Zero(rows: nat, cols: nat) returns (m: Matrix)
    ensures m.Valid() && m.rows == rows && m.cols == cols
    ensures forall r, c :: 0 <= r < rows && 0 <= c < cols ==> m.Get(r, c) == 0.0
  {
    var buffer: seq<real> := [];
    for i := 0 to rows * cols
      invariant |buffer| == i
      invariant forall k :: 0 <= k < i ==> buffer[k] == 0.0
    {
      buffer := buffer + [0.0];
    }
    m := Matrix(rows, cols, buffer);
    OffsetsInRange(rows, cols);
  }

  /**
   * `Matrix::random`: fills a fresh buffer with rows * cols uniform draws from
   * [0, 1). The draws are supplied by the caller, in the order they are taken.
   */
  method Random(rows: nat, cols: nat, draws: seq<real>) returns (m: Matrix)
    requires |draws| == rows * cols
    requires forall k :: 0 <= k < |draws| ==> 0.0 <= draws[k] < 1.0
    ensures m.Valid() && m.rows == rows && m.cols == cols
    ensures m.data == draws
    ensures forall r, c :: 0 <= r < rows && 0 <= c < cols ==> 0.0 <= m.Get(r, c) < 1.0
  {
    var buffer: seq<real> := [];
    for i := 0 to rows * cols
      invariant buffer == draws[..i]
    {
      buffer := buffer + [draws[i]];
    }
    m := Matrix(rows, cols, buffer);
    OffsetsInRange(rows, cols);
  }

  /** `Matrix::from_vec`: panics unless |data| == rows * cols; otherwise a copy of `data` with that shape. */
  function FromVec(data: seq<real>, rows: nat, cols: nat): (m: Matrix)
    requires |data| == rows * cols
    ensures m.Valid() && m.rows == rows && m.cols == cols && m.data == data
  {
    Matrix(rows, cols, data)
  }

  /** Rebuilding a valid matrix from its own buffer and shape gives it back. */
  lemma FromVecOfData(m: Matrix)
    requires m.Valid()
    ensures FromVec(m.data, m.rows, m.cols) == m
  {
  }

  /**
   * `Matrix::from_vec_2d`: rows = number of inner vectors, cols = length of the
   * first one (indexing `data[0]` panics on an empty outer vector), data = the
   * rows concatenated. Rectangularity is not checked.
   */
  function FromVec2D(grid: seq<seq<real>>): (m: Matrix)
    requires |grid| > 0
    ensures m.rows == |grid| && m.cols == |grid[0]|
    ensures m.data == Flatten(grid)
  {
    Matrix(|grid|, |grid[0]|, Flatten(grid))
  }

  /** For a rectangular grid `from_vec_2d` is a valid matrix whose element (r, c) is grid[r][c]. */
  lemma FromVec2DRectangular(grid: seq<seq<real>>)
    requires |grid| > 0 && Rectangular(grid, |grid[0]|)
    ensures FromVec2D(grid).Valid()
    ensures forall r, c :: 0 <= r < |grid| && 0 <= c < |grid[0]| ==> FromVec2D(grid).Get(r, c) == grid[r][c]
  {
    FlattenRectangular(grid, |grid[0]|);
  }

  // ---------------------------------------------------------------------------
  // Element-wise operations
  // ---------------------------------------------------------------------------

  /** `Matrix::map`: the image of every element under `f`, in the same place. */
  function Map(m: Matrix, f: real -> real): (r: Matrix)
    requires m.Valid()
    ensures r.Valid() && r.rows == m.rows && r.cols == m.cols
    ensures forall i, j :: 0 <= i < m.rows && 0 <= j < m.cols ==> r.Get(i, j) == f(m.Get(i, j))
  {
    OffsetsInRange(m.rows, m.cols);
    FromVec(seq(|m.data|, k requires 0 <= k < |m.data| => f(m.data[k])), m.rows, m.cols)
  }

  /** The element-wise sum of two matrices of one shape. */
  function Sum(a: Matrix, b: Matrix): (s: Matrix)
    requires SameShape(a, b)
    ensures s.Valid() && s.rows == a.rows && s.cols == a.cols
    ensures forall r, c :: 0 <= r < a.rows && 0 <= c < a.cols ==> s.Get(r, c) == a.Get(r, c) + b.Get(r, c)
  {
    OffsetsInRange(a.rows, a.cols);
    Matrix(a.rows, a.cols, seq(|a.data|, k requires 0 <= k < |a.data| => a.data[k] + b.data[k]))
  }

  /** The element-wise difference of two matrices of one shape. */
  function Difference(a: Matrix, b: Matrix): (d: Matrix)
    requires SameShape(a, b)
    ensures d.Valid() && d.rows == a.rows && d.cols == a.cols
    ensures forall r, c :: 0 <= r < a.rows && 0 <= c < a.cols ==> d.Get(r, c) == a.Get(r, c) - b.Get(r, c)
  {
    OffsetsInRange(a.rows, a.cols);
    Matrix(a.rows, a.cols, seq(|a.data|, k requires 0 <= k < |a.data| => a.data[k] - b.data[k]))
  }

  /** The element-wise (Hadamard) product of two matrices of one shape. */
  function Hadamard(a: Matrix, b: Matrix): (h: Matrix)
    requires SameShape(a, b)
    ensures h.Valid() && h.rows == a.rows && h.cols == a.cols
    ensures forall r, c :: 0 <= r < a.rows && 0 <= c < a.cols ==> h.Get(r, c) == a.Get(r, c) * b.Get(r, c)
  {
    OffsetsInRange(a.rows, a.cols);
    Matrix(a.rows, b.cols, seq(|a.data|, k requires 0 <= k < |a.data| => a.data[k] * b.data[k]))
  }

  /** `Matrix::add`: panics unless the shapes agree; pushes a[i] + b[i] for every i. */
  method Add(a: Matrix, b: Matrix) returns (s: Matrix)
    requires SameShape(a, b)
    ensures s == Sum(a, b)
  {
    var buffer: seq<real> := [];
    for i := 0 to |a.data|
      invariant buffer == Sum(a, b).data[..i]
    {
      buffer := buffer + [a.data[i] + b.data[i]];
    }
    s := Matrix(a.rows, a.cols, buffer);
  }

  /** `Matrix::subtract`: panics unless the shapes agree; pushes a[i] - b[i] for every i. */
  method Subtract(a: Matrix, b: Matrix) returns (d: Matrix)
    requires SameShape(a, b)
    ensures d == Difference(a, b)
  {
    var buffer: seq<real> := [];
    for i := 0 to |a.data|
      invariant buffer == Difference(a, b).data[..i]
    {
      buffer := buffer + [a.data[i] - b.data[i]];
    }
    d := Matrix(a.rows, a.cols, buffer);
  }

  /** `Matrix::multiply`: panics unless the shapes agree; walks rows and columns pushing the products. */
  method Multiply(a: Matrix, b: Matrix) returns (h: Matrix)
    requires SameShape(a, b)
    ensures h == Hadamard(a, b)
  {
    ghost var spec := Hadamard(a, b).data;
    var buffer: seq<real> := [];
    for row := 0 to a.rows
      invariant |buffer| == row * a.cols <= |spec|
      invariant buffer == spec[..|buffer|]
    {
      for col := 0 to a.cols
        invariant |buffer| == row * a.cols + col <= |spec|
        invariant buffer == spec[..|buffer|]
      {
        OffsetInRange(row, col, a.rows, a.cols);
        var idx := row * a.cols + col;
        assert idx < |a.data| && spec[idx] == a.data[idx] * b.data[idx];
        assert spec[..idx + 1] == spec[..idx] + [spec[idx]];
        buffer := buffer + [a.data[idx] * b.data[idx]];
      }
      assert row * a.cols + a.cols == (row + 1) * a.cols;
    }
    h := Matrix(a.rows, b.cols, buffer);
  }

  /** Addition of matrices over exact reals is commutative. */
  lemma SumCommutes(a: Matrix, b: Matrix)
    requires SameShape(a, b)
    ensures Sum(a, b) == Sum(b, a)
  {
    assert Sum(a, b).data == Sum(b, a).data;
  }

  /** Subtracting b and adding it back gives the original matrix. */
  lemma DifferenceThenSum(a: Matrix, b: Matrix)
    requires SameShape(a, b)
    ensures Sum(Difference(a, b), b) == a
  {
    assert Sum(Difference(a, b), b).data == a.data;
  }

  // ---------------------------------------------------------------------------
  // Matrix product
  // ---------------------------------------------------------------------------

  /** Σ_{k < n} a[r, k] · b[k, c], accumulated left to right as `dot_multiply`'s inner loop does. */
  function DotSum(a: Matrix, b: Matrix, r: nat, c: nat, n: nat): real
    requires a.Valid() && b.Valid() && a.cols == b.rows
    requires r < a.rows && c < b.cols && n <= a.cols
  {
    if n == 0 then 0.0 else DotSum(a, b, r, c, n - 1) + a.Get(r, n - 1) * b.Get(n - 1, c)
  }

  function ProductGrid(a: Matrix, b: Matrix): seq<seq<real>>
    requires a.Valid() && b.Valid() && a.cols == b.rows
  {
    seq(a.rows, r requires 0 <= r < a.rows =>
      seq(b.cols, c requires 0 <= c < b.cols => DotSum(a, b, r, c, a.cols)))
  }

  /** The matrix product: (a.rows × b.cols), element (r, c) = Σ_k a[r, k] · b[k, c]. */
  function Product(a: Matrix, b: Matrix): (p: Matrix)
    requires a.Valid() && b.Valid() && a.cols == b.rows
    ensures p.Valid() && p.rows == a.rows && p.cols == b.cols
    ensures forall r, c :: 0 <= r < a.rows && 0 <= c < b.cols ==> p.Get(r, c) == DotSum(a, b, r, c, a.cols)
  {
    FlattenRectangular(ProductGrid(a, b), b.cols);
    Matrix(a.rows, b.cols, Flatten(ProductGrid(a, b)))
  }

  /** The innermost loop of `dot_multiply`: accumulates a[r, k] · b[k, c] for k = 0, 1, … in order. */
  method RowTimesColumn(a: Matrix, b: Matrix, r: nat, c: nat) returns (sum: real)
    requires a.Valid() && b.Valid() && a.cols == b.rows
    requires r < a.rows && c < b.cols
    ensures sum == DotSum(a, b, r, c, a.cols)
  {
    sum := 0.0;
    for k := 0 to a.cols
      invariant sum == DotSum(a, b, r, c, k)
    {
      assert r * a.cols + k < |a.data| by { OffsetInRange(r, k, a.rows, a.cols); }
      assert k * b.cols + c < |b.data| by { OffsetInRange(k, c, b.rows, b.cols); }
      sum := sum + a.data[r * a.cols + k] * b.data[k * b.cols + c];
    }
  }

  /**
   * `Matrix::dot_multiply`: panics unless a.cols == b.rows; fills a zeroed
   * buffer by index with the running sum of each row-by-column product.
   */
  method DotMultiply(a: Matrix, b: Matrix) returns (p: Matrix)
    requires a.Valid() && b.Valid() && a.cols == b.rows
    ensures p == Product(a, b)
  {
    ghost var grid := ProductGrid(a, b);
    var buffer := new real[a.rows * b.cols](_ => 0.0);
    for ar := 0 to a.rows
      invariant ar * b.cols <= buffer.Length
      invariant buffer[..ar * b.cols] == Flatten(grid[..ar])
    {
      var base := ar * b.cols;
      ghost var done := Flatten(grid[..ar]);
      MulMonotone(ar + 1, a.rows, b.cols);
      assert base + b.cols == (ar + 1) * b.cols;
      for bc := 0 to b.cols
        invariant buffer[..base + bc] == done + grid[ar][..bc]
      {
        var sum := RowTimesColumn(a, b, ar, bc);
        buffer[base + bc] := sum;
        BufferGrows(buffer[..base + bc + 1], done, grid[ar], bc);
      }
      FlattenNext(grid, ar);
    }
    assert grid[..a.rows] == grid;
    assert buffer[..] == buffer[..a.rows * b.cols];
    p := Matrix(a.rows, b.cols, buffer[..]);
  }

  /** Writing element bc of a row after `done` and the first bc elements of the row extends the written prefix by one. */
  lemma BufferGrows(written: seq<real>, done: seq<real>, row: seq<real>, bc: nat)
    requires bc < |row| && |written| == |done| + bc + 1
    requires written[..|done| + bc] == done + row[..bc] && written[|done| + bc] == row[bc]
    ensures written == done + row[..bc + 1]
  {
    assert written == written[..|done| + bc] + [row[bc]];
    assert row[..bc + 1] == row[..bc] + [row[bc]];
  }

  /** Flattening one more row of a grid appends that row. */
  lemma FlattenNext<T>(grid: seq<seq<T>>, i: nat)
    requires i < |grid|
    ensures Flatten(grid[..i + 1]) == Flatten(grid[..i]) + grid[i]
  {
    assert grid[..i + 1][..i] == grid[..i];
  }

  /** The worked example of the source's test: [[1,2,3],[4,5,6]] · [[1,2],[3,4],[5,6]] = [[22,28],[49,64]]. */
  lemma ProductExample()
    ensures Product(Matrix(2, 3, [1.0, 2.0, 3.0, 4.0, 5.0, 6.0]), Matrix(3, 2, [1.0, 2.0, 3.0, 4.0, 5.0, 6.0]))
         == Matrix(2, 2, [22.0, 28.0, 49.0, 64.0])
  {
    var a := Matrix(2, 3, [1.0, 2.0, 3.0, 4.0, 5.0, 6.0]);
    var b := Matrix(3, 2, [1.0, 2.0, 3.0, 4.0, 5.0, 6.0]);
    var p := Product(a, b);
    assert DotSum(a, b, 0, 0, 3) == 22.0;
    assert DotSum(a, b, 0, 1, 3) == 28.0;
    assert DotSum(a, b, 1, 0, 3) == 49.0;
    assert DotSum(a, b, 1, 1, 3) == 64.0;
    assert p.data[0] == p.Get(0, 0);
    assert p.data[1] == p.Get(0, 1);
    assert p.data[2] == p.Get(1, 0);
    assert p.data[3] == p.Get(1, 1);
  }

  // ---------------------------------------------------------------------------
  // Transpose, exactly as the source computes it
  // ---------------------------------------------------------------------------

  /** The element the source pushes at output position (r, c): data[c * rows + r]. */
  function TransposeSource(m: Matrix, r: nat, c: nat): real
    requires m.Valid() && r < m.rows && c < m.cols
  {
    OffsetInRange(c, r, m.cols, m.rows);
    m.data[Offset(c, r, m.rows)]
  }

  function TransposeGrid(m: Matrix): seq<seq<real>>
    requires m.Valid()
  {
    seq(m.rows, r requires 0 <= r < m.rows =>
      seq(m.cols, c requires 0 <= c < m.cols => TransposeSource(m, r, c)))
  }

  /**
   * `Matrix::transpose` as written: the shape becomes (cols, rows) and, walking
   * the original rows r and columns c in order, the buffer receives
   * data[c * rows + r]. This is the true transpose only for square matrices
   * and for single rows or columns (see TransposeIsTrueIff).
   */
  function Transposed(m: Matrix): (t: Matrix)
    requires m.Valid()
    ensures t.Valid() && t.rows == m.cols && t.cols == m.rows
  {
    FlattenRectangular(TransposeGrid(m), m.cols);
    Matrix(m.cols, m.rows, Flatten(TransposeGrid(m)))
  }

  /** The source's index formula: output offset r * cols + c holds input offset c * rows + r. */
  lemma TransposedAt(m: Matrix, r: nat, c: nat)
    requires m.Valid() && r < m.rows && c < m.cols
    ensures Offset(r, c, m.cols) < |Transposed(m).data| && Offset(c, r, m.rows) < |m.data|
    ensures Transposed(m).data[Offset(r, c, m.cols)] == m.data[Offset(c, r, m.rows)]
  {
    FlattenRectangular(TransposeGrid(m), m.cols);
    OffsetInRange(c, r, m.cols, m.rows);
  }

  /** `Matrix::transpose` builds the buffer with a nested push loop. */
  method Transpose(m: Matrix) returns (t: Matrix)
    requires m.Valid()
    ensures t == Transposed(m)
  {
    ghost var grid := TransposeGrid(m);
    var buffer: seq<real> := [];
    for row := 0 to m.rows
      invariant buffer == Flatten(grid[..row])
    {
      for col := 0 to m.cols
        invariant buffer == Flatten(grid[..row]) + grid[row][..col]
      {
        OffsetInRange(col, row, m.cols, m.rows);
        buffer := buffer + [m.data[col * m.rows + row]];
      }
      assert grid[..row + 1][..row] == grid[..row];
    }
    assert grid[..m.rows] == grid;
    t := Matrix(m.cols, m.rows, buffer);
  }

  /** Transposing twice gives back the original matrix, whatever its shape. */
  lemma TransposeTwice(m: Matrix)
    requires m.Valid()
    ensures Transposed(Transposed(m)) == m
  {
    var t := Transposed(m);
    var tt := Transposed(t);
    forall i | 0 <= i < |m.data|
      ensures tt.data[i] == m.data[i]
    {
      OffsetSplit(i, m.cols, m.rows);
      var r, c := i / m.rows, i % m.rows;
      TransposedAt(t, r, c);
      TransposedAt(m, c, r);
    }
  }

  /** A single row or a single column keeps its buffer: only the shape is swapped. */
  lemma TransposeOfVector(m: Matrix)
    requires m.Valid() && (m.rows == 1 || m.cols == 1)
    ensures Transposed(m).rows == m.cols && Transposed(m).cols == m.rows
    ensures Transposed(m).data == m.data
  {
    var t := Transposed(m);
    forall i | 0 <= i < |m.data|
      ensures t.data[i] == m.data[i]
    {
      if m.rows == 1 {
        TransposedAt(m, 0, i);
      } else {
        TransposedAt(m, i, 0);
      }
    }
  }

  /** The source's test: transposing [[1, 2]] gives [[1], [2]]. */
  lemma TransposeRowExample()
    ensures Transposed(Matrix(1, 2, [1.0, 2.0])) == Matrix(2, 1, [1.0, 2.0])
  {
    TransposeOfVector(Matrix(1, 2, [1.0, 2.0]));
  }

  /** On a square matrix the source's formula is the true transpose: T[r, c] = m[c, r]. */
  lemma TransposeOfSquare(m: Matrix, r: nat, c: nat)
    requires m.Valid() && m.rows == m.cols && r < m.rows && c < m.cols
    ensures Transposed(m).Get(r, c) == m.Get(c, r)
  {
    TransposedAt(m, r, c);
  }

  /** For a 2 × 3 matrix with buffer [d0, …, d5] the source yields [d0, d2, d4, d1, d3, d5], not the transpose [d0, d3, d1, d4, d2, d5]. */
  lemma TransposeTwoByThree(m: Matrix)
    requires m.Valid() && m.rows == 2 && m.cols == 3
    ensures Transposed(m).data == [m.data[0], m.data[2], m.data[4], m.data[1], m.data[3], m.data[5]]
  {
    TransposedEntry(m, 0, 0, 0, 0);
    TransposedEntry(m, 0, 1, 1, 2);
    TransposedEntry(m, 0, 2, 2, 4);
    TransposedEntry(m, 1, 0, 3, 1);
    TransposedEntry(m, 1, 1, 4, 3);
    TransposedEntry(m, 1, 2, 5, 5);
  }

  /** TransposedAt with both offsets given as numbers: output entry k holds input entry j. */
  lemma TransposedEntry(m: Matrix, r: nat, c: nat, k: nat, j: nat)
    requires m.Valid() && r < m.rows && c < m.cols
    requires k == r * m.cols + c && j == c * m.rows + r
    ensures k < |Transposed(m).data| && j < |m.data|
    ensures Transposed(m).data[k] == m.data[j]
  {
    TransposedAt(m, r, c);
  }

  /** Reference definition: the (cols × rows) matrix whose element (r, c) is m[c, r]. */
  ghost function TrueTransposed(m: Matrix): (t: Matrix)
    requires m.Valid()
    ensures t.Valid() && t.rows == m.cols && t.cols == m.rows
    ensures forall r, c :: 0 <= r < m.cols && 0 <= c < m.rows ==> t.Get(r, c) == m.Get(c, r)
  {
    var grid := seq(m.cols, r requires 0 <= r < m.cols => seq(m.rows, c requires 0 <= c < m.rows => m.Get(c, r)));
    FlattenRectangular(grid, m.rows);
    Matrix(m.cols, m.rows, Flatten(grid))
  }

  /** The matrix 0, 1, 2, … of a given shape, used to tell permutations apart. */
  function Ramp(rows: nat, cols: nat): (m: Matrix)
    ensures m.Valid() && m.rows == rows && m.cols == cols
    ensures forall i :: 0 <= i < |m.data| ==> m.data[i] == i as real
  {
    Matrix(rows, cols, seq(rows * cols, i => i as real))
  }

  /**
   * The source's transpose agrees with the true transpose on every matrix of a
   * shape exactly when that shape is square or has a single row or column.
   * (An empty shape, with no elements, agrees trivially.)
   */
  lemma TransposeIsTrueIff(rows: nat, cols: nat)
    ensures (forall m: Matrix :: m.Valid() && m.rows == rows && m.cols == cols ==> Transposed(m) == TrueTransposed(m))
        <==> (rows == cols || rows <= 1 || cols <= 1)
  {
    if rows == cols || rows <= 1 || cols <= 1 {
      forall m: Matrix | m.Valid() && m.rows == rows && m.cols == cols
        ensures Transposed(m) == TrueTransposed(m)
      {
        TransposeAgrees(m);
      }
    } else {
      var m := Ramp(rows, cols);
      // Output offset 1 is position (0, 1) in the source's walk and position (0, 1) of the true transpose.
      TransposedAt(m, 0, 1);
      OffsetInRange(0, 1, cols, rows);
      OffsetInRange(1, 0, rows, cols);
      var tt := TrueTransposed(m);
      assert tt.Get(0, 1) == m.Get(1, 0);
      assert Transposed(m).data[1] == rows as real;
      assert tt.data[1] == cols as real;
    }
  }

  lemma TransposeAgrees(m: Matrix)
    requires m.Valid() && (m.rows == m.cols || m.rows <= 1 || m.cols <= 1)
    ensures Transposed(m) == TrueTransposed(m)
  {
    var t, tt := Transposed(m), TrueTransposed(m);
    forall i | 0 <= i < |m.data|
      ensures t.data[i] == tt.data[i]
    {
      TransposeAgreesAt(m, i);
    }
  }

  lemma TransposeAgreesAt(m: Matrix, i: nat)
    requires m.Valid() && (m.rows == m.cols || m.rows <= 1 || m.cols <= 1) && i < |m.data|
    ensures Transposed(m).data[i] == TrueTransposed(m).data[i]
  {
    if m.rows == m.cols {
      TransposeAgreesSquare(m, i);
    } else if m.rows == 1 {
      TransposeAgreesRow(m, i);
    } else {
      TransposeAgreesColumn(m, i);
    }
  }

  lemma TransposeAgreesSquare(m: Matrix, i: nat)
    requires m.Valid() && m.rows == m.cols && i < |m.data|
    ensures Transposed(m).data[i] == TrueTransposed(m).data[i]
  {
    OffsetSplit(i, m.rows, m.cols);
    var r, c := i / m.cols, i % m.cols;
    TransposedAt(m, r, c);
    assert TrueTransposed(m).Get(r, c) == m.Get(c, r);
  }

  lemma TransposeAgreesRow(m: Matrix, i: nat)
    requires m.Valid() && m.rows == 1 && i < |m.data|
    ensures Transposed(m).data[i] == TrueTransposed(m).data[i]
  {
    TransposedAt(m, 0, i);
    assert TrueTransposed(m).Get(i, 0) == m.Get(0, i);
  }

  lemma TransposeAgreesColumn(m: Matrix, i: nat)
    requires m.Valid() && m.cols == 1 && i < |m.data|
    ensures Transposed(m).data[i] == TrueTransposed(m).data[i]
  {
    TransposedAt(m, i, 0);
    assert TrueTransposed(m).Get(0, i) == m.Get(i, 0);
  }

  // ---------------------------------------------------------------------------
  // The transpose of a product
  // ---------------------------------------------------------------------------

  /** Two valid matrices of one shape with the same elements are the same matrix. */
  lemma SameElements(x: Matrix, y: Matrix)
    requires SameShape(x, y)
    requires forall r, c :: 0 <= r < x.rows && 0 <= c < x.cols ==> x.Get(r, c) == y.Get(r, c)
    ensures x == y
  {
    forall i | 0 <= i < |x.data|
      ensures x.data[i] == y.data[i]
    {
      OffsetSplit(i, x.rows, x.cols);
      assert x.Get(i / x.cols, i % x.cols) == y.Get(i / x.cols, i % x.cols);
    }
  }

  /**
   * When row r of p holds column r of b and column c of q holds row c of a,
   * Σ_{k < n} p[r, k] · q[k, c] has the terms of Σ_{k < n} a[c, k] · b[k, r],
   * in the same order.
   */
  lemma {:induction false} DotSumMirrored(p: Matrix, q: Matrix, a: Matrix, b: Matrix, r: nat, c: nat, n: nat)
    requires p.Valid() && q.Valid() && p.cols == q.rows && r < p.rows && c < q.cols && n <= p.cols
    requires a.Valid() && b.Valid() && a.cols == b.rows && c < a.rows && r < b.cols && n <= a.cols
    requires forall k :: 0 <= k < n ==> p.Get(r, k) == b.Get(k, r)
    requires forall k :: 0 <= k < n ==> q.Get(k, c) == a.Get(c, k)
    ensures DotSum(p, q, r, c, n) == DotSum(a, b, c, r, n)
  {
    if n > 0 {
      DotSumMirrored(p, q, a, b, r, c, n - 1);
      MirroredTerm(p.Get(r, n - 1), q.Get(n - 1, c), a.Get(c, n - 1), b.Get(n - 1, r));
    }
  }

  /** One term of DotSumMirrored: x · y = u · v when x = v and y = u. */
  lemma MirroredTerm(x: real, y: real, u: real, v: real)
    requires x == v && y == u
    ensures x * y == u * v
  {
  }

  /** The true transpose reverses a product, whatever the shapes: (a · b)ᵀ = bᵀ · aᵀ. */
  lemma TrueTransposeReversesProduct(a: Matrix, b: Matrix)
    requires a.Valid() && b.Valid() && a.cols == b.rows
    ensures TrueTransposed(Product(a, b)) == Product(TrueTransposed(b), TrueTransposed(a))
  {
    var lhs, rhs := TrueTransposed(Product(a, b)), Product(TrueTransposed(b), TrueTransposed(a));
    forall r, c | 0 <= r < b.cols && 0 <= c < a.rows
      ensures lhs.Get(r, c) == rhs.Get(r, c)
    {
      DotSumMirrored(TrueTransposed(b), TrueTransposed(a), a, b, r, c, a.cols);
    }
    SameElements(lhs, rhs);
  }

  /** On square matrices of one size the source's transpose reverses a product as well. */
  lemma TransposeReversesSquareProduct(a: Matrix, b: Matrix)
    requires a.Valid() && b.Valid() && a.rows == a.cols == b.rows == b.cols
    ensures Transposed(Product(a, b)) == Product(Transposed(b), Transposed(a))
  {
    TransposeAgrees(a);
    TransposeAgrees(b);
    TransposeAgrees(Product(a, b));
    TrueTransposeReversesProduct(a, b);
  }

  /** Element (0, 0) of a product over three terms, written out. */
  lemma FirstDotSumOfThree(a: Matrix, b: Matrix)
    requires a.Valid() && b.Valid() && a.cols == b.rows == 3 && 0 < a.rows && 0 < b.cols
    ensures DotSum(a, b, 0, 0, 3) == a.Get(0, 0) * b.Get(0, 0) + a.Get(0, 1) * b.Get(1, 0) + a.Get(0, 2) * b.Get(2, 0)
  {
    assert DotSum(a, b, 0, 0, 1) == a.Get(0, 0) * b.Get(0, 0);
    assert DotSum(a, b, 0, 0, 2) == DotSum(a, b, 0, 0, 1) + a.Get(0, 1) * b.Get(1, 0);
  }

  /** For a 2 × 3 matrix a and a 3 × 2 matrix b, (a · b)ᵀ under the source's transpose starts with a0·b0 + a1·b2 + a2·b4. */
  lemma TransposeOfProductStart(a: Matrix, b: Matrix)
    requires a.Valid() && a.rows == 2 && a.cols == 3
    requires b.Valid() && b.rows == 3 && b.cols == 2
    ensures Transposed(Product(a, b)).data[0] == a.data[0] * b.data[0] + a.data[1] * b.data[2] + a.data[2] * b.data[4]
  {
    var p := Product(a, b);
    TransposedAt(p, 0, 0);
    assert Offset(0, 0, 2) == 0;
    assert p.data[0] == p.Get(0, 0);
    FirstDotSumOfThree(a, b);
    assert a.Get(0, 1) == a.data[1] && a.Get(0, 2) == a.data[2];
    assert b.Get(1, 0) == b.data[2] && b.Get(2, 0) == b.data[4];
  }

  /** For a 2 × 3 matrix a and a 3 × 2 matrix b, bᵀ · aᵀ under the source's transpose starts with b0·a0 + b3·a4 + b1·a3. */
  lemma ProductOfTransposesStart(a: Matrix, b: Matrix)
    requires a.Valid() && a.rows == 2 && a.cols == 3
    requires b.Valid() && b.rows == 3 && b.cols == 2
    ensures Product(Transposed(b), Transposed(a)).data[0] == b.data[0] * a.data[0] + b.data[3] * a.data[4] + b.data[1] * a.data[3]
  {
    var tb, ta := Transposed(b), Transposed(a);
    var q := Product(tb, ta);
    assert q.data[0] == q.Get(0, 0);
    FirstDotSumOfThree(tb, ta);
    FirstRowOfTransposed(b);
    FirstColumnOfTransposed(a);
  }

  /** For a 3 × 2 matrix b, row 0 of the source's bᵀ holds b0, b3, b1. */
  lemma FirstRowOfTransposed(b: Matrix)
    requires b.Valid() && b.rows == 3 && b.cols == 2
    ensures Transposed(b).Get(0, 0) == b.data[0]
    ensures Transposed(b).Get(0, 1) == b.data[3]
    ensures Transposed(b).Get(0, 2) == b.data[1]
  {
    TransposedGetAt(b, 0, 0, 0, 0, 0);
    TransposedGetAt(b, 0, 1, 0, 1, 3);
    TransposedGetAt(b, 0, 2, 1, 0, 1);
  }

  /** For a 2 × 3 matrix a, column 0 of the source's aᵀ holds a0, a4, a3. */
  lemma FirstColumnOfTransposed(a: Matrix)
    requires a.Valid() && a.rows == 2 && a.cols == 3
    ensures Transposed(a).Get(0, 0) == a.data[0]
    ensures Transposed(a).Get(1, 0) == a.data[4]
    ensures Transposed(a).Get(2, 0) == a.data[3]
  {
    TransposedGetAt(a, 0, 0, 0, 0, 0);
    TransposedGetAt(a, 1, 0, 0, 2, 4);
    TransposedGetAt(a, 2, 0, 1, 1, 3);
  }

  /**
   * Element (r, c) of the source's transpose, at buffer offset r·rows + c =
   * r2·cols + c2, is the input's element at offset c2·rows + r2.
   */
  lemma TransposedGetAt(m: Matrix, r: nat, c: nat, r2: nat, c2: nat, j: nat)
    requires m.Valid() && r < m.cols && c < m.rows && r2 < m.rows && c2 < m.cols
    requires r * m.rows + c == r2 * m.cols + c2 && j == c2 * m.rows + r2
    ensures j < |m.data| && Transposed(m).Get(r, c) == m.data[j]
  {
    TransposedAt(m, r2, c2);
  }

  /**
   * On the matrices of the source's product test, [[1,2,3],[4,5,6]] and
   * [[1,2],[3,4],[5,6]], the source's transpose does not reverse the product:
   * (a · b)ᵀ starts with 22, bᵀ · aᵀ with 29.
   */
  lemma TransposeReversesProductFails()
    ensures var a, b := Matrix(2, 3, [1.0, 2.0, 3.0, 4.0, 5.0, 6.0]), Matrix(3, 2, [1.0, 2.0, 3.0, 4.0, 5.0, 6.0]);
            Transposed(Product(a, b)) != Product(Transposed(b), Transposed(a))
  {
    var a, b := Matrix(2, 3, [1.0, 2.0, 3.0, 4.0, 5.0, 6.0]), Matrix(3, 2, [1.0, 2.0, 3.0, 4.0, 5.0, 6.0]);
    TransposeOfProductStart(a, b);
    ProductOfTransposesStart(a, b);
    assert Transposed(Product(a, b)).data[0] == 22.0;
    assert Product(Transposed(b), Transposed(a)).data[0] == 29.0;
  }
}
