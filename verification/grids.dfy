/**
 * Dense matrices over exact reals, weighted sums over the quadrature axis,
 * and the column-major ("F" order) flattening that the EGM step uses
 * between (n_quad, n_grid) matrices and flat vectors of length
 * n_quad * n_grid: entry (q, s) lives at flat index q + s * n_quad, so the
 * quadrature index varies fastest.
 */
module Grids {

  type Matrix = seq<seq<real>>

  /** `m` has `rows` rows of `cols` entries each. */
  predicate IsMatrix(m: Matrix, rows: nat, cols: nat) {
    |m| == rows && forall q :: 0 <= q < rows ==> |m[q]| == cols
  }

  /** Two matrices of the same shape with the same entries are equal. */
  lemma MatrixExtensionality(a: Matrix, b: Matrix, rows: nat, cols: nat)
    requires IsMatrix(a, rows, cols) && IsMatrix(b, rows, cols)
    requires forall q, s :: 0 <= q < rows && 0 <= s < cols ==> a[q][s] == b[q][s]
    ensures a == b
  {
    forall q | 0 <= q < rows
      ensures a[q] == b[q]
    {
    }
  }

  function Sum(w: seq<real>): real {
    if |w| == 0 then 0.0 else w[0] + Sum(w[1..])
  }

  /** The inner product `w @ v`. */
  function Dot(w: seq<real>, v: seq<real>): real
    requires |w| == |v|
  {
    if |w| == 0 then 0.0 else w[0] * v[0] + Dot(w[1..], v[1..])
  }

  /** Weighting a constant vector gives the constant times the total weight. */
  lemma {:induction false} DotConstant(w: seq<real>, v: seq<real>, c: real)
    requires |w| == |v|
    requires forall i :: 0 <= i < |v| ==> v[i] == c
    ensures Dot(w, v) == c * Sum(w)
  {
    if |w| > 0 {
      DotConstant(w[1..], v[1..], c);
      calc {
        Dot(w, v);
        w[0] * c + c * Sum(w[1..]);
        c * (w[0] + Sum(w[1..]));
      }
    }
  }

  /** The inner product is linear in its second argument. */
  lemma {:induction false} DotScale(w: seq<real>, u: seq<real>, v: seq<real>, c: real)
    requires |w| == |u| == |v|
    requires forall i :: 0 <= i < |v| ==> u[i] == c * v[i]
    ensures Dot(w, u) == c * Dot(w, v)
  {
    if |w| > 0 {
      DotScale(w[1..], u[1..], v[1..], c);
      calc {
        Dot(w, u);
        w[0] * (c * v[0]) + c * Dot(w[1..], v[1..]);
        c * (w[0] * v[0] + Dot(w[1..], v[1..]));
      }
    }
  }

  /** Column `s` of a matrix with `cols` columns. */
  function Column(m: Matrix, cols: nat, s: nat): (col: seq<real>)
    requires IsMatrix(m, |m|, cols) && s < cols
    ensures |col| == |m|
    ensures forall q :: 0 <= q < |m| ==> col[q] == m[q][s]
  {
    seq(|m|, q requires 0 <= q < |m| => m[q][s])
  }

  /** `np.dot(w.T, m)`: the weighted sum of every column over the row
      (quadrature) axis, one entry per column. */
  function WeightedColumnSums(w: seq<real>, m: Matrix, cols: nat): (r: seq<real>)
    requires IsMatrix(m, |w|, cols)
    ensures |r| == cols
    ensures forall s :: 0 <= s < cols ==> r[s] == Dot(w, Column(m, cols, s))
  {
    seq(cols, s requires 0 <= s < cols => Dot(w, Column(m, cols, s)))
  }

  /** A column that is a multiple of `v` has weighted sum that multiple of
      the weighted sum of `v`. */
  lemma WeightedColumnScaled(w: seq<real>, m: Matrix, cols: nat, s: nat, c: real, v: seq<real>)
    requires IsMatrix(m, |w|, cols) && s < cols && |v| == |w|
    requires forall q :: 0 <= q < |w| ==> m[q][s] == v[q] * c
    ensures WeightedColumnSums(w, m, cols)[s] == c * Dot(w, v)
  {
    var col := Column(m, cols, s);
    forall q | 0 <= q < |w|
      ensures col[q] == c * v[q]
    {
    }
    DotScale(w, col, v, c);
  }

  /** Element-wise product of two matrices of the same shape. */
  function Hadamard(a: Matrix, b: Matrix, rows: nat, cols: nat): (r: Matrix)
    requires IsMatrix(a, rows, cols) && IsMatrix(b, rows, cols)
    ensures IsMatrix(r, rows, cols)
    ensures forall q, s :: 0 <= q < rows && 0 <= s < cols ==> r[q][s] == a[q][s] * b[q][s]
  {
    seq(rows, q requires 0 <= q < rows =>
      seq(cols, s requires 0 <= s < cols => a[q][s] * b[q][s]))
  }

  lemma MulLeftMonotone(a: int, b: int, n: int)
    requires a <= b && 0 <= n
    ensures a * n <= b * n
  {
  }

  /** The column-major index of (q, s) is in range and decodes back to (q, s). */
  lemma ColumnMajorIndex(q: int, s: int, rows: int, cols: int)
    requires 0 <= q < rows && 0 <= s < cols
    ensures 0 <= q + s * rows < rows * cols
    ensures (q + s * rows) % rows == q && (q + s * rows) / rows == s
  {
    MulLeftMonotone(s, cols - 1, rows);
    assert (cols - 1) * rows == rows * cols - rows;
    MulLeftMonotone(0, s, rows);
    var k := q + s * rows;
    var d := k / rows - s;
    assert k == rows * (k / rows) + k % rows;
    assert rows * d == q - k % rows;
    if d >= 1 {
      MulLeftMonotone(1, d, rows);
      assert false;
    } else if d <= -1 {
      MulLeftMonotone(d, -1, rows);
      assert false;
    }
  }

  /** Flat position of entry (q, s) in "F" order, namely q + s * rows. */
  function ColumnMajorAt(q: nat, s: nat, rows: nat, cols: nat): (k: nat)
    requires q < rows && s < cols
    ensures k < rows * cols
  {
    ColumnMajorIndex(q, s, rows, cols);
    q + s * rows
  }

  /** Every column-major position decodes back to its (q, s). */
  lemma ColumnMajorDecodes(rows: nat, cols: nat)
    ensures forall q, s :: 0 <= q < rows && 0 <= s < cols ==>
      ColumnMajorAt(q, s, rows, cols) % rows == q && ColumnMajorAt(q, s, rows, cols) / rows == s
  {
    forall q, s | 0 <= q < rows && 0 <= s < cols
      ensures ColumnMajorAt(q, s, rows, cols) % rows == q && ColumnMajorAt(q, s, rows, cols) / rows == s
    {
      ColumnMajorIndex(q, s, rows, cols);
    }
  }

  /** Every flat index below rows * cols decodes to a valid (q, s). */
  lemma FlatIndexDecodes(k: int, rows: int, cols: int)
    requires 0 <= k < rows * cols && 0 <= rows && 0 <= cols
    ensures 0 < rows && 0 <= k % rows < rows && 0 <= k / rows < cols
    ensures k % rows + (k / rows) * rows == k
  {
    assert k == rows * (k / rows) + k % rows;
    if k / rows >= cols {
      MulLeftMonotone(cols, k / rows, rows);
      assert false;
    }
  }

  /** `m.flatten("F")`: entry (q, s) lands at index q + s * rows. */
  function FlattenF(m: Matrix, rows: nat, cols: nat): (v: seq<real>)
    requires IsMatrix(m, rows, cols)
    ensures |v| == rows * cols
    ensures forall q, s :: 0 <= q < rows && 0 <= s < cols ==> v[ColumnMajorAt(q, s, rows, cols)] == m[q][s]
  {
    ColumnMajorDecodes(rows, cols);
    seq(rows * cols, k requires 0 <= k < rows * cols =>
      FlatIndexDecodes(k, rows, cols); m[k % rows][k / rows])
  }

  /** `v.reshape((rows, cols), order="F")`: entry (q, s) is read from
      index q + s * rows. */
  function ReshapeF(v: seq<real>, rows: nat, cols: nat): (m: Matrix)
    requires |v| == rows * cols
    ensures IsMatrix(m, rows, cols)
    ensures forall q, s :: 0 <= q < rows && 0 <= s < cols ==> m[q][s] == v[ColumnMajorAt(q, s, rows, cols)]
  {
    seq(rows, q requires 0 <= q < rows =>
      seq(cols, s requires 0 <= s < cols => v[ColumnMajorAt(q, s, rows, cols)]))
  }

  /** Reshaping in "F" order undoes flattening in "F" order. */
  lemma ReshapeFlatten(m: Matrix, rows: nat, cols: nat)
    requires IsMatrix(m, rows, cols)
    ensures ReshapeF(FlattenF(m, rows, cols), rows, cols) == m
  {
    var r := ReshapeF(FlattenF(m, rows, cols), rows, cols);
    forall q | 0 <= q < rows
      ensures r[q] == m[q]
    {
      forall s | 0 <= s < cols
        ensures r[q][s] == m[q][s]
      {
      }
    }
  }

  /** Flattening in "F" order undoes reshaping in "F" order. */
  lemma FlattenReshape(v: seq<real>, rows: nat, cols: nat)
    requires |v| == rows * cols
    ensures FlattenF(ReshapeF(v, rows, cols), rows, cols) == v
  {
    var w := FlattenF(ReshapeF(v, rows, cols), rows, cols);
    forall k | 0 <= k < rows * cols
      ensures w[k] == v[k]
    {
      FlatIndexDecodes(k, rows, cols);
      var q, s := k % rows, k / rows;
      assert ColumnMajorAt(q, s, rows, cols) == k;
    }
  }

  /** Column `s` of an "F"-order reshape is the contiguous block
      v[s * rows .. (s + 1) * rows]: the quadrature index varies fastest. */
  lemma ReshapeColumnIsBlock(v: seq<real>, rows: nat, cols: nat, s: nat)
    requires |v| == rows * cols && s < cols
    ensures s * rows + rows <= |v|
    ensures Column(ReshapeF(v, rows, cols), cols, s) == v[s * rows .. s * rows + rows]
  {
    MulLeftMonotone(s + 1, cols, rows);
    var col := Column(ReshapeF(v, rows, cols), cols, s);
    var block := v[s * rows .. s * rows + rows];
    forall q | 0 <= q < rows
      ensures col[q] == block[q]
    {
    }
  }

  /** Block s of a flat "F"-order vector: the entries of grid point s for
      every quadrature point, in quadrature order. */
  function QuadBlock(v: seq<real>, rows: nat, cols: nat, s: nat): (b: seq<real>)
    requires |v| == rows * cols && s < cols
    ensures |b| == rows
    ensures forall q :: 0 <= q < rows ==> b[q] == v[ColumnMajorAt(q, s, rows, cols)]
  {
    MulLeftMonotone(s + 1, cols, rows);
    v[s * rows .. s * rows + rows]
  }

  /** Every column of an "F"-order reshape is the matching block. */
  lemma ReshapeColumnsAreBlocks(v: seq<real>, rows: nat, cols: nat)
    requires |v| == rows * cols
    ensures forall s :: 0 <= s < cols ==> Column(ReshapeF(v, rows, cols), cols, s) == QuadBlock(v, rows, cols, s)
  {
    forall s | 0 <= s < cols
      ensures Column(ReshapeF(v, rows, cols), cols, s) == QuadBlock(v, rows, cols, s)
    {
      ReshapeColumnIsBlock(v, rows, cols, s);
    }
  }
}
