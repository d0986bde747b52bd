/**
 * Index arithmetic shared by the layers that work on row-major maps: monotonicity of
 * multiplication, and row-major addressing of a rows x cols grid and its inverse.
 */
module Grid {
  /** Multiplying by the same natural number keeps the order of two naturals. */
  lemma MulLeq(a: nat, b: nat, s: nat)
    requires a <= b
    ensures a * s <= b * s
  {
    assert b * s == a * s + (b - a) * s;
  }

  /** Division by d recovers the quotient and remainder a number was built from. */
  lemma {:induction false} DivModOf(q: nat, d: nat, r: nat)
    requires r < d
    ensures (q * d + r) / d == q && (q * d + r) % d == r
  {
    var n := q * d + r;
    var q', r' := n / d, n % d;
    assert n == q' * d + r';
    if q' < q {
      MulLeq(q' + 1, q, d);
    } else if q < q' {
      MulLeq(q + 1, q', d);
    }
  }

  /** Row-major addressing of a rows x cols grid stays inside it, and is undone by / and %. */
  lemma {:induction false} RowMajor(r: nat, c: nat, rows: nat, cols: nat)
    requires r < rows && c < cols
    ensures r * cols + c < rows * cols
    ensures (r * cols + c) / cols == r && (r * cols + c) % cols == c
  {
    MulLeq(r + 1, rows, cols);
    assert (r + 1) * cols == r * cols + cols;
    DivModOf(r, cols, c);
  }

  /** The cell of a rows x cols grid that a row-major index names. */
  lemma {:induction false} RowMajorCell(k: nat, rows: nat, cols: nat)
    requires k < rows * cols
    ensures 0 < cols && k / cols < rows && k % cols < cols
    ensures (k / cols) * cols + k % cols == k
  {
    if k / cols >= rows {
      MulLeq(rows, k / cols, cols);
    }
  }

}
