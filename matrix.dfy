/**
 * Dense real matrices as sequences of rows, standing for the Eigen `MatrixXf`/`VectorXf`
 * members of the layers. Every operation states its result entry by entry, so that the
 * layers' setters can promise "this entry changed and nothing else".
 */
module Matrix {
  type Vector = seq<real>
  type Mat = seq<seq<real>>

  /** `a` has `rows` rows of `cols` entries each. */
  predicate HasShape(a: Mat, rows: nat, cols: nat)
  {
    |a| == rows && forall i :: 0 <= i < rows ==> |a[i]| == cols
  }

  /** Every entry of `v` is zero. */
  predicate IsZeroVector(v: Vector)
  {
    forall i :: 0 <= i < |v| ==> v[i] == 0.0
  }

  function ZeroVector(n: nat): (v: Vector)
    ensures |v| == n && IsZeroVector(v)
  {
    seq(n, _ => 0.0)
  }

  function Zeros(rows: nat, cols: nat): (a: Mat)
    ensures HasShape(a, rows, cols)
    ensures forall i, j :: 0 <= i < rows && 0 <= j < cols ==> a[i][j] == 0.0
  {
    seq(rows, _ => ZeroVector(cols))
  }

  /** `a` with entry [i, j] replaced by `v`. */
  function SetEntry(a: Mat, i: nat, j: nat, v: real): (b: Mat)
    requires i < |a| && j < |a[i]|
    ensures |b| == |a| && forall r :: 0 <= r < |a| ==> |b[r]| == |a[r]|
    ensures b[i][j] == v
    ensures forall r, c :: 0 <= r < |a| && 0 <= c < |a[r]| && (r, c) != (i, j) ==> b[r][c] == a[r][c]
  {
    a[i := a[i][j := v]]
  }

  /** Column `k` of a matrix with `cols` columns. */
  function Column(a: Mat, cols: nat, k: nat): (v: Vector)
    requires HasShape(a, |a|, cols) && k < cols
    ensures |v| == |a| && forall i :: 0 <= i < |a| ==> v[i] == a[i][k]
  {
    seq(|a|, i requires 0 <= i < |a| => a[i][k])
  }

  /** `a` with column `k` replaced by `v`. */
  function SetColumn(a: Mat, cols: nat, k: nat, v: Vector): (b: Mat)
    requires HasShape(a, |a|, cols) && k < cols && |v| == |a|
    ensures HasShape(b, |a|, cols)
    ensures forall i :: 0 <= i < |a| ==> b[i][k] == v[i]
    ensures forall i, c :: 0 <= i < |a| && 0 <= c < cols && c != k ==> b[i][c] == a[i][c]
  {
    seq(|a|, i requires 0 <= i < |a| => a[i][k := v[i]])
  }

  /**
   * Drops column 0, moves every other column one place left and puts `v` in the
   * vacated last column.
   */
  function ShiftLeft(a: Mat, cols: nat, v: Vector): (b: Mat)
    requires HasShape(a, |a|, cols) && 0 < cols && |v| == |a|
    ensures HasShape(b, |a|, cols)
    ensures forall i, c :: 0 <= i < |a| && 0 <= c < cols - 1 ==> b[i][c] == a[i][c + 1]
    ensures forall i :: 0 <= i < |a| ==> b[i][cols - 1] == v[i]
  {
    seq(|a|, i requires 0 <= i < |a| => a[i][1..] + [v[i]])
  }

  /** Two matrices of the same shape with the same entries are equal. */
  lemma SameEntries(a: Mat, b: Mat, rows: nat, cols: nat)
    requires HasShape(a, rows, cols) && HasShape(b, rows, cols)
    requires forall i, j :: 0 <= i < rows && 0 <= j < cols ==> a[i][j] == b[i][j]
    ensures a == b
  {
    forall i | 0 <= i < rows ensures a[i] == b[i] {
      assert forall j :: 0 <= j < cols ==> a[i][j] == b[i][j];
    }
  }
}
