/**
 * The dense layer (dense.h, dense.cpp). The input vector gets a trailing 1 for the bias,
 * the (inputs+1) x nodes weight matrix W is multiplied entry by entry with the 0/1 mask
 * matrix M (whose bias row is all 1), the augmented input is dotted with each column of
 * the masked weights, and node j applies its own activation f[j] with parameter alpha[j].
 */
module DenseLayer {
  import opened Activation
  import opened Matrix

  /** Length of a layer's name buffer (dense.h:49). */
  const LayerNameLen: nat := 32
  /** The largest value rand() returns in the C library the constructor draws from. */
  const RandMax: nat := 2147483647

  /** The initial weight the constructor makes of one rand() draw (dense.cpp:32). */
  function Weight(r: nat): (w: real)
    requires r <= RandMax
    ensures -1.0 <= w <= 1.0
  {
    -1.0 + (r as real) / (RandMax as real * 0.5)
  }

  /** The two ends of rand()'s range map onto the two ends of [-1, 1]. */
  lemma WeightEnds()
    ensures Weight(0) == -1.0 && Weight(RandMax) == 1.0
  {
  }

  /** The input with the bias 1 appended (dense.h:10). */
  function Augment(x: Vector): (xa: Vector)
    ensures |xa| == |x| + 1 && xa[..|x|] == x && xa[|x|] == 1.0
  {
    x + [1.0]
  }

  /** A mask entry is 1 for an unmasked weight and 0 for a masked one. */
  function MaskValue(b: bool): real
  {
    if b then 1.0 else 0.0
  }

  /** The stored mask entry of row `row`: the bias row (row `inputs`) is never masked. */
  function MaskEntry(b: bool, row: nat, inputs: nat): (m: real)
    ensures m == 0.0 || m == 1.0
    ensures row == inputs ==> m == 1.0
    ensures row < inputs ==> (m == 1.0 <==> b)
  {
    if row < inputs then MaskValue(b) else 1.0
  }

  /** `m` is an (inputs+1) x nodes 0/1 mask whose bias row is all 1 (dense.h:14, dense.h:88). */
  predicate IsMask(m: Mat, inputs: nat, nodes: nat)
  {
    HasShape(m, inputs + 1, nodes)
    && (forall i, j :: 0 <= i <= inputs && 0 <= j < nodes ==> m[i][j] == 0.0 || m[i][j] == 1.0)
    && (forall j :: 0 <= j < nodes ==> m[inputs][j] == 1.0)
  }

  /** The stored mask of a full boolean mask; the bias row's booleans are ignored. */
  function MaskOf(b: seq<seq<bool>>, inputs: nat, nodes: nat): (m: Mat)
    requires |b| == inputs + 1 && forall i :: 0 <= i <= inputs ==> |b[i]| == nodes
    ensures IsMask(m, inputs, nodes)
    ensures forall i, j :: 0 <= i < inputs && 0 <= j < nodes ==> (m[i][j] == 1.0 <==> b[i][j])
  {
    seq(inputs + 1, i requires 0 <= i <= inputs =>
      seq(nodes, j requires 0 <= j < nodes => MaskEntry(b[i][j], i, inputs)))
  }

  /** The stored mask column of a boolean column; the bias entry is ignored. */
  function MaskColumn(b: seq<bool>, inputs: nat): (v: Vector)
    requires |b| == inputs + 1
    ensures |v| == inputs + 1 && v[inputs] == 1.0
    ensures forall i :: 0 <= i < inputs ==> (v[i] == 1.0 <==> b[i]) && (v[i] == 0.0 <==> !b[i])
  {
    seq(inputs + 1, i requires 0 <= i <= inputs => MaskEntry(b[i], i, inputs))
  }

  /** Column j of both W and M can be read on every row of the augmented input `xa`. */
  predicate Fits(xa: Vector, w: Mat, m: Mat, j: nat)
  {
    |w| == |xa| && |m| == |xa| && forall i :: 0 <= i < |xa| ==> j < |w[i]| && j < |m[i]|
  }

  /** The sum over the first k rows of xa[i] * W[i][j] * M[i][j]. */
  function ColumnSum(xa: Vector, w: Mat, m: Mat, j: nat, k: nat): real
    requires Fits(xa, w, m, j) && k <= |xa|
  {
    if k == 0 then 0.0 else ColumnSum(xa, w, m, j, k - 1) + xa[k - 1] * w[k - 1][j] * m[k - 1][j]
  }

  /** Pre-activation x'[j] of node j (dense.h:24-25). */
  function Net(x: Vector, w: Mat, m: Mat, j: nat): real
    requires Fits(Augment(x), w, m, j)
  {
    ColumnSum(Augment(x), w, m, j, |x| + 1)
  }

  /** The mask broadcast onto the weights: W' = W (entrywise times) M (dense.h:24). */
  function Broadcast(w: Mat, m: Mat): (b: Mat)
    requires |m| == |w| && forall i :: 0 <= i < |w| ==> |m[i]| == |w[i]|
    ensures |b| == |w| && forall i :: 0 <= i < |w| ==> |b[i]| == |w[i]|
    ensures forall i, c :: 0 <= i < |w| && 0 <= c < |w[i]| ==> b[i][c] == w[i][c] * m[i][c]
  {
    seq(|w|, i requires 0 <= i < |w| => seq(|w[i]|, c requires 0 <= c < |w[i]| => w[i][c] * m[i][c]))
  }

  /** The plain dot product of the first k entries of xa with column j of W. */
  function Dot(xa: Vector, w: Mat, j: nat, k: nat): real
    requires k <= |xa| && k <= |w| && forall i :: 0 <= i < k ==> j < |w[i]|
  {
    if k == 0 then 0.0 else Dot(xa, w, j, k - 1) + xa[k - 1] * w[k - 1][j]
  }

  /** The masked column sum is the plain dot product with the broadcast weights (dense.h:24-25). */
  lemma {:induction false} NetIsDotWithBroadcast(xa: Vector, w: Mat, m: Mat, cols: nat, j: nat, k: nat)
    requires HasShape(w, |xa|, cols) && HasShape(m, |xa|, cols) && j < cols && k <= |xa|
    ensures Fits(xa, w, m, j)
    ensures ColumnSum(xa, w, m, j, k) == Dot(xa, Broadcast(w, m), j, k)
  {
    var b := Broadcast(w, m);
    if k > 0 {
      NetIsDotWithBroadcast(xa, w, m, cols, j, k - 1);
      assert b[k - 1][j] == w[k - 1][j] * m[k - 1][j];
      assert xa[k - 1] * (w[k - 1][j] * m[k - 1][j]) == xa[k - 1] * w[k - 1][j] * m[k - 1][j];
    }
  }

  /** With no weight masked the broadcast leaves W unchanged. */
  lemma UnmaskedBroadcastIsIdentity(w: Mat, m: Mat)
    requires |m| == |w| && forall i :: 0 <= i < |w| ==> |m[i]| == |w[i]|
    requires forall i, c :: 0 <= i < |w| && 0 <= c < |w[i]| ==> m[i][c] == 1.0
    ensures Broadcast(w, m) == w
  {
    var b := Broadcast(w, m);
    forall i | 0 <= i < |w| ensures b[i] == w[i] {
      assert forall c :: 0 <= c < |w[i]| ==> b[i][c] == w[i][c];
    }
  }

  /** A column sum over rows whose mask entry is 0 is 0. */
  lemma {:induction false} MaskedRowsAddNothing(xa: Vector, w: Mat, m: Mat, j: nat, k: nat)
    requires Fits(xa, w, m, j) && k <= |xa|
    requires forall i :: 0 <= i < k ==> m[i][j] == 0.0
    ensures ColumnSum(xa, w, m, j, k) == 0.0
  {
    if k > 0 {
      MaskedRowsAddNothing(xa, w, m, j, k - 1);
    }
  }

  /**
   * If column j of M is 0 on every non-bias row, node j's pre-activation is its bias
   * weight W[inputs][j], whatever the input.
   */
  lemma {:induction false} FullyMaskedNodeSeesOnlyBias(x: Vector, w: Mat, m: Mat, j: nat)
    requires Fits(Augment(x), w, m, j)
    requires forall i :: 0 <= i < |x| ==> m[i][j] == 0.0
    requires m[|x|][j] == 1.0
    ensures Net(x, w, m, j) == w[|x|][j]
  {
    MaskedRowsAddNothing(Augment(x), w, m, j, |x|);
  }

  /** The vector of all pre-activations, which SOFTMAX reads as a whole. */
  function Raw(x: Vector, w: Mat, m: Mat, nodes: nat): (raw: Vector)
    requires HasShape(w, |x| + 1, nodes) && HasShape(m, |x| + 1, nodes)
    ensures |raw| == nodes && forall j :: 0 <= j < nodes ==> Fits(Augment(x), w, m, j) && raw[j] == Net(x, w, m, j)
  {
    seq(nodes, j requires 0 <= j < nodes => Net(x, w, m, j))
  }

  /** The layer's output: node j applies f[j] with parameter alpha[j] to x'[j] (dense.h:26). */
  function Output(x: Vector, w: Mat, m: Mat, fs: seq<Func>, alpha: seq<real>, ext: Transcendental): (y: Vector)
    requires HasShape(w, |x| + 1, |fs|) && HasShape(m, |x| + 1, |fs|) && |alpha| == |fs|
    ensures |y| == |fs|
    ensures forall j :: 0 <= j < |fs| && fs[j] == Relu ==> 0.0 <= y[j] && Net(x, w, m, j) <= y[j]
    ensures forall j :: 0 <= j < |fs| && fs[j] == Threshold ==> y[j] == 0.0 || y[j] == 1.0
    ensures forall j :: 0 <= j < |fs| && fs[j] == Linear ==> y[j] == alpha[j] * Net(x, w, m, j)
    ensures forall j :: 0 <= j < |fs| && fs[j] != Softmax ==> y[j] == Apply(fs[j], Net(x, w, m, j), alpha[j], ext)
    ensures forall j :: 0 <= j < |fs| && fs[j] == Softmax ==> y[j] == ext.softmax(Raw(x, w, m, |fs|), j)
  {
    var raw := Raw(x, w, m, |fs|);
    var y := seq(|fs|, j requires 0 <= j < |fs| =>
      if fs[j] == Softmax then ext.softmax(raw, j) else Apply(fs[j], raw[j], alpha[j], ext));
    assert forall j :: 0 <= j < |fs| && fs[j] != Softmax ==> y[j] == Apply(fs[j], Net(x, w, m, j), alpha[j], ext);
    y
  }

  /** The constructor's rand() draws: row y, column x is the draw for W(y, x). */
  predicate IsDraws(draws: seq<seq<nat>>, inputs: nat, nodes: nat)
  {
    |draws| == inputs + 1
    && (forall y :: 0 <= y <= inputs ==> |draws[y]| == nodes)
    && (forall y, x :: 0 <= y <= inputs && 0 <= x < nodes ==> draws[y][x] <= RandMax)
  }

  class Dense {
    /** Number of inputs, not counting the bias 1. */
    const inputs: nat
    /** Number of units. */
    const nodes: nat
    var W: Mat
    var M: Mat
    const f: array<Func>
    const alpha: array<real>
    const layerName: array<char>
    var out: Vector

    ghost predicate Valid()
      reads this, f, alpha, layerName
    {
      HasShape(W, inputs + 1, nodes) && IsMask(M, inputs, nodes)
      && f.Length == nodes && alpha.Length == nodes && layerName.Length == LayerNameLen
    }

    /**
     * Builds the layer with weights drawn from `draws` in the constructor's loop order,
     * every weight unmasked, every unit RELU with parameter 1 and a blank name
     * (dense.cpp:10-45).
     */
    constructor (inputs: nat, nodes: nat, draws: seq<seq<nat>>)
      requires IsDraws(draws, inputs, nodes)
      ensures Valid() && this.inputs == inputs && this.nodes == nodes
      ensures forall y, x :: 0 <= y <= inputs && 0 <= x < nodes ==> W[y][x] == Weight(draws[y][x])
      ensures forall y, x :: 0 <= y <= inputs && 0 <= x < nodes ==> M[y][x] == 1.0
      ensures forall x :: 0 <= x < nodes ==> f[x] == Relu && alpha[x] == 1.0
      ensures forall k :: 0 <= k < LayerNameLen ==> layerName[k] == '\0'
      ensures |out| == nodes
      ensures fresh(f) && fresh(alpha) && fresh(layerName)
    {
      var w := Zeros(inputs + 1, nodes);
      var m := Zeros(inputs + 1, nodes);
      var y := 0;
      while y < inputs + 1
        invariant 0 <= y <= inputs + 1
        invariant HasShape(w, inputs + 1, nodes) && HasShape(m, inputs + 1, nodes)
        invariant forall r, c :: 0 <= r < y && 0 <= c < nodes ==> w[r][c] == Weight(draws[r][c]) && m[r][c] == 1.0
      {
        var x := 0;
        while x < nodes
          invariant 0 <= x <= nodes
          invariant HasShape(w, inputs + 1, nodes) && HasShape(m, inputs + 1, nodes)
          invariant forall r, c :: 0 <= r < y && 0 <= c < nodes ==> w[r][c] == Weight(draws[r][c]) && m[r][c] == 1.0
          invariant forall c :: 0 <= c < x ==> w[y][c] == Weight(draws[y][c]) && m[y][c] == 1.0
        {
          w := SetEntry(w, y, x, Weight(draws[y][x]));
          m := SetEntry(m, y, x, 1.0);
          x := x + 1;
        }
        y := y + 1;
      }
      var fs := new Func[nodes];
      var al := new real[nodes];
      var x := 0;
      while x < nodes
        invariant 0 <= x <= nodes
        invariant forall k :: 0 <= k < x ==> fs[k] == Relu && al[k] == 1.0
      {
        fs[x] := Relu;
        al[x] := 1.0;
        x := x + 1;
      }
      var name := new char[LayerNameLen];
      x := 0;
      while x < LayerNameLen
        invariant 0 <= x <= LayerNameLen
        invariant forall k :: 0 <= k < x ==> name[k] == '\0'
        invariant forall k :: 0 <= k < nodes ==> fs[k] == Relu && al[k] == 1.0
      {
        name[x] := '\0';
        x := x + 1;
      }
      this.inputs, this.nodes := inputs, nodes;
      W, M, f, alpha, layerName := w, m, fs, al, name;
      out := ZeroVector(nodes);
    }

    /** Replaces the whole weight matrix. */
    method SetW(w: Mat)
      requires Valid() && HasShape(w, inputs + 1, nodes)
      modifies this`W
      ensures Valid() && W == w
    {
      W := w;
    }

    /** Replaces the weights of unit i, column i of W. */
    method SetW_i(w: Vector, i: nat)
      requires Valid() && |w| == inputs + 1 && i < nodes
      modifies this`W
      ensures Valid() && W == SetColumn(old(W), nodes, i, w)
    {
      W := SetColumn(W, nodes, i, w);
    }

    /** Replaces weight [i, j]. */
    method SetW_ij(v: real, i: nat, j: nat)
      requires Valid() && i <= inputs && j < nodes
      modifies this`W
      ensures Valid() && W == SetEntry(old(W), i, j, v)
    {
      W := SetEntry(W, i, j, v);
    }

    /** Replaces the whole mask; the bias row stays unmasked. */
    method SetM(b: seq<seq<bool>>)
      requires Valid() && |b| == inputs + 1 && forall i :: 0 <= i <= inputs ==> |b[i]| == nodes
      modifies this`M
      ensures Valid() && M == MaskOf(b, inputs, nodes)
    {
      M := MaskOf(b, inputs, nodes);
    }

    /** Replaces the masks of unit i, column i of M; its bias entry stays 1. */
    method SetM_i(b: seq<bool>, i: nat)
      requires Valid() && |b| == inputs + 1 && i < nodes
      modifies this`M
      ensures Valid() && M == SetColumn(old(M), nodes, i, MaskColumn(b, inputs))
    {
      M := SetColumn(M, nodes, i, MaskColumn(b, inputs));
    }

    /** Replaces mask entry [i, j]; an entry of the bias row stays 1. */
    method SetM_ij(b: bool, i: nat, j: nat)
      requires Valid() && i <= inputs && j < nodes
      modifies this`M
      ensures Valid() && M == SetEntry(old(M), i, j, MaskEntry(b, i, inputs))
    {
      M := SetEntry(M, i, j, MaskEntry(b, i, inputs));
    }

    /** Sets the activation of unit i. */
    method SetF_i(func: Func, i: nat)
      requires Valid() && i < nodes
      modifies f
      ensures Valid() && f[..] == old(f[..])[i := func]
    {
      f[i] := func;
    }

    /** Sets the activation parameter of unit i. */
    method SetA_i(a: real, i: nat)
      requires Valid() && i < nodes
      modifies alpha
      ensures Valid() && alpha[..] == old(alpha[..])[i := a]
    {
      alpha[i] := a;
    }

    /** One output per unit, for every input. */
    function OutputLen(): (len: nat)
      reads this, f, alpha, layerName
      requires Valid()
      ensures forall x: Vector, ext: Transcendental :: |x| == inputs ==> |Output(x, W, M, f[..], alpha[..], ext)| == len
    {
      nodes
    }

    /** Runs the layer on `x` into the output vector and returns its length. */
    method Run(x: Vector, ext: Transcendental) returns (len: nat)
      requires Valid() && |x| == inputs
      modifies this`out
      ensures Valid() && out == Output(x, W, M, f[..], alpha[..], ext) && len == |out| == nodes
    {
      out := Output(x, W, M, f[..], alpha[..], ext);
      len := |out|;
    }
  }
}
