/**
 * The GRU layer's state (gru.h): input length d, hidden length h, the weight matrices
 * Wz, Wr, Wh (h x d) and Uz, Ur, Uh (h x h), the biases bz, br, bh (length h), the
 * hidden-state cache H (h x cache) and the time step t. The gate arithmetic is a
 * parameter of `Run`; what is modelled is the bookkeeping around it.
 */
module GruLayer {
  import opened Matrix
  import opened History

  /** The learned parameters a step reads. */
  datatype Params = Params(Wz: Mat, Wr: Mat, Wh: Mat, Uz: Mat, Ur: Mat, Uh: Mat, bz: Vector, br: Vector, bh: Vector)

  /** The parameters have the shapes of gru.h:13-28: W's h x d, U's h x h, biases of length h. */
  predicate Shaped(p: Params, d: nat, h: nat)
  {
    HasShape(p.Wz, h, d)
    && HasShape(p.Wr, h, d)
    && HasShape(p.Wh, h, d)
    && HasShape(p.Uz, h, h)
    && HasShape(p.Ur, h, h)
    && HasShape(p.Uh, h, h)
    && |p.bz| == h
    && |p.br| == h
    && |p.bh| == h
  }

  /**
   * The gate arithmetic of one step, left uninterpreted: from the parameters, the input
   * and the previous hidden state it yields the new hidden state.
   */
  type Cell = (Params, Vector, Vector) -> Vector

  class GRU {
    /** Input length. */
    const d: nat
    /** Hidden state length. */
    const h: nat
    /** Number of past states kept. */
    const cache: nat
    /** The time step: the number of steps since construction or the last reset. */
    var t: nat
    var Wz: Mat
    var Wr: Mat
    var Wh: Mat
    var Uz: Mat
    var Ur: Mat
    var Uh: Mat
    var bz: Vector
    var br: Vector
    var bh: Vector
    /** Hidden state cache, h x cache. */
    var H: Mat
    /** The hidden states produced since construction or the last reset, oldest first. */
    ghost var states: seq<Vector>

    ghost predicate Valid()
      reads this
    {
      1 <= cache
      && HasShape(Wz, h, d)
      && HasShape(Wr, h, d)
      && HasShape(Wh, h, d)
      && HasShape(Uz, h, h)
      && HasShape(Ur, h, h)
      && HasShape(Uh, h, h)
      && |bz| == h
      && |br| == h
      && |bh| == h
      && t == |states|
      && Holds(H, h, cache, states)
    }

    function CurrentParams(): (p: Params)
      reads this
      requires Valid()
      ensures Shaped(p, d, h)
    {
      Params(Wz, Wr, Wh, Uz, Ur, Uh, bz, br, bh)
    }

    /** Builds the layer with an empty history; initial parameter values are left open. */
    constructor (d: nat, h: nat, cache: nat)
      requires 1 <= cache
      ensures Valid() && this.d == d && this.h == h && this.cache == cache
      ensures t == 0 && H == Zeros(h, cache) && states == []
    {
      this.d, this.h, this.cache := d, h, cache;
      Wz := Zeros(h, d);
      Wr := Zeros(h, d);
      Wh := Zeros(h, d);
      Uz := Zeros(h, h);
      Ur := Zeros(h, h);
      Uh := Zeros(h, h);
      bz := ZeroVector(h);
      br := ZeroVector(h);
      bh := ZeroVector(h);
      H := Zeros(h, cache);
      t := 0;
      states := [];
      EmptyHistory(h, cache);
    }

    /** Replaces the whole Wz matrix. */
    method SetWz(w: Mat)
      requires Valid() && HasShape(w, h, d)
      modifies this`Wz
      ensures Valid() && Wz == w
    {
      Wz := w;
    }

    /** Replaces the whole Wr matrix. */
    method SetWr(w: Mat)
      requires Valid() && HasShape(w, h, d)
      modifies this`Wr
      ensures Valid() && Wr == w
    {
      Wr := w;
    }

    /** Replaces the whole Wh matrix. */
    method SetWh(w: Mat)
      requires Valid() && HasShape(w, h, d)
      modifies this`Wh
      ensures Valid() && Wh == w
    {
      Wh := w;
    }

    /** Replaces the whole Uz matrix. */
    method SetUz(w: Mat)
      requires Valid() && HasShape(w, h, h)
      modifies this`Uz
      ensures Valid() && Uz == w
    {
      Uz := w;
    }

    /** Replaces the whole Ur matrix. */
    method SetUr(w: Mat)
      requires Valid() && HasShape(w, h, h)
      modifies this`Ur
      ensures Valid() && Ur == w
    {
      Ur := w;
    }

    /** Replaces the whole Uh matrix. */
    method SetUh(w: Mat)
      requires Valid() && HasShape(w, h, h)
      modifies this`Uh
      ensures Valid() && Uh == w
    {
      Uh := w;
    }

    /** Replaces element [i, j] of Wz. */
    method SetWz_ij(v: real, i: nat, j: nat)
      requires Valid() && i < h && j < d
      modifies this`Wz
      ensures Valid() && Wz == SetEntry(old(Wz), i, j, v)
    {
      Wz := SetEntry(Wz, i, j, v);
    }

    /** Replaces element [i, j] of Wr. */
    method SetWr_ij(v: real, i: nat, j: nat)
      requires Valid() && i < h && j < d
      modifies this`Wr
      ensures Valid() && Wr == SetEntry(old(Wr), i, j, v)
    {
      Wr := SetEntry(Wr, i, j, v);
    }

    /** Replaces element [i, j] of Wh. */
    method SetWh_ij(v: real, i: nat, j: nat)
      requires Valid() && i < h && j < d
      modifies this`Wh
      ensures Valid() && Wh == SetEntry(old(Wh), i, j, v)
    {
      Wh := SetEntry(Wh, i, j, v);
    }

    /** Replaces element [i, j] of Uz. */
    method SetUz_ij(v: real, i: nat, j: nat)
      requires Valid() && i < h && j < h
      modifies this`Uz
      ensures Valid() && Uz == SetEntry(old(Uz), i, j, v)
    {
      Uz := SetEntry(Uz, i, j, v);
    }

    /** Replaces element [i, j] of Ur. */
    method SetUr_ij(v: real, i: nat, j: nat)
      requires Valid() && i < h && j < h
      modifies this`Ur
      ensures Valid() && Ur == SetEntry(old(Ur), i, j, v)
    {
      Ur := SetEntry(Ur, i, j, v);
    }

    /** Replaces element [i, j] of Uh. */
    method SetUh_ij(v: real, i: nat, j: nat)
      requires Valid() && i < h && j < h
      modifies this`Uh
      ensures Valid() && Uh == SetEntry(old(Uh), i, j, v)
    {
      Uh := SetEntry(Uh, i, j, v);
    }

    /** Replaces the whole bz bias vector. */
    method Setbz(v: Vector)
      requires Valid() && |v| == h
      modifies this`bz
      ensures Valid() && bz == v
    {
      bz := v;
    }

    /** Replaces element i of bz. */
    method Setbz_i(v: real, i: nat)
      requires Valid() && i < h
      modifies this`bz
      ensures Valid() && bz == old(bz)[i := v]
    {
      bz := bz[i := v];
    }

    /** Replaces the whole br bias vector. */
    method Setbr(v: Vector)
      requires Valid() && |v| == h
      modifies this`br
      ensures Valid() && br == v
    {
      br := v;
    }

    /** Replaces element i of br. */
    method Setbr_i(v: real, i: nat)
      requires Valid() && i < h
      modifies this`br
      ensures Valid() && br == old(br)[i := v]
    {
      br := br[i := v];
    }

    /** Replaces the whole bh bias vector. */
    method Setbh(v: Vector)
      requires Valid() && |v| == h
      modifies this`bh
      ensures Valid() && bh == v
    {
      bh := v;
    }

    /** Replaces element i of bh. */
    method Setbh_i(v: real, i: nat)
      requires Valid() && i < h
      modifies this`bh
      ensures Valid() && bh == old(bh)[i := v]
    {
      bh := bh[i := v];
    }

    /** One output per hidden unit. */
    function OutputLen(): (len: nat)
      reads this
      requires Valid()
      ensures len == |Output()|
    {
      h
    }

    /** The layer's current output: the latest hidden state, zero before the first step. */
    function Output(): (y: Vector)
      reads this
      requires Valid()
      ensures |y| == h
      ensures t == 0 ==> y == ZeroVector(h)
      ensures 0 < t ==> y == states[t - 1]
    {
      Latest(H, h, cache, states, t)
    }

    /**
     * One step on input x: the cell maps the input and the previous hidden state to the
     * new hidden state, which is stored in the cache, and the time step advances.
     */
    method Run(x: Vector, cell: Cell) returns (len: nat)
      requires Valid() && |x| == d
      requires |cell(CurrentParams(), x, Output())| == h
      modifies this`H, this`t, this`states
      ensures Valid()
      ensures var v := old(cell(CurrentParams(), x, Output()));
              Output() == v
              && H == Record(old(H), h, cache, old(t), v)
              && states == old(states) + [v]
      ensures t == old(t) + 1 && len == h
    {
      var v := cell(CurrentParams(), x, Output());
      H := Store(H, h, cache, t, v);
      RecordKeepsWindow(old(H), h, cache, states, v);
      states := states + [v];
      t := t + 1;
      len := h;
    }

    /** Clears the cache and restarts the time step. */
    method Reset()
      requires Valid()
      modifies this`H, this`t, this`states
      ensures Valid() && H == Zeros(h, cache) && t == 0 && Output() == ZeroVector(h)
    {
      H := Zeros(h, cache);
      t := 0;
      states := [];
      EmptyHistory(h, cache);
    }
  }
}
