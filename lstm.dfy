/**
 * The LSTM layer's state (lstm.h): input length d, hidden length h, the weight matrices
 * Wi, Wo, Wf, Wc (h x d) and Ui, Uo, Uf, Uc (h x h), the biases bi, bo, bf, bc (length h),
 * the cell state c (length h), the hidden-state cache H (h x cache) and the time step t.
 * The gate arithmetic is a parameter of `Run`; what is modelled is the bookkeeping
 * around it.
 */
module LstmLayer {
  import opened Matrix
  import opened History

  /** The learned parameters a step reads. */
  datatype Params = Params(Wi: Mat, Wo: Mat, Wf: Mat, Wc: Mat, Ui: Mat, Uo: Mat, Uf: Mat, Uc: Mat, bi: Vector, bo: Vector, bf: Vector, bc: Vector)

  /** The parameters have the shapes of lstm.h:13-28: W's h x d, U's h x h, biases of length h. */
  predicate Shaped(p: Params, d: nat, h: nat)
  {
    HasShape(p.Wi, h, d)
    && HasShape(p.Wo, h, d)
    && HasShape(p.Wf, h, d)
    && HasShape(p.Wc, h, d)
    && HasShape(p.Ui, h, h)
    && HasShape(p.Uo, h, h)
    && HasShape(p.Uf, h, h)
    && HasShape(p.Uc, h, h)
    && |p.bi| == h
    && |p.bo| == h
    && |p.bf| == h
    && |p.bc| == h
  }

  /**
   * The gate arithmetic of one step, left uninterpreted: from the parameters, the input,
   * the previous hidden state and the cell state it yields the new hidden state and the
   * new cell state.
   */
  type Cell = (Params, Vector, Vector, Vector) -> (Vector, Vector)

  class LSTM {
    /** Input length. */
    const d: nat
    /** Hidden state length. */
    const h: nat
    /** Number of past states kept. */
    const cache: nat
    /** The time step: the number of steps since construction or the last reset. */
    var t: nat
    var Wi: Mat
    var Wo: Mat
    var Wf: Mat
    var Wc: Mat
    var Ui: Mat
    var Uo: Mat
    var Uf: Mat
    var Uc: Mat
    var bi: Vector
    var bo: Vector
    var bf: Vector
    var bc: Vector
    /** Cell state. */
    var c: Vector
    /** Hidden state cache, h x cache. */
    var H: Mat
    /** The hidden states produced since construction or the last reset, oldest first. */
    ghost var states: seq<Vector>

    ghost predicate Valid()
      reads this
    {
      1 <= cache
      && HasShape(Wi, h, d)
      && HasShape(Wo, h, d)
      && HasShape(Wf, h, d)
      && HasShape(Wc, h, d)
      && HasShape(Ui, h, h)
      && HasShape(Uo, h, h)
      && HasShape(Uf, h, h)
      && HasShape(Uc, h, h)
      && |bi| == h
      && |bo| == h
      && |bf| == h
      && |bc| == h
      && |c| == h
      && t == |states|
      && Holds(H, h, cache, states)
    }

    function CurrentParams(): (p: Params)
      reads this
      requires Valid()
      ensures Shaped(p, d, h)
    {
      Params(Wi, Wo, Wf, Wc, Ui, Uo, Uf, Uc, bi, bo, bf, bc)
    }

    /** Builds the layer with an empty history; initial parameter values are left open. */
    constructor (d: nat, h: nat, cache: nat)
      requires 1 <= cache
      ensures Valid() && this.d == d && this.h == h && this.cache == cache
      ensures t == 0 && H == Zeros(h, cache) && states == [] && c == ZeroVector(h)
    {
      this.d, this.h, this.cache := d, h, cache;
      Wi := Zeros(h, d);
      Wo := Zeros(h, d);
      Wf := Zeros(h, d);
      Wc := Zeros(h, d);
      Ui := Zeros(h, h);
      Uo := Zeros(h, h);
      Uf := Zeros(h, h);
      Uc := Zeros(h, h);
      bi := ZeroVector(h);
      bo := ZeroVector(h);
      bf := ZeroVector(h);
      bc := ZeroVector(h);
      c := ZeroVector(h);
      H := Zeros(h, cache);
      t := 0;
      states := [];
      EmptyHistory(h, cache);
    }

    /** Replaces the whole Wi matrix. */
    method SetWi(w: Mat)
      requires Valid() && HasShape(w, h, d)
      modifies this`Wi
      ensures Valid() && Wi == w
    {
      Wi := w;
    }

    /** Replaces the whole Wo matrix. */
    method SetWo(w: Mat)
      requires Valid() && HasShape(w, h, d)
      modifies this`Wo
      ensures Valid() && Wo == w
    {
      Wo := w;
    }

    /** Replaces the whole Wf matrix. */
    method SetWf(w: Mat)
      requires Valid() && HasShape(w, h, d)
      modifies this`Wf
      ensures Valid() && Wf == w
    {
      Wf := w;
    }

    /** Replaces the whole Wc matrix. */
    method SetWc(w: Mat)
      requires Valid() && HasShape(w, h, d)
      modifies this`Wc
      ensures Valid() && Wc == w
    {
      Wc := w;
    }

    /** Replaces the whole Ui matrix. */
    method SetUi(w: Mat)
      requires Valid() && HasShape(w, h, h)
      modifies this`Ui
      ensures Valid() && Ui == w
    {
      Ui := w;
    }

    /** Replaces the whole Uo matrix. */
    method SetUo(w: Mat)
      requires Valid() && HasShape(w, h, h)
      modifies this`Uo
      ensures Valid() && Uo == w
    {
      Uo := w;
    }

    /** Replaces the whole Uf matrix. */
    method SetUf(w: Mat)
      requires Valid() && HasShape(w, h, h)
      modifies this`Uf
      ensures Valid() && Uf == w
    {
      Uf := w;
    }

    /** Replaces the whole Uc matrix. */
    method SetUc(w: Mat)
      requires Valid() && HasShape(w, h, h)
      modifies this`Uc
      ensures Valid() && Uc == w
    {
      Uc := w;
    }

    /** Replaces element [i, j] of Wi. */
    method SetWi_ij(v: real, i: nat, j: nat)
      requires Valid() && i < h && j < d
      modifies this`Wi
      ensures Valid() && Wi == SetEntry(old(Wi), i, j, v)
    {
      Wi := SetEntry(Wi, i, j, v);
    }

    /** Replaces element [i, j] of Wo. */
    method SetWo_ij(v: real, i: nat, j: nat)
      requires Valid() && i < h && j < d
      modifies this`Wo
      ensures Valid() && Wo == SetEntry(old(Wo), i, j, v)
    {
      Wo := SetEntry(Wo, i, j, v);
    }

    /** Replaces element [i, j] of Wf. */
    method SetWf_ij(v: real, i: nat, j: nat)
      requires Valid() && i < h && j < d
      modifies this`Wf
      ensures Valid() && Wf == SetEntry(old(Wf), i, j, v)
    {
      Wf := SetEntry(Wf, i, j, v);
    }

    /** Replaces element [i, j] of Wc. */
    method SetWc_ij(v: real, i: nat, j: nat)
      requires Valid() && i < h && j < d
      modifies this`Wc
      ensures Valid() && Wc == SetEntry(old(Wc), i, j, v)
    {
      Wc := SetEntry(Wc, i, j, v);
    }

    /** Replaces element [i, j] of Ui. */
    method SetUi_ij(v: real, i: nat, j: nat)
      requires Valid() && i < h && j < h
      modifies this`Ui
      ensures Valid() && Ui == SetEntry(old(Ui), i, j, v)
    {
      Ui := SetEntry(Ui, i, j, v);
    }

    /** Replaces element [i, j] of Uo. */
    method SetUo_ij(v: real, i: nat, j: nat)
      requires Valid() && i < h && j < h
      modifies this`Uo
      ensures Valid() && Uo == SetEntry(old(Uo), i, j, v)
    {
      Uo := SetEntry(Uo, i, j, v);
    }

    /** Replaces element [i, j] of Uf. */
    method SetUf_ij(v: real, i: nat, j: nat)
      requires Valid() && i < h && j < h
      modifies this`Uf
      ensures Valid() && Uf == SetEntry(old(Uf), i, j, v)
    {
      Uf := SetEntry(Uf, i, j, v);
    }

    /** Replaces element [i, j] of Uc. */
    method SetUc_ij(v: real, i: nat, j: nat)
      requires Valid() && i < h && j < h
      modifies this`Uc
      ensures Valid() && Uc == SetEntry(old(Uc), i, j, v)
    {
      Uc := SetEntry(Uc, i, j, v);
    }

    /** Replaces the whole bi bias vector. */
    method Setbi(v: Vector)
      requires Valid() && |v| == h
      modifies this`bi
      ensures Valid() && bi == v
    {
      bi := v;
    }

    /** Replaces element i of bi. */
    method Setbi_i(v: real, i: nat)
      requires Valid() && i < h
      modifies this`bi
      ensures Valid() && bi == old(bi)[i := v]
    {
      bi := bi[i := v];
    }

    /** Replaces the whole bo bias vector. */
    method Setbo(v: Vector)
      requires Valid() && |v| == h
      modifies this`bo
      ensures Valid() && bo == v
    {
      bo := v;
    }

    /** Replaces element i of bo. */
    method Setbo_i(v: real, i: nat)
      requires Valid() && i < h
      modifies this`bo
      ensures Valid() && bo == old(bo)[i := v]
    {
      bo := bo[i := v];
    }

    /** Replaces the whole bf bias vector. */
    method Setbf(v: Vector)
      requires Valid() && |v| == h
      modifies this`bf
      ensures Valid() && bf == v
    {
      bf := v;
    }

    /** Replaces element i of bf. */
    method Setbf_i(v: real, i: nat)
      requires Valid() && i < h
      modifies this`bf
      ensures Valid() && bf == old(bf)[i := v]
    {
      bf := bf[i := v];
    }

    /** Replaces the whole bc bias vector. */
    method Setbc(v: Vector)
      requires Valid() && |v| == h
      modifies this`bc
      ensures Valid() && bc == v
    {
      bc := v;
    }

    /** Replaces element i of bc. */
    method Setbc_i(v: real, i: nat)
      requires Valid() && i < h
      modifies this`bc
      ensures Valid() && bc == old(bc)[i := v]
    {
      bc := bc[i := v];
    }

    /** One output per hidden unit. */
    function OutputLen(): (len: nat)
      reads this
      requires Valid()
      ensures len == |Output()|
    {
      h
    }

    /** The layer's current output: the latest hidden state, zero before the first step. */
    function Output(): (y: Vector)
      reads this
      requires Valid()
      ensures |y| == h
      ensures t == 0 ==> y == ZeroVector(h)
      ensures 0 < t ==> y == states[t - 1]
    {
      Latest(H, h, cache, states, t)
    }

    /**
     * One step on input x: the cell maps the input, the previous hidden state and the cell
     * state to the new hidden state and cell state; the new hidden state is stored in the
     * cache, the cell state is replaced and the time step advances.
     */
    method Run(x: Vector, cell: Cell) returns (len: nat)
      requires Valid() && |x| == d
      requires var r := cell(CurrentParams(), x, Output(), c); |r.0| == h && |r.1| == h
      modifies this`H, this`t, this`c, this`states
      ensures Valid()
      ensures var r := old(cell(CurrentParams(), x, Output(), c));
              Output() == r.0 && c == r.1
              && H == Record(old(H), h, cache, old(t), r.0)
              && states == old(states) + [r.0]
      ensures t == old(t) + 1 && len == h
    {
      var r := cell(CurrentParams(), x, Output(), c);
      H := Store(H, h, cache, t, r.0);
      RecordKeepsWindow(old(H), h, cache, states, r.0);
      states := states + [r.0];
      c := r.1;
      t := t + 1;
      len := h;
    }

    /** Clears the cache and the cell state and restarts the time step. */
    method Reset()
      requires Valid()
      modifies this`H, this`t, this`c, this`states
      ensures Valid() && H == Zeros(h, cache) && c == ZeroVector(h) && t == 0 && Output() == ZeroVector(h)
    {
      H := Zeros(h, cache);
      c := ZeroVector(h);
      t := 0;
      states := [];
      EmptyHistory(h, cache);
    }
  }
}
