/**
 * The filter table of the 2D convolutional layer (conv2d.h): an ordered list of filters,
 * each with its own size, strides, activation and a weight array of w*h entries in
 * row-major order followed by one bias (conv2d.h:7-20, conv2d.h:51-63).
 */
module Conv2DLayer {
  import opened Wrappers
  import opened Activation
  import opened Grid

  /** One filter (the Filter2D record of conv2d.h:51-63). */
  datatype Filter2D = Filter2D(
    w: nat, h: nat, strideH: nat, strideV: nat, f: Func, alpha: real, W: seq<real>)

  /** The filter's weight array has one entry per cell plus the bias. */
  predicate WellFormed(filt: Filter2D)
  {
    |filt.W| == filt.w * filt.h + 1
  }

  /** Where the weight of filter row r, column c is stored. */
  function WeightIndex(filt: Filter2D, r: nat, c: nat): (k: nat)
    requires r < filt.h && c < filt.w
    ensures k < filt.w * filt.h
    ensures k / filt.w == r && k % filt.w == c
  {
    RowMajor(r, c, filt.h, filt.w);
    r * filt.w + c
  }

  /** The weight of filter row r, column c. */
  function WeightAt(filt: Filter2D, r: nat, c: nat): real
    requires WellFormed(filt) && r < filt.h && c < filt.w
  {
    filt.W[WeightIndex(filt, r, c)]
  }

  /** The bias is the last entry, after all the cell weights. */
  function BiasIndex(filt: Filter2D): (k: nat)
    ensures forall r, c :: 0 <= r < filt.h && 0 <= c < filt.w ==> WeightIndex(filt, r, c) < k
  {
    filt.w * filt.h
  }

  function Bias(filt: Filter2D): real
    requires WellFormed(filt)
  {
    filt.W[BiasIndex(filt)]
  }

  /** Every stored cell weight belongs to exactly one filter cell. */
  lemma {:induction false} WeightLayoutIsOneToOne(filt: Filter2D, k: nat)
    requires k < filt.w * filt.h
    ensures 0 < filt.w && k / filt.w < filt.h && k % filt.w < filt.w
    ensures WeightIndex(filt, k / filt.w, k % filt.w) == k
  {
    RowMajorCell(k, filt.h, filt.w);
  }

  /** Distinct filter cells are stored at distinct places. */
  lemma WeightIndexInjective(filt: Filter2D, r: nat, c: nat, r': nat, c': nat)
    requires r < filt.h && c < filt.w && r' < filt.h && c' < filt.w
    requires WeightIndex(filt, r, c) == WeightIndex(filt, r', c')
    ensures r == r' && c == c'
  {
  }

  /** The weight of the cell that storage index k names, for k below w*h. */
  function CellWeight(filt: Filter2D, k: nat): real
    requires WellFormed(filt) && k < filt.w * filt.h
  {
    RowMajorCell(k, filt.h, filt.w);
    WeightAt(filt, k / filt.w, k % filt.w)
  }

  /** The cell weights of a filter, read row by row. */
  function CellWeights(filt: Filter2D): (ws: seq<real>)
    requires WellFormed(filt)
    ensures |ws| == filt.w * filt.h
  {
    seq(filt.w * filt.h, k requires 0 <= k < filt.w * filt.h => CellWeight(filt, k))
  }

  /**
   * A well-formed weight array is exactly the filter's cell weights read row by row,
   * followed by its bias: nothing else is stored and nothing is stored twice.
   */
  lemma WeightsAreCellsThenBias(filt: Filter2D)
    requires WellFormed(filt)
    ensures filt.W == CellWeights(filt) + [Bias(filt)]
  {
    var cells := CellWeights(filt);
    forall k | 0 <= k < filt.w * filt.h ensures cells[k] == filt.W[k] {
      WeightLayoutIsOneToOne(filt, k);
    }
  }

  /**
   * Writing storage index j changes exactly one thing: the weight of cell (j/w, j%w) when
   * j < w*h, and the bias when j = w*h.
   */
  lemma {:induction false} SetWeightChangesOneCell(filt: Filter2D, j: nat, v: real)
    requires WellFormed(filt) && j <= filt.w * filt.h
    ensures var f' := filt.(W := filt.W[j := v]);
            WellFormed(f')
            && (j < filt.w * filt.h ==>
                  0 < filt.w && j / filt.w < filt.h
                  && WeightAt(f', j / filt.w, j % filt.w) == v
                  && Bias(f') == Bias(filt)
                  && forall r, c :: 0 <= r < filt.h && 0 <= c < filt.w && (r, c) != (j / filt.w, j % filt.w) ==>
                       WeightAt(f', r, c) == WeightAt(filt, r, c))
            && (j == filt.w * filt.h ==>
                  Bias(f') == v
                  && forall r, c :: 0 <= r < filt.h && 0 <= c < filt.w ==> WeightAt(f', r, c) == WeightAt(filt, r, c))
  {
    if j < filt.w * filt.h {
      WeightLayoutIsOneToOne(filt, j);
    }
  }

  class Conv2D {
    const inputW: nat
    const inputH: nat
    /** The filters, in the order they were added. */
    var filters: seq<Filter2D>
    var n: nat

    ghost predicate Valid()
      reads this
    {
      n == |filters| && forall i :: 0 <= i < |filters| ==> WellFormed(filters[i])
    }

    constructor (inputW: nat, inputH: nat)
      ensures Valid() && this.inputW == inputW && this.inputH == inputH && filters == []
    {
      this.inputW, this.inputH := inputW, inputH;
      filters, n := [], 0;
    }

    /**
     * Appends a w x h filter with a weight array of w*h+1 entries and returns its
     * index. The new filter's strides, activation and weights are not given by the
     * header, so the contract leaves them open.
     */
    method AddFilter(w: nat, h: nat) returns (index: nat)
      requires Valid()
      modifies this`filters, this`n
      ensures Valid() && index == old(n) && |filters| == old(|filters|) + 1
      ensures filters[..index] == old(filters)
      ensures filters[index].w == w && filters[index].h == h
    {
      index := n;
      filters := filters + [Filter2D(w, h, 1, 1, Relu, 1.0, seq(w * h + 1, _ => 0.0))];
      n := n + 1;
    }

    /** Replaces the whole weight array of filter i. */
    method SetW_i(W: seq<real>, i: nat)
      requires Valid() && i < n && |W| == filters[i].w * filters[i].h + 1
      modifies this`filters
      ensures Valid() && filters == old(filters)[i := old(filters)[i].(W := W)]
    {
      filters := filters[i := filters[i].(W := W)];
    }

    /** Replaces weight j of filter i; j = w*h is the bias. */
    method SetW_ij(v: real, i: nat, j: nat)
      requires Valid() && i < n && j <= filters[i].w * filters[i].h
      modifies this`filters
      ensures Valid() && filters == old(filters)[i := old(filters)[i].(W := old(filters)[i].W[j := v])]
    {
      filters := filters[i := filters[i].(W := filters[i].W[j := v])];
    }

    method SetHorzStride_i(stride: nat, i: nat)
      requires Valid() && i < n
      modifies this`filters
      ensures Valid() && filters == old(filters)[i := old(filters)[i].(strideH := stride)]
    {
      filters := filters[i := filters[i].(strideH := stride)];
    }

    method SetVertStride_i(stride: nat, i: nat)
      requires Valid() && i < n
      modifies this`filters
      ensures Valid() && filters == old(filters)[i := old(filters)[i].(strideV := stride)]
    {
      filters := filters[i := filters[i].(strideV := stride)];
    }

    method SetF_i(func: Func, i: nat)
      requires Valid() && i < n
      modifies this`filters
      ensures Valid() && filters == old(filters)[i := old(filters)[i].(f := func)]
    {
      filters := filters[i := filters[i].(f := func)];
    }

    method SetA_i(a: real, i: nat)
      requires Valid() && i < n
      modifies this`filters
      ensures Valid() && filters == old(filters)[i := old(filters)[i].(alpha := a)]
    {
      filters := filters[i := filters[i].(alpha := a)];
    }
  }
}
