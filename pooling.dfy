/**
 * The pooling layer (pooling.h): a list of 2D pools swept over a row-major
 * inputW x inputH map. A pool of size w x h with strides (stride_h, stride_v) produces
 * one value per window position, reducing the window by MAX, MIN, AVG or MEDIAN; the maps
 * of all pools are concatenated in insertion order.
 */
module PoolingLayer {
  import opened Wrappers
  import opened PoolingSort
  import opened Grid

  /** The reduction a pool applies, with the byte codes of pooling.h:34-37. */
  datatype PoolFunc = MaxPool | MinPool | AvgPool | MedianPool

  function PoolCode(f: PoolFunc): (c: nat)
    ensures c < 4
  {
    match f
    case MaxPool => 0
    case MinPool => 1
    case AvgPool => 2
    case MedianPool => 3
  }

  function PoolFuncFromCode(c: nat): (r: Option<PoolFunc>)
    ensures r.Some? <==> c < 4
    ensures r.Some? ==> PoolCode(r.value) == c
  {
    if c == 0 then Some(MaxPool)
    else if c == 1 then Some(MinPool)
    else if c == 2 then Some(AvgPool)
    else if c == 3 then Some(MedianPool)
    else None
  }

  lemma PoolCodeRoundTrip(f: PoolFunc)
    ensures PoolFuncFromCode(PoolCode(f)) == Some(f)
  {
  }

  /** One pool (the Pool2D record of pooling.h:50-57). */
  datatype Pool2D = Pool2D(w: nat, h: nat, strideH: nat, strideV: nat, f: PoolFunc)

  /**
   * The pool can be swept over the map: it is non-empty, no larger than the map, and its
   * strides are positive (the source's unsigned subtraction and division are meaningless
   * otherwise).
   */
  predicate Fits(inputW: nat, inputH: nat, p: Pool2D)
  {
    1 <= p.w <= inputW && 1 <= p.h <= inputH && 1 <= p.strideH && 1 <= p.strideV
  }

  /** Number of output columns: window positions from left to right. */
  function OutCols(inputW: nat, p: Pool2D): nat
    requires 1 <= p.w <= inputW && 1 <= p.strideH
  {
    (inputW - p.w) / p.strideH + 1
  }

  /** Number of output rows: window positions from top to bottom. */
  function OutRows(inputH: nat, p: Pool2D): nat
    requires 1 <= p.h <= inputH && 1 <= p.strideV
  {
    (inputH - p.h) / p.strideV + 1
  }

  /**
   * floor((n - w) / s) + 1 is exactly the number of positions 0, s, 2s, ... at which a
   * window of extent w lies inside an extent n: the last such window fits and the next
   * one would not.
   */
  lemma {:induction false} PositionCountIsExact(n: nat, w: nat, s: nat)
    requires 1 <= w <= n && 1 <= s
    ensures var count := (n - w) / s + 1;
            (count - 1) * s + w <= n && n < count * s + w
  {
    var q := (n - w) / s;
    assert n - w == q * s + (n - w) % s;
    assert (q + 1) * s == q * s + s;
  }

  /** The example of pooling.h:16-21: a 4 x 5 map under a 2 x 2 pool. */
  lemma DiagramGeometry()
    ensures var p := Pool2D(2, 2, 1, 1, MaxPool); OutCols(4, p) == 3 && OutRows(5, p) == 4
    ensures var p := Pool2D(2, 2, 2, 2, MaxPool); OutCols(4, p) == 2 && OutRows(5, p) == 2
  {
  }

  /** A window starting at a counted position ends inside the map. */
  lemma {:induction false} WindowStartFits(pos: nat, n: nat, w: nat, s: nat)
    requires 1 <= w <= n && 1 <= s && pos <= (n - w) / s
    ensures pos * s + w <= n
  {
    PositionCountIsExact(n, w, s);
    var q := (n - w) / s;
    assert pos * s <= q * s by {
      MulLeq(pos, q, s);
    }
  }

  /**
   * The w*h values under the window at output cell (r, c), read row by row: window entry
   * k is the map cell at row r*stride_v + k/w and column c*stride_h + k%w.
   */
  function Window(x: seq<real>, inputW: nat, inputH: nat, p: Pool2D, r: nat, c: nat): (win: seq<real>)
    requires |x| == inputW * inputH && Fits(inputW, inputH, p)
    requires r < OutRows(inputH, p) && c < OutCols(inputW, p)
    ensures |win| == p.w * p.h
  {
    seq(p.w * p.h, k requires 0 <= k < p.w * p.h => x[WindowIndex(inputW, inputH, p, r, c, k)])
  }

  /** Map index of entry k of the window at output cell (r, c); it lies inside the map. */
  function WindowIndex(inputW: nat, inputH: nat, p: Pool2D, r: nat, c: nat, k: nat): (idx: nat)
    requires Fits(inputW, inputH, p) && r < OutRows(inputH, p) && c < OutCols(inputW, p)
    requires k < p.w * p.h
    ensures idx < inputW * inputH
  {
    RowMajorCell(k, p.h, p.w);
    WindowStartFits(r, inputH, p.h, p.strideV);
    WindowStartFits(c, inputW, p.w, p.strideH);
    RowMajor(r * p.strideV + k / p.w, c * p.strideH + k % p.w, inputH, inputW);
    (r * p.strideV + k / p.w) * inputW + c * p.strideH + k % p.w
  }

  /** The largest value of a non-empty window. */
  function Max(s: seq<real>): (m: real)
    requires |s| > 0
    ensures m in s && forall i :: 0 <= i < |s| ==> s[i] <= m
  {
    if |s| == 1 then s[0]
    else
      var rest := Max(s[1..]);
      assert forall i :: 1 <= i < |s| ==> s[i] == s[1..][i - 1];
      if s[0] >= rest then s[0] else rest
  }

  /** The smallest value of a non-empty window. */
  function Min(s: seq<real>): (m: real)
    requires |s| > 0
    ensures m in s && forall i :: 0 <= i < |s| ==> m <= s[i]
  {
    if |s| == 1 then s[0]
    else
      var rest := Min(s[1..]);
      assert forall i :: 1 <= i < |s| ==> s[i] == s[1..][i - 1];
      if s[0] <= rest then s[0] else rest
  }

  function Sum(s: seq<real>): real
  {
    if s == [] then 0.0 else s[0] + Sum(s[1..])
  }

  /** The mean of a non-empty window: its sum over its size. */
  function Average(s: seq<real>): real
    requires |s| > 0
  {
    Sum(s) / (|s| as real)
  }

  /** The sum of a window lies between its size times its minimum and times its maximum. */
  lemma {:induction false} SumBounds(s: seq<real>, lo: real, hi: real)
    requires forall i :: 0 <= i < |s| ==> lo <= s[i] <= hi
    ensures (|s| as real) * lo <= Sum(s) <= (|s| as real) * hi
  {
    if s != [] {
      SumBounds(s[1..], lo, hi);
    }
  }

  /** AVG_POOL never leaves the range of the window it averages. */
  lemma AverageIsBetweenMinAndMax(s: seq<real>)
    requires |s| > 0
    ensures Min(s) <= Average(s) <= Max(s)
  {
    AverageWithinBounds(s, Min(s), Max(s));
  }

  /** Any bounds on every value of a window bound its average too. */
  lemma AverageWithinBounds(s: seq<real>, lo: real, hi: real)
    requires |s| > 0
    requires forall i :: 0 <= i < |s| ==> lo <= s[i] <= hi
    ensures lo <= Average(s) <= hi
  {
    SumBounds(s, lo, hi);
    QuotientBounds(Sum(s), |s| as real, lo, hi);
  }

  /** A quotient sum/n with n*lo <= sum <= n*hi lies in [lo, hi]. */
  lemma QuotientBounds(sum: real, n: real, lo: real, hi: real)
    requires 0.0 < n && n * lo <= sum <= n * hi
    ensures lo <= sum / n <= hi
  {
    var q := sum / n;
    assert q * n == sum;
    assert (q - lo) * n == sum - n * lo;
    assert (hi - q) * n == n * hi - sum;
  }

  /** The reduction a pool function applies to one window. */
  function Reduce(f: PoolFunc, s: seq<real>): real
    requires |s| > 0
  {
    match f
    case MaxPool => Max(s)
    case MinPool => Min(s)
    case AvgPool => Average(s)
    case MedianPool => Median(s)
  }

  /** The output map of one pool, row-major. */
  function PoolMap(x: seq<real>, inputW: nat, inputH: nat, p: Pool2D): (m: seq<real>)
    requires |x| == inputW * inputH && Fits(inputW, inputH, p)
    ensures |m| == OutRows(inputH, p) * OutCols(inputW, p)
  {
    seq(OutRows(inputH, p) * OutCols(inputW, p),
        k requires 0 <= k < OutRows(inputH, p) * OutCols(inputW, p) => PoolAt(x, inputW, inputH, p, k))
  }

  /** Element k of a pool's map: the reduction of the window its row-major index names. */
  function PoolAt(x: seq<real>, inputW: nat, inputH: nat, p: Pool2D, k: nat): real
    requires |x| == inputW * inputH && Fits(inputW, inputH, p)
    requires k < OutRows(inputH, p) * OutCols(inputW, p)
  {
    var rows, cols := OutRows(inputH, p), OutCols(inputW, p);
    RowMajorCell(k, rows, cols);
    assert p.w * p.h > 0 by { MulLeq(1, p.w, p.h); }
    Reduce(p.f, Window(x, inputW, inputH, p, k / cols, k % cols))
  }

  /**
   * Output cell (r, c) of a pool's map is its reduction of the window at (r, c). MAX is
   * the window's largest value and one of its values, MIN likewise the smallest, AVG is the
   * window sum divided by w*h, and MEDIAN is a window value read from the sorted window.
   */
  lemma {:induction false} PoolCell(x: seq<real>, inputW: nat, inputH: nat, p: Pool2D, r: nat, c: nat, k: nat)
    requires |x| == inputW * inputH && Fits(inputW, inputH, p)
    requires r < OutRows(inputH, p) && c < OutCols(inputW, p) && k == r * OutCols(inputW, p) + c
    ensures k < |PoolMap(x, inputW, inputH, p)| && p.w * p.h > 0
    ensures var win := Window(x, inputW, inputH, p, r, c);
            var y := PoolMap(x, inputW, inputH, p)[k];
            && (p.f == MaxPool ==> y in win && forall i :: 0 <= i < |win| ==> win[i] <= y)
            && (p.f == MinPool ==> y in win && forall i :: 0 <= i < |win| ==> y <= win[i])
            && (p.f == AvgPool ==> y == Sum(win) / ((p.w * p.h) as real))
            && (p.f == MedianPool ==> y in win && y == SortAscending(win)[(p.w * p.h) / 2])
  {
    var rows, cols := OutRows(inputH, p), OutCols(inputW, p);
    RowMajor(r, c, rows, cols);
    MulLeq(1, p.w, p.h);
    var win := Window(x, inputW, inputH, p, r, c);
    assert PoolMap(x, inputW, inputH, p)[k] == PoolAt(x, inputW, inputH, p, k);
    assert PoolMap(x, inputW, inputH, p)[k] == Reduce(p.f, win);
  }

  /** The maps of a list of pools, concatenated in list order. */
  function Maps(x: seq<real>, inputW: nat, inputH: nat, pools: seq<Pool2D>): seq<real>
    requires |x| == inputW * inputH
    requires forall i :: 0 <= i < |pools| ==> Fits(inputW, inputH, pools[i])
  {
    if pools == [] then []
    else Maps(x, inputW, inputH, pools[..|pools| - 1]) + PoolMap(x, inputW, inputH, pools[|pools| - 1])
  }

  /** Total output length of a list of pools. */
  function MapsLen(inputW: nat, inputH: nat, pools: seq<Pool2D>): nat
    requires forall i :: 0 <= i < |pools| ==> Fits(inputW, inputH, pools[i])
  {
    if pools == [] then 0
    else
      var p := pools[|pools| - 1];
      assert Fits(inputW, inputH, p);
      MapsLen(inputW, inputH, pools[..|pools| - 1]) + OutRows(inputH, p) * OutCols(inputW, p)
  }

  /** The declared output length is the length of what a run produces, for every input. */
  lemma {:induction false} MapsLenIsRunLength(x: seq<real>, inputW: nat, inputH: nat, pools: seq<Pool2D>)
    requires |x| == inputW * inputH
    requires forall i :: 0 <= i < |pools| ==> Fits(inputW, inputH, pools[i])
    ensures |Maps(x, inputW, inputH, pools)| == MapsLen(inputW, inputH, pools)
  {
    if pools != [] {
      MapsLenIsRunLength(x, inputW, inputH, pools[..|pools| - 1]);
    }
  }

  /**
   * The MEDIAN reduction as the layer computes it: copy the window, quicksort the copy in
   * ascending order and read its rank-floor(n/2) entry.
   */
  method SortedMedian(s: seq<real>) returns (m: real)
    requires |s| > 0
    ensures m == Median(s)
  {
    var a := new real[|s|](i requires 0 <= i < |s| => s[i]);
    assert a[0..a.Length - 1 + 1] == a[..] == s;
    Quicksort(false, a, 0, a.Length - 1);
    assert a[0..a.Length - 1 + 1] == a[..];
    MedianOfArrangement(s, a[..]);
    m := a[|s| / 2];
  }

  /** The value of window k of one pool, with MEDIAN computed by sorting a copy. */
  method WindowValue(x: seq<real>, inputW: nat, inputH: nat, p: Pool2D, k: nat) returns (v: real)
    requires |x| == inputW * inputH && Fits(inputW, inputH, p)
    requires k < OutRows(inputH, p) * OutCols(inputW, p)
    ensures v == PoolAt(x, inputW, inputH, p, k)
  {
    var cols := OutCols(inputW, p);
    RowMajorCell(k, OutRows(inputH, p), cols);
    MulLeq(1, p.w, p.h);
    var window := Window(x, inputW, inputH, p, k / cols, k % cols);
    if p.f == MedianPool {
      v := SortedMedian(window);
    } else {
      v := Reduce(p.f, window);
    }
  }

  /** Fills one pool's output map, window by window in row-major order. */
  method RunPool(x: seq<real>, inputW: nat, inputH: nat, p: Pool2D) returns (m: seq<real>)
    requires |x| == inputW * inputH && Fits(inputW, inputH, p)
    ensures m == PoolMap(x, inputW, inputH, p)
  {
    var n := OutRows(inputH, p) * OutCols(inputW, p);
    m := [];
    var k := 0;
    while k < n
      invariant 0 <= k <= n
      invariant m == PoolMap(x, inputW, inputH, p)[..k]
    {
      var v := WindowValue(x, inputW, inputH, p, k);
      assert PoolMap(x, inputW, inputH, p)[..k + 1] == m + [PoolMap(x, inputW, inputH, p)[k]];
      m := m + [v];
      k := k + 1;
    }
  }

  /** The layer: its input size, its list of pools and its output buffer. */
  class Pooling {
    const inputW: nat
    const inputH: nat
    var pools: seq<Pool2D>
    var n: nat
    var out: seq<real>

    ghost predicate Valid()
      reads this
    {
      n == |pools|
    }

    /** Every pool can be swept over the input. */
    predicate AllFit()
      reads this
    {
      forall i :: 0 <= i < |pools| ==> Fits(inputW, inputH, pools[i])
    }

    constructor (inputW: nat, inputH: nat)
      ensures Valid() && this.inputW == inputW && this.inputH == inputH
      ensures pools == [] && out == []
    {
      this.inputW, this.inputH := inputW, inputH;
      pools, n, out := [], 0, [];
    }

    /**
     * Appends a w x h pool and returns its index. pooling.h gives no defaults for its
     * strides and function, so the contract leaves them open.
     */
    method AddPool(w: nat, h: nat) returns (index: nat)
      requires Valid()
      modifies this`pools, this`n
      ensures Valid() && index == old(n)
      ensures |pools| == old(|pools|) + 1 && pools[..index] == old(pools)
      ensures pools[index].w == w && pools[index].h == h
    {
      index := n;
      pools := pools + [Pool2D(w, h, 1, 1, MaxPool)];
      n := n + 1;
    }

    method SetPoolWidth(w: nat, i: nat)
      requires Valid() && i < n
      modifies this`pools
      ensures Valid() && pools == old(pools)[i := old(pools)[i].(w := w)]
    {
      pools := pools[i := pools[i].(w := w)];
    }

    method SetPoolHeight(h: nat, i: nat)
      requires Valid() && i < n
      modifies this`pools
      ensures Valid() && pools == old(pools)[i := old(pools)[i].(h := h)]
    {
      pools := pools[i := pools[i].(h := h)];
    }

    method SetPoolHorzStride(stride: nat, i: nat)
      requires Valid() && i < n
      modifies this`pools
      ensures Valid() && pools == old(pools)[i := old(pools)[i].(strideH := stride)]
    {
      pools := pools[i := pools[i].(strideH := stride)];
    }

    method SetPoolVertStride(stride: nat, i: nat)
      requires Valid() && i < n
      modifies this`pools
      ensures Valid() && pools == old(pools)[i := old(pools)[i].(strideV := stride)]
    {
      pools := pools[i := pools[i].(strideV := stride)];
    }

    method SetPoolFunc(f: PoolFunc, i: nat)
      requires Valid() && i < n
      modifies this`pools
      ensures Valid() && pools == old(pools)[i := old(pools)[i].(f := f)]
    {
      pools := pools[i := pools[i].(f := f)];
    }

    /** The output length: the sum over pools of rows times columns. */
    function OutputLen(): (len: nat)
      reads this
      requires AllFit()
      ensures forall x: seq<real> :: |x| == inputW * inputH ==> len == |Maps(x, inputW, inputH, pools)|
    {
      forall x: seq<real> | |x| == inputW * inputH
        ensures MapsLen(inputW, inputH, pools) == |Maps(x, inputW, inputH, pools)|
      {
        MapsLenIsRunLength(x, inputW, inputH, pools);
      }
      MapsLen(inputW, inputH, pools)
    }

    /** Runs every pool over `x`, in insertion order, into the output buffer. */
    method Run(x: seq<real>) returns (len: nat)
      requires Valid() && AllFit() && |x| == inputW * inputH
      modifies this`out
      ensures out == Maps(x, inputW, inputH, pools) && len == |out| == OutputLen()
    {
      var acc := [];
      var i := 0;
      while i < |pools|
        invariant 0 <= i <= |pools|
        invariant acc == Maps(x, inputW, inputH, pools[..i])
      {
        var m := RunPool(x, inputW, inputH, pools[i]);
        assert pools[..i + 1][..i] == pools[..i];
        acc := acc + m;
        i := i + 1;
      }
      assert pools[..i] == pools;
      out := acc;
      len := |out|;
    }
  }
}
