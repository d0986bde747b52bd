/**
 * The up-resolution layer (upres.h), which prepares a row-major inputW x inputH map for
 * transposed convolution. Each parameter record puts stride_h synthetic columns between
 * neighbouring input columns and stride_v synthetic rows between neighbouring input rows,
 * then adds padding_h synthetic columns on the left and on the right and padding_v
 * synthetic rows on top and at the bottom (the diagram of upres.h:11-22). Synthetic cells
 * between originals are filled by the stride method, border cells by the padding method.
 * The outputs of all records are concatenated in insertion order.
 */
module UpresLayer {
  import opened Wrappers
  import opened Grid

  /** How synthetic cells are filled, with the byte codes of upres.h:33-35. */
  datatype FillMethod = FillZero | FillSame | FillInterp

  function FillCode(m: FillMethod): (c: nat)
    ensures c < 3
  {
    match m
    case FillZero => 0
    case FillSame => 1
    case FillInterp => 2
  }

  function FillFromCode(c: nat): (r: Option<FillMethod>)
    ensures r.Some? <==> c < 3
    ensures r.Some? ==> FillCode(r.value) == c
  {
    if c == 0 then Some(FillZero)
    else if c == 1 then Some(FillSame)
    else if c == 2 then Some(FillInterp)
    else None
  }

  lemma FillCodeRoundTrip(m: FillMethod)
    ensures FillFromCode(FillCode(m)) == Some(m)
  {
  }

  /** One up-ressing (the UpresParams record of upres.h:48-57). */
  datatype UpresParams = UpresParams(
    strideH: nat, strideV: nat, paddingH: nat, paddingV: nat,
    sMethod: FillMethod, pMethod: FillMethod)

  /** Extent, along one axis, from the first to the last original sample inclusive. */
  function CoreLen(n: nat, stride: nat): nat
    requires 1 <= n
  {
    (n - 1) * (stride + 1) + 1
  }

  /** Output extent along one axis: n + stride*(n-1) + 2*padding (upres.h:50-53). */
  function OutLen(n: nat, stride: nat, padding: nat): (len: nat)
    requires 1 <= n
    ensures len == CoreLen(n, stride) + 2 * padding
  {
    assert (n - 1) * (stride + 1) == stride * (n - 1) + (n - 1);
    n + stride * (n - 1) + 2 * padding
  }

  function OutWidth(inputW: nat, p: UpresParams): (w: nat)
    requires 1 <= inputW
    ensures 1 <= w
  {
    OutLen(inputW, p.strideH, p.paddingH)
  }

  function OutHeight(inputH: nat, p: UpresParams): (h: nat)
    requires 1 <= inputH
    ensures 1 <= h
  {
    OutLen(inputH, p.strideV, p.paddingV)
  }

  /** The diagram of upres.h:11-22: a 4 x 5 map becomes 7 x 9 at s = 1, p = 0 and 9 x 11 at p = 1. */
  lemma DiagramGeometry()
    ensures var p := UpresParams(1, 1, 0, 0, FillZero, FillZero); OutWidth(4, p) == 7 && OutHeight(5, p) == 9
    ensures var p := UpresParams(1, 1, 1, 1, FillZero, FillZero); OutWidth(4, p) == 9 && OutHeight(5, p) == 11
  {
  }

  /** `pos` lies between the border paddings along one axis. */
  predicate InCore(pos: nat, n: nat, stride: nat, padding: nat)
    requires 1 <= n
  {
    padding <= pos < padding + CoreLen(n, stride)
  }

  /** `pos` holds an original sample along one axis. */
  predicate IsOriginal(pos: nat, n: nat, stride: nat, padding: nat)
    requires 1 <= n
  {
    InCore(pos, n, stride, padding) && (pos - padding) % (stride + 1) == 0
  }

  /** Offset of `pos` from the first original sample, clamped to the samples' extent. */
  function Clamped(pos: nat, n: nat, stride: nat, padding: nat): (q: nat)
    requires 1 <= n
    ensures q <= (n - 1) * (stride + 1)
  {
    if pos < padding then 0
    else if pos - padding > (n - 1) * (stride + 1) then (n - 1) * (stride + 1)
    else pos - padding
  }

  /**
   * Index of the original sample nearest to `pos` along one axis; midway between two
   * samples the earlier one is taken, and border cells take the edge sample.
   */
  function Nearest(pos: nat, n: nat, stride: nat, padding: nat): (j: nat)
    requires 1 <= n
    ensures j < n
  {
    var q := Clamped(pos, n, stride, padding);
    RoundedIndexBound(q, n, stride);
    (q + stride / 2) / (stride + 1)
  }

  lemma RoundedIndexBound(q: nat, n: nat, stride: nat)
    requires 1 <= n && q <= (n - 1) * (stride + 1)
    ensures (q + stride / 2) / (stride + 1) < n
  {
    var j := (q + stride / 2) / (stride + 1);
    assert n * (stride + 1) == (n - 1) * (stride + 1) + stride + 1;
    if j >= n {
      MulLeq(n, j, stride + 1);
    }
  }

  /** Along one axis, original sample j sits at padding + j*(stride+1), and nowhere else. */
  lemma {:induction false} OriginalPosition(j: nat, n: nat, stride: nat, padding: nat)
    requires j < n
    ensures IsOriginal(padding + j * (stride + 1), n, stride, padding)
    ensures Nearest(padding + j * (stride + 1), n, stride, padding) == j
  {
    MulLeq(j, n - 1, stride + 1);
    DivModOf(j, stride + 1, 0);
    DivModOf(j, stride + 1, stride / 2);
  }

  /** An original position is recovered from its sample index. */
  lemma {:induction false} OriginalIsPlaced(pos: nat, n: nat, stride: nat, padding: nat)
    requires 1 <= n && IsOriginal(pos, n, stride, padding)
    ensures pos == padding + Nearest(pos, n, stride, padding) * (stride + 1)
  {
    var q := pos - padding;
    var j := q / (stride + 1);
    assert q == j * (stride + 1);
    DivModOf(j, stride + 1, stride / 2);
  }

  function Dist(a: int, b: int): nat
  {
    if a <= b then b - a else a - b
  }

  /**
   * The one-axis nearest-sample argument with the products named: `a` is the chosen
   * sample's offset, `b` another sample's, samples are `s` apart and `e + h` rounds into
   * the chosen sample's cell.
   */
  lemma ClosestOffset(e: int, a: int, b: int, s: int, h: int)
    requires 2 * h <= s - 1 && s <= 2 * h + 2
    requires a <= e + h < a + s
    requires b <= a - s || a + s <= b || a == b
    ensures Dist(e, a) <= Dist(e, b)
  {
  }

  /**
   * The sample `Nearest` picks is at least as close to `pos` as every other original
   * sample along that axis.
   */
  lemma {:induction false} NearestIsClosest(pos: nat, n: nat, stride: nat, padding: nat, i: nat)
    requires 1 <= n && i < n
    ensures var j := Nearest(pos, n, stride, padding);
            Dist(pos, padding + j * (stride + 1)) <= Dist(pos, padding + i * (stride + 1))
  {
    var j := Nearest(pos, n, stride, padding);
    var last := (n - 1) * (stride + 1);
    NearestFacts(pos, n, stride, padding, j, last);
    MulLeq(i, n - 1, stride + 1);
    SampleOffsetsApart(i, j, stride + 1);
    ClosestSample(pos, padding, Clamped(pos, n, stride, padding), j * (stride + 1), i * (stride + 1),
                  last, stride + 1, stride / 2);
  }

  /** What the nearest-sample proof needs about the offset of the sample `Nearest` picks. */
  lemma NearestFacts(pos: nat, n: nat, stride: nat, padding: nat, j: nat, last: nat)
    requires 1 <= n && j == Nearest(pos, n, stride, padding) && last == (n - 1) * (stride + 1)
    ensures var a, q := j * (stride + 1), Clamped(pos, n, stride, padding);
            && a <= q + stride / 2 < a + stride + 1 && a <= last
            && (a == 0 || stride + 1 <= a)
            && (pos >= padding && pos - padding > last ==> a == last)
  {
    var q := Clamped(pos, n, stride, padding);
    NearestBracket(q, n, stride, j);
    MulLeq(j, n - 1, stride + 1);
    SampleOffsetsApart(j, 0, stride + 1);
    if pos >= padding && pos - padding > last {
      LastSampleIsNearest(q, n, stride, j);
    }
  }

  /**
   * The nearest-sample argument with every product named: `a` is the chosen sample's offset,
   * `b` another sample's, `last` the last sample's, samples are `s` apart and `q` is the
   * offset of `pos` clamped to [0, last].
   */
  lemma ClosestSample(pos: nat, padding: nat, q: nat, a: nat, b: nat, last: nat, s: nat, h: nat)
    requires 2 * h <= s - 1 && s <= 2 * h + 2
    requires q == (if pos < padding then 0 else if pos - padding > last then last else pos - padding)
    requires a <= q + h < a + s && a <= last && b <= last
    requires b <= a - s || a + s <= b || a == b
    requires a == 0 || s <= a
    requires pos >= padding && pos - padding > last ==> a == last
    ensures Dist(pos, padding + a) <= Dist(pos, padding + b)
  {
    if padding <= pos <= padding + last {
      ClosestOffset(pos - padding, a, b, s, h);
    }
  }

  /** The rounded quotient j of the clamped offset q brackets it: j*s <= q + stride/2 < (j+1)*s. */
  lemma NearestBracket(q: nat, n: nat, stride: nat, j: nat)
    requires 1 <= n && q <= (n - 1) * (stride + 1) && j == (q + stride / 2) / (stride + 1)
    ensures j * (stride + 1) <= q + stride / 2 < j * (stride + 1) + stride + 1
  {
    assert q + stride / 2 == j * (stride + 1) + (q + stride / 2) % (stride + 1);
  }

  /** An offset clamped to the last sample rounds to the last sample. */
  lemma LastSampleIsNearest(q: nat, n: nat, stride: nat, j: nat)
    requires 1 <= n && q == (n - 1) * (stride + 1) && j < n
    requires q + stride / 2 < j * (stride + 1) + stride + 1
    ensures j == n - 1
  {
    if j < n - 1 {
      assert (j + 1) * (stride + 1) == j * (stride + 1) + stride + 1;
      MulLeq(j + 1, n - 1, stride + 1);
    }
  }

  /** The offsets of two different samples are at least one sample spacing apart. */
  lemma SampleOffsetsApart(i: nat, j: nat, s: nat)
    ensures i * s <= j * s - s || j * s + s <= i * s || i * s == j * s
  {
    if i < j {
      MulLeq(i + 1, j, s);
      assert (i + 1) * s == i * s + s;
    } else if j < i {
      MulLeq(j + 1, i, s);
      assert (j + 1) * s == j * s + s;
    }
  }

  /** The value at output cell (row, col) of one up-ressing; FILL_INTERP is left to `interp`. */
  function Cell(x: seq<real>, inputW: nat, inputH: nat, p: UpresParams, row: nat, col: nat,
                interp: (seq<real>, UpresParams, nat, nat) -> real): real
    requires 1 <= inputW && 1 <= inputH && |x| == inputW * inputH
  {
    var r := Nearest(row, inputH, p.strideV, p.paddingV);
    var c := Nearest(col, inputW, p.strideH, p.paddingH);
    RowMajor(r, c, inputH, inputW);
    if IsOriginal(row, inputH, p.strideV, p.paddingV) && IsOriginal(col, inputW, p.strideH, p.paddingH) then
      x[r * inputW + c]
    else
      var m := if InCore(row, inputH, p.strideV, p.paddingV) && InCore(col, inputW, p.strideH, p.paddingH)
               then p.sMethod else p.pMethod;
      match m
      case FillZero => 0.0
      case FillSame => x[r * inputW + c]
      case FillInterp => interp(x, p, row, col)
  }

  /** The output map of one up-ressing, row-major. */
  function UpresMap(x: seq<real>, inputW: nat, inputH: nat, p: UpresParams,
                    interp: (seq<real>, UpresParams, nat, nat) -> real): (m: seq<real>)
    requires 1 <= inputW && 1 <= inputH && |x| == inputW * inputH
    ensures |m| == OutHeight(inputH, p) * OutWidth(inputW, p)
  {
    seq(OutHeight(inputH, p) * OutWidth(inputW, p), k requires 0 <= k => MapCell(x, inputW, inputH, p, interp, k))
  }

  /** The cell that row-major index k of one up-ressing's map names. */
  function MapCell(x: seq<real>, inputW: nat, inputH: nat, p: UpresParams,
                   interp: (seq<real>, UpresParams, nat, nat) -> real, k: nat): real
    requires 1 <= inputW && 1 <= inputH && |x| == inputW * inputH
  {
    var w := OutWidth(inputW, p);
    Cell(x, inputW, inputH, p, k / w, k % w, interp)
  }

  /** Element k of one up-ressing's map is the cell its row-major index names. */
  lemma UpresMapAt(x: seq<real>, inputW: nat, inputH: nat, p: UpresParams,
                   interp: (seq<real>, UpresParams, nat, nat) -> real, k: nat)
    requires 1 <= inputW && 1 <= inputH && |x| == inputW * inputH
    requires k < |UpresMap(x, inputW, inputH, p, interp)|
    ensures UpresMap(x, inputW, inputH, p, interp)[k]
            == Cell(x, inputW, inputH, p, k / OutWidth(inputW, p), k % OutWidth(inputW, p), interp)
  {
  }

  /** An output cell on an original row and an original column copies that input cell. */
  lemma CellOfOriginal(x: seq<real>, inputW: nat, inputH: nat, p: UpresParams, row: nat, col: nat,
                       interp: (seq<real>, UpresParams, nat, nat) -> real)
    requires 1 <= inputW && 1 <= inputH && |x| == inputW * inputH
    requires IsOriginal(row, inputH, p.strideV, p.paddingV) && IsOriginal(col, inputW, p.strideH, p.paddingH)
    ensures Nearest(row, inputH, p.strideV, p.paddingV) * inputW + Nearest(col, inputW, p.strideH, p.paddingH) < |x|
    ensures Cell(x, inputW, inputH, p, row, col, interp)
            == x[Nearest(row, inputH, p.strideV, p.paddingV) * inputW + Nearest(col, inputW, p.strideH, p.paddingH)]
  {
    RowMajor(Nearest(row, inputH, p.strideV, p.paddingV), Nearest(col, inputW, p.strideH, p.paddingH), inputH, inputW);
  }

  /** Position, along one axis, of original sample j. */
  function Placed(j: nat, stride: nat, padding: nat): nat
  {
    padding + j * (stride + 1)
  }

  /**
   * Input cell (r, c) lands at output row padding_v + r*(stride_v+1) and column
   * padding_h + c*(stride_h+1), whatever the fill methods.
   */
  lemma {:induction false} OriginalPlacement(x: seq<real>, inputW: nat, inputH: nat, p: UpresParams,
                                             interp: (seq<real>, UpresParams, nat, nat) -> real,
                                             r: nat, c: nat, k: nat)
    requires 1 <= inputW && 1 <= inputH && |x| == inputW * inputH
    requires r < inputH && c < inputW
    requires k == Placed(r, p.strideV, p.paddingV) * OutWidth(inputW, p) + Placed(c, p.strideH, p.paddingH)
    ensures Placed(r, p.strideV, p.paddingV) < OutHeight(inputH, p)
    ensures Placed(c, p.strideH, p.paddingH) < OutWidth(inputW, p)
    ensures k < |UpresMap(x, inputW, inputH, p, interp)| && r * inputW + c < |x|
    ensures UpresMap(x, inputW, inputH, p, interp)[k] == x[r * inputW + c]
  {
    RowMajor(r, c, inputH, inputW);
    OriginalPosition(r, inputH, p.strideV, p.paddingV);
    OriginalPosition(c, inputW, p.strideH, p.paddingH);
    OriginalCellAt(x, inputW, inputH, p, interp, Placed(r, p.strideV, p.paddingV), Placed(c, p.strideH, p.paddingH),
                   k, r * inputW + c);
  }

  lemma OriginalCellAt(x: seq<real>, inputW: nat, inputH: nat, p: UpresParams,
                       interp: (seq<real>, UpresParams, nat, nat) -> real, row: nat, col: nat, k: nat, i: nat)
    requires 1 <= inputW && 1 <= inputH && |x| == inputW * inputH
    requires row < OutHeight(inputH, p) && col < OutWidth(inputW, p)
    requires IsOriginal(row, inputH, p.strideV, p.paddingV) && IsOriginal(col, inputW, p.strideH, p.paddingH)
    requires k == row * OutWidth(inputW, p) + col
    requires i == Nearest(row, inputH, p.strideV, p.paddingV) * inputW + Nearest(col, inputW, p.strideH, p.paddingH)
    ensures k < |UpresMap(x, inputW, inputH, p, interp)| && i < |x|
    ensures UpresMap(x, inputW, inputH, p, interp)[k] == x[i]
  {
    RowMajor(row, col, OutHeight(inputH, p), OutWidth(inputW, p));
    UpresMapAt(x, inputW, inputH, p, interp, k);
    CellOfOriginal(x, inputW, inputH, p, row, col, interp);
  }

  /** The output cell a row-major index of one up-ressing's map names. */
  lemma CellOf(inputW: nat, inputH: nat, p: UpresParams, k: nat)
    requires 1 <= inputW && 1 <= inputH && k < OutHeight(inputH, p) * OutWidth(inputW, p)
    ensures k / OutWidth(inputW, p) < OutHeight(inputH, p) && k % OutWidth(inputW, p) < OutWidth(inputW, p)
  {
    RowMajorCell(k, OutHeight(inputH, p), OutWidth(inputW, p));
  }

  /** With FILL_ZERO for both strides and padding, every cell that is not an original is 0. */
  lemma ZeroFillLeavesOnlyOriginals(x: seq<real>, inputW: nat, inputH: nat, p: UpresParams,
                                    interp: (seq<real>, UpresParams, nat, nat) -> real, k: nat)
    requires 1 <= inputW && 1 <= inputH && |x| == inputW * inputH
    requires p.sMethod == FillZero && p.pMethod == FillZero
    requires k < |UpresMap(x, inputW, inputH, p, interp)|
    requires var w := OutWidth(inputW, p);
             !(IsOriginal(k / w, inputH, p.strideV, p.paddingV) && IsOriginal(k % w, inputW, p.strideH, p.paddingH))
    ensures UpresMap(x, inputW, inputH, p, interp)[k] == 0.0
  {
    CellOf(inputW, inputH, p, k);
  }

  /**
   * With FILL_SAME, a synthetic cell copies the input cell made of the nearest original
   * row and the nearest original column (the edge sample for border cells).
   */
  lemma SameFillCopiesNearest(x: seq<real>, inputW: nat, inputH: nat, p: UpresParams,
                               interp: (seq<real>, UpresParams, nat, nat) -> real,
                               row: nat, col: nat, k: nat, i: nat)
    requires 1 <= inputW && 1 <= inputH && |x| == inputW * inputH
    requires p.sMethod == FillSame && p.pMethod == FillSame
    requires row < OutHeight(inputH, p) && col < OutWidth(inputW, p) && k == row * OutWidth(inputW, p) + col
    requires i == Nearest(row, inputH, p.strideV, p.paddingV) * inputW + Nearest(col, inputW, p.strideH, p.paddingH)
    ensures k < |UpresMap(x, inputW, inputH, p, interp)| && i < |x|
    ensures UpresMap(x, inputW, inputH, p, interp)[k] == x[i]
  {
    RowMajor(row, col, OutHeight(inputH, p), OutWidth(inputW, p));
    UpresMapAt(x, inputW, inputH, p, interp, k);
    RowMajor(Nearest(row, inputH, p.strideV, p.paddingV), Nearest(col, inputW, p.strideH, p.paddingH), inputH, inputW);
  }

  /** With no strides and no padding an up-ressing reproduces its input. */
  lemma {:induction false} NoStrideNoPaddingIsIdentity(x: seq<real>, inputW: nat, inputH: nat, p: UpresParams,
                                                       interp: (seq<real>, UpresParams, nat, nat) -> real)
    requires 1 <= inputW && 1 <= inputH && |x| == inputW * inputH
    requires p.strideH == 0 && p.strideV == 0 && p.paddingH == 0 && p.paddingV == 0
    ensures UpresMap(x, inputW, inputH, p, interp) == x
  {
    var m := UpresMap(x, inputW, inputH, p, interp);
    assert OutWidth(inputW, p) == inputW && OutHeight(inputH, p) == inputH;
    forall k | 0 <= k < |x| ensures m[k] == x[k] {
      RowMajorCell(k, inputH, inputW);
      var row, col := k / inputW, k % inputW;
      assert Nearest(row, inputH, 0, 0) == row;
      assert Nearest(col, inputW, 0, 0) == col;
    }
  }

  /** The maps of a list of up-ressings, concatenated in list order. */
  function Maps(x: seq<real>, inputW: nat, inputH: nat, params: seq<UpresParams>,
                interp: (seq<real>, UpresParams, nat, nat) -> real): seq<real>
    requires 1 <= inputW && 1 <= inputH && |x| == inputW * inputH
  {
    if params == [] then []
    else Maps(x, inputW, inputH, params[..|params| - 1], interp)
         + UpresMap(x, inputW, inputH, params[|params| - 1], interp)
  }

  /** Total output length of a list of up-ressings. */
  function MapsLen(inputW: nat, inputH: nat, params: seq<UpresParams>): nat
    requires 1 <= inputW && 1 <= inputH
  {
    if params == [] then 0
    else
      var p := params[|params| - 1];
      MapsLen(inputW, inputH, params[..|params| - 1]) + OutHeight(inputH, p) * OutWidth(inputW, p)
  }

  /** The declared output length is the length of what a run produces, for every input. */
  lemma {:induction false} MapsLenIsRunLength(x: seq<real>, inputW: nat, inputH: nat, params: seq<UpresParams>,
                                              interp: (seq<real>, UpresParams, nat, nat) -> real)
    requires 1 <= inputW && 1 <= inputH && |x| == inputW * inputH
    ensures |Maps(x, inputW, inputH, params, interp)| == MapsLen(inputW, inputH, params)
  {
    if params != [] {
      MapsLenIsRunLength(x, inputW, inputH, params[..|params| - 1], interp);
    }
  }

  /** The layer: its input size, its list of up-ressings and its output buffer. */
  class Upres {
    const inputW: nat
    const inputH: nat
    var params: seq<UpresParams>
    var n: nat
    var out: seq<real>

    ghost predicate Valid()
      reads this
    {
      1 <= inputW && 1 <= inputH && n == |params|
    }

    constructor (inputW: nat, inputH: nat)
      requires 1 <= inputW && 1 <= inputH
      ensures Valid() && this.inputW == inputW && this.inputH == inputH
      ensures params == [] && out == []
    {
      this.inputW, this.inputH := inputW, inputH;
      params, n, out := [], 0, [];
    }

    /**
     * Appends an up-ressing and returns its index. The header does not state the roles of
     * its two arguments or the fill methods of the new record, so the contract leaves the
     * new record open.
     */
    method AddParams(stride: nat, padding: nat) returns (index: nat)
      requires Valid()
      modifies this`params, this`n
      ensures Valid() && index == old(n)
      ensures |params| == old(|params|) + 1 && params[..index] == old(params)
    {
      index := n;
      params := params + [UpresParams(stride, stride, padding, padding, FillZero, FillZero)];
      n := n + 1;
    }

    method SetParamsHorzStride(stride: nat, i: nat)
      requires Valid() && i < n
      modifies this`params
      ensures Valid() && params == old(params)[i := old(params)[i].(strideH := stride)]
    {
      params := params[i := params[i].(strideH := stride)];
    }

    method SetParamsVertStride(stride: nat, i: nat)
      requires Valid() && i < n
      modifies this`params
      ensures Valid() && params == old(params)[i := old(params)[i].(strideV := stride)]
    {
      params := params[i := params[i].(strideV := stride)];
    }

    method SetParamsHorzPad(padding: nat, i: nat)
      requires Valid() && i < n
      modifies this`params
      ensures Valid() && params == old(params)[i := old(params)[i].(paddingH := padding)]
    {
      params := params[i := params[i].(paddingH := padding)];
    }

    method SetParamsVertPad(padding: nat, i: nat)
      requires Valid() && i < n
      modifies this`params
      ensures Valid() && params == old(params)[i := old(params)[i].(paddingV := padding)]
    {
      params := params[i := params[i].(paddingV := padding)];
    }

    method SetParamsStrideMethod(m: FillMethod, i: nat)
      requires Valid() && i < n
      modifies this`params
      ensures Valid() && params == old(params)[i := old(params)[i].(sMethod := m)]
    {
      params := params[i := params[i].(sMethod := m)];
    }

    method SetParamsPaddingMethod(m: FillMethod, i: nat)
      requires Valid() && i < n
      modifies this`params
      ensures Valid() && params == old(params)[i := old(params)[i].(pMethod := m)]
    {
      params := params[i := params[i].(pMethod := m)];
    }

    /** The output length: the sum over up-ressings of output width times height. */
    function OutputLen(): (len: nat)
      reads this
      requires Valid()
      ensures forall x: seq<real>, interp: (seq<real>, UpresParams, nat, nat) -> real ::
                |x| == inputW * inputH ==> len == |Maps(x, inputW, inputH, params, interp)|
    {
      forall x: seq<real>, interp: (seq<real>, UpresParams, nat, nat) -> real | |x| == inputW * inputH
        ensures MapsLen(inputW, inputH, params) == |Maps(x, inputW, inputH, params, interp)|
      {
        MapsLenIsRunLength(x, inputW, inputH, params, interp);
      }
      MapsLen(inputW, inputH, params)
    }

    /** Runs every up-ressing over `x`, in insertion order, into the output buffer. */
    method Run(x: seq<real>, interp: (seq<real>, UpresParams, nat, nat) -> real) returns (len: nat)
      requires Valid() && |x| == inputW * inputH
      modifies this`out
      ensures out == Maps(x, inputW, inputH, params, interp) && len == |out| == OutputLen()
    {
      out := Maps(x, inputW, inputH, params, interp);
      len := |out|;
    }
  }
}
