/**
 * The network's graph records and bookkeeping (neuron.h): one append-only collection per
 * layer kind with its length counter, the edge list that wires outputs to inputs, the
 * variable table and the network comment.
 */
module NeuralNetwork {
  import opened Wrappers
  import DenseLayer
  import Conv2DLayer
  import AccumLayer
  import LstmLayer
  import GruLayer
  import PoolingLayer
  import UpresLayer
  import NormalizationLayer

  /** Capacity of a variable key (neuron.h:35). */
  const VarStrLen: nat := 16
  /** Capacity of the network comment (neuron.h:37). */
  const CommStrLen: nat := 64
  /** The variable counter is an unsigned char (neuron.h:131). */
  const MaxVars: nat := 255

  /** Which collection a node lives in, with the byte codes of neuron.h:25-33. */
  datatype NodeType =
    | InputArray | DenseArray | Conv2DArray | AccumArray | LstmArray
    | GruArray | PoolArray | UpresArray | NormalArray

  function TypeCode(k: NodeType): (c: nat)
    ensures c <= 8
    ensures c == 0 <==> k == InputArray
  {
    match k
    case InputArray => 0
    case DenseArray => 1
    case Conv2DArray => 2
    case AccumArray => 3
    case LstmArray => 4
    case GruArray => 5
    case PoolArray => 6
    case UpresArray => 7
    case NormalArray => 8
  }

  function TypeFromCode(c: nat): (r: Option<NodeType>)
    ensures r.Some? <==> c <= 8
    ensures r.Some? ==> TypeCode(r.value) == c
  {
    if c == 0 then Some(InputArray)
    else if c == 1 then Some(DenseArray)
    else if c == 2 then Some(Conv2DArray)
    else if c == 3 then Some(AccumArray)
    else if c == 4 then Some(LstmArray)
    else if c == 5 then Some(GruArray)
    else if c == 6 then Some(PoolArray)
    else if c == 7 then Some(UpresArray)
    else if c == 8 then Some(NormalArray)
    else None
  }

  lemma TypeCodeRoundTrip(k: NodeType)
    ensures TypeFromCode(TypeCode(k)) == Some(k)
  {
  }

  /** A reference to a layer: the collection and the index in it (neuron.h:54-58). */
  datatype Node = Node(kind: NodeType, index: nat)

  /**
   * A wire from the source's output slice [selectorStart, selectorEnd) into the
   * destination (neuron.h:60-70).
   */
  datatype Edge = Edge(
    srcType: NodeType, srcIndex: nat, selectorStart: nat, selectorEnd: nat,
    dstType: NodeType, dstIndex: nat)

  function Source(e: Edge): Node
  {
    Node(e.srcType, e.srcIndex)
  }

  function Destination(e: Edge): Node
  {
    Node(e.dstType, e.dstIndex)
  }

  /** The part of the source's output an edge carries: the half-open selector slice. */
  function Selected(e: Edge, output: seq<real>): (slice: seq<real>)
    requires e.selectorStart <= e.selectorEnd <= |output|
    ensures |slice| == e.selectorEnd - e.selectorStart
    ensures forall k :: 0 <= k < |slice| ==> slice[k] == output[e.selectorStart + k]
  {
    output[e.selectorStart..e.selectorEnd]
  }

  /** Adjacent selectors on one output cover the union of their slices, in order. */
  lemma AdjacentSelectorsConcatenate(e1: Edge, e2: Edge, output: seq<real>)
    requires e1.selectorStart <= e1.selectorEnd == e2.selectorStart <= e2.selectorEnd <= |output|
    ensures Selected(e1, output) + Selected(e2, output) == output[e1.selectorStart..e2.selectorEnd]
  {
  }

  /** A named network variable (neuron.h:48-52). */
  datatype Variable = Variable(key: string, value: real)

  /** The key fits its buffer. */
  predicate KeyFits(v: Variable)
  {
    |v.key| <= VarStrLen
  }

  /** `s` is ordered by `key`, smallest first. */
  predicate SortedBy(s: seq<Edge>, key: Edge -> int)
  {
    forall i, j :: 0 <= i < j < |s| ==> key(s[i]) <= key(s[j])
  }

  /** Inserts an edge into an edge list ordered by `key`, after every edge of equal key. */
  function InsertBy(e: Edge, s: seq<Edge>, key: Edge -> int): (r: seq<Edge>)
    requires SortedBy(s, key)
    ensures |r| == |s| + 1 && multiset(r) == multiset(s) + multiset{e}
    ensures SortedBy(r, key)
  {
    if s == [] then [e]
    else if key(e) < key(s[0]) then
      InsertByFront(e, s, key);
      [e] + s
    else
      assert SortedBy(s[1..], key) by {
        forall i, j | 0 <= i < j < |s| - 1 ensures key(s[1..][i]) <= key(s[1..][j]) {
          assert s[1..][i] == s[i + 1] && s[1..][j] == s[j + 1];
        }
      }
      var tail := InsertBy(e, s[1..], key);
      InsertByBehind(e, s, tail, key);
      [s[0]] + tail
  }

  /** An edge whose key is below the first key of an ordered list may go in front of it. */
  lemma InsertByFront(e: Edge, s: seq<Edge>, key: Edge -> int)
    requires s != [] && SortedBy(s, key) && key(e) < key(s[0])
    ensures SortedBy([e] + s, key)
  {
    var r := [e] + s;
    forall i, j | 0 <= i < j < |r| ensures key(r[i]) <= key(r[j]) {
      assert r[j] == s[j - 1];
      if i == 0 {
        assert j - 1 == 0 || key(s[0]) <= key(s[j - 1]);
      } else {
        assert r[i] == s[i - 1];
      }
    }
  }

  /**
   * An edge whose key is at least the first key goes behind the first edge: if `tail` is
   * the rest of the list with `e` inserted, the first edge followed by `tail` is the list
   * with `e` inserted.
   */
  lemma InsertByBehind(e: Edge, s: seq<Edge>, tail: seq<Edge>, key: Edge -> int)
    requires s != [] && SortedBy(s, key) && key(s[0]) <= key(e)
    requires SortedBy(tail, key) && multiset(tail) == multiset(s[1..]) + multiset{e}
    ensures multiset([s[0]] + tail) == multiset(s) + multiset{e}
    ensures SortedBy([s[0]] + tail, key)
  {
    assert s == [s[0]] + s[1..];
    forall k | 0 <= k < |tail| ensures key(s[0]) <= key(tail[k]) {
      assert tail[k] in multiset(tail);
      if tail[k] != e {
        var m :| 0 <= m < |s[1..]| && s[1..][m] == tail[k];
        assert s[m + 1] == tail[k];
      }
    }
    var r := [s[0]] + tail;
    forall i, j | 0 <= i < j < |r| ensures key(r[i]) <= key(r[j]) {
      assert r[j] == tail[j - 1];
      if 0 < i {
        assert r[i] == tail[i - 1];
      }
    }
  }

  /** The network (the NeuralNet class of neuron.h:74-136). */
  class NeuralNet {
    /** Number of network inputs. */
    const inputs: nat
    var edgelist: seq<Edge>
    var len: nat

    var denselayers: seq<DenseLayer.Dense>
    var denseLen: nat
    var convlayers: seq<Conv2DLayer.Conv2D>
    var convLen: nat
    var accumlayers: seq<AccumLayer.Accum>
    var accumLen: nat
    var lstmlayers: seq<LstmLayer.LSTM>
    var lstmLen: nat
    var grulayers: seq<GruLayer.GRU>
    var gruLen: nat
    var poollayers: seq<PoolingLayer.Pooling>
    var poolLen: nat
    var upreslayers: seq<UpresLayer.Upres>
    var upresLen: nat
    var normlayers: seq<NormalizationLayer.Normalization>
    var normalLen: nat

    var variables: seq<Variable>
    var gen: nat
    var fit: real
    var comment: string

    /** Every counter matches its collection; variables and comment fit their buffers. */
    ghost predicate Valid()
      reads this
    {
      len == |edgelist|
      && denseLen == |denselayers| && convLen == |convlayers| && accumLen == |accumlayers|
      && lstmLen == |lstmlayers| && gruLen == |grulayers| && poolLen == |poollayers|
      && upresLen == |upreslayers| && normalLen == |normlayers|
      && |variables| <= MaxVars && (forall i :: 0 <= i < |variables| ==> KeyFits(variables[i]))
      && |comment| <= CommStrLen
    }

    /** The length counter of a node kind's collection; the network input has none. */
    function KindLen(k: NodeType): nat
      reads this
    {
      match k
      case InputArray => 0
      case DenseArray => denseLen
      case Conv2DArray => convLen
      case AccumArray => accumLen
      case LstmArray => lstmLen
      case GruArray => gruLen
      case PoolArray => poolLen
      case UpresArray => upresLen
      case NormalArray => normalLen
    }

    /** A node names the network input or a stored layer. */
    predicate Exists(n: Node)
      reads this
    {
      n.kind == InputArray || n.index < KindLen(n.kind)
    }

    /** The conditions under which `LinkLayers` accepts an edge. */
    predicate Linkable(srcType: nat, srcIndex: nat, selStart: nat, selEnd: nat, dstType: nat, dstIndex: nat)
      reads this
    {
      TypeFromCode(srcType).Some? && TypeFromCode(dstType).Some?
      && TypeFromCode(dstType).value != InputArray
      && Exists(Node(TypeFromCode(srcType).value, srcIndex))
      && Exists(Node(TypeFromCode(dstType).value, dstIndex))
      && selStart < selEnd
    }

    constructor (inputs: nat)
      ensures Valid() && this.inputs == inputs && edgelist == [] && variables == []
      ensures denselayers == [] && convlayers == [] && accumlayers == [] && lstmlayers == []
      ensures grulayers == [] && poollayers == [] && upreslayers == [] && normlayers == []
    {
      this.inputs := inputs;
      edgelist, len := [], 0;
      denselayers, denseLen, convlayers, convLen := [], 0, [], 0;
      accumlayers, accumLen, lstmlayers, lstmLen := [], 0, [], 0;
      grulayers, gruLen, poollayers, poolLen := [], 0, [], 0;
      upreslayers, upresLen, normlayers, normalLen := [], 0, [], 0;
      variables, gen, fit, comment := [], 0, 0.0, "";
    }

    /**
     * Adds an edge and reports success. It is refused, leaving the network unchanged,
     * when a type code is unknown, the destination is the network input, an index names
     * no stored layer or the selector slice is empty.
     */
    method LinkLayers(srcType: nat, srcIndex: nat, selStart: nat, selEnd: nat, dstType: nat, dstIndex: nat)
      returns (ok: bool)
      requires Valid()
      modifies this`edgelist, this`len
      ensures Valid()
      ensures ok <==> old(Linkable(srcType, srcIndex, selStart, selEnd, dstType, dstIndex))
      ensures ok ==> edgelist == old(edgelist) + [Edge(TypeFromCode(srcType).value, srcIndex, selStart, selEnd,
                                                        TypeFromCode(dstType).value, dstIndex)]
      ensures !ok ==> edgelist == old(edgelist)
    {
      if !Linkable(srcType, srcIndex, selStart, selEnd, dstType, dstIndex) {
        return false;
      }
      var e := Edge(TypeFromCode(srcType).value, srcIndex, selStart, selEnd, TypeFromCode(dstType).value, dstIndex);
      edgelist := edgelist + [e];
      len := len + 1;
      ok := true;
    }

    /** Orders the edge list by `key` without adding, dropping or changing any edge. */
    method SortEdges(key: Edge -> int)
      requires Valid()
      modifies this`edgelist
      ensures Valid() && |edgelist| == old(|edgelist|)
      ensures multiset(edgelist) == multiset(old(edgelist)) && SortedBy(edgelist, key)
    {
      var sorted: seq<Edge> := [];
      var i := 0;
      while i < |edgelist|
        invariant 0 <= i <= |edgelist|
        invariant |sorted| == i && SortedBy(sorted, key)
        invariant multiset(sorted) == multiset(edgelist[..i])
      {
        assert edgelist[..i + 1] == edgelist[..i] + [edgelist[i]];
        sorted := InsertBy(edgelist[i], sorted, key);
        i := i + 1;
      }
      assert edgelist[..i] == edgelist;
      edgelist := sorted;
    }

    method AddDense(nodesIn: nat, nodes: nat, draws: seq<seq<nat>>) returns (index: nat)
      requires Valid() && DenseLayer.IsDraws(draws, nodesIn, nodes)
      modifies this`denselayers, this`denseLen
      ensures Valid() && index == old(denseLen) && |denselayers| == old(|denselayers|) + 1
      ensures denselayers[..index] == old(denselayers) && fresh(denselayers[index])
      ensures denselayers[index].inputs == nodesIn && denselayers[index].nodes == nodes
    {
      var layer := new DenseLayer.Dense(nodesIn, nodes, draws);
      index := denseLen;
      denselayers, denseLen := denselayers + [layer], denseLen + 1;
    }

    method AddConv2D(inputW: nat, inputH: nat) returns (index: nat)
      requires Valid()
      modifies this`convlayers, this`convLen
      ensures Valid() && index == old(convLen) && |convlayers| == old(|convlayers|) + 1
      ensures convlayers[..index] == old(convlayers) && fresh(convlayers[index])
      ensures convlayers[index].inputW == inputW && convlayers[index].inputH == inputH
    {
      var layer := new Conv2DLayer.Conv2D(inputW, inputH);
      index := convLen;
      convlayers, convLen := convlayers + [layer], convLen + 1;
    }

    method AddAccum(n: nat) returns (index: nat)
      requires Valid()
      modifies this`accumlayers, this`accumLen
      ensures Valid() && index == old(accumLen) && |accumlayers| == old(|accumlayers|) + 1
      ensures accumlayers[..index] == old(accumlayers) && fresh(accumlayers[index])
      ensures accumlayers[index].inputs == n
    {
      var layer := new AccumLayer.Accum(n);
      index := accumLen;
      accumlayers, accumLen := accumlayers + [layer], accumLen + 1;
    }

    method AddLSTM(d: nat, h: nat, cache: nat) returns (index: nat)
      requires Valid() && 1 <= cache
      modifies this`lstmlayers, this`lstmLen
      ensures Valid() && index == old(lstmLen) && |lstmlayers| == old(|lstmlayers|) + 1
      ensures lstmlayers[..index] == old(lstmlayers) && fresh(lstmlayers[index])
      ensures lstmlayers[index].d == d && lstmlayers[index].h == h && lstmlayers[index].cache == cache
    {
      var layer := new LstmLayer.LSTM(d, h, cache);
      index := lstmLen;
      lstmlayers, lstmLen := lstmlayers + [layer], lstmLen + 1;
    }

    method AddGRU(d: nat, h: nat, cache: nat) returns (index: nat)
      requires Valid() && 1 <= cache
      modifies this`grulayers, this`gruLen
      ensures Valid() && index == old(gruLen) && |grulayers| == old(|grulayers|) + 1
      ensures grulayers[..index] == old(grulayers) && fresh(grulayers[index])
      ensures grulayers[index].d == d && grulayers[index].h == h && grulayers[index].cache == cache
    {
      var layer := new GruLayer.GRU(d, h, cache);
      index := gruLen;
      grulayers, gruLen := grulayers + [layer], gruLen + 1;
    }

    method AddPool(inputW: nat, inputH: nat) returns (index: nat)
      requires Valid()
      modifies this`poollayers, this`poolLen
      ensures Valid() && index == old(poolLen) && |poollayers| == old(|poollayers|) + 1
      ensures poollayers[..index] == old(poollayers) && fresh(poollayers[index])
      ensures poollayers[index].inputW == inputW && poollayers[index].inputH == inputH
    {
      var layer := new PoolingLayer.Pooling(inputW, inputH);
      index := poolLen;
      poollayers, poolLen := poollayers + [layer], poolLen + 1;
    }

    method AddUpres(inputW: nat, inputH: nat) returns (index: nat)
      requires Valid() && 1 <= inputW && 1 <= inputH
      modifies this`upreslayers, this`upresLen
      ensures Valid() && index == old(upresLen) && |upreslayers| == old(|upreslayers|) + 1
      ensures upreslayers[..index] == old(upreslayers) && fresh(upreslayers[index])
      ensures upreslayers[index].inputW == inputW && upreslayers[index].inputH == inputH
    {
      var layer := new UpresLayer.Upres(inputW, inputH);
      index := upresLen;
      upreslayers, upresLen := upreslayers + [layer], upresLen + 1;
    }

    method AddNormal(n: nat) returns (index: nat)
      requires Valid()
      modifies this`normlayers, this`normalLen
      ensures Valid() && index == old(normalLen) && |normlayers| == old(|normlayers|) + 1
      ensures normlayers[..index] == old(normlayers) && fresh(normlayers[index])
      ensures normlayers[index].inputs == n
    {
      var layer := new NormalizationLayer.Normalization(n);
      index := normalLen;
      normlayers, normalLen := normlayers + [layer], normalLen + 1;
    }
  }
}
