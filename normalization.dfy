/**
 * The normalization layer (normalization.h): every input element goes through the same
 * affine map y = g * ((x - m) / s) + b with the learned mean m, standard deviation s,
 * factor g and constant b (normalization.h:7-18). A zero s is refused by `Run`.
 */
module NormalizationLayer {
  import opened Wrappers

  /** The formula of normalization.h:14-18 for one element. */
  function Normalize(x: real, m: real, s: real, g: real, b: real): real
    requires s != 0.0
  {
    g * ((x - m) / s) + b
  }

  /** The inverse map, defined when the factor is not zero. */
  function Denormalize(y: real, m: real, s: real, g: real, b: real): real
    requires s != 0.0 && g != 0.0
  {
    (y - b) / g * s + m
  }

  /** Denormalizing undoes normalizing ... */
  lemma DenormalizeNormalize(x: real, m: real, s: real, g: real, b: real)
    requires s != 0.0 && g != 0.0
    ensures Denormalize(Normalize(x, m, s, g, b), m, s, g, b) == x
  {
    var u := (x - m) / s;
    assert (g * u + b - b) / g == u;
    assert u * s == x - m;
  }

  /** ... and normalizing undoes denormalizing. */
  lemma NormalizeDenormalize(y: real, m: real, s: real, g: real, b: real)
    requires s != 0.0 && g != 0.0
    ensures Normalize(Denormalize(y, m, s, g, b), m, s, g, b) == y
  {
    var u := (y - b) / g;
    assert (u * s + m - m) / s == u;
    assert g * u == y - b;
  }

  /** An input at the learned mean comes out as the learned constant. */
  lemma MeanMapsToConstant(m: real, s: real, g: real, b: real)
    requires s != 0.0
    ensures Normalize(m, m, s, g, b) == b
  {
  }

  /** The layer's output on a whole vector: one output per input, each from its own input only. */
  function NormalizeAll(x: seq<real>, m: real, s: real, g: real, b: real): (y: seq<real>)
    requires s != 0.0
    ensures |y| == |x|
    ensures forall i :: 0 <= i < |x| ==> y[i] == Normalize(x[i], m, s, g, b)
  {
    seq(|x|, i requires 0 <= i < |x| => Normalize(x[i], m, s, g, b))
  }

  /** Changing other elements of the input does not change output i. */
  lemma OutputIsElementwise(x: seq<real>, x': seq<real>, i: nat, m: real, s: real, g: real, b: real)
    requires s != 0.0 && |x| == |x'| && i < |x| && x[i] == x'[i]
    ensures NormalizeAll(x, m, s, g, b)[i] == NormalizeAll(x', m, s, g, b)[i]
  {
  }

  /** Mean 0, deviation 1, factor 1 and constant 0 leave the input unchanged. */
  lemma IdentityParameters(x: seq<real>)
    ensures NormalizeAll(x, 0.0, 1.0, 1.0, 0.0) == x
  {
  }

  class Normalization {
    /** Number of inputs, which is also the number of outputs. */
    const inputs: nat
    var m: real
    var s: real
    var g: real
    var b: real
    const out: array<real>

    ghost predicate Valid()
      reads this
    {
      out.Length == inputs
    }

    /** The initial parameters are not given by the header; the contract leaves them open. */
    constructor (inputs: nat)
      ensures Valid() && this.inputs == inputs && fresh(out)
    {
      this.inputs := inputs;
      m, s, g, b := 0.0, 1.0, 1.0, 0.0;
      out := new real[inputs];
    }

    method SetM(v: real)
      requires Valid()
      modifies this`m
      ensures Valid() && m == v
    {
      m := v;
    }

    method SetS(v: real)
      requires Valid()
      modifies this`s
      ensures Valid() && s == v
    {
      s := v;
    }

    method SetG(v: real)
      requires Valid()
      modifies this`g
      ensures Valid() && g == v
    {
      g := v;
    }

    method SetB(v: real)
      requires Valid()
      modifies this`b
      ensures Valid() && b == v
    {
      b := v;
    }

    /** One output per input (normalization.h:13-18). */
    function OutputLen(): (len: nat)
      reads this
      requires Valid()
      ensures s != 0.0 ==> forall x: seq<real> :: |x| == inputs ==> |NormalizeAll(x, m, s, g, b)| == len
    {
      inputs
    }

    /**
     * Normalizes `x` into the output buffer and returns the output length; with s = 0
     * nothing is written and no length is returned.
     */
    method Run(x: seq<real>) returns (len: Option<nat>)
      requires Valid() && |x| == inputs
      modifies out
      ensures s == 0.0 ==> len == None && out[..] == old(out[..])
      ensures s != 0.0 ==> len == Some(inputs) && out[..] == NormalizeAll(x, m, s, g, b)
    {
      if s == 0.0 {
        return None;
      }
      var i := 0;
      while i < inputs
        invariant 0 <= i <= inputs
        invariant forall k :: 0 <= k < i ==> out[k] == Normalize(x[k], m, s, g, b)
      {
        out[i] := Normalize(x[i], m, s, g, b);
        i := i + 1;
      }
      len := Some(inputs);
    }
  }
}
