/**
 * The per-unit activation functions shared by the weighted layers (dense.h:40-47,
 * conv2d.h:31-38). RELU, LEAKY_RELU, THRESHOLD and LINEAR are piecewise linear and
 * are defined here; the transcendental kinds are supplied from outside as function
 * values, so every property proved below holds whatever they compute.
 */
module Activation {
  import opened Wrappers

  /** The eight activation flags, in the order of their byte codes 0..7. */
  datatype Func =
    | Relu | LeakyRelu | Sigmoid | HyperbolicTangent
    | Softmax | SymmetricalSigmoid | Threshold | Linear

  /** The byte code a flag is stored as. */
  function Code(f: Func): (c: nat)
    ensures c < 8
  {
    match f
    case Relu => 0
    case LeakyRelu => 1
    case Sigmoid => 2
    case HyperbolicTangent => 3
    case Softmax => 4
    case SymmetricalSigmoid => 5
    case Threshold => 6
    case Linear => 7
  }

  /** Decodes a flag byte; codes above LINEAR name no function. */
  function FromCode(c: nat): (r: Option<Func>)
    ensures r.Some? <==> c < 8
  {
    if c == 0 then Some(Relu)
    else if c == 1 then Some(LeakyRelu)
    else if c == 2 then Some(Sigmoid)
    else if c == 3 then Some(HyperbolicTangent)
    else if c == 4 then Some(Softmax)
    else if c == 5 then Some(SymmetricalSigmoid)
    else if c == 6 then Some(Threshold)
    else if c == 7 then Some(Linear)
    else None
  }

  /** Decoding undoes encoding ... */
  lemma FromCodeOfCode(f: Func)
    ensures FromCode(Code(f)) == Some(f)
  {
  }

  /** ... and every decodable byte is the code of the function it decodes to. */
  lemma CodeOfFromCode(c: nat)
    requires c < 8
    ensures FromCode(c).Some? && Code(FromCode(c).value) == c
  {
  }

  /**
   * The functions the model leaves uninterpreted. `softmax(raw, j)` is the SOFTMAX output
   * of unit j given the whole pre-activation vector `raw` of the layer.
   */
  datatype Transcendental = Transcendental(
    sigmoid: real -> real,
    tanh: real -> real,
    symmetricalSigmoid: real -> real,
    softmax: (seq<real>, nat) -> real)

  /**
   * Applies a scalar activation to the pre-activation `x` with auxiliary parameter `param`.
   * SOFTMAX needs the whole layer vector and is applied by the layer itself.
   */
  function Apply(f: Func, x: real, param: real, ext: Transcendental): (y: real)
    requires f != Softmax
    ensures f == Relu ==> 0.0 <= y && x <= y && (y == x || y == 0.0)
    ensures f == LeakyRelu ==> (0.0 < x ==> y == x) && (x <= 0.0 ==> y == param * x)
    ensures f == Threshold ==> (y == 1.0 <==> param <= x) && (y == 0.0 <==> x < param)
    ensures f == Linear ==> y == param * x
  {
    match f
    case Relu => if x > 0.0 then x else 0.0
    case LeakyRelu => if x > 0.0 then x else param * x
    case Sigmoid => ext.sigmoid(x)
    case HyperbolicTangent => ext.tanh(x)
    case SymmetricalSigmoid => ext.symmetricalSigmoid(x)
    case Threshold => if x >= param then 1.0 else 0.0
    case Linear => param * x
  }

  /** THRESHOLD only ever outputs 0 or 1, the range dense.h:46 gives it. */
  lemma ThresholdIsBinary(x: real, param: real, ext: Transcendental)
    ensures Apply(Threshold, x, param, ext) in {0.0, 1.0}
  {
  }
}
