/**
 * The accumulator layer (accum.h) as far as the network's collections need it: a layer
 * with a number of inputs and no bias term (accum.h:43).
 */
module AccumLayer {
  class Accum {
    const inputs: nat

    constructor (inputs: nat)
      ensures this.inputs == inputs
    {
      this.inputs := inputs;
    }
  }
}
