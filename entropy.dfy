/**
  The random number generator the selector draws from (`RngCore::next_u32`). Its distribution is
  not modelled: the caller supplies the values it will produce, as a finite sequence. When that
  sequence runs out the generator reports it, which the real generator never does.
*/
module Entropy {
  import opened Wrappers

  /** An unsigned 32-bit value. */
  type U32 = x: int | 0 <= x < 0x1_0000_0000

  class Rng {
    /** The values not drawn yet, in the order they will be drawn. */
    var pending: seq<U32>

    constructor (draws: seq<U32>)
      ensures pending == draws
    {
      pending := draws;
    }

    /** `next_u32`: the next value of the stream, or `None` once the supplied stream is spent. */
    method NextU32() returns (x: Option<U32>)
      modifies this
      ensures old(pending) == [] ==> x == None && pending == []
      ensures old(pending) != [] ==> x == Some(old(pending)[0]) && pending == old(pending)[1..]
    {
      if pending == [] {
        x := None;
      } else {
        x := Some(pending[0]);
        pending := pending[1..];
      }
    }
  }
}
