/** The fixed-width unsigned integers of the crate, as bounded subsets of `int`. */
module Ints {

  type u8 = x: int | 0 <= x < 0x100
  type u16 = x: int | 0 <= x < 0x1_0000
  type u32 = x: int | 0 <= x < 0x1_0000_0000
  type u64 = x: int | 0 <= x < 0x1_0000_0000_0000_0000

  /** Below the top, adding one to a bit pattern adds one to its value. */
  lemma SuccValue(b: bv8)
    requires b < 0xFF
    ensures (b + 1) as int == b as int + 1
  {
  }

  /**
    A `u8` as its bit pattern. It is counted up from zero rather than written
    `x as bv8` so that its contract rests only on bit-pattern-to-integer
    facts, which the solver proves in a steady, small effort; the direct
    conversion's proof cost swings widely from one solver run to the next.
   */
  function Byte(x: u8): (b: bv8)
    ensures b as int == x
  {
    if x == 0 then 0
    else
      var p := Byte(x - 1);
      SuccValue(p);
      p + 1
  }

  /** A bit pattern survives the trip through its value. */
  lemma BitsValue(b: bv8)
    ensures (b as int) as bv8 == b
  {
  }
}
