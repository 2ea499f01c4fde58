/**
  Rust's `Ordering` and the lexicographic comparison that `#[derive(PartialOrd, Ord)]`
  gives a struct: compare the first field, and only on equality the next.
 */
module Cmp {

  datatype Ordering = Less | Equal | Greater {

    /** `Ordering::then`: this ordering unless it is `Equal`. */
    function Then(next: Ordering): Ordering {
      if this == Equal then next else this
    }

    function Reverse(): Ordering {
      match this
      case Less => Greater
      case Equal => Equal
      case Greater => Less
    }
  }

  function CompareInts(a: int, b: int): (o: Ordering)
    ensures o == Less <==> a < b
    ensures o == Equal <==> a == b
    ensures o == Greater <==> a > b
  {
    if a < b then Less else if a == b then Equal else Greater
  }

  lemma Distributes(a: int, b: int, c: int)
    ensures (a + b) * c == a * c + b * c
  {
  }

  lemma NonNegativeProduct(a: int, b: int)
    requires a >= 0 && b >= 0
    ensures a * b >= 0
  {
  }

  /** A positive multiple of `base` is at least `base`. */
  lemma ShiftedApart(hi1: int, hi2: int, base: int)
    requires hi1 < hi2 && base > 0
    ensures hi1 * base + base <= hi2 * base
  {
    var k := hi2 - hi1;
    Distributes(hi1, k, base);
    Distributes(k - 1, 1, base);
    NonNegativeProduct(k - 1, base);
  }

  /**
    Comparing a pair lexicographically is comparing the single number
    `hi * base + lo`, as long as the low part stays below `base`.
   */
  lemma {:induction false} LexicographicIsPositional(hi1: int, lo1: int, hi2: int, lo2: int, base: int)
    requires 0 <= lo1 < base && 0 <= lo2 < base
    ensures CompareInts(hi1, hi2).Then(CompareInts(lo1, lo2))
         == CompareInts(hi1 * base + lo1, hi2 * base + lo2)
  {
    if hi1 < hi2 {
      ShiftedApart(hi1, hi2, base);
    } else if hi2 < hi1 {
      ShiftedApart(hi2, hi1, base);
    }
  }
}
