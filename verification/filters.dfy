/** The three number filters of the pipeline: even, odd and strictly-greater-than. */
module Filters {

  datatype Filter = Even | Odd | GreaterThan(threshold: int)

  /**
    C++ `n % 2` on `int`: the remainder of division truncated toward zero, so its sign
    follows the dividend (`-3 % 2 == -1`), unlike Dafny's Euclidean `%`.
  */
  function TruncRem2(n: int): (r: int)
    ensures -2 < r < 2
    ensures (n - r) % 2 == 0
    ensures n >= 0 ==> r >= 0
    ensures n < 0 ==> r <= 0
  {
    if n >= 0 then n % 2 else -((-n) % 2)
  }

  /** `keep` of each filter class. */
  predicate Keep(f: Filter, n: int) {
    match f
    case Even => TruncRem2(n) == 0
    case Odd => TruncRem2(n) != 0
    case GreaterThan(t) => n > t
  }

  /** Every integer is kept by exactly one of the even and odd filters. */
  lemma EvenOddExclusive(n: int)
    ensures Keep(Even, n) != Keep(Odd, n)
  {
  }

  /**
    The even filter keeps exactly the multiples of two, negative ones included:
    the truncating remainder and Dafny's Euclidean remainder agree on zero.
  */
  lemma EvenIffDivisible(n: int)
    ensures Keep(Even, n) <==> n % 2 == 0
    ensures Keep(Odd, n) <==> n % 2 == 1
  {
    if n < 0 {
      assert (n - TruncRem2(n)) % 2 == 0;
    }
  }

  /** The threshold comparison is strict, for any signs of threshold and value. */
  lemma GreaterThanStrict(t: int, n: int)
    ensures Keep(GreaterThan(t), n) <==> n > t
    ensures !Keep(GreaterThan(t), t)
  {
  }
}
