/** Exact integer model of the gauge expression `round(num / den * 100)`:
    Python's `round` on a single argument returns the integer nearest to its
    argument and breaks a tie towards the even neighbour. */
module Rounding {

  function Abs(x: int): (r: nat)
    ensures r == x || r == -x
  {
    if x < 0 then -x else x
  }

  /** The distance, scaled by `den`, between 100·num/den and the candidate `k`. */
  function Gap(num: int, den: int, k: int): (g: nat)
  {
    Abs(100 * num - k * den)
  }

  /** `k` is a correct result of `round(num / den * 100)`: no integer lies
      nearer to 100·num/den, and on an exact tie `k` is even. */
  predicate IsRoundedPercent(num: int, den: int, k: int)
  {
    2 * Gap(num, den, k) <= den && (2 * Gap(num, den, k) == den ==> k % 2 == 0)
  }

  /** `round(num / den * 100)` computed exactly with integers. */
  function RoundPercent(num: int, den: int): (r: int)
    requires den > 0
    ensures IsRoundedPercent(num, den, r)
  {
    var q := (100 * num) / den;
    var m := (100 * num) % den;
    assert 100 * num == q * den + m;
    assert (q + 1) * den == q * den + den;
    if 2 * m < den then q
    else if 2 * m > den then q + 1
    else if q % 2 == 0 then q
    else q + 1
  }

  /** Multiplying by a positive `den` keeps the strict order of integers. */
  lemma MulLess(a: int, b: int, den: int)
    requires den > 0
    ensures a < b <==> a * den < b * den
  {
    assert b * den - a * den == (b - a) * den;
  }

  /** Multiplication by `den` distributes over a difference. */
  lemma MulSub(a: int, b: int, den: int)
    ensures a * den - b * den == (a - b) * den
  {
  }

  /** Two candidates whose scaled gaps are both at most den/2 are at most one
      apart, and when they differ both sit exactly on a tie. */
  lemma {:induction false} CloseCandidates(num: int, den: int, j: int, k: int)
    requires den > 0
    requires 2 * Gap(num, den, j) <= den && 2 * Gap(num, den, k) <= den
    ensures -1 <= j - k <= 1
    ensures j != k ==> 2 * Gap(num, den, j) == den && 2 * Gap(num, den, k) == den
  {
    var dj := 100 * num - j * den;
    var dk := 100 * num - k * den;
    MulSub(j, k, den);
    assert dk - dj == (j - k) * den;
    assert -den <= (j - k) * den <= den;
    MulLess(j - k, 2, den);
    MulLess(-2, j - k, den);
    if j - k == 1 {
      assert dk - dj == den;
    } else if j - k == -1 {
      assert dj - dk == den;
    }
  }

  /** The rounding is determined: any candidate meeting `IsRoundedPercent` is
      the value `RoundPercent` computes. */
  lemma {:induction false} RoundPercentUnique(num: int, den: int, k: int)
    requires den > 0
    requires IsRoundedPercent(num, den, k)
    ensures k == RoundPercent(num, den)
  {
    CloseCandidates(num, den, k, RoundPercent(num, den));
  }

  /** When 100·num/den is an integer `k`, the rounding returns exactly `k`. */
  lemma {:induction false} RoundPercentExact(num: int, den: int, k: int)
    requires den > 0
    requires 100 * num == k * den
    ensures RoundPercent(num, den) == k
  {
    assert Gap(num, den, k) == 0;
    RoundPercentUnique(num, den, k);
  }

  /** A share of at most the whole rounds to a percentage in 0..100. */
  lemma {:induction false} RoundPercentBounds(num: int, den: int)
    requires den > 0
    requires 0 <= num <= den
    ensures 0 <= RoundPercent(num, den) <= 100
  {
    var r := RoundPercent(num, den);
    assert -den < r * den < 101 * den;
    MulLess(-1, r, den);
    MulLess(r, 101, den);
  }

  /** A larger share never rounds to a smaller percentage. */
  lemma {:induction false} RoundPercentMonotone(a: int, b: int, den: int)
    requires den > 0
    requires a <= b
    ensures RoundPercent(a, den) <= RoundPercent(b, den)
  {
    var ra := RoundPercent(a, den);
    var rb := RoundPercent(b, den);
    if ra > rb {
      MulLess(rb, ra, den);
      MulSub(ra, rb, den);
      MulLess(0, ra - rb - 1, den);
      MulSub(ra - rb - 1, -1, den);
    }
  }
}
