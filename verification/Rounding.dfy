/** Rounding a quotient to the nearest integer, ties to the even one. */
module Rounding {

  function HalfEven(num: int, den: int): int
    requires den > 0
  {
    var q, r := num / den, num % den;
    if 2 * r < den then q else if 2 * r > den then q + 1 else if q % 2 == 0 then q else q + 1
  }

  /** The result is within half of the quotient, and even when it is exactly half away. */
  lemma HalfEvenIsNearest(num: int, den: int)
    requires den > 0
    ensures -den <= 2 * (num - den * HalfEven(num, den)) <= den
    ensures 2 * (num - den * HalfEven(num, den)) in {den, -den} ==> HalfEven(num, den) % 2 == 0
  {
    var q, r := num / den, num % den;
    assert num == den * q + r;
    assert den * (q + 1) == den * q + den;
  }

  lemma Scales(k: int, a: int, b: int)
    requires k > 0
    ensures a <= b ==> k * a <= k * b
    ensures a < b ==> k * a + k <= k * b
  {
    if a < b {
      AtLeastOnce(k, b - a);
      assert k * b == k * a + k * (b - a);
    }
  }

  lemma {:induction false} AtLeastOnce(k: int, n: nat)
    requires k > 0 && n > 0
    ensures k * n >= k
  {
    if n > 1 {
      AtLeastOnce(k, n - 1);
      assert k * n == k * (n - 1) + k;
    }
  }

  /** And it is the only integer that is. */
  lemma NearestIsHalfEven(num: int, den: int, n: int)
    requires den > 0 && -den <= 2 * (num - den * n) <= den
    requires 2 * (num - den * n) in {den, -den} ==> n % 2 == 0
    ensures n == HalfEven(num, den)
  {
    var m := HalfEven(num, den);
    HalfEvenIsNearest(num, den);
    hide HalfEven;
    Neighbours(den, m, n);
    Neighbours(den, n, m);
  }

  /** Integers whose multiples are at most `den` apart are equal or next to each other. */
  lemma Neighbours(den: int, a: int, b: int)
    requires den > 0
    ensures a < b && den * b <= den * a + den ==> b == a + 1 && den * b == den * a + den
  {
    Scales(den, a, b);
    Scales(den, a + 1, b);
    assert den * (a + 1) == den * a + den;
  }

  lemma HalfEvenExact(n: int, den: int)
    requires den > 0
    ensures HalfEven(den * n, den) == n
  {
    NearestIsHalfEven(den * n, den, n);
  }

  lemma HalfEvenMonotone(a: int, b: int, den: int)
    requires den > 0 && a <= b
    ensures HalfEven(a, den) <= HalfEven(b, den)
  {
    HalfEvenIsNearest(a, den);
    HalfEvenIsNearest(b, den);
    Scales(den, HalfEven(b, den), HalfEven(a, den));
    hide HalfEven;
  }

  /** Steps longer than one never round to the same place. */
  lemma HalfEvenSteps(a: int, b: int, den: int)
    requires den > 0 && b - a > den
    ensures HalfEven(a, den) < HalfEven(b, den)
  {
    HalfEvenIsNearest(a, den);
    HalfEvenIsNearest(b, den);
    Scales(den, HalfEven(b, den), HalfEven(a, den));
    hide HalfEven;
  }
}
