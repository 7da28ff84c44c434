/** Facts about powers and multiples that the solver does not find by itself. */
module Arithmetic {
  function PowerOfTwo(n: nat): (p: nat)
    ensures p >= 1
  {
    if n == 0 then 1 else 2 * PowerOfTwo(n - 1)
  }

  lemma {:induction false} PowersGrow(a: nat, b: nat)
    requires a <= b
    ensures PowerOfTwo(a) <= PowerOfTwo(b)
    decreases b
  {
    if a < b {
      PowersGrow(a, b - 1);
    }
  }

  lemma LessFactor(i: int, j: int, m: int)
    requires m > 0 && i * m < j * m
    ensures i < j
  {
  }

  lemma LeastProduct(k: int, m: int)
    requires m > 0 && k >= 1
    ensures k * m >= m
  {
  }

  lemma MultipleOf(x: int, k: int, m: int)
    requires m > 0 && x == k * m
    ensures x % m == 0
  {
    var q, r := x / m, x % m;
    assert x == q * m + r;
    assert (k - q) * m == r;
    if k - q >= 1 {
      LeastProduct(k - q, m);
    } else if k - q <= -1 {
      LeastProduct(q - k, m);
    }
  }

  /** Different multiples are at least one multiple apart. */
  lemma MultiplesApart(a: int, b: int, m: int)
    requires m > 0 && a % m == 0 && b % m == 0 && a < b
    ensures a + m <= b && (b - a) % m == 0
  {
    var i, j := a / m, b / m;
    assert a == i * m && b == j * m;
    LessFactor(i, j, m);
    LeastProduct(j - i, m);
    assert b - a == (j - i) * m;
    MultipleOf(b - a, j - i, m);
  }

  /** The multiple at or below a number. */
  lemma MultipleBelow(x: int, m: int)
    requires x >= 0 && m > 0
    ensures var base := x - x % m; 0 <= base <= x < base + m && base % m == 0
  {
    var q := x / m;
    assert x - x % m == q * m;
    MultipleOf(x - x % m, q, m);
    if q >= 1 {
      LeastProduct(q, m);
    }
  }
}
