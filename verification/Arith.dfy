/** Integer arithmetic shared by the modules. */
module Arith {

  lemma Scales(d: int, k: int)
    requires d >= 1 && k >= 0
    ensures d * k >= k
  {
  }

  lemma DivModIs(n: int, k: int, q: int, r: int)
    requires k > 0 && 0 <= r < k && n == q * k + r
    ensures n / k == q && n % k == r
  {
    var d := n / k - q;
    assert n == (n / k) * k + n % k;
    assert d * k == r - n % k;
    assert d == 0 by {
      if d >= 1 {
        Scales(d, k);
      } else if d <= -1 {
        Scales(-d, k);
      }
    }
  }

  lemma ModDistinct(m: nat, n: nat, k: nat)
    requires m < n < m + k
    ensures m % k != n % k
  {
    var d := m % k + (n - m);
    if d < k {
      DivModIs(n, k, m / k, d);
    } else {
      DivModIs(n, k, m / k + 1, d - k);
    }
  }

  function Max(a: int, b: int): int { if a < b then b else a }

  function Min(a: int, b: int): int { if a < b then a else b }

  function Pow2(n: nat): nat {
    if n == 0 then 1 else 2 * Pow2(n - 1)
  }

  function CeilDiv(a: int, b: nat): int
    requires b > 0
  {
    (a + b - 1) / b
  }

  lemma FloorIs(a: int, n: nat)
    requires n > 0
    ensures (a / n) * n <= a < (a / n + 1) * n
  {
    assert a == (a / n) * n + a % n;
  }

  lemma CeilIs(a: int, n: nat)
    requires n > 0
    ensures (CeilDiv(a, n) - 1) * n < a <= CeilDiv(a, n) * n
  {
    FloorIs(a + n - 1, n);
    var c := CeilDiv(a, n);
    assert (c + 1) * n == c * n + n && (c - 1) * n == c * n - n;
  }

  lemma TimesGrows(a: int, b: int, n: nat)
    requires a <= b
    ensures a * n <= b * n
  {
  }

  lemma LessByTimes(a: int, b: int, n: nat)
    requires a * n < b * n
    ensures a < b
  {
    if b <= a {
      TimesGrows(b, a, n);
    }
  }

  /** A multiple of n at most a is at most the floor. */
  lemma BelowFloor(t: int, a: int, n: nat)
    requires n > 0 && t * n <= a
    ensures t <= a / n
  {
    FloorIs(a, n);
    LessByTimes(t, a / n + 1, n);
  }
}
