/** The few facts about products and remainders that the solver will not find for itself. */
module Arith {

  lemma MulMonotone(a: int, b: int, k: nat)
    requires a <= b
    ensures a * k <= b * k
  {
  }

  lemma MulCancelLess(a: int, b: int, k: nat)
    requires a * k < b * k
    ensures a < b
  {
    if b <= a { MulMonotone(b, a, k); }
  }

  lemma MulStep(a: int, k: int)
    ensures (a + 1) * k == a * k + k
    ensures (a - 1) * k == a * k - k
  {
  }

  lemma DivMod(a: nat, n: nat)
    requires n > 0
    ensures a == a / n * n + a % n && 0 <= a % n < n && 0 <= a / n
  {
  }

  lemma DivUnique(a: nat, q: nat, n: nat, x: nat)
    requires x < n && a == q * n + x
    ensures a / n == q && a % n == x
  {
    DivMod(a, n);
    MulStep(q, n);
    MulStep(a / n, n);
    MulCancelLess(a / n, q + 1, n);
    MulCancelLess(q, a / n + 1, n);
  }

  /** Fewer than n steps apart on a ring of n means different places. */
  lemma RingSeparates(a: nat, b: nat, n: nat)
    requires a < b < a + n
    ensures a % n != b % n
  {
    if a % n == b % n {
      DivMod(a, n);
      DivMod(b, n);
      MulCancelLess(a / n, b / n, n);
      MulMonotone(a / n + 1, b / n, n);
      MulStep(a / n, n);
    }
  }

  lemma RingFirstLap(j: nat, n: nat)
    requires j < 2 * n
    ensures j % n == if j < n then j else j - n
  {
    if j < n { DivUnique(j, 0, n, j); } else { DivUnique(j, 1, n, j - n); }
  }

  /** r = ceil(n / k): k divides n exactly when r rounds of k make n, and then r is the quotient. */
  lemma CeilExact(n: nat, k: nat, r: nat)
    requires k > 0 && (r - 1) * k < n <= r * k
    ensures n % k == 0 <==> r * k == n
    ensures n / k <= r && (r * k == n ==> n / k == r)
  {
    DivMod(n, k);
    MulStep(r, k);
    MulStep(n / k, k);
    MulCancelLess(r - 1, n / k + 1, k);
    if n / k > r { MulMonotone(r + 1, n / k, k); }
    if r * k == n { DivUnique(n, r, k, 0); }
    if n % k == 0 { MulCancelLess(r - 1, n / k, k); }
  }

  /** One round is enough exactly when k covers n. */
  lemma CeilOne(n: nat, k: nat, r: nat)
    requires k > 0 && n > 0 && (r - 1) * k < n <= r * k
    ensures r >= 1 && (n <= k ==> r == 1) && (k <= n ==> n <= r * k < 2 * n)
  {
    MulStep(r, k);
    MulCancelLess(0, r, k);
    if n <= k { MulCancelLess(r - 1, 1, k); }
  }

  /** What n >= (2r - 1) * k leaves once the earlier rounds took e <= (r - 1) * k. */
  lemma RerollRoom(n: nat, e: nat, k: nat, r: nat, count: nat)
    requires k > 0 && r > 0 && e <= (r - 1) * k && n >= (2 * r - 1) * k && n <= count * k
    ensures n >= e + (r - 1 + 1) * k && r <= count && n >= 1
  {
    assert (2 * r - 1) * k == (r - 1) * k + r * k;
    MulStep(r, k);
    MulMonotone(0, r - 1, k);
    MulCancelLess(r - 1, count, k);
  }

  /** n lots of a. */
  function Times(n: int, a: nat): int {
    n * a
  }

  lemma TimesStep(n: int, a: nat)
    ensures Times(n + 1, a) == Times(n, a) + a && Times(n - 1, a) == Times(n, a) - a && Times(0, a) == 0
  {
  }

  lemma TimesAdd(n: int, m: int, a: nat)
    ensures Times(n + m, a) == Times(n, a) + Times(m, a)
  {
    assert (n + m) * a == n * a + m * a;
  }

  lemma TimesZero(d: int, a: nat)
    ensures Times(d, a) == 0 <==> d == 0 || a == 0
  {
    if d > 0 { MulMonotone(1, d, a); }
    if d < 0 { MulMonotone(d, -1, a); }
  }
}
