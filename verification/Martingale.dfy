/** The Beta-mixture martingale of the statistical gate, in exact real arithmetic.

    The program works with logarithms; here every comparison of logarithms is the same comparison of
    products, so `log M >= log(1/alpha)` is `alpha * Mixture >= Likelihood`, on the whole closed
    interval of p (at p = 0 with successes, or p = 1 with failures, the likelihood is 0 and the
    comparison holds, which is the program's +inf).  */
module Martingale {

  function Pow(x: real, n: nat): real {
    if n == 0 then 1.0 else x * Pow(x, n - 1)
  }

  /** a (a + 1) ... (a + n - 1) */
  function Rising(a: real, n: nat): real {
    if n == 0 then 1.0 else Rising(a, n - 1) * (a + (n - 1) as real)
  }

  /** B(a + s, b + f) / B(a, b) for the Beta function B. */
  function Mixture(s: nat, f: nat, a: real, b: real): real
    requires a > 0.0 && b > 0.0
  {
    RisingPositive(a + b, s + f);
    Rising(a, s) * Rising(b, f) / Rising(a + b, s + f)
  }

  /** The probability of one particular sequence of s successes and f failures under Bernoulli(p). */
  function Likelihood(p: real, s: nat, f: nat): real {
    Pow(p, s) * Pow(1.0 - p, f)
  }

  /** The martingale at p has reached 1/alpha. */
  predicate Reached(s: nat, f: nat, p: real, alpha: real, a: real, b: real)
    requires a > 0.0 && b > 0.0
  {
    alpha * Mixture(s, f, a, b) >= Likelihood(p, s, f)
  }

  // ---- powers and rising products -----------------------------------------------------------

  lemma {:induction false} RisingPositive(a: real, n: nat)
    requires a > 0.0
    ensures Rising(a, n) > 0.0
  {
    if n > 0 { RisingPositive(a, n - 1); }
  }

  lemma {:induction false} PowRange(x: real, n: nat)
    requires x >= 0.0
    ensures Pow(x, n) >= 0.0
    ensures x > 0.0 ==> Pow(x, n) > 0.0
    ensures x <= 1.0 ==> Pow(x, n) <= 1.0
    ensures x >= 1.0 ==> Pow(x, n) >= 1.0
  {
    if n > 0 {
      PowRange(x, n - 1);
      MulRange(x, Pow(x, n - 1));
    }
  }

  lemma MulRange(x: real, y: real)
    requires x >= 0.0 && y >= 0.0
    ensures x * y >= 0.0
    ensures x > 0.0 && y > 0.0 ==> x * y > 0.0
    ensures x <= 1.0 ==> x * y <= y
    ensures x >= 1.0 ==> x * y >= y
  {}

  lemma MulMonotone(x: real, y: real, u: real, v: real)
    requires 0.0 <= x <= y && 0.0 <= u <= v
    ensures x * u <= y * v
  {
    assert x * u <= y * u;
    assert y * u <= y * v;
  }

  lemma {:induction false} PowMonotone(x: real, y: real, n: nat)
    requires 0.0 <= x <= y
    ensures Pow(x, n) <= Pow(y, n)
  {
    if n > 0 {
      PowMonotone(x, y, n - 1);
      PowRange(x, n - 1);
      MulMonotone(x, y, Pow(x, n - 1), Pow(y, n - 1));
    }
  }

  lemma {:induction false} PowMul(x: real, y: real, n: nat)
    ensures Pow(x * y, n) == Pow(x, n) * Pow(y, n)
  {
    if n > 0 {
      PowMul(x, y, n - 1);
      calc {
        Pow(x * y, n);
        x * y * (Pow(x, n - 1) * Pow(y, n - 1));
        (x * Pow(x, n - 1)) * (y * Pow(y, n - 1));
      }
    }
  }

  lemma MixturePositive(s: nat, f: nat, a: real, b: real)
    requires a > 0.0 && b > 0.0
    ensures Mixture(s, f, a, b) > 0.0
  {
    RisingPositive(a, s);
    RisingPositive(b, f);
    RisingPositive(a + b, s + f);
    var num := Rising(a, s) * Rising(b, f);
    assert num > 0.0;
  }

  lemma MixtureSuccess(s: nat, f: nat, a: real, b: real)
    requires a > 0.0 && b > 0.0
    ensures Mixture(s + 1, f, a, b) * (a + b + (s + f) as real) == Mixture(s, f, a, b) * (a + s as real)
  {
    RisingPositive(a + b, s + f);
    Swap(Rising(a, s), a + s as real, Rising(b, f));
    NextRatio(Rising(a, s) * Rising(b, f), Rising(a + b, s + f), a + s as real, a + b + (s + f) as real,
              Rising(a, s + 1) * Rising(b, f), Rising(a + b, s + 1 + f));
  }

  lemma MixtureFailure(s: nat, f: nat, a: real, b: real)
    requires a > 0.0 && b > 0.0
    ensures Mixture(s, f + 1, a, b) * (a + b + (s + f) as real) == Mixture(s, f, a, b) * (b + f as real)
  {
    RisingPositive(a + b, s + f);
    assert Rising(b, f + 1) == Rising(b, f) * (b + f as real);
    assert Rising(a + b, s + f + 1) == Rising(a + b, s + f) * (a + b + (s + f) as real);
    assert s + (f + 1) == s + f + 1;
    Swap(Rising(a, s), b + f as real, Rising(b, f));
    NextRatio(Rising(a, s) * Rising(b, f), Rising(a + b, s + f), b + f as real, a + b + (s + f) as real,
              Rising(a, s) * Rising(b, f + 1), Rising(a + b, s + (f + 1)));
  }

  lemma Swap(x: real, y: real, z: real)
    ensures (x * y) * z == (x * z) * y && x * (z * y) == (x * z) * y
  {}

  lemma NextRatio(num: real, den: real, x: real, y: real, num': real, den': real)
    requires den > 0.0 && y > 0.0 && num' == num * x && den' == den * y
    ensures den' > 0.0
    ensures num' / den' * y == num / den * x
  {
    assert den' > 0.0;
    var q, r := num / den, num' / den';
    assert q * den == num;
    assert r * den' == num';
    assert (r * y) * den == (q * x) * den;
  }

  /** The martingale identity: the mixture is split exactly by the next label. */
  lemma MixtureSplits(s: nat, f: nat, a: real, b: real)
    requires a > 0.0 && b > 0.0
    ensures Mixture(s + 1, f, a, b) + Mixture(s, f + 1, a, b) == Mixture(s, f, a, b)
  {
    hide *;
    MixtureSuccess(s, f, a, b);
    MixtureFailure(s, f, a, b);
    var k, k1, k2 := Mixture(s, f, a, b), Mixture(s + 1, f, a, b), Mixture(s, f + 1, a, b);
    var y := a + b + (s + f) as real;
    SumOfParts(k, k1, k2, y, a + s as real, b + f as real);
  }

  lemma SumOfParts(k: real, k1: real, k2: real, y: real, u: real, v: real)
    requires y > 0.0 && u + v == y && k1 * y == k * u && k2 * y == k * v
    ensures k1 + k2 == k
  {
    assert (k1 + k2) * y == k * y;
  }

  lemma LikelihoodPositive(p: real, s: nat, f: nat)
    requires 0.0 < p < 1.0
    ensures Likelihood(p, s, f) > 0.0
  {
    PowRange(p, s);
    PowRange(1.0 - p, f);
  }
}
