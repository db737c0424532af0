/** Counting rules: what the bound does when a failure becomes a success, when a failure is added, and
    why counting a pending trial as a failure keeps the level whatever is delayed or withheld.  */
module Delay {
  import opened Martingale
  import opened LikelihoodFacts
  import opened Sequential
  import opened Anytime

  lemma MixtureExchange(s: nat, f: nat, a: real, b: real)
    requires a > 0.0 && b > 0.0 && f > 0
    ensures Mixture(s + 1, f - 1, a, b) * (b + (f - 1) as real) == Mixture(s, f, a, b) * (a + s as real)
  {
    MixtureSuccess(s, f - 1, a, b);
    MixtureFailure(s, f - 1, a, b);
    Exchange(Mixture(s + 1, f - 1, a, b), Mixture(s, f - 1, a, b), Mixture(s, f, a, b), a + b + (s + f - 1) as real,
             a + s as real, b + (f - 1) as real);
  }

  lemma Exchange(k1: real, k0: real, k: real, y: real, u: real, v: real)
    requires y > 0.0 && k1 * y == k0 * u && k * y == k0 * v
    ensures k1 * v == k * u
  {
    assert (k1 * v) * y == (k1 * y) * v;
    assert (k * u) * y == (k * y) * u;
    assert (k0 * u) * v == (k0 * v) * u;
    Cancel(k1 * v, k * u, y);
    Cancel(k * u, k1 * v, y);
  }

  /** r (a + b - 1) <= a when b <= 1: the only thing asked of the prior. */
  lemma PriorCondition(r: real, a: real, b: real)
    requires 0.0 <= r <= 1.0 && 0.0 < a && 0.0 < b <= 1.0
    ensures r * (a + b - 1.0) <= a
  {
    if a + b - 1.0 >= 0.0 {
      MulMonotone(r, 1.0, a + b - 1.0, a + b - 1.0);
    } else {
      MulMonotoneRight(r, a + b - 1.0, 0.0);
    }
  }

  lemma RequiredAtMostOne(r: real, s: nat, f: nat)
    requires s + f > 0 && r * (s + f) as real <= s as real
    ensures r <= 1.0
  {
    Cancel(r, 1.0, (s + f) as real);
  }

  /** A crossing survives a failure becoming a success at the same n. */
  lemma SuccessKeepsCrossing(s: nat, g: nat, r: real, alpha: real, a: real, b: real)
    requires 0.0 < a && 0.0 < b <= 1.0 && 0.0 <= r && Crossed(s, g + 1, r, alpha, a, b)
    ensures Crossed(s + 1, g, r, alpha, a, b)
  {
    RequiredAtMostOne(r, s, g + 1);
    PriorCondition(r, a, b);
    MixtureExchange(s, g + 1, a, b);
    SuccessKeepsCrossingAt(s, g, r, alpha, a, b, Mixture(s, g + 1, a, b), Mixture(s + 1, g, a, b));
  }

  lemma SuccessKeepsCrossingAt(s: nat, g: nat, r: real, alpha: real, a: real, b: real, k: real, k1: real)
    requires 0.0 < a && 0.0 < b && 0.0 <= r <= 1.0 && r * (a + b - 1.0) <= a
    requires r * (s + (g + 1)) as real <= s as real
    requires k1 * (b + g as real) == k * (a + s as real) && alpha * k >= Likelihood(r, s, g + 1)
    ensures alpha * k1 >= Likelihood(r, s + 1, g)
    ensures r * (s + 1 + g) as real <= (s + 1) as real
  {
    hide Pow;
    LikelihoodSplits(r, s, g);
    PowRange(r, s);
    PowRange(1.0 - r, g);
    MulRange(Pow(r, s), Pow(1.0 - r, g));
    MoreSuccess(r, alpha, k, k1, Likelihood(r, s, g), Likelihood(r, s, g + 1), Likelihood(r, s + 1, g),
                a + s as real, b + g as real, a, b, s as real, g as real);
  }

  lemma MoreSuccess(r: real, alpha: real, k: real, k1: real, c: real, l: real, l1: real, u: real, v: real,
                    a: real, b: real, s: real, g: real)
    requires u == a + s && v == b + g && v > 0.0 && u >= 0.0 && c >= 0.0
    requires k1 * v == k * u && l == (1.0 - r) * c && l1 == r * c && alpha * k >= l
    requires r * (a + b - 1.0) <= a && r * (s + g + 1.0) <= s
    ensures alpha * k1 >= l1
    ensures r * (s + 1.0 + g) <= s + 1.0
  {
    assert (1.0 - r) * u >= r * v by { assert r * (u + v) == r * (s + g + 1.0) + r * (a + b - 1.0); }
    MulMonotoneRight(u, l, alpha * k);
    MulMonotoneRight(c, r * v, (1.0 - r) * u);
    assert (alpha * k1) * v == u * (alpha * k) by { assert (alpha * k1) * v == alpha * (k1 * v); }
    assert u * l == c * ((1.0 - r) * u);
    assert l1 * v == c * (r * v);
    Cancel(l1, alpha * k1, v);
  }

  lemma {:induction false} MoreSuccessesKeepCrossing(s: nat, f: nat, s': nat, f': nat, r: real, alpha: real, a: real, b: real)
    requires 0.0 < a && 0.0 < b <= 1.0 && 0.0 <= r && Crossed(s, f, r, alpha, a, b)
    requires s <= s' && s + f == s' + f'
    ensures Crossed(s', f', r, alpha, a, b)
    decreases s' - s
  {
    if s < s' {
      SuccessKeepsCrossing(s, f - 1, r, alpha, a, b);
      MoreSuccessesKeepCrossing(s + 1, f - 1, s', f', r, alpha, a, b);
    }
  }

  /** Adding a failure never produces a crossing: a rule that counts pending trials as failures opens
      the gate no earlier than the rule that leaves them out. */
  lemma {:induction false} FailuresOnlyDelay(s: nat, f: nat, pending: nat, r: real, alpha: real, a: real, b: real)
    requires 0.0 < a && 0.0 < b <= 1.0 && 0.0 < r && Crossed(s, f + pending, r, alpha, a, b)
    ensures Crossed(s, f, r, alpha, a, b)
    decreases pending
  {
    if pending > 0 {
      OneFailureFewer(s, f + pending - 1, r, alpha, a, b);
      FailuresOnlyDelay(s, f, pending - 1, r, alpha, a, b);
    }
  }

  lemma OneFailureFewer(s: nat, g: nat, r: real, alpha: real, a: real, b: real)
    requires 0.0 < a && 0.0 < b <= 1.0 && 0.0 < r && Crossed(s, g + 1, r, alpha, a, b)
    ensures Crossed(s, g, r, alpha, a, b)
  {
    RequiredAtMostOne(r, s, g + 1);
    PriorCondition(r, a, b);
    MixtureFailure(s, g, a, b);
    LikelihoodSplits(r, s, g);
    PowRange(r, s);
    PowRange(1.0 - r, g);
    MulRange(Pow(r, s), Pow(1.0 - r, g));
    SomeSuccess(s, g, r);
    FewerFailures(r, alpha, Mixture(s, g, a, b), Mixture(s, g + 1, a, b), Likelihood(r, s, g), Likelihood(r, s, g + 1),
                  a + b + (s + g) as real, b + g as real, a, b, s as real, g as real);
  }

  lemma SomeSuccess(s: nat, g: nat, r: real)
    requires 0.0 < r && r * (s + (g + 1)) as real <= s as real
    ensures s > 0
  {
    MulRange(r, (s + (g + 1)) as real);
  }

  /** The same of the computed bound, to within one grid step: where it meets a requirement with pending trials counted
      as failures, it is less than a grid step below the requirement with them left out. */
  lemma FailuresOnlyDelayBound(s: nat, f: nat, pending: nat, r: real, alpha: real)
    requires 0.0 < alpha < 1.0 && 0.0 < r <= JeffreysBound(s, f + pending, alpha)
    ensures s > 0 && r < JeffreysBound(s, f, alpha) + Halved(Rate(s, f), BISECTION_STEPS)
  {
    BoundImpliesCrossed(s, f + pending, r, alpha, JEFFREYS, JEFFREYS);
    FailuresOnlyDelay(s, f, pending, r, alpha, JEFFREYS, JEFFREYS);
    CrossedImpliesNearBound(s, f, r, alpha);
  }

  lemma FewerFailures(r: real, alpha: real, k: real, k1: real, c: real, l1: real, y: real, v: real,
                      a: real, b: real, s: real, g: real)
    requires y == a + b + (s + g) && v == b + g && v > 0.0 && y >= 0.0 && c >= 0.0 && r >= 0.0
    requires k1 * y == k * v && l1 == (1.0 - r) * c && alpha * k1 >= l1
    requires r * (a + b - 1.0) <= a && r * (s + g + 1.0) <= s
    ensures alpha * k >= c
    ensures r * (s + g) <= s
  {
    assert (1.0 - r) * y >= v by { assert r * y == r * (s + g + 1.0) + r * (a + b - 1.0); }
    MulMonotoneRight(y, l1, alpha * k1);
    MulMonotoneRight(c, v, (1.0 - r) * y);
    assert (alpha * k) * v == y * (alpha * k1) by { assert (alpha * k) * v == alpha * (k * v); }
    assert y * l1 == c * ((1.0 - r) * y);
    Cancel(c, alpha * k, v);
    assert r * (s + g) == r * (s + g + 1.0) - r;
  }

  // ---- the bisected bound itself ------------------------------------------------------------

  /** (1 + x)^m <= 1 / (1 - m x), as a product. */
  lemma GrowthBound(x: real, m: nat)
    requires 0.0 <= x <= 1.0
    ensures Pow(1.0 + x, m) * (1.0 - m as real * x) <= 1.0
  {
    Bernoulli(x, m);
    PowRange(1.0 + x, m);
    SquareGap(x, 1.0 + x, 1.0 - x, 1.0 - x * x);
    PowProduct(1.0 - x * x, 1.0 + x, 1.0 - x, m);
    PowRange(1.0 - x * x, m);
    MulMonotoneRight(Pow(1.0 + x, m), 1.0 - m as real * x, Pow(1.0 - x, m));
  }

  lemma SquareGap(x: real, y: real, z: real, w: real)
    requires 0.0 <= x <= 1.0 && y == 1.0 + x && z == 1.0 - x && w == 1.0 - x * x
    ensures y * z == w && 0.0 <= w <= 1.0
  {
    MulMonotone(x, 1.0, x, 1.0);
    MulRange(x, x);
  }

  /** Raising the point by a factor 1 + x costs less than the success gained, when 2 n^2 x <= 1. */
  lemma Slack(r: real, s: real, f: real, n: real, x: real, m: real, grown: real,
              su: real, gv: real)
    requires n == s + f && m == 1.0 - (s + 1.0) * x && su == s + 0.5 && gv == f - 0.5
    requires 0.0 <= r <= 1.0 && s >= 1.0 && f >= 1.0 && r * (s + f) <= s && x >= 0.0
    requires 2.0 * (n * n) * x <= 1.0
    requires grown >= 0.0 && grown * m <= 1.0
    ensures r * gv * grown <= (1.0 - r) * su
  {
    GrownAt(s, f, n, x, m, grown);
    RateOdds(r, s, f);
    SlackProduct(r, s, f, grown);
  }

  lemma GrownAt(s: real, f: real, n: real, x: real, m: real, grown: real)
    requires n == s + f && m == 1.0 - (s + 1.0) * x && s >= 1.0 && f >= 1.0 && x >= 0.0
    requires 2.0 * (n * n) * x <= 1.0 && grown >= 0.0 && grown * m <= 1.0
    ensures grown * ((f - 0.5) * s) <= f * (s + 0.5)
  {
    SmallStep(s, f, n, x);
    SmallStep2(s, f, n, x);
    OneStepSlack(s, f, x, m);
    GrownSlack(s, f, grown, m);
  }

  lemma RateOdds(r: real, s: real, f: real)
    requires r * (s + f) <= s
    ensures r * f <= (1.0 - r) * s
  {}

  lemma GrownSlack(s: real, f: real, grown: real, m: real)
    requires s >= 1.0 && f >= 1.0 && grown >= 0.0 && m > 0.0 && grown * m <= 1.0
    requires (f - 0.5) * s <= f * (s + 0.5) * m
    ensures grown * ((f - 0.5) * s) <= f * (s + 0.5)
  {
    MulRange(f, s + 0.5);
    Grown(grown, m, (f - 0.5) * s, f * (s + 0.5));
  }

  lemma OneStepSlack(s: real, f: real, x: real, m: real)
    requires m == 1.0 - (s + 1.0) * x && (f * (s + 0.5) * (s + 1.0)) * x <= (s + f) / 2.0
    ensures (f - 0.5) * s <= f * (s + 0.5) * m
  {
    var c := f * (s + 0.5);
    assert c * m == c - (c * (s + 1.0)) * x;
    assert c == f * s + 0.5 * f;
    assert (f - 0.5) * s == f * s - 0.5 * s;
  }

  lemma SlackProduct(r: real, s: real, f: real, grown: real)
    requires r >= 0.0 && s >= 1.0 && r * f <= (1.0 - r) * s
    requires grown * ((f - 0.5) * s) <= f * (s + 0.5)
    ensures r * (f - 0.5) * grown <= (1.0 - r) * (s + 0.5)
  {
    SlackRegroup(r, f - 0.5, grown, s, s + 0.5, 1.0 - r, f);
    SlackChain(r, s + 0.5, s, grown * ((f - 0.5) * s), f * (s + 0.5), r * f, (1.0 - r) * s,
               r * (f - 0.5) * grown, (1.0 - r) * (s + 0.5));
  }

  lemma SlackRegroup(r: real, g: real, grown: real, s: real, h: real, q: real, f: real)
    ensures (r * g * grown) * s == r * (grown * (g * s))
    ensures r * (f * h) == h * (r * f)
    ensures h * (q * s) == (q * h) * s
  {}

  lemma SlackChain(r: real, h: real, s: real, g: real, fh: real, rf: real, qs: real, x: real, y: real)
    requires r >= 0.0 && h >= 0.0 && s > 0.0 && g <= fh && rf <= qs
    requires x * s == r * g && r * fh == h * rf && h * qs == y * s
    ensures x <= y
  {
    MulMonotoneRight(r, g, fh);
    MulMonotoneRight(h, rf, qs);
    Cancel(x, y, s);
  }

  lemma SmallStep(s: real, f: real, n: real, x: real)
    requires s >= 1.0 && f >= 1.0 && n == s + f && x >= 0.0 && 2.0 * (n * n) * x <= 1.0
    ensures (f * (s + 0.5) * (s + 1.0)) * x <= n / 2.0
  {
    MulMonotone(f, n, s + 0.5, n);
    MulRange(f, s + 0.5);
    MulMonotone(f * (s + 0.5), n * n, s + 1.0, n);
    MulMonotone(f * (s + 0.5) * (s + 1.0), n * n * n, x, x);
    MulMonotoneRight(n, 2.0 * (n * n) * x, 1.0);
    assert n * (2.0 * (n * n) * x) == 2.0 * ((n * n * n) * x);
  }

  lemma SmallStep2(s: real, f: real, n: real, x: real)
    requires s >= 1.0 && f >= 1.0 && n == s + f && x >= 0.0 && 2.0 * (n * n) * x <= 1.0
    ensures (s + 1.0) * x < 1.0
  {
    MulMonotone(1.0, n, n, n);
    MulMonotone(s + 1.0, n * n, x, x);
  }

  lemma Grown(grown: real, m: real, u: real, v: real)
    requires grown >= 0.0 && m > 0.0 && grown * m <= 1.0 && u <= v * m && v >= 0.0
    ensures grown * u <= v
  {
    MulMonotoneRight(grown, u, v * m);
    assert grown * (v * m) == v * (grown * m);
    MulMonotoneRight(v, grown * m, 1.0);
  }

  /** Points a little above a crossed requirement are reached once a failure becomes a success. */
  lemma NearPointReached(s: nat, g: nat, r: real, u: real, d: real, n: real, alpha: real)
    requires n == (s + g + 1) as real && d == u - r
    requires s > 0 && 0.0 < r <= u <= 1.0 && Crossed(s, g + 1, r, alpha, JEFFREYS, JEFFREYS)
    requires 2.0 * (n * n) * d <= r
    ensures Reached(s + 1, g, u, alpha, JEFFREYS, JEFFREYS)
  {
    RequiredAtMostOne(r, s, g + 1);
    MixtureExchange(s, g + 1, JEFFREYS, JEFFREYS);
    var x := d / r;
    RelativeStep(r, u, x, d, n);
    SmallX(n, x);
    NearPointAt(s, g, r, u, n, x, alpha, Mixture(s, g + 1, JEFFREYS, JEFFREYS), Mixture(s + 1, g, JEFFREYS, JEFFREYS),
                s as real + 0.5, g as real + 0.5);
  }

  lemma NearPointAt(s: nat, g: nat, r: real, u: real, n: real, x: real, alpha: real, k: real, k1: real, su: real, gv: real)
    requires s > 0 && n == (s + g + 1) as real && 0.0 < r <= u <= 1.0 && 0.0 <= x <= 1.0 && r * (1.0 + x) == u
    requires su == s as real + 0.5 && gv == g as real + 0.5 && k1 * gv == k * su
    requires 2.0 * (n * n) * x <= 1.0 && r * (s + (g + 1)) as real <= s as real
    requires alpha * k >= Likelihood(r, s, g + 1)
    ensures alpha * k1 >= Likelihood(u, s + 1, g)
  {
    GrowthBound(x, s + 1);
    PowRange(1.0 + x, s + 1);
    Slack(r, s as real, (g + 1) as real, n, x, 1.0 - (s as real + 1.0) * x, Pow(1.0 + x, s + 1), su, gv);
    GrownLikelihood(s, g, r, u, x);
    PowRange(r, s);
    PowRange(1.0 - r, g);
    MulRange(Pow(r, s), Pow(1.0 - r, g));
    LikelihoodSplits(r, s, g);
    ReachedAbove(r, alpha, k, k1, Likelihood(r, s, g), Likelihood(r, s, g + 1), Likelihood(u, s + 1, g),
                 Pow(1.0 + x, s + 1), su, gv);
  }

  lemma RelativeStep(r: real, u: real, x: real, d: real, n: real)
    requires 0.0 < r <= u && d == u - r && x == d / r && 2.0 * (n * n) * d <= r
    ensures x >= 0.0 && r * (1.0 + x) == u && 2.0 * (n * n) * x <= 1.0
  {
    assert x * r == d;
    Cancel(0.0, x, r);
    ScaledStep(2.0 * (n * n), x, r, d);
  }

  lemma ScaledStep(c: real, x: real, r: real, d: real)
    requires r > 0.0 && x * r == d && c * d <= r
    ensures c * x <= 1.0
  {
    assert (c * x) * r == c * d;
    Cancel(c * x, 1.0, r);
  }

  lemma SmallX(n: real, x: real)
    requires n >= 1.0 && x >= 0.0 && 2.0 * (n * n) * x <= 1.0
    ensures x <= 1.0
  {
    MulMonotone(1.0, n, 1.0, n);
    MulMonotone(1.0, 2.0 * (n * n), x, x);
  }

  lemma GrownLikelihood(s: nat, g: nat, r: real, u: real, x: real)
    requires 0.0 < r <= u <= 1.0 && x >= 0.0 && r * (1.0 + x) == u
    ensures Likelihood(u, s + 1, g) <= (r * Likelihood(r, s, g)) * Pow(1.0 + x, s + 1)
  {
    PowProduct(u, r, 1.0 + x, s + 1);
    PowMonotone(1.0 - u, 1.0 - r, g);
    PowRange(u, s + 1);
    LikelihoodSplits(r, s, g);
    GrownChain(Likelihood(u, s + 1, g), Pow(u, s + 1), Pow(1.0 - u, g), Pow(1.0 - r, g), Pow(r, s + 1),
               Pow(1.0 + x, s + 1), Likelihood(r, s + 1, g));
  }

  lemma GrownChain(lu: real, pu: real, pg': real, pg: real, p1: real, grown: real, l1: real)
    requires lu == pu * pg' && pg' <= pg && pu >= 0.0 && pu == p1 * grown && l1 == p1 * pg
    ensures lu <= l1 * grown
  {
    MulMonotoneRight(pu, pg', pg);
    assert (p1 * grown) * pg == (p1 * pg) * grown;
  }

  lemma ReachedAbove(r: real, alpha: real, k: real, k1: real, c: real, l: real, lu: real, grown: real, u: real, v: real)
    requires v > 0.0 && u >= 0.0 && c >= 0.0
    requires k1 * v == k * u && l == (1.0 - r) * c && alpha * k >= l
    requires lu <= (r * c) * grown && r * v * grown <= (1.0 - r) * u
    ensures alpha * k1 >= lu
  {
    MulMonotoneRight(u, l, alpha * k);
    MulMonotoneRight(c, r * v * grown, (1.0 - r) * u);
    MulMonotoneRight(v, lu, (r * c) * grown);
    ReachedRegroup(r, alpha, k, k1, c, l, grown, u, v, 1.0 - r);
    Cancel(lu, alpha * k1, v);
  }

  lemma ReachedRegroup(r: real, alpha: real, k: real, k1: real, c: real, l: real, grown: real, u: real, v: real, q: real)
    requires k1 * v == k * u && l == q * c
    ensures (alpha * k1) * v == u * (alpha * k)
    ensures u * l == c * (q * u)
    ensures v * ((r * c) * grown) == c * (r * v * grown)
  {
    assert (alpha * k1) * v == alpha * (k1 * v);
  }

  /** The first grid point above the bound is not reached. */
  lemma BoundBracket(s: nat, f: nat, alpha: real, l: real, h: real)
    requires s > 0 && 0.0 < alpha < 1.0 && l == JeffreysBound(s, f, alpha) && h == Halved(Rate(s, f), BISECTION_STEPS)
    ensures 0.0 <= l < l + h <= Rate(s, f) <= 1.0 && !Reached(s, f, l + h, alpha, JEFFREYS, JEFFREYS)
    ensures l == 0.0 || Reached(s, f, l, alpha, JEFFREYS, JEFFREYS)
  {
    GuardNeverFires(s, f, alpha);
    RateRange(s, f);
    BisectBrackets(s, f, alpha, JEFFREYS, JEFFREYS, 0.0, Rate(s, f), BISECTION_STEPS);
  }

  /** The bisection grid is fine enough at n for a requirement: a condition on the configuration alone. */
  predicate GridFine(r: real, n: nat) {
    r <= 0.0 || n as real * n as real <= r * HALF_GRID
  }

  const HALF_GRID := 9223372036854775808.0

  lemma HalfGridIsAPower()
    ensures Pow(2.0, 63) == HALF_GRID
  {
    PowAdd(2.0, 1, 2);
    PowAdd(2.0, 3, 4);
    PowAdd(2.0, 2, 2);
    assert Pow(2.0, 7) == 128.0;
    PowAdd(2.0, 7, 7);
    PowAdd(2.0, 14, 7);
    PowAdd(2.0, 21, 21);
    PowAdd(2.0, 42, 21);
  }

  /** The bisected bound itself, not only the exact one, keeps meeting a requirement when a failure
      becomes a success at the same n, as long as n^2 <= 2^63 times the requirement.  */
  lemma SuccessKeepsBound(s: nat, g: nat, r: real, alpha: real)
    requires 0.0 < alpha < 1.0 && 0.0 < r <= JeffreysBound(s, g + 1, alpha)
    requires GridFine(r, s + g + 1)
    ensures JeffreysBound(s + 1, g, alpha) >= r
  {
    BoundImpliesCrossed(s, g + 1, r, alpha, JEFFREYS, JEFFREYS);
    CrossedKeepsBound(s, g, r, alpha, (s + g + 1) as real);
  }

  lemma CrossedKeepsBound(s: nat, g: nat, r: real, alpha: real, n: real)
    requires 0.0 < alpha < 1.0 && 0.0 < r && s > 0 && Crossed(s, g + 1, r, alpha, JEFFREYS, JEFFREYS)
    requires n == (s + g + 1) as real && n * n <= r * HALF_GRID
    ensures JeffreysBound(s + 1, g, alpha) >= r
  {
    hide JeffreysBound, Halved, Rate, Reached;
    SuccessKeepsCrossing(s, g, r, alpha, JEFFREYS, JEFFREYS);
    RequiredAtMostOne(r, s, g + 1);
    var l, h := JeffreysBound(s + 1, g, alpha), Halved(Rate(s + 1, g), BISECTION_STEPS);
    BoundBracket(s + 1, g, alpha, l, h);
    if l < r {
      GridPointReached(s, g, r, l + h, l + h - r, n, Rate(s + 1, g), alpha);
      assert false;
    }
  }

  lemma GridPointReached(s: nat, g: nat, r: real, u: real, d: real, n: real, rate: real, alpha: real)
    requires s > 0 && n == (s + g + 1) as real && d == u - r && 0.0 < r <= 1.0 && n * n <= r * HALF_GRID
    requires rate == Rate(s + 1, g) && 0.0 <= u <= rate <= 1.0 && u < r + Halved(rate, BISECTION_STEPS)
    requires Crossed(s, g + 1, r, alpha, JEFFREYS, JEFFREYS) && Crossed(s + 1, g, r, alpha, JEFFREYS, JEFFREYS)
    ensures Reached(s + 1, g, u, alpha, JEFFREYS, JEFFREYS)
  {
    if u <= r {
      ReachedBelow(s + 1, g, u, r, alpha, JEFFREYS, JEFFREYS);
    } else {
      GridStep(rate, r, d, n);
      NearPointReached(s, g, r, u, d, n, alpha);
    }
  }

  lemma GridStep(rate: real, r: real, step: real, n: real)
    requires 0.0 < rate <= 1.0 && 0.0 <= step < Halved(rate, BISECTION_STEPS) && n * n <= r * HALF_GRID && r > 0.0
    ensures 2.0 * (n * n) * step <= r
  {
    HalvedTimesPower(rate, BISECTION_STEPS);
    PowStep(2.0, 63);
    HalfGridIsAPower();
    MulSquare(n);
    GridProduct(rate, r, step, n * n, Halved(rate, BISECTION_STEPS), HALF_GRID, Pow(2.0, BISECTION_STEPS));
  }

  lemma MulSquare(n: real)
    ensures n * n >= 0.0
  {}

  lemma GridProduct(rate: real, r: real, step: real, nn: real, h: real, half: real, full: real)
    requires 0.0 < rate <= 1.0 && 0.0 <= step < h && 0.0 <= nn <= r * half && r > 0.0
    requires h * full == rate && full == 2.0 * half && half > 0.0
    ensures 2.0 * nn * step <= r
  {
    MulMonotone(nn, r * half, step, h);
    assert (r * half) * h == r * (half * h);
    assert 2.0 * (half * h) == rate;
    MulMonotoneRight(r, half * h, 0.5);
  }

  // ---- pessimistic counting ------------------------------------------------------------------

  /** One reading of the counts under the pessimistic rule: the first `frozen` trials are in n, and a
      trial is a success only if its POSITIVE label has been admitted.  */
  datatype Look = Look(frozen: nat, admitted: set<nat>)

  /** Admitted positives are the oracle's verdicts on frozen trials. */
  ghost predicate Truthful(look: Look, verdicts: Labels) {
    look.frozen <= |verdicts| && forall i :: i in look.admitted ==> i < look.frozen && verdicts[i]
  }

  lemma {:induction false} SuccessesSnoc(sigma: Labels, verdict: bool)
    ensures Successes(sigma + [verdict]) == Successes(sigma) + if verdict then 1 else 0
  {
    if sigma != [] {
      SuccessesSnoc(sigma[1..], verdict);
      assert (sigma + [verdict])[1..] == sigma[1..] + [verdict];
    }
  }

  lemma {:induction false} AdmittedAtMostTrue(verdicts: Labels, n: nat, admitted: set<nat>)
    requires n <= |verdicts| && forall i :: i in admitted ==> i < n && verdicts[i]
    ensures |admitted| <= Successes(verdicts[..n])
    decreases n
  {
    if n == 0 {
      assert admitted == {};
    } else {
      assert verdicts[..n] == verdicts[..n - 1] + [verdicts[n - 1]];
      SuccessesSnoc(verdicts[..n - 1], verdicts[n - 1]);
      AdmittedAtMostTrue(verdicts, n - 1, admitted - {n - 1});
    }
  }

  /** The gate read at one look under pessimistic counting. */
  ghost predicate Opens(look: Look, required: real, alpha: real) {
    |look.admitted| <= look.frozen
    && JeffreysBound(|look.admitted|, look.frozen - |look.admitted|, alpha) >= required
  }

  /** An open gate under delayed, withheld, censored or inconclusive labels means the counts of all the
      verdicts cross at the same n. */
  lemma OpenMeansFullInformationCrosses(look: Look, verdicts: Labels, required: real, alpha: real)
    requires Truthful(look, verdicts) && Opens(look, required, alpha) && 0.0 < required
    ensures Crossed(Successes(verdicts[..look.frozen]), Failures(verdicts[..look.frozen]), required, alpha, JEFFREYS, JEFFREYS)
  {
    AdmittedAtMostTrue(verdicts, look.frozen, look.admitted);
    var s := |look.admitted|;
    BoundImpliesCrossed(s, look.frozen - s, required, alpha, JEFFREYS, JEFFREYS);
    MoreSuccessesKeepCrossing(s, look.frozen - s, Successes(verdicts[..look.frozen]), Failures(verdicts[..look.frozen]),
                              required, alpha, JEFFREYS, JEFFREYS);
  }

  /** Whatever schedule of looks an adversary who sees every verdict chooses, the gate opens with chance
      at most alpha when p is at or below the requirement. */
  lemma PessimisticCountingValid(p: real, required: real, horizon: nat, alpha: real, schedule: Labels -> set<Look>)
    requires 0.0 <= p <= required <= 1.0 && 0.0 < required && 0.0 < alpha < 1.0
    requires forall verdicts, look :: |verdicts| == horizon && look in schedule(verdicts) ==> Truthful(look, verdicts)
    ensures Weight(p, horizon, (verdicts: Labels) => exists look :: look in schedule(verdicts) && Opens(look, required, alpha))
            <= alpha
  {
    var stop := (s: nat, f: nat) => Crossed(s, f, required, alpha, JEFFREYS, JEFFREYS);
    var event := (verdicts: Labels) => exists look :: look in schedule(verdicts) && Opens(look, required, alpha);
    forall s: nat, f: nat | stop(s, f) ensures Reached(s, f, p, alpha, JEFFREYS, JEFFREYS) {
      ReachedBelow(s, f, p, required, alpha, JEFFREYS, JEFFREYS);
    }
    forall verdicts: Labels | |verdicts| == horizon && event(verdicts)
      ensures exists n :: 0 <= n <= horizon && stop(Successes(verdicts[..n]), Failures(verdicts[..n]))
    {
      var look :| look in schedule(verdicts) && Opens(look, required, alpha);
      OpenMeansFullInformationCrosses(look, verdicts, required, alpha);
      assert stop(Successes(verdicts[..look.frozen]), Failures(verdicts[..look.frozen]));
    }
    LooksBounded(p, horizon, stop, event, alpha, JEFFREYS, JEFFREYS);
  }
}
