/** Anytime validity of the gate: the chance that the bound of a Bernoulli(p) partition ever meets a
    requirement at or above p, at any look up to any horizon, is at most alpha.  */
module Anytime {
  import opened Martingale
  import opened LikelihoodFacts
  import opened Sequential

  type Labels = seq<bool>

  function Successes(sigma: Labels): nat {
    if sigma == [] then 0 else (if sigma[0] then 1 else 0) + Successes(sigma[1..])
  }

  lemma {:induction false} SuccessesBounded(sigma: Labels)
    ensures Successes(sigma) <= |sigma|
  {
    if sigma != [] { SuccessesBounded(sigma[1..]); }
  }

  function Failures(sigma: Labels): nat {
    SuccessesBounded(sigma);
    |sigma| - Successes(sigma)
  }

  // ---- the product measure on label sequences ------------------------------------------------

  ghost function After(event: Labels -> bool, verdict: bool): Labels -> bool {
    (sigma: Labels) => event([verdict] + sigma)
  }

  /** The Bernoulli(p) weight of the label sequences of length `horizon` in `event`. */
  ghost function Weight(p: real, horizon: nat, event: Labels -> bool): real
    decreases horizon
  {
    if horizon == 0 then if event([]) then 1.0 else 0.0
    else Average(p, Weight(p, horizon - 1, After(event, true)), Weight(p, horizon - 1, After(event, false)))
  }

  function Average(p: real, x: real, y: real): real {
    p * x + (1.0 - p) * y
  }

  lemma AverageMonotone(p: real, x: real, y: real, x': real, y': real)
    requires 0.0 <= p <= 1.0 && x <= x' && y <= y'
    ensures Average(p, x, y) <= Average(p, x', y')
  {
    WeighedLess(p, 1.0 - p, x, y, x', y');
  }

  lemma AverageParts(p: real, q: real, x: real, y: real, px: real, qy: real)
    requires q == 1.0 - p && px == p * x && qy == q * y
    ensures Average(p, x, y) == px + qy
  {}

  lemma WeighedLess(p: real, q: real, x: real, y: real, x': real, y': real)
    requires q == 1.0 - p && p >= 0.0 && q >= 0.0 && x <= x' && y <= y'
    ensures Average(p, x, y) <= Average(p, x', y')
  {
    MulMonotoneRight(p, x, x');
    MulMonotoneRight(q, y, y');
    AddWeighed(p, q, x, y, x', y', p * x, q * y, p * x', q * y');
  }

  lemma AddWeighed(p: real, q: real, x: real, y: real, x': real, y': real, a: real, b: real, c: real, d: real)
    requires q == 1.0 - p && a == p * x && b == q * y && c == p * x' && d == q * y' && a <= c && b <= d
    ensures Average(p, x, y) <= Average(p, x', y')
  {
    AverageParts(p, q, x, y, a, b);
    AverageParts(p, q, x', y', c, d);
  }

  lemma {:induction false} WeightMonotone(p: real, horizon: nat, event: Labels -> bool, wider: Labels -> bool)
    requires 0.0 <= p <= 1.0
    requires forall sigma :: |sigma| == horizon && event(sigma) ==> wider(sigma)
    ensures Weight(p, horizon, event) <= Weight(p, horizon, wider)
    decreases horizon
  {
    if horizon > 0 {
      WeightMonotone(p, horizon - 1, After(event, true), After(wider, true));
      WeightMonotone(p, horizon - 1, After(event, false), After(wider, false));
      AverageMonotone(p, Weight(p, horizon - 1, After(event, true)), Weight(p, horizon - 1, After(event, false)),
                      Weight(p, horizon - 1, After(wider, true)), Weight(p, horizon - 1, After(wider, false)));
    }
  }

  lemma {:induction false} WeightRange(p: real, horizon: nat, event: Labels -> bool)
    requires 0.0 <= p <= 1.0
    ensures 0.0 <= Weight(p, horizon, event) <= 1.0
    ensures (forall sigma :: |sigma| == horizon ==> event(sigma)) ==> Weight(p, horizon, event) == 1.0
    decreases horizon
  {
    if horizon > 0 {
      WeightRange(p, horizon - 1, After(event, true));
      WeightRange(p, horizon - 1, After(event, false));
      AverageMonotone(p, 0.0, 0.0, Weight(p, horizon - 1, After(event, true)), Weight(p, horizon - 1, After(event, false)));
      AverageMonotone(p, Weight(p, horizon - 1, After(event, true)), Weight(p, horizon - 1, After(event, false)), 1.0, 1.0);
    }
  }

  // ---- finite-horizon maximal inequality ---------------------------------------------------------

  /** Some look at or after the counts (s, f) stops, as the labels of sigma arrive. */
  ghost predicate StopsFrom(stop: (nat, nat) -> bool, s: nat, f: nat, sigma: Labels)
    decreases |sigma|
  {
    stop(s, f) || (sigma != [] && if sigma[0] then StopsFrom(stop, s + 1, f, sigma[1..])
                                  else StopsFrom(stop, s, f + 1, sigma[1..]))
  }

  ghost function Stopping(stop: (nat, nat) -> bool, s: nat, f: nat): Labels -> bool {
    (sigma: Labels) => StopsFrom(stop, s, f, sigma)
  }

  /** What the inequality needs of a mixture: nonnegative, and split exactly by the next label. */
  ghost predicate Splits(mix: (nat, nat) -> real) {
    forall i: nat, j: nat :: SplitsAt(mix, i, j)
  }

  ghost predicate SplitsAt(mix: (nat, nat) -> real, i: nat, j: nat) {
    mix(i, j) >= 0.0 && mix(i + 1, j) + mix(i, j + 1) == mix(i, j)
  }

  /** A region the martingale at p has reached is entered with chance at most alpha: the likelihood
      of getting to (s, f) times the chance of stopping from there is at most alpha times the mixture
      at (s, f). */
  lemma {:induction false} MaximalInequality(p: real, horizon: nat, stop: (nat, nat) -> bool, s: nat, f: nat,
                                             alpha: real, mix: (nat, nat) -> real)
    requires 0.0 <= p <= 1.0 && alpha > 0.0 && Splits(mix)
    requires forall i: nat, j: nat :: stop(i, j) ==> alpha * mix(i, j) >= Likelihood(p, i, j)
    ensures Likelihood(p, s, f) * Weight(p, horizon, Stopping(stop, s, f)) <= alpha * mix(s, f)
    decreases horizon
  {
    assert SplitsAt(mix, s, f);
    if stop(s, f) {
      StoppedNow(p, horizon, stop, s, f);
    } else if horizon == 0 {
      MulRange(alpha, mix(s, f));
    } else {
      MaximalInequality(p, horizon - 1, stop, s + 1, f, alpha, mix);
      MaximalInequality(p, horizon - 1, stop, s, f + 1, alpha, mix);
      OneMoreLabel(p, horizon, stop, s, f, alpha, mix(s + 1, f), mix(s, f + 1), mix(s, f));
    }
  }

  lemma OneMoreLabel(p: real, horizon: nat, stop: (nat, nat) -> bool, s: nat, f: nat, alpha: real,
                     k1: real, k2: real, k: real)
    requires 0.0 <= p <= 1.0 && horizon > 0 && !stop(s, f) && k1 + k2 == k
    requires Likelihood(p, s + 1, f) * Weight(p, horizon - 1, Stopping(stop, s + 1, f)) <= alpha * k1
    requires Likelihood(p, s, f + 1) * Weight(p, horizon - 1, Stopping(stop, s, f + 1)) <= alpha * k2
    ensures Likelihood(p, s, f) * Weight(p, horizon, Stopping(stop, s, f)) <= alpha * k
  {
    NextLabel(p, horizon, stop, s, f);
    CombineAt(p, s, f, Weight(p, horizon - 1, Stopping(stop, s + 1, f)), Weight(p, horizon - 1, Stopping(stop, s, f + 1)),
              alpha, k1, k2, k, Weight(p, horizon, Stopping(stop, s, f)));
  }

  lemma CombineAt(p: real, s: nat, f: nat, w1: real, w2: real, alpha: real, k1: real, k2: real, k: real, w: real)
    requires w == Average(p, w1, w2) && k1 + k2 == k
    requires Likelihood(p, s + 1, f) * w1 <= alpha * k1 && Likelihood(p, s, f + 1) * w2 <= alpha * k2
    ensures Likelihood(p, s, f) * w <= alpha * k
  {
    LikelihoodSplits(p, s, f);
    Combine(Likelihood(p, s, f), p, w1, w2, Likelihood(p, s + 1, f), Likelihood(p, s, f + 1), alpha, k1, k2, k, w);
  }

  lemma StoppedNow(p: real, horizon: nat, stop: (nat, nat) -> bool, s: nat, f: nat)
    requires 0.0 <= p <= 1.0
    ensures Likelihood(p, s, f) * Weight(p, horizon, Stopping(stop, s, f)) <= Likelihood(p, s, f)
  {
    WeightRange(p, horizon, Stopping(stop, s, f));
    PowRange(p, s);
    PowRange(1.0 - p, f);
    MulRange(Pow(p, s), Pow(1.0 - p, f));
    MulMonotoneRight(Likelihood(p, s, f), Weight(p, horizon, Stopping(stop, s, f)), 1.0);
  }

  lemma LikelihoodSplits(p: real, s: nat, f: nat)
    ensures Likelihood(p, s + 1, f) == p * Likelihood(p, s, f)
    ensures Likelihood(p, s, f + 1) == (1.0 - p) * Likelihood(p, s, f)
  {
    PowStep(p, s);
    PowStep(1.0 - p, f);
    Associate(p, Pow(p, s), Pow(1.0 - p, f));
    Associate(1.0 - p, Pow(1.0 - p, f), Pow(p, s));
  }

  lemma Associate(x: real, y: real, z: real)
    ensures (x * y) * z == x * (y * z) == x * (z * y) == z * (x * y)
  {}

  lemma Combine(l: real, p: real, w1: real, w2: real, l1: real, l2: real, alpha: real, k1: real, k2: real, k: real, w: real)
    requires l1 == p * l && l2 == (1.0 - p) * l && w == Average(p, w1, w2)
    requires l1 * w1 <= alpha * k1 && l2 * w2 <= alpha * k2 && k1 + k2 == k
    ensures l * w <= alpha * k
  {
    assert l * w == (p * l) * w1 + ((1.0 - p) * l) * w2;
    assert alpha * k == alpha * k1 + alpha * k2;
  }

  lemma NextLabel(p: real, horizon: nat, stop: (nat, nat) -> bool, s: nat, f: nat)
    requires 0.0 <= p <= 1.0 && horizon > 0 && !stop(s, f)
    ensures Weight(p, horizon, Stopping(stop, s, f))
         == Average(p, Weight(p, horizon - 1, Stopping(stop, s + 1, f)), Weight(p, horizon - 1, Stopping(stop, s, f + 1)))
  {
    var event := Stopping(stop, s, f);
    forall sigma: Labels
      ensures After(event, true)(sigma) == Stopping(stop, s + 1, f)(sigma)
      ensures After(event, false)(sigma) == Stopping(stop, s, f + 1)(sigma)
    {
      assert ([true] + sigma)[1..] == sigma == ([false] + sigma)[1..];
    }
    WeightMonotone(p, horizon - 1, After(event, true), Stopping(stop, s + 1, f));
    WeightMonotone(p, horizon - 1, Stopping(stop, s + 1, f), After(event, true));
    WeightMonotone(p, horizon - 1, After(event, false), Stopping(stop, s, f + 1));
    WeightMonotone(p, horizon - 1, Stopping(stop, s, f + 1), After(event, false));
  }

  /** Stopping is stopping at some look: after some prefix of the labels. */
  lemma {:induction false} StopsAtSomeLook(stop: (nat, nat) -> bool, s: nat, f: nat, sigma: Labels, n: nat)
    requires n <= |sigma| && stop(s + Successes(sigma[..n]), f + Failures(sigma[..n]))
    ensures StopsFrom(stop, s, f, sigma)
    decreases |sigma|
  {
    if n > 0 {
      var head, tail := sigma[..n], sigma[1..];
      assert head[1..] == tail[..n - 1];
      if sigma[0] { StopsAtSomeLook(stop, s + 1, f, tail, n - 1); } else { StopsAtSomeLook(stop, s, f + 1, tail, n - 1); }
    }
  }

  /** A rule that only stops where the martingale at p has reached 1/alpha, read after every label,
      stops with chance at most alpha.  Looks may be skipped: any event contained in stopping at
      some look is covered. */
  lemma LooksBounded(p: real, horizon: nat, stop: (nat, nat) -> bool, event: Labels -> bool, alpha: real, a: real, b: real)
    requires 0.0 <= p <= 1.0 && alpha > 0.0 && a > 0.0 && b > 0.0
    requires forall i: nat, j: nat :: stop(i, j) ==> Reached(i, j, p, alpha, a, b)
    requires forall sigma :: |sigma| == horizon && event(sigma) ==>
               exists n :: 0 <= n <= horizon && stop(Successes(sigma[..n]), Failures(sigma[..n]))
    ensures Weight(p, horizon, event) <= alpha
  {
    forall sigma | |sigma| == horizon && event(sigma)
      ensures Stopping(stop, 0, 0)(sigma)
    {
      var n :| 0 <= n <= horizon && stop(Successes(sigma[..n]), Failures(sigma[..n]));
      StopsAtSomeLook(stop, 0, 0, sigma, n);
    }
    WeightMonotone(p, horizon, event, Stopping(stop, 0, 0));
    var mix := (i: nat, j: nat) => Mixture(i, j, a, b);
    forall i: nat, j: nat
      ensures SplitsAt(mix, i, j)
    {
      MixturePositive(i, j, a, b);
      MixtureSplits(i, j, a, b);
    }
    MaximalInequality(p, horizon, stop, 0, 0, alpha, mix);
    assert Mixture(0, 0, a, b) == 1.0;
    assert Likelihood(p, 0, 0) == 1.0;
  }

  ghost predicate EverAuthorised(sigma: Labels, required: real, alpha: real, a: real, b: real)
    requires a > 0.0 && b > 0.0
  {
    exists n :: 0 <= n <= |sigma| && LowerBound(Successes(sigma[..n]), Failures(sigma[..n]), alpha, a, b) >= required
  }

  /** The claim of the method: for every p at or below the requirement, every level and every horizon,
      the label sequences on which the computed bound meets the requirement at any look weigh at most
      alpha. */
  lemma AnytimeValid(p: real, required: real, horizon: nat, alpha: real, a: real, b: real)
    requires 0.0 <= p <= required && 0.0 < required && 0.0 < alpha < 1.0 && a > 0.0 && b > 0.0
    requires p <= 1.0
    ensures Weight(p, horizon, (sigma: Labels) => EverAuthorised(sigma, required, alpha, a, b)) <= alpha
  {
    var stop := (s: nat, f: nat) => LowerBound(s, f, alpha, a, b) >= required;
    forall s: nat, f: nat | stop(s, f) ensures Reached(s, f, p, alpha, a, b) {
      BoundImpliesCrossed(s, f, required, alpha, a, b);
      RateRange(s, f);
      assert required <= 1.0 by { BoundAtMostOne(s, f, required, alpha, a, b); }
      ReachedBelow(s, f, p, required, alpha, a, b);
    }
    LooksBounded(p, horizon, stop, (sigma: Labels) => EverAuthorised(sigma, required, alpha, a, b), alpha, a, b);
  }

  lemma BoundAtMostOne(s: nat, f: nat, required: real, alpha: real, a: real, b: real)
    requires a > 0.0 && b > 0.0 && 0.0 < required <= LowerBound(s, f, alpha, a, b)
    ensures required <= 1.0
  {
    BoundImpliesCrossed(s, f, required, alpha, a, b);
    RateRange(s, f);
  }
}
