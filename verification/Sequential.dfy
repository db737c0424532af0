/** The lower end of the confidence sequence, found by bisection, and the shortcut that only asks
    whether the bound meets a requirement.  */
module Sequential {
  import opened Martingale
  import opened LikelihoodFacts

  const JEFFREYS := 0.5
  const BISECTION_STEPS: nat := 64

  datatype InputError = AlphaOutOfRange | NegativeCounts | ProbabilityOutOfRange | PriorNotPositive
  datatype Result<+T> = Ok(value: T) | Err(error: InputError)

  function Rate(s: nat, f: nat): real
    requires s + f > 0
  {
    s as real / (s + f) as real
  }

  /** What remains of a bracket of width w after n halvings. */
  function Halved(w: real, n: nat): real
    decreases n
  {
    if n == 0 then w else Halved(w / 2.0, n - 1)
  }

  function Bisect(s: nat, f: nat, alpha: real, a: real, b: real, lo: real, hi: real, steps: nat): real
    requires a > 0.0 && b > 0.0
    decreases steps
  {
    if steps == 0 then lo
    else
      var mid := (lo + hi) / 2.0;
      if Reached(s, f, mid, alpha, a, b) then Bisect(s, f, alpha, a, b, mid, hi, steps - 1)
      else Bisect(s, f, alpha, a, b, lo, mid, steps - 1)
  }

  /** The bound the gate compares, for counts that are natural numbers. */
  function LowerBound(s: nat, f: nat, alpha: real, a: real, b: real): real
    requires a > 0.0 && b > 0.0
  {
    if s == 0 || Reached(s, f, Rate(s, f), alpha, a, b) then 0.0
    else Bisect(s, f, alpha, a, b, 0.0, Rate(s, f), BISECTION_STEPS)
  }

  function JeffreysBound(s: nat, f: nat, alpha: real): real {
    LowerBound(s, f, alpha, JEFFREYS, JEFFREYS)
  }

  method LogMixtureReached(successes: int, failures: int, p: real, alpha: real, a: real, b: real) returns (r: Result<bool>)
    ensures successes < 0 || failures < 0 <==> r == Err(NegativeCounts)
    ensures successes >= 0 && failures >= 0 && (p < 0.0 || p > 1.0) <==> r == Err(ProbabilityOutOfRange)
    ensures successes >= 0 && failures >= 0 && 0.0 <= p <= 1.0 && (a <= 0.0 || b <= 0.0) <==> r == Err(PriorNotPositive)
    ensures successes >= 0 && failures >= 0 && 0.0 <= p <= 1.0 && a > 0.0 && b > 0.0 <==> r.Ok?
    ensures r.Ok? ==> (r.value <==> Reached(successes, failures, p, alpha, a, b))
  {
    if successes < 0 || failures < 0 { return Err(NegativeCounts); }
    if p < 0.0 || p > 1.0 { return Err(ProbabilityOutOfRange); }
    if a <= 0.0 || b <= 0.0 { return Err(PriorNotPositive); }
    r := Ok(Reached(successes, failures, p, alpha, a, b));
  }

  method BetaMixtureLowerBound(successes: int, failures: int, alpha: real, a: real, b: real) returns (r: Result<real>)
    ensures r == Err(AlphaOutOfRange) <==> alpha <= 0.0 || alpha >= 1.0
    ensures 0.0 < alpha < 1.0 && (successes <= 0 || successes + failures <= 0) ==> r == Ok(0.0)
    ensures 0.0 < alpha < 1.0 && successes > 0 && successes + failures > 0 ==>
              (r.Err? <==> failures < 0 || a <= 0.0 || b <= 0.0)
    ensures r.Ok? && successes > 0 && failures >= 0 ==>
              a > 0.0 && b > 0.0 && r.value == LowerBound(successes, failures, alpha, a, b)
    // whatever is returned as a positive bound is a point the martingale has excluded, at or below
    // the empirical rate, and one grid step above it is not excluded
    ensures r.Ok? && r.value != 0.0 ==>
              && successes > 0 && failures >= 0 && a > 0.0 && b > 0.0
              && 0.0 < r.value < Rate(successes, failures)
              && Reached(successes, failures, r.value, alpha, a, b)
              && !Reached(successes, failures, r.value + Halved(Rate(successes, failures), BISECTION_STEPS), alpha, a, b)
  {
    if alpha <= 0.0 || alpha >= 1.0 { return Err(AlphaOutOfRange); }
    var total := successes + failures;
    if total <= 0 || successes <= 0 { return Ok(0.0); }
    var hi := successes as real / total as real;
    var atMaximum := LogMixtureReached(successes, failures, hi, alpha, a, b);
    if atMaximum.Err? {
      assert failures < 0 || a <= 0.0 || b <= 0.0 by { if failures >= 0 { RateRange(successes, failures); } }
      return Err(atMaximum.error);
    }
    RateRange(successes, failures);
    if atMaximum.value { return Ok(0.0); }
    var lo := 0.0;
    ghost var rate := hi;
    var i := 0;
    while i < BISECTION_STEPS
      invariant 0 <= i <= BISECTION_STEPS
      invariant 0.0 <= lo < hi <= rate
      invariant lo == 0.0 || Reached(successes, failures, lo, alpha, a, b)
      invariant !Reached(successes, failures, hi, alpha, a, b)
      invariant Halved(hi - lo, BISECTION_STEPS - i) == Halved(rate, BISECTION_STEPS)
      invariant Bisect(successes, failures, alpha, a, b, lo, hi, BISECTION_STEPS - i)
             == Bisect(successes, failures, alpha, a, b, 0.0, rate, BISECTION_STEPS)
    {
      var mid := (lo + hi) / 2.0;
      var reached := LogMixtureReached(successes, failures, mid, alpha, a, b);
      assert mid - lo == (hi - lo) / 2.0 == hi - mid;
      if reached.value { lo := mid; } else { hi := mid; }
      i := i + 1;
    }
    r := Ok(lo);
  }

  /** "Is the bound at least `required`", without computing the bound. */
  method Crosses(successes: int, failures: int, required: real, alpha: real, a: real, b: real) returns (r: Result<bool>)
    ensures successes + failures <= 0 ==> r == Ok(false)
    ensures successes + failures > 0 ==>
              (r.Err? <==> required * (successes + failures) as real <= successes as real
                           && (successes < 0 || failures < 0 || required < 0.0 || required > 1.0 || a <= 0.0 || b <= 0.0))
    ensures r.Ok? && r.value ==> successes >= 0 && failures >= 0 && a > 0.0 && b > 0.0
    ensures r.Ok? && successes >= 0 && failures >= 0 && a > 0.0 && b > 0.0 ==>
              (r.value <==> Crossed(successes, failures, required, alpha, a, b))
  {
    var total := successes + failures;
    if total <= 0 { return Ok(false); }
    AboveRate(required, successes, total);
    if required > successes as real / total as real { return Ok(false); }
    r := LogMixtureReached(successes, failures, required, alpha, a, b);
  }

  lemma AboveRate(r: real, s: int, n: int)
    requires n > 0
    ensures r > s as real / n as real <==> r * n as real > s as real
  {
    var q, m := s as real / n as real, n as real;
    assert q * m == s as real;
    if r > q { assert (r - q) * m > 0.0; } else { assert (q - r) * m >= 0.0; }
  }

  ghost predicate Crossed(s: nat, f: nat, required: real, alpha: real, a: real, b: real)
    requires a > 0.0 && b > 0.0
  {
    s + f > 0 && required * (s + f) as real <= s as real && Reached(s, f, required, alpha, a, b)
  }

  lemma RateRange(s: nat, f: nat)
    requires s > 0
    ensures 0.0 < Rate(s, f) <= 1.0 && Rate(s, f) * (s + f) as real == s as real
  {
    var q, n := Rate(s, f), (s + f) as real;
    assert q * n == s as real;
    Cancel(q, 1.0, n);
    if q <= 0.0 { Cancel2(q, n); }
  }

  lemma BelowRate(x: real, s: nat, f: nat)
    requires s + f > 0 && x <= Rate(s, f)
    ensures x * (s + f) as real <= s as real
  {
    AboveRate(x, s, s + f);
  }

  lemma Cancel2(q: real, n: real)
    requires n > 0.0 && q <= 0.0
    ensures q * n <= 0.0
  {}

  // ---- what the bisection brackets ---------------------------------------------------------

  lemma {:induction false} BisectBrackets(s: nat, f: nat, alpha: real, a: real, b: real, lo: real, hi: real, steps: nat)
    requires a > 0.0 && b > 0.0 && 0.0 <= lo < hi
    requires lo == 0.0 || Reached(s, f, lo, alpha, a, b)
    requires !Reached(s, f, hi, alpha, a, b)
    ensures var l := Bisect(s, f, alpha, a, b, lo, hi, steps); var u := l + Halved(hi - lo, steps);
            lo <= l < u <= hi && (l == 0.0 || Reached(s, f, l, alpha, a, b)) && !Reached(s, f, u, alpha, a, b)
    decreases steps
  {
    if steps > 0 {
      var mid := (lo + hi) / 2.0;
      assert mid - lo == (hi - lo) / 2.0 == hi - mid;
      if Reached(s, f, mid, alpha, a, b) {
        BisectBrackets(s, f, alpha, a, b, mid, hi, steps - 1);
      } else {
        BisectBrackets(s, f, alpha, a, b, lo, mid, steps - 1);
      }
    }
  }

  /** Reaching 1/alpha is inherited downwards from any point at or below the empirical rate. */
  lemma ReachedBelow(s: nat, f: nat, p: real, q: real, alpha: real, a: real, b: real)
    requires a > 0.0 && b > 0.0 && 0.0 <= p <= q <= 1.0 && q * (s + f) as real <= s as real
    requires Reached(s, f, q, alpha, a, b)
    ensures Reached(s, f, p, alpha, a, b)
  {
    LikelihoodMonotone(p, q, s, f);
  }

  /** Every point at or below a positive bound is excluded, so a bound that meets a requirement
      crosses it. */
  lemma BoundImpliesCrossed(s: nat, f: nat, required: real, alpha: real, a: real, b: real)
    requires a > 0.0 && b > 0.0 && 0.0 < required <= LowerBound(s, f, alpha, a, b)
    ensures Crossed(s, f, required, alpha, a, b)
    ensures LowerBound(s, f, alpha, a, b) < Rate(s, f)
  {
    RateRange(s, f);
    var rate, l := Rate(s, f), LowerBound(s, f, alpha, a, b);
    BisectBrackets(s, f, alpha, a, b, 0.0, rate, BISECTION_STEPS);
    BelowRate(l, s, f);
    BelowRate(required, s, f);
    ReachedBelow(s, f, required, l, alpha, a, b);
  }

  /** At the empirical rate the martingale is at most 1: the guard before the bisection never fires
      under the Jeffreys prior. */
  lemma GuardNeverFires(s: nat, f: nat, alpha: real)
    requires s > 0 && 0.0 < alpha < 1.0
    ensures !Reached(s, f, Rate(s, f), alpha, JEFFREYS, JEFFREYS)
  {
    MixtureAtMostMaximum(s, f);
    MixturePositive(s, f, 0.5, 0.5);
    BelowThreshold(s, f, Rate(s, f), alpha, JEFFREYS, JEFFREYS);
  }

  lemma BelowThreshold(s: nat, f: nat, p: real, alpha: real, a: real, b: real)
    requires a > 0.0 && b > 0.0 && 0.0 < alpha < 1.0
    requires 0.0 < Mixture(s, f, a, b) <= Likelihood(p, s, f)
    ensures !Reached(s, f, p, alpha, a, b)
  {
    Shrink(alpha, Mixture(s, f, a, b));
  }

  lemma Shrink(alpha: real, k: real)
    requires 0.0 < alpha < 1.0 && k > 0.0
    ensures alpha * k < k
  {}

  /** Past the guard, a crossing at `required` puts the requirement below the bound plus one step of
      the 64-fold halved grid: the shortcut and the bound differ by less than rate / 2^64. */
  lemma CrossedImpliesNearBound(s: nat, f: nat, required: real, alpha: real)
    requires 0.0 < alpha < 1.0 && s > 0 && 0.0 <= required
    requires Crossed(s, f, required, alpha, JEFFREYS, JEFFREYS)
    ensures required < JeffreysBound(s, f, alpha) + Halved(Rate(s, f), BISECTION_STEPS)
  {
    GuardNeverFires(s, f, alpha);
    RateRange(s, f);
    var rate, l := Rate(s, f), JeffreysBound(s, f, alpha);
    BisectBrackets(s, f, alpha, JEFFREYS, JEFFREYS, 0.0, rate, BISECTION_STEPS);
    var u := l + Halved(rate, BISECTION_STEPS);
    if u <= required {
      AboveRate(required, s, s + f);
      ReachedBelow(s, f, u, required, alpha, JEFFREYS, JEFFREYS);
      assert false;
    }
  }

  lemma {:induction false} HalvedTimesPower(w: real, n: nat)
    ensures Halved(w, n) * Pow(2.0, n) == w
    decreases n
  {
    if n > 0 {
      HalvedTimesPower(w / 2.0, n - 1);
      assert Halved(w, n) == Halved(w / 2.0, n - 1);
      assert Pow(2.0, n) == 2.0 * Pow(2.0, n - 1);
    }
  }
}
