/** Several independent sequences of labels at once: their joint weight, and why the chance that any of them does
    what each does rarely is at most the sum of those chances.  */
module JointTrials {
  import opened LikelihoodFacts
  import opened Anytime

  // ---- means over one sequence -----------------------------------------------------------------------------------

  ghost function Given(f: Labels -> real, verdict: bool): Labels -> real {
    (sigma: Labels) => f([verdict] + sigma)
  }

  /** The Bernoulli(p) mean of a function of the label sequences of length `horizon`. */
  ghost function Mean(p: real, horizon: nat, f: Labels -> real): real
    decreases horizon
  {
    if horizon == 0 then f([])
    else Average(p, Mean(p, horizon - 1, Given(f, true)), Mean(p, horizon - 1, Given(f, false)))
  }

  /** What an event adds to a constant. */
  ghost function Bonus(event: Labels -> bool, c: real): Labels -> real {
    (sigma: Labels) => (if event(sigma) then 1.0 else 0.0) + c
  }

  lemma {:induction false} MeanAtMost(p: real, horizon: nat, f: Labels -> real, event: Labels -> bool, c: real)
    requires 0.0 <= p <= 1.0 && forall sigma :: |sigma| == horizon ==> f(sigma) <= Bonus(event, c)(sigma)
    ensures Mean(p, horizon, f) <= Weight(p, horizon, event) + c
    decreases horizon
  {
    if horizon == 0 {
      assert f([]) <= Bonus(event, c)([]);
    } else {
      MeanGiven(p, horizon, f, event, c, true);
      MeanGiven(p, horizon, f, event, c, false);
      var x, y := Mean(p, horizon - 1, Given(f, true)), Mean(p, horizon - 1, Given(f, false));
      var u, v := Weight(p, horizon - 1, After(event, true)), Weight(p, horizon - 1, After(event, false));
      AverageMonotone(p, x, y, u + c, v + c);
      AverageShift(p, u, v, c);
    }
  }

  lemma MeanGiven(p: real, horizon: nat, f: Labels -> real, event: Labels -> bool, c: real, verdict: bool)
    requires 0.0 <= p <= 1.0 && horizon > 0 && forall sigma :: |sigma| == horizon ==> f(sigma) <= Bonus(event, c)(sigma)
    ensures Mean(p, horizon - 1, Given(f, verdict)) <= Weight(p, horizon - 1, After(event, verdict)) + c
    decreases horizon, 0
  {
    forall sigma: Labels | |sigma| == horizon - 1 ensures Given(f, verdict)(sigma) <= Bonus(After(event, verdict), c)(sigma) {
      assert f([verdict] + sigma) <= Bonus(event, c)([verdict] + sigma);
    }
    MeanAtMost(p, horizon - 1, Given(f, verdict), After(event, verdict), c);
  }

  lemma AverageShift(p: real, u: real, v: real, c: real)
    ensures Average(p, u + c, v + c) == Average(p, u, v) + c
  {
    assert p * (u + c) == p * u + p * c;
    assert (1.0 - p) * (v + c) == (1.0 - p) * v + (1.0 - p) * c;
    assert p * c + (1.0 - p) * c == c;
  }

  lemma {:induction false} MeanNotNegative(p: real, horizon: nat, f: Labels -> real)
    requires 0.0 <= p <= 1.0 && forall sigma :: |sigma| == horizon ==> f(sigma) >= 0.0
    ensures Mean(p, horizon, f) >= 0.0
    decreases horizon
  {
    if horizon > 0 {
      GivenNotNegative(p, horizon, f, true);
      GivenNotNegative(p, horizon, f, false);
      AverageMonotone(p, 0.0, 0.0, Mean(p, horizon - 1, Given(f, true)), Mean(p, horizon - 1, Given(f, false)));
    }
  }

  lemma GivenNotNegative(p: real, horizon: nat, f: Labels -> real, verdict: bool)
    requires 0.0 <= p <= 1.0 && horizon > 0 && forall sigma :: |sigma| == horizon ==> f(sigma) >= 0.0
    ensures Mean(p, horizon - 1, Given(f, verdict)) >= 0.0
    decreases horizon, 0
  {
    forall sigma: Labels | |sigma| == horizon - 1 ensures Given(f, verdict)(sigma) >= 0.0 {
      assert f([verdict] + sigma) >= 0.0;
    }
    MeanNotNegative(p, horizon - 1, Given(f, verdict));
  }

  // ---- several sequences -----------------------------------------------------------------------------------------

  type Outcomes = seq<Labels>

  ghost function Rest(event: Outcomes -> bool, first: Labels): Outcomes -> bool {
    (rest: Outcomes) => event([first] + rest)
  }

  /** The weight of an event about independent sequences, each with its own rate. */
  ghost function JointWeight(rates: seq<real>, horizon: nat, event: Outcomes -> bool): real
    decreases |rates|
  {
    if rates == [] then if event([]) then 1.0 else 0.0
    else Mean(rates[0], horizon, (first: Labels) => JointWeight(rates[1..], horizon, Rest(event, first)))
  }

  ghost predicate Rates(rates: seq<real>) {
    forall k :: 0 <= k < |rates| ==> 0.0 <= rates[k] <= 1.0
  }

  /** One sequence of the full length for each rate. */
  predicate Shaped(outcomes: Outcomes, n: nat, horizon: nat) {
    |outcomes| == n && forall k :: 0 <= k < n ==> |outcomes[k]| == horizon
  }

  lemma {:induction false} JointRange(rates: seq<real>, horizon: nat, event: Outcomes -> bool)
    requires Rates(rates)
    ensures 0.0 <= JointWeight(rates, horizon, event) <= 1.0
    decreases |rates|
  {
    if rates != [] {
      var f := (first: Labels) => JointWeight(rates[1..], horizon, Rest(event, first));
      forall first: Labels ensures 0.0 <= f(first) <= 1.0 { JointRange(rates[1..], horizon, Rest(event, first)); }
      MeanNotNegative(rates[0], horizon, f);
      MeanAtMost(rates[0], horizon, f, NEVER, 1.0);
      NeverWeighsNothing(rates[0], horizon);
    }
  }

  const NEVER: Labels -> bool := (sigma: Labels) => false

  lemma {:induction false} NeverWeighsNothing(p: real, horizon: nat)
    requires 0.0 <= p <= 1.0
    ensures Weight(p, horizon, NEVER) == 0.0
    decreases horizon
  {
    if horizon > 0 {
      NeverWeighsNothing(p, horizon - 1);
      WeightMonotone(p, horizon - 1, After(NEVER, true), NEVER);
      WeightMonotone(p, horizon - 1, After(NEVER, false), NEVER);
      WeightRange(p, horizon - 1, After(NEVER, true));
      WeightRange(p, horizon - 1, After(NEVER, false));
      assert Weight(p, horizon, NEVER) == Average(p, 0.0, 0.0);
    }
  }

  ghost function SumOfWeights(rates: seq<real>, horizon: nat, hits: seq<Labels -> bool>): real
    requires |hits| == |rates|
    decreases |rates|
  {
    if rates == [] then 0.0 else Weight(rates[0], horizon, hits[0]) + SumOfWeights(rates[1..], horizon, hits[1..])
  }

  lemma {:induction false} SumNotNegative(rates: seq<real>, horizon: nat, hits: seq<Labels -> bool>)
    requires |hits| == |rates| && Rates(rates)
    ensures SumOfWeights(rates, horizon, hits) >= 0.0
    decreases |rates|
  {
    if rates != [] {
      WeightRange(rates[0], horizon, hits[0]);
      SumNotNegative(rates[1..], horizon, hits[1..]);
    }
  }

  /** The event happens only if one of the sequences is hit. */
  ghost predicate Covered(n: nat, horizon: nat, hits: seq<Labels -> bool>, event: Outcomes -> bool)
    requires |hits| == n
  {
    forall outcomes: Outcomes :: Shaped(outcomes, n, horizon) && event(outcomes) ==> SomeHit(hits, outcomes)
  }

  ghost predicate SomeHit(hits: seq<Labels -> bool>, outcomes: Outcomes)
    requires |hits| == |outcomes|
  {
    exists k :: 0 <= k < |outcomes| && hits[k](outcomes[k])
  }

  /** If the first sequence is not hit, one of the others is. */
  lemma RestCovered(n: nat, horizon: nat, hits: seq<Labels -> bool>, event: Outcomes -> bool, first: Labels)
    requires |hits| == n > 0 && Covered(n, horizon, hits, event) && |first| == horizon && !hits[0](first)
    ensures Covered(n - 1, horizon, hits[1..], Rest(event, first))
  {
    forall rest: Outcomes | Shaped(rest, n - 1, horizon) && Rest(event, first)(rest) ensures SomeHit(hits[1..], rest) {
      var outcomes := [first] + rest;
      assert Shaped(outcomes, n, horizon);
      var k :| 0 <= k < n && hits[k](outcomes[k]);
      assert hits[1..][k - 1](rest[k - 1]);
    }
  }

  lemma NothingToHit(horizon: nat, hits: seq<Labels -> bool>, event: Outcomes -> bool)
    requires hits == [] && Covered(0, horizon, hits, event)
    ensures !event([])
  {
    assert Shaped([], 0, horizon) && !SomeHit(hits, []);
  }

  /** The chance that any sequence is hit is at most the sum of their chances. */
  lemma {:induction false} UnionBound(rates: seq<real>, horizon: nat, hits: seq<Labels -> bool>, event: Outcomes -> bool)
    requires |hits| == |rates| && Rates(rates) && Covered(|rates|, horizon, hits, event)
    ensures JointWeight(rates, horizon, event) <= SumOfWeights(rates, horizon, hits)
    decreases |rates|
  {
    if rates == [] {
      NothingToHit(horizon, hits, event);
    } else {
      var others := SumOfWeights(rates[1..], horizon, hits[1..]);
      var f := (first: Labels) => JointWeight(rates[1..], horizon, Rest(event, first));
      SumNotNegative(rates[1..], horizon, hits[1..]);
      forall first: Labels | |first| == horizon ensures f(first) <= Bonus(hits[0], others)(first) {
        JointRange(rates[1..], horizon, Rest(event, first));
        if !hits[0](first) {
          RestCovered(|rates|, horizon, hits, event, first);
          UnionBound(rates[1..], horizon, hits[1..], Rest(event, first));
        }
      }
      MeanAtMost(rates[0], horizon, f, hits[0], others);
    }
  }
}
