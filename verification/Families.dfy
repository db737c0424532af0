/** The error budget as a promise about chance: over whole runs, with any number of partitions and epochs, the gate of
    any partition that is not good enough ever opens with chance at most the one budget.  */
module Families {
  import opened Martingale
  import opened LikelihoodFacts
  import opened Sequential
  import opened Anytime
  import opened JointTrials
  import opened AlphaSpending
  import opened Tables
  import opened Shadow
  import opened Lifecycle
  import opened Allocations
  import opened Systems
  import opened Runs
  import opened ErrorBudgets
  import V = Validity
  import Delay
  import Risk

  // ---- the levels of a family ------------------------------------------------------------------------------------

  /** A registration and one of its epochs, both counted from 1, and how often that epoch was started over by hand. */
  datatype Place = Place(index: nat, epoch: nat, opening: nat)

  /** How many openings by hand are allowed for in each epoch of each registration. */
  type Allowance = (nat, nat) -> nat

  const NO_OPENINGS: Allowance := (index: nat, epoch: nat) => 0

  function Tries(k: nat, e: nat, n: nat): seq<Place> {
    if n == 0 then [] else Tries(k, e, n - 1) + [Place(k, e, n - 1)]
  }

  function Column(k: nat, e: nat, extra: Allowance): seq<Place> {
    if e == 0 then [] else Column(k, e - 1, extra) + Tries(k, e, 1 + extra(k, e))
  }

  /** The first k registrations with their first e epochs, each as often as it is started over. */
  function Grid(k: nat, e: nat, extra: Allowance): seq<Place> {
    if k == 0 then [] else Grid(k - 1, e, extra) + Column(k, e, extra)
  }

  function Level(alpha: real, c: real, p: Place): real {
    if p.index == 0 || p.epoch == 0 then 0.0 else alpha * Share(c, p.index) * Share(c, p.epoch)
  }

  function Levels(alpha: real, c: real, places: seq<Place>): real {
    if places == [] then 0.0 else Level(alpha, c, places[0]) + Levels(alpha, c, places[1..])
  }

  lemma {:induction false} LevelsAppend(alpha: real, c: real, a: seq<Place>, b: seq<Place>)
    ensures Levels(alpha, c, a + b) == Levels(alpha, c, a) + Levels(alpha, c, b)
  {
    if a == [] {
      assert a + b == b;
    } else {
      assert (a + b)[1..] == a[1..] + b;
      LevelsAppend(alpha, c, a[1..], b);
    }
  }

  lemma OneLevel(alpha: real, c: real, p: Place)
    ensures Levels(alpha, c, [p]) == Level(alpha, c, p)
  {
    assert [p][1..] == [];
  }

  /** What the tries of the first e epochs of a registration come to: each costs its epoch's whole level. */
  function TriedEpochs(alpha: real, c: real, k: nat, e: nat, extra: Allowance): real {
    if e == 0 then 0.0
    else TriedEpochs(alpha, c, k, e - 1, extra) + (1 + extra(k, e)) as real * Level(alpha, c, Place(k, e, 0))
  }

  function TriedFamily(alpha: real, c: real, k: nat, e: nat, extra: Allowance): real {
    if k == 0 then 0.0 else TriedFamily(alpha, c, k - 1, e, extra) + TriedEpochs(alpha, c, k, e, extra)
  }

  lemma {:induction false} TriesLevels(alpha: real, c: real, k: nat, e: nat, n: nat)
    ensures Levels(alpha, c, Tries(k, e, n)) == n as real * Level(alpha, c, Place(k, e, 0))
  {
    if n > 0 {
      TriesLevels(alpha, c, k, e, n - 1);
      LevelsAppend(alpha, c, Tries(k, e, n - 1), [Place(k, e, n - 1)]);
      OneLevel(alpha, c, Place(k, e, n - 1));
      OneTimeMore(n, Level(alpha, c, Place(k, e, 0)));
    }
  }

  lemma OneTimeMore(n: nat, x: real)
    requires n > 0
    ensures n as real * x == (n - 1) as real * x + x
  {
    assert n as real == (n - 1) as real + 1.0;
  }

  lemma {:induction false} ColumnLevels(alpha: real, c: real, k: nat, e: nat, extra: Allowance)
    ensures Levels(alpha, c, Column(k, e, extra)) == TriedEpochs(alpha, c, k, e, extra)
  {
    hide Level;
    if e > 0 {
      ColumnLevels(alpha, c, k, e - 1, extra);
      LevelsAppend(alpha, c, Column(k, e - 1, extra), Tries(k, e, 1 + extra(k, e)));
      TriesLevels(alpha, c, k, e, 1 + extra(k, e));
    }
  }

  lemma {:induction false} GridLevels(alpha: real, c: real, k: nat, e: nat, extra: Allowance)
    ensures Levels(alpha, c, Grid(k, e, extra)) == TriedFamily(alpha, c, k, e, extra)
  {
    hide Level, TriedEpochs, Column;
    if k > 0 {
      GridLevels(alpha, c, k - 1, e, extra);
      ColumnLevels(alpha, c, k, e, extra);
      LevelsAppend(alpha, c, Grid(k - 1, e, extra), Column(k, e, extra));
    }
  }

  lemma LevelNotNegative(alpha: real, c: real, p: Place)
    requires alpha >= 0.0 && c > 0.0
    ensures Level(alpha, c, p) >= 0.0
  {
    if p.index > 0 && p.epoch > 0 {
      ShareNotNegative(c, p.index);
      ShareNotNegative(c, p.epoch);
      MulMonotoneRight(Share(c, p.index), 0.0, alpha);
      MulMonotoneRight(Share(c, p.epoch), 0.0, alpha * Share(c, p.index));
    }
  }

  lemma Distributes(x: real, y: real, z: real)
    ensures x * (y + z) == x * y + x * z
  {}

  /** Two parts that are within a multiple of two others are together within the multiple of both. */
  lemma PartsWithin(x: real, y: real, z: real, part: real, rest: real)
    requires part <= x * y && rest <= x * z
    ensures part + rest <= x * (y + z)
  {
    Distributes(x, y, z);
  }

  /** No epoch is tried more than so many times. */
  ghost predicate TriedAtMost(extra: Allowance, times: real) {
    forall i: nat, j: nat :: (1 + extra(i, j)) as real <= times
  }

  lemma TriesWithin(alpha: real, c: real, k: nat, e: nat, extra: Allowance, times: real)
    requires alpha >= 0.0 && c > 0.0 && TriedAtMost(extra, times)
    ensures (1 + extra(k, e)) as real * Level(alpha, c, Place(k, e, 0)) <= times * Level(alpha, c, Place(k, e, 0))
  {
    hide Level;
    var level, n := Level(alpha, c, Place(k, e, 0)), (1 + extra(k, e)) as real;
    LevelNotNegative(alpha, c, Place(k, e, 0));
    MulMonotoneRight(level, n, times);
    assert level * n == n * level && level * times == times * level;
  }

  /** Then the tries of a registration come to at most so many times its levels. */
  lemma {:induction false} TriedEpochsAtMost(alpha: real, c: real, k: nat, e: nat, extra: Allowance, times: real)
    requires alpha >= 0.0 && c > 0.0 && k >= 1 && TriedAtMost(extra, times)
    ensures TriedEpochs(alpha, c, k, e, extra) <= times * UnitEpochs(alpha, c, UnitOnline, 1, k, e)
  {
    hide Share, TriedAtMost, UnitAlpha;
    if e == 0 {
      assert UnitEpochs(alpha, c, UnitOnline, 1, k, e) == 0.0;
    } else {
      TriedEpochsAtMost(alpha, c, k, e - 1, extra, times);
      var level := Level(alpha, c, Place(k, e, 0));
      TriesWithin(alpha, c, k, e, extra, times);
      OneEpochMore(alpha, c, k, e);
      PartsWithin(times, UnitEpochs(alpha, c, UnitOnline, 1, k, e - 1), level,
                  TriedEpochs(alpha, c, k, e - 1, extra), (1 + extra(k, e)) as real * level);
    }
  }

  lemma OneEpochMore(alpha: real, c: real, k: nat, e: nat)
    requires k >= 1 && e >= 1
    ensures UnitEpochs(alpha, c, UnitOnline, 1, k, e) == UnitEpochs(alpha, c, UnitOnline, 1, k, e - 1) + Level(alpha, c, Place(k, e, 0))
  {}

  lemma OneRegistrationMore(alpha: real, c: real, k: nat, e: nat, extra: Allowance)
    ensures k == 0 ==> TriedFamily(alpha, c, k, e, extra) == UnitFamily(alpha, c, UnitOnline, 1, k, e) == 0.0
    ensures k > 0 ==> TriedFamily(alpha, c, k, e, extra) == TriedFamily(alpha, c, k - 1, e, extra) + TriedEpochs(alpha, c, k, e, extra)
    ensures k > 0 ==> UnitFamily(alpha, c, UnitOnline, 1, k, e) == UnitFamily(alpha, c, UnitOnline, 1, k - 1, e) + UnitEpochs(alpha, c, UnitOnline, 1, k, e)
  {}

  lemma {:induction false} TriedFamilyAtMost(alpha: real, c: real, k: nat, e: nat, extra: Allowance, times: real)
    requires alpha >= 0.0 && c > 0.0 && TriedAtMost(extra, times)
    ensures TriedFamily(alpha, c, k, e, extra) <= times * UnitFamily(alpha, c, UnitOnline, 1, k, e)
  {
    hide TriedFamily, UnitFamily, TriedEpochs, UnitEpochs, TriedAtMost;
    OneRegistrationMore(alpha, c, k, e, extra);
    if k > 0 {
      TriedFamilyAtMost(alpha, c, k - 1, e, extra, times);
      TriedEpochsAtMost(alpha, c, k, e, extra, times);
      PartsWithin(times, UnitFamily(alpha, c, UnitOnline, 1, k - 1, e), UnitEpochs(alpha, c, UnitOnline, 1, k, e),
                  TriedFamily(alpha, c, k - 1, e, extra), TriedEpochs(alpha, c, k, e, extra));
    }
  }

  /** And those of all registrations to at most so many times the budget. */
  lemma TriesCost(alpha: real, c: real, k: nat, e: nat, extra: Allowance, times: real)
    requires SpendingConstant(c) && alpha >= 0.0 && TriedAtMost(extra, times)
    ensures TriedFamily(alpha, c, k, e, extra) <= times * alpha
  {
    hide TriedFamily, UnitFamily, SpendsAtMostOne;
    TriedFamilyAtMost(alpha, c, k, e, extra, times);
    UnitFamilyConserves(alpha, c, UnitOnline, 1, k, e);
    assert times >= 0.0 by { assert (1 + extra(0, 0)) as real <= times; }
    MulMonotoneRight(times, UnitFamily(alpha, c, UnitOnline, 1, k, e), alpha);
  }

  ghost predicate Proper(places: seq<Place>) {
    forall n :: 0 <= n < |places| ==> places[n].index >= 1 && places[n].epoch >= 1
  }

  lemma {:induction false} TriesProper(k: nat, e: nat, n: nat)
    requires k >= 1 && e >= 1
    ensures Proper(Tries(k, e, n))
  {
    if n > 0 { TriesProper(k, e, n - 1); }
  }

  lemma {:induction false} ColumnProper(k: nat, e: nat, extra: Allowance)
    requires k >= 1
    ensures Proper(Column(k, e, extra))
  {
    if e > 0 {
      ColumnProper(k, e - 1, extra);
      TriesProper(k, e, 1 + extra(k, e));
    }
  }

  lemma {:induction false} GridProper(k: nat, e: nat, extra: Allowance)
    ensures Proper(Grid(k, e, extra))
  {
    if k > 0 {
      GridProper(k - 1, e, extra);
      ColumnProper(k, e, extra);
    }
  }

  /** Where no epoch is started over, every place is a first try. */
  ghost predicate FirstTries(places: seq<Place>) {
    forall n :: 0 <= n < |places| ==> places[n].opening == 0
  }

  lemma {:induction false} ColumnFirst(k: nat, e: nat)
    ensures FirstTries(Column(k, e, NO_OPENINGS))
  {
    if e > 0 {
      ColumnFirst(k, e - 1);
      assert Tries(k, e, 0) == [] && Tries(k, e, 1) == [Place(k, e, 0)];
    }
  }

  lemma {:induction false} GridFirst(k: nat, e: nat)
    ensures FirstTries(Grid(k, e, NO_OPENINGS))
  {
    if k > 0 {
      GridFirst(k - 1, e);
      ColumnFirst(k, e);
    }
  }

  // ---- what rarely happens in one epoch --------------------------------------------------------------------------

  /** At some look the martingale at the rate has reached the level. */
  ghost function Hit(rate: real, level: real): Labels -> bool {
    (sigma: Labels) => exists n :: 0 <= n <= |sigma| && Reached(Successes(sigma[..n]), Failures(sigma[..n]), rate, level, JEFFREYS, JEFFREYS)
  }

  lemma HitIsRare(rate: real, horizon: nat, level: real)
    requires 0.0 <= rate <= 1.0 && level > 0.0
    ensures Weight(rate, horizon, Hit(rate, level)) <= level
  {
    var stop := (s: nat, f: nat) => Reached(s, f, rate, level, JEFFREYS, JEFFREYS);
    forall sigma | |sigma| == horizon && Hit(rate, level)(sigma)
      ensures exists n :: 0 <= n <= horizon && stop(Successes(sigma[..n]), Failures(sigma[..n]))
    {
      var n :| 0 <= n <= |sigma| && Reached(Successes(sigma[..n]), Failures(sigma[..n]), rate, level, JEFFREYS, JEFFREYS);
      assert stop(Successes(sigma[..n]), Failures(sigma[..n]));
    }
    LooksBounded(rate, horizon, stop, Hit(rate, level), level, JEFFREYS, JEFFREYS);
  }

  ghost function Hits(rates: seq<real>, alpha: real, c: real, places: seq<Place>): (hits: seq<Labels -> bool>)
    requires |rates| == |places|
    ensures |hits| == |rates| && forall n :: 0 <= n < |rates| ==> hits[n] == Hit(rates[n], Level(alpha, c, places[n]))
  {
    if rates == [] then [] else [Hit(rates[0], Level(alpha, c, places[0]))] + Hits(rates[1..], alpha, c, places[1..])
  }

  lemma LevelPositive(alpha: real, c: real, p: Place)
    requires alpha > 0.0 && c > 0.0 && p.index >= 1 && p.epoch >= 1
    ensures Level(alpha, c, p) > 0.0
  {
    SharePositive(c, p.index);
    SharePositive(c, p.epoch);
    ProductPositive(alpha, Share(c, p.index));
    ProductPositive(alpha * Share(c, p.index), Share(c, p.epoch));
  }

  lemma SharePositive(c: real, k: nat)
    requires c > 0.0 && k >= 1
    ensures Share(c, k) > 0.0
  {
    ProductPositive(k as real, k as real);
    QuotientPositive(c, k as real * k as real);
  }

  lemma QuotientPositive(x: real, y: real)
    requires x > 0.0 && y > 0.0
    ensures x / y > 0.0
  {}

  lemma ProductPositive(x: real, y: real)
    requires x > 0.0 && y > 0.0
    ensures x * y > 0.0
  {}

  lemma {:induction false} HitsAddUp(rates: seq<real>, horizon: nat, alpha: real, c: real, places: seq<Place>)
    requires |rates| == |places| && Rates(rates) && Proper(places) && alpha > 0.0 && c > 0.0
    ensures SumOfWeights(rates, horizon, Hits(rates, alpha, c, places)) <= Levels(alpha, c, places)
    decreases |rates|
  {
    if rates != [] {
      var hits := Hits(rates, alpha, c, places);
      assert hits[1..] == Hits(rates[1..], alpha, c, places[1..]);
      LevelPositive(alpha, c, places[0]);
      HitIsRare(rates[0], horizon, Level(alpha, c, places[0]));
      HitsAddUp(rates[1..], horizon, alpha, c, places[1..]);
    }
  }

  // ---- the gate in a run -----------------------------------------------------------------------------------------

  /** A policy the method is about: spending within the budget, pessimistic counting, the mixture bound. */
  ghost function Sanctioned(alpha: real, c: real): Policy -> bool {
    (p: Policy) => Frugal(p, alpha, c) && p.pending == Pessimistic && (forall key :: 0.0 < Required(p, key))
                   && (forall s: nat, f: nat, a: real :: p.bound(s, f, a) == JeffreysBound(s, f, a))
  }

  /** The n-th place is of the registration and the epoch at which a partition stands. */
  ghost predicate InPlace(db: Db, key: PartitionKey, places: seq<Place>, n: nat) {
    && n < |places| && key in db.lifecycle && IndexOf(db.alphas, key).Some?
    && places[n].index == IndexOf(db.alphas, key).value && places[n].epoch == db.lifecycle[key].epoch + 1
  }

  /** And of its present try at it. */
  ghost predicate StandsAt(db: Db, key: PartitionKey, places: seq<Place>, n: nat) {
    InPlace(db, key, places, n) && places[n].opening == Reopenings(db, key)
  }

  /** Admitted positives are true, and the verdicts on the trials a partition's gate reads are what the outcomes have
      for its place and try, as far as trials have been frozen. */
  ghost predicate Represents(db: Db, places: seq<Place>, outcomes: Outcomes, truth: Trial -> bool) {
    && (forall t :: t in db.trials && V.IsPositive(db.labels, t) ==> truth(t))
    && forall key, n: nat :: StandsAt(db, key, places, n) && n < |outcomes| ==>
         V.Verdicts(V.EpochTrials(db.trials, key, Floor(db, key)), truth) <= outcomes[n]
  }

  /** A gate is open although the rate is at or below what the policy requires. */
  ghost predicate OpenBelow(host: Host, s: System, m: Moment, key: PartitionKey, rate: real)
    requires key in s.db.lifecycle
  {
    rate <= Required(s.policy, key) && GateOpen(EnvOf(host, s, m), s.db, key, s.db.lifecycle[key])
  }

  ghost predicate WronglyOpen(host: Host, s: System, m: Moment, key: PartitionKey, places: seq<Place>, rates: seq<real>, n: nat) {
    StandsAt(s.db, key, places, n) && n < |rates| && OpenBelow(host, s, m, key, rates[n])
  }

  ghost predicate WronglyOpenAt(host: Host, s: System, trace: Trace, i: nat, m: Moment, key: PartitionKey,
                                places: seq<Place>, rates: seq<real>, n: nat) {
    i <= |trace| && WronglyOpen(host, Run(host, s, trace[..i]), m, key, places, rates, n)
  }

  /** Somewhere along the run, at some instant, at a try that has a place. */
  ghost predicate EverWronglyOpen(host: Host, s: System, trace: Trace, places: seq<Place>, rates: seq<real>) {
    exists i: nat, m, key, n: nat :: WronglyOpenAt(host, s, trace, i, m, key, places, rates, n)
  }

  ghost predicate WronglyOpenInPlace(host: Host, s: System, trace: Trace, i: nat, m: Moment, key: PartitionKey,
                                     places: seq<Place>, rates: seq<real>, n: nat) {
    && i <= |trace| && InPlace(Run(host, s, trace[..i]).db, key, places, n) && n < |rates|
    && OpenBelow(host, Run(host, s, trace[..i]), m, key, rates[n])
  }

  /** Somewhere along the run, at some instant, at whatever try. */
  ghost predicate EverWronglyOpenInPlace(host: Host, s: System, trace: Trace, places: seq<Place>, rates: seq<real>) {
    exists i: nat, m, key, n: nat :: WronglyOpenInPlace(host, s, trace, i, m, key, places, rates, n)
  }

  ghost predicate RepresentsAt(host: Host, s: System, trace: Trace, i: nat, places: seq<Place>, outcomes: Outcomes, truth: Trial -> bool) {
    i <= |trace| ==> Represents(Run(host, s, trace[..i]).db, places, outcomes, truth)
  }

  lemma LowerLevelReached(s: nat, f: nat, rate: real, lower: real, level: real)
    requires lower <= level && Reached(s, f, rate, lower, JEFFREYS, JEFFREYS)
    ensures Reached(s, f, rate, level, JEFFREYS, JEFFREYS)
  {
    MixturePositive(s, f, JEFFREYS, JEFFREYS);
    MulMonotoneRight(Mixture(s, f, JEFFREYS, JEFFREYS), lower, level);
  }

  lemma CrossedBelow(s: nat, f: nat, rate: real, required: real, level: real)
    requires Crossed(s, f, required, level, JEFFREYS, JEFFREYS) && 0.0 <= rate <= required
    ensures Reached(s, f, rate, level, JEFFREYS, JEFFREYS)
  {
    Delay.RequiredAtMostOne(required, s, f);
    ReachedBelow(s, f, rate, required, level, JEFFREYS, JEFFREYS);
  }

  /** The level the gate applies is at most its place's share of the budget. */
  lemma AppliedLevel(db: Db, key: PartitionKey, policy: Policy, alpha: real, c: real, places: seq<Place>, n: nat)
    requires AlphaInv(db, alpha, c) && Priced(Spends(alpha, c))(db) && StandsAt(db, key, places, n) && c > 0.0
    ensures Effective(policy, AlphaOf(db.alphas, key)) <= Level(alpha, c, places[n])
  {
    hide AlphaInv, Priced, AlphaOf;
    AppliesOwnRow(db, key, alpha, c, Spends(alpha, c));
    var p :| Spends(alpha, c)(p)
             && AlphaOf(db.alphas, key) == Some(LevelUnder(p, IndexOf(db.alphas, key).value, db.lifecycle[key].epoch));
    LevelGrows(p.alpha, alpha, c, places[n]);
  }

  lemma LevelGrows(a: real, alpha: real, c: real, p: Place)
    requires a <= alpha && c > 0.0 && p.index >= 1 && p.epoch >= 1
    ensures a * Share(c, p.index) * Share(c, p.epoch) <= Level(alpha, c, p)
  {
    ShareNotNegative(c, p.index);
    ShareNotNegative(c, p.epoch);
    MulMonotoneRight(Share(c, p.index), a, alpha);
    MulMonotoneRight(Share(c, p.epoch), a * Share(c, p.index), alpha * Share(c, p.index));
  }

  /** An open gate of a partition whose rate is too low is a hit in its place. */
  lemma OpenIsHit(host: Host, s: System, m: Moment, key: PartitionKey, alpha: real, c: real, places: seq<Place>, rates: seq<real>, n: nat,
                  outcomes: Outcomes, truth: Trial -> bool)
    requires WronglyOpen(host, s, m, key, places, rates, n) && Represents(s.db, places, outcomes, truth) && n < |outcomes|
    requires AlphaInv(s.db, alpha, c) && Priced(Spends(alpha, c))(s.db) && Sanctioned(alpha, c)(s.policy) && Rates(rates) && c > 0.0
    ensures Hit(rates[n], Level(alpha, c, places[n]))(outcomes[n])
  {
    var env, db := EnvOf(host, s, m), s.db;
    var verdicts := V.Verdicts(V.EpochTrials(db.trials, key, Floor(db, key)), truth);
    var level := Effective(s.policy, AlphaOf(db.alphas, key));
    V.OpenGateCrosses(env, db, key, db.lifecycle[key], truth);
    CrossedBelow(Successes(verdicts), Failures(verdicts), rates[n], Required(env.policy, key), level);
    AppliedLevel(db, key, s.policy, alpha, c, places, n);
    LowerLevelReached(Successes(verdicts), Failures(verdicts), rates[n], level, Level(alpha, c, places[n]));
    assert outcomes[n][..|verdicts|] == verdicts;
  }

  /** What a run has to be for its outcomes: its policies sanctioned, and the outcomes' verdicts behind its trials. */
  ghost predicate Lawful(host: Host, s: System, trace: Trace, alpha: real, c: real, places: seq<Place>, outcomes: Outcomes, truth: Trial -> bool) {
    Policies(s, trace, Sanctioned(alpha, c)) && forall i: nat :: RepresentsAt(host, s, trace, i, places, outcomes, truth)
  }

  lemma SanctionedSpend(s: System, trace: Trace, alpha: real, c: real)
    requires Policies(s, trace, Sanctioned(alpha, c))
    ensures Policies(s, trace, Spends(alpha, c))
  {
    forall i | 0 <= i < |trace| && trace[i].1.ChangePolicy? ensures Spends(alpha, c)(trace[i].1.policy) {
      assert Sanctioned(alpha, c)(trace[i].1.policy);
    }
  }

  /** What the budget's invariants say in every state of a lawful run. */
  lemma BudgetedAt(host: Host, policy: Policy, rules: Risk.Rules, trace: Trace, i: nat, alpha: real, c: real)
    requires var s := System(EMPTY, policy, rules); Policies(s, trace, Sanctioned(alpha, c)) && i <= |trace|
    ensures var now := Run(host, System(EMPTY, policy, rules), trace[..i]);
            AlphaInv(now.db, alpha, c) && Priced(Spends(alpha, c))(now.db) && Sanctioned(alpha, c)(now.policy)
  {
    var s := System(EMPTY, policy, rules);
    PoliciesPrefix(s, trace, Sanctioned(alpha, c), i);
    PoliciesAlong(host, s, trace[..i], Sanctioned(alpha, c));
    SanctionedSpend(s, trace[..i], alpha, c);
    assert AlphaInv(s.db, alpha, c) && Priced(Spends(alpha, c))(s.db);
    AllocationsAlong(host, s, trace[..i], alpha, c);
    PricedAlong(host, s, trace[..i], Spends(alpha, c));
  }

  lemma RunIsHit(host: Host, policy: Policy, rules: Risk.Rules, trace: Trace, alpha: real, c: real, places: seq<Place>, rates: seq<real>,
                 outcomes: Outcomes, truth: Trial -> bool)
    requires var s := System(EMPTY, policy, rules);
             Lawful(host, s, trace, alpha, c, places, outcomes, truth) && EverWronglyOpen(host, s, trace, places, rates)
    requires Rates(rates) && c > 0.0 && |rates| == |places| == |outcomes|
    ensures SomeHit(Hits(rates, alpha, c, places), outcomes)
  {
    var s := System(EMPTY, policy, rules);
    var i: nat, m, key, n: nat :| WronglyOpenAt(host, s, trace, i, m, key, places, rates, n);
    BudgetedAt(host, policy, rules, trace, i, alpha, c);
    assert RepresentsAt(host, s, trace, i, places, outcomes, truth);
    OpenIsHit(host, Run(host, s, trace[..i]), m, key, alpha, c, places, rates, n, outcomes, truth);
    assert Hits(rates, alpha, c, places)[n](outcomes[n]);
  }

  /** The promise of the error budget, openings by hand included.  Let each of the first k registrations have, in each
      try at each of its first e epochs, an independent sequence of verdicts with a rate of its own, and let an
      adversary who sees all of them choose the whole run from the empty database: what is proposed, frozen, labelled,
      withheld, released, renamed, started over, and when the gate is read.  If admitted positives are true and
      spending is online and by lineage, then the chance that at any instant of the run the gate of any partition is
      open whose rate is at or below its requirement, at a try allowed for, is at most the levels of all the tries. */
  lemma TriesErrorBounded(host: Host, policy: Policy, rules: Risk.Rules, alpha: real, c: real, k: nat, e: nat, extra: Allowance,
                          rates: seq<real>, horizon: nat, runs: Outcomes -> Trace, truth: Outcomes -> Trial -> bool)
    requires SpendingConstant(c) && 0.0 < alpha && Rates(rates) && |rates| == |Grid(k, e, extra)|
    requires forall outcomes :: Shaped(outcomes, |rates|, horizon) ==>
               Lawful(host, System(EMPTY, policy, rules), runs(outcomes), alpha, c, Grid(k, e, extra), outcomes, truth(outcomes))
    ensures JointWeight(rates, horizon,
                        (outcomes: Outcomes) => EverWronglyOpen(host, System(EMPTY, policy, rules), runs(outcomes), Grid(k, e, extra), rates))
         <= TriedFamily(alpha, c, k, e, extra)
  {
    hide Hit, RepresentsAt, WronglyOpenAt, Policies;
    var s, places := System(EMPTY, policy, rules), Grid(k, e, extra);
    var event := (outcomes: Outcomes) => EverWronglyOpen(host, s, runs(outcomes), places, rates);
    var hits := Hits(rates, alpha, c, places);
    forall outcomes: Outcomes | Shaped(outcomes, |rates|, horizon) && event(outcomes) ensures SomeHit(hits, outcomes) {
      RunIsHit(host, policy, rules, runs(outcomes), alpha, c, places, rates, outcomes, truth(outcomes));
    }
    UnionBound(rates, horizon, hits, event);
    GridProper(k, e, extra);
    HitsAddUp(rates, horizon, alpha, c, places);
    GridLevels(alpha, c, k, e, extra);
  }

  /** Where no epoch of a registered partition is opened by hand, every gate is read at a first try. */
  lemma OnlyFirstTries(host: Host, policy: Policy, rules: Risk.Rules, trace: Trace, places: seq<Place>, rates: seq<real>)
    requires var s := System(EMPTY, policy, rules);
             Always(NoReset(host, s, trace), |trace|) && EverWronglyOpenInPlace(host, s, trace, places, rates)
    requires FirstTries(places)
    ensures EverWronglyOpen(host, System(EMPTY, policy, rules), trace, places, rates)
  {
    hide OpenBelow;
    var s := System(EMPTY, policy, rules);
    var i: nat, m, key, n: nat :| WronglyOpenInPlace(host, s, trace, i, m, key, places, rates, n);
    OwnLevelsExactly(host, policy, rules, trace);
    assert OwnLevels(host, s, trace)(i);
    OpeningsCounted(host, policy, rules, trace[..i], key);
    NoReopeningMeansOwnLevel(Run(host, s, trace[..i]).db, key);
    assert WronglyOpenAt(host, s, trace, i, m, key, places, rates, n);
  }

  /** The promise as it is made.  If no epoch of a registered partition is opened by hand, and each of the first k
      registrations has one independent sequence of verdicts in each of its first e epochs, the chance that the gate
      of any partition whose rate is at or below its requirement is open at any instant is at most alpha. */
  lemma FamilyErrorBounded(host: Host, policy: Policy, rules: Risk.Rules, alpha: real, c: real, k: nat, e: nat, rates: seq<real>,
                           horizon: nat, runs: Outcomes -> Trace, truth: Outcomes -> Trial -> bool)
    requires SpendingConstant(c) && 0.0 < alpha && Rates(rates) && |rates| == |Grid(k, e, NO_OPENINGS)|
    requires forall outcomes :: Shaped(outcomes, |rates|, horizon) ==>
               Lawful(host, System(EMPTY, policy, rules), runs(outcomes), alpha, c, Grid(k, e, NO_OPENINGS), outcomes, truth(outcomes))
    requires forall outcomes :: Shaped(outcomes, |rates|, horizon) ==>
               Always(NoReset(host, System(EMPTY, policy, rules), runs(outcomes)), |runs(outcomes)|)
    ensures JointWeight(rates, horizon,
                        (outcomes: Outcomes) => EverWronglyOpenInPlace(host, System(EMPTY, policy, rules), runs(outcomes), Grid(k, e, NO_OPENINGS), rates))
         <= alpha
  {
    hide Hit, RepresentsAt, WronglyOpenAt, Policies, EverWronglyOpen, EverWronglyOpenInPlace, NoReset, Always;
    var s, places := System(EMPTY, policy, rules), Grid(k, e, NO_OPENINGS);
    var event := (outcomes: Outcomes) => EverWronglyOpenInPlace(host, s, runs(outcomes), places, rates);
    var hits := Hits(rates, alpha, c, places);
    GridFirst(k, e);
    forall outcomes: Outcomes | Shaped(outcomes, |rates|, horizon) && event(outcomes) ensures SomeHit(hits, outcomes) {
      OnlyFirstTries(host, policy, rules, runs(outcomes), places, rates);
      RunIsHit(host, policy, rules, runs(outcomes), alpha, c, places, rates, outcomes, truth(outcomes));
    }
    UnionBound(rates, horizon, hits, event);
    GridProper(k, e, NO_OPENINGS);
    HitsAddUp(rates, horizon, alpha, c, places);
    GridLevels(alpha, c, k, e, NO_OPENINGS);
    TriesCost(alpha, c, k, e, NO_OPENINGS, 1.0);
  }
}
