/** Where the two halves meet: what the gate reads from the evidence tables is a look at the trials of one epoch
    under pessimistic counting, so the error bound of the statistical method holds for it, whatever delays,
    withholding, censoring or inconclusive labels the tables have seen.  */
module Validity {
  import opened Tables
  import opened Shadow
  import opened Lifecycle
  import opened Sequential
  import opened Anytime
  import opened Delay

  /** The counting trials of an epoch, in the order they were frozen. */
  function EpochTrials(trials: seq<Trial>, key: PartitionKey, floor: int): seq<Trial> {
    if trials == [] then []
    else
      var n := |trials| - 1;
      EpochTrials(trials[..n], key, floor) + if Counted(trials[n], key, floor, COUNTING) then [trials[n]] else []
  }

  predicate IsPositive(labels: map<string, Resolution>, t: Trial) {
    t.id in labels && labels[t.id].Labeled? && labels[t.id].verdict == Positive
  }

  function PositiveAt(labels: map<string, Resolution>, ts: seq<Trial>): set<nat> {
    set i: nat | i < |ts| && IsPositive(labels, ts[i])
  }

  /** The reading as a look: how many trials are in n, and which of them have an admitted positive label. */
  function LookAt(db: Db, key: PartitionKey): Look {
    var ts := EpochTrials(db.trials, key, Floor(db, key));
    Look(|ts|, PositiveAt(db.labels, ts))
  }

  function Verdicts(ts: seq<Trial>, truth: Trial -> bool): Labels {
    seq(|ts|, i requires 0 <= i < |ts| => truth(ts[i]))
  }

  lemma PositiveSnoc(labels: map<string, Resolution>, ts: seq<Trial>, t: Trial)
    ensures |PositiveAt(labels, ts + [t])| == |PositiveAt(labels, ts)| + if IsPositive(labels, t) then 1 else 0
  {
    var before, after := PositiveAt(labels, ts), PositiveAt(labels, ts + [t]);
    if IsPositive(labels, t) {
      assert after == before + {|ts|};
    } else {
      assert after == before;
    }
  }

  lemma OnePositive(labels: map<string, Resolution>, t: Trial)
    ensures One(labels, t).frozen == 1 && One(labels, t).positive == if IsPositive(labels, t) then 1 else 0
  {}

  /** The tally counts the trials of the look, and its positives. */
  lemma {:induction false} TallyIsLook(trials: seq<Trial>, labels: map<string, Resolution>, key: PartitionKey, floor: int)
    ensures var c, ts := Tally(trials, labels, key, floor, COUNTING), EpochTrials(trials, key, floor);
            c.frozen == |ts| && c.positive == |PositiveAt(labels, ts)|
    decreases |trials|
  {
    if trials != [] {
      var n := |trials| - 1;
      TallyIsLook(trials[..n], labels, key, floor);
      var before := EpochTrials(trials[..n], key, floor);
      if Counted(trials[n], key, floor, COUNTING) {
        PositiveSnoc(labels, before, trials[n]);
        OnePositive(labels, trials[n]);
      } else {
        assert before + [] == before;
      }
    }
  }

  /** Under pessimistic counting with the method's bound, an open gate is a look at which the gate opens. */
  lemma OpenGateIsOpenLook(env: Env, db: Db, key: PartitionKey, record: Record)
    requires GateOpen(env, db, key, record) && env.policy.pending == Pessimistic
    requires forall s: nat, f: nat, alpha: real :: env.policy.bound(s, f, alpha) == JeffreysBound(s, f, alpha)
    ensures Opens(LookAt(db, key), Required(env.policy, key), Effective(env.policy, AlphaOf(db.alphas, key)))
  {
    TallyIsLook(db.trials, db.labels, key, Floor(db, key));
    EvidenceConserved(db.trials, db.labels, key, Floor(db, key), COUNTING);
    var reading := Read(db, key, Pessimistic).value;
    assert reading.successes == |LookAt(db, key).admitted| && reading.failures == LookAt(db, key).frozen - reading.successes;
  }

  /** If admitted positives are true, the look is truthful whatever happened to the other labels. */
  lemma LookIsTruthful(db: Db, key: PartitionKey, truth: Trial -> bool)
    requires forall t :: t in db.trials && IsPositive(db.labels, t) ==> truth(t)
    ensures Truthful(LookAt(db, key), Verdicts(EpochTrials(db.trials, key, Floor(db, key)), truth))
  {
    EpochTrialsAreTrials(db.trials, key, Floor(db, key));
  }

  lemma {:induction false} EpochTrialsAreTrials(trials: seq<Trial>, key: PartitionKey, floor: int)
    ensures forall t :: t in EpochTrials(trials, key, floor) ==> t in trials
    decreases |trials|
  {
    if trials != [] { EpochTrialsAreTrials(trials[..|trials| - 1], key, floor); }
  }

  /** Label delay cannot open the gate: an open gate on the tables as they stand means that the verdicts on all
      the epoch's trials, had they been known at freezing, cross the requirement at the same n. */
  lemma OpenGateCrosses(env: Env, db: Db, key: PartitionKey, record: Record, truth: Trial -> bool)
    requires GateOpen(env, db, key, record) && env.policy.pending == Pessimistic && 0.0 < Required(env.policy, key)
    requires forall s: nat, f: nat, alpha: real :: env.policy.bound(s, f, alpha) == JeffreysBound(s, f, alpha)
    requires forall t :: t in db.trials && IsPositive(db.labels, t) ==> truth(t)
    ensures var verdicts := Verdicts(EpochTrials(db.trials, key, Floor(db, key)), truth);
            Crossed(Successes(verdicts), Failures(verdicts), Required(env.policy, key),
                    Effective(env.policy, AlphaOf(db.alphas, key)), JEFFREYS, JEFFREYS)
  {
    var verdicts := Verdicts(EpochTrials(db.trials, key, Floor(db, key)), truth);
    OpenGateIsOpenLook(env, db, key, record);
    LookIsTruthful(db, key, truth);
    OpenMeansFullInformationCrosses(LookAt(db, key), verdicts, Required(env.policy, key), Effective(env.policy, AlphaOf(db.alphas, key)));
    assert verdicts[..|verdicts|] == verdicts;
  }

  /** And so for chance: let every verdict sequence of the horizon meet the tables in whatever state an adversary
      who sees all of it likes, as often as it likes, as long as the positives admitted are true ones.  If the
      rate is at or below the requirement, the gate opens on any of those states with chance at most the epoch's
      level. */
  lemma GateErrorBounded(p: real, horizon: nat, env: Env, key: PartitionKey, alpha: real, states: Labels -> set<Db>, truth: Labels -> Trial -> bool)
    requires 0.0 <= p <= Required(env.policy, key) <= 1.0 && 0.0 < Required(env.policy, key) && 0.0 < alpha < 1.0
    requires env.policy.pending == Pessimistic
    requires forall s: nat, f: nat, a: real :: env.policy.bound(s, f, a) == JeffreysBound(s, f, a)
    requires forall verdicts, db :: |verdicts| == horizon && db in states(verdicts) ==> FitsVerdicts(db, key, verdicts, truth(verdicts), env.policy, alpha)
    ensures Weight(p, horizon, (verdicts: Labels) => exists db, record :: db in states(verdicts) && GateOpen(env, db, key, record)) <= alpha
  {
    var required := Required(env.policy, key);
    var schedule := (verdicts: Labels) => set db | db in states(verdicts) :: LookAt(db, key);
    forall verdicts, look | |verdicts| == horizon && look in schedule(verdicts) ensures Truthful(look, verdicts) {
      var db :| db in states(verdicts) && look == LookAt(db, key);
      LookIsTruthful(db, key, truth(verdicts));
      PrefixTruthful(look, Verdicts(EpochTrials(db.trials, key, Floor(db, key)), truth(verdicts)), verdicts);
    }
    PessimisticCountingValid(p, required, horizon, alpha, schedule);
    var opens := (verdicts: Labels) => exists look :: look in schedule(verdicts) && Opens(look, required, alpha);
    var event := (verdicts: Labels) => exists db, record :: db in states(verdicts) && GateOpen(env, db, key, record);
    forall verdicts: Labels | |verdicts| == horizon && event(verdicts) ensures opens(verdicts) {
      var db, record :| db in states(verdicts) && GateOpen(env, db, key, record);
      OpenGateIsOpenLook(env, db, key, record);
      assert LookAt(db, key) in schedule(verdicts);
    }
    WeightMonotone(p, horizon, event, opens);
  }

  /** The state's epoch trials are an initial stretch of the verdict sequence, its admitted positives are true,
      and the level the gate applies is the one in question. */
  ghost predicate FitsVerdicts(db: Db, key: PartitionKey, verdicts: Labels, truth: Trial -> bool, policy: Policy, alpha: real) {
    && (forall t :: t in db.trials && IsPositive(db.labels, t) ==> truth(t))
    && Verdicts(EpochTrials(db.trials, key, Floor(db, key)), truth) <= verdicts
    && Effective(policy, AlphaOf(db.alphas, key)) == alpha
  }

  lemma PrefixTruthful(look: Look, some: Labels, verdicts: Labels)
    requires Truthful(look, some) && some <= verdicts
    ensures Truthful(look, verdicts)
  {}
}
