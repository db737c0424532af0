/** What the gate reads, said of the trials themselves: how many count for and against a partition, how old the newest
    mark on them is, and so what an open gate means.  */
module Readings {
  import opened Tables
  import opened Shadow
  import opened Lifecycle

  // ---- the trials of an epoch ------------------------------------------------------------------------------------

  /** The trial counts: frozen after every opening of its partition's epochs, and not executed on an approval. */
  predicate CountsFor(db: Db, t: Trial, key: PartitionKey) {
    && t.partition == key && (t.provenance == ShadowTrial || t.provenance == AutonomousTrial || t.provenance == AuditTrial)
    && (key in db.epochs ==> forall f :: f in db.epochs[key] ==> f < t.sequence)
  }

  predicate Succeeds(labels: map<string, Resolution>, t: Trial) {
    t.id in labels && labels[t.id].Labeled? && labels[t.id].verdict == Positive
  }

  /** Anything but a positive label fails; a trial that is still pending only under the pessimistic rule. */
  predicate Fails(labels: map<string, Resolution>, t: Trial, pending: PendingRule) {
    if t.id in labels then !(labels[t.id].Labeled? && labels[t.id].verdict == Positive) else pending == Pessimistic
  }

  /** When the trial was last moved: by its label or its censoring, or by being frozen. */
  function MovedAt(labels: map<string, Resolution>, t: Trial): int {
    if t.id in labels then labels[t.id].at else t.frozenAt
  }

  /** The places of the trials that have a property. */
  ghost function Places(trials: seq<Trial>, p: Trial -> bool): set<nat> {
    set i: nat | i < |trials| && p(trials[i])
  }

  lemma PlacesSnoc(trials: seq<Trial>, p: Trial -> bool)
    requires trials != []
    ensures var n := |trials| - 1; |Places(trials, p)| == |Places(trials[..n], p)| + if p(trials[n]) then 1 else 0
  {
    var n := |trials| - 1;
    assert Places(trials, p) == Places(trials[..n], p) + if p(trials[n]) then {n} else {};
  }

  ghost function Counting(db: Db, key: PartitionKey): set<nat> {
    set i: nat | i < |db.trials| && CountsFor(db, db.trials[i], key)
  }

  ghost function Successes(db: Db, key: PartitionKey): nat {
    |set i: nat | i < |db.trials| && CountsFor(db, db.trials[i], key) && Succeeds(db.labels, db.trials[i])|
  }

  ghost function Failures(db: Db, key: PartitionKey, pending: PendingRule): nat {
    |set i: nat | i < |db.trials| && CountsFor(db, db.trials[i], key) && Fails(db.labels, db.trials[i], pending)|
  }

  ghost function IsCounted(key: PartitionKey, floor: int): Trial -> bool {
    (t: Trial) => Counted(t, key, floor, COUNTING)
  }

  ghost function IsSuccess(labels: map<string, Resolution>, key: PartitionKey, floor: int): Trial -> bool {
    (t: Trial) => Counted(t, key, floor, COUNTING) && Succeeds(labels, t)
  }

  ghost function IsFailure(labels: map<string, Resolution>, key: PartitionKey, floor: int, pending: PendingRule): Trial -> bool {
    (t: Trial) => Counted(t, key, floor, COUNTING) && Fails(labels, t, pending)
  }

  // ---- the program's counts are these numbers --------------------------------------------------------------------

  lemma CountedMeans(db: Db, t: Trial, key: PartitionKey)
    ensures Counted(t, key, Floor(db, key), COUNTING) <==> CountsFor(db, t, key)
  {}

  /** The recursive tally against the number of places. */
  lemma {:induction false} TallyNumbers(trials: seq<Trial>, labels: map<string, Resolution>, key: PartitionKey, floor: int, pending: PendingRule)
    ensures var c := Tally(trials, labels, key, floor, COUNTING);
            && c.frozen == |Places(trials, IsCounted(key, floor))|
            && c.positive == |Places(trials, IsSuccess(labels, key, floor))|
            && c.negative + c.inconclusive + (if pending == Pessimistic then c.pending else 0)
               == |Places(trials, IsFailure(labels, key, floor, pending))|
    decreases |trials|
  {
    hide Counted, Places;
    if trials == [] {
      NoPlaces(IsCounted(key, floor));
      NoPlaces(IsSuccess(labels, key, floor));
      NoPlaces(IsFailure(labels, key, floor, pending));
    } else {
      TallyNumbers(trials[..|trials| - 1], labels, key, floor, pending);
      PlacesSnoc(trials, IsCounted(key, floor));
      PlacesSnoc(trials, IsSuccess(labels, key, floor));
      PlacesSnoc(trials, IsFailure(labels, key, floor, pending));
    }
  }

  lemma NoPlaces(p: Trial -> bool)
    ensures Places([], p) == {}
  {}

  /** The evidence time is the latest mark on the counting trials. */
  lemma {:induction false} TimeIsLatest(trials: seq<Trial>, labels: map<string, Resolution>, key: PartitionKey, floor: int)
    ensures var time := EvidenceTime(trials, labels, key, floor);
            time.Some? ==>
              && (exists i :: 0 <= i < |trials| && Counted(trials[i], key, floor, COUNTING) && MovedAt(labels, trials[i]) == time.value)
              && (forall i :: 0 <= i < |trials| && Counted(trials[i], key, floor, COUNTING) ==> MovedAt(labels, trials[i]) <= time.value)
    decreases |trials|
  {
    hide Counted;
    if trials != [] {
      var n := |trials| - 1;
      TimeIsLatest(trials[..n], labels, key, floor);
      var rest, time := EvidenceTime(trials[..n], labels, key, floor), EvidenceTime(trials, labels, key, floor);
      if rest.Some? && time == rest {
        var i :| 0 <= i < n && Counted(trials[..n][i], key, floor, COUNTING) && MovedAt(labels, trials[..n][i]) == rest.value;
        assert trials[i] == trials[..n][i];
      }
      NoTimeNoTrial(trials[..n], labels, key, floor);
      forall i | 0 <= i < |trials| && Counted(trials[i], key, floor, COUNTING) && time.Some? ensures MovedAt(labels, trials[i]) <= time.value {
        if i < n { assert trials[..n][i] == trials[i]; }
      }
    }
  }

  lemma {:induction false} NoTimeNoTrial(trials: seq<Trial>, labels: map<string, Resolution>, key: PartitionKey, floor: int)
    ensures EvidenceTime(trials, labels, key, floor).None? <==> forall i :: 0 <= i < |trials| ==> !Counted(trials[i], key, floor, COUNTING)
    decreases |trials|
  {
    hide Counted;
    if trials != [] {
      var n := |trials| - 1;
      NoTimeNoTrial(trials[..n], labels, key, floor);
      assert forall i :: 0 <= i < n ==> trials[..n][i] == trials[i];
    }
  }

  /** Exactly what a reading is: none while no trial counts, and otherwise the numbers of successes and failures and
      the latest mark on any counting trial. */
  lemma ReadingMeans(db: Db, key: PartitionKey, pending: PendingRule)
    ensures Read(db, key, pending).None? <==> Counting(db, key) == {}
    ensures var r := Read(db, key, pending);
            r.Some? ==>
              && r.value.successes == Successes(db, key) && r.value.failures == Failures(db, key, pending)
              && (exists i :: i in Counting(db, key) && MovedAt(db.labels, db.trials[i]) == r.value.until)
              && (forall i :: i in Counting(db, key) ==> MovedAt(db.labels, db.trials[i]) <= r.value.until)
  {
    hide Floor, Counted, Tally, EvidenceTime, CountsFor, Succeeds, Fails;
    var floor := Floor(db, key);
    forall t ensures Counted(t, key, floor, COUNTING) <==> CountsFor(db, t, key) { CountedMeans(db, t, key); }
    TallyNumbers(db.trials, db.labels, key, floor, pending);
    TimeIsLatest(db.trials, db.labels, key, floor);
    NoTimeNoTrial(db.trials, db.labels, key, floor);
    TimedIfFrozen(db.trials, db.labels, key, floor);
    if EvidenceTime(db.trials, db.labels, key, floor).Some? {
      var i :| 0 <= i < |db.trials| && Counted(db.trials[i], key, floor, COUNTING);
      assert i in Counting(db, key);
    }
    assert Places(db.trials, IsSuccess(db.labels, key, floor))
        == set i: nat | i < |db.trials| && CountsFor(db, db.trials[i], key) && Succeeds(db.labels, db.trials[i]);
    assert Places(db.trials, IsFailure(db.labels, key, floor, pending))
        == set i: nat | i < |db.trials| && CountsFor(db, db.trials[i], key) && Fails(db.labels, db.trials[i], pending);
  }

  // ---- what an open gate means -----------------------------------------------------------------------------------

  /** The n-th row of the error budget is the partition's latest. */
  predicate LatestRow(alphas: seq<AlphaRow>, key: PartitionKey, n: nat) {
    n < |alphas| && alphas[n].partition == key && forall m :: n < m < |alphas| ==> alphas[m].partition != key
  }

  lemma {:induction false} LastRowIsLatest(alphas: seq<AlphaRow>, key: PartitionKey)
    ensures LastRow(alphas, key).Some? ==> exists n: nat :: LatestRow(alphas, key, n) && LastRow(alphas, key) == Some(alphas[n])
    ensures LastRow(alphas, key).None? ==> forall n: nat :: n < |alphas| ==> alphas[n].partition != key
  {
    if alphas != [] {
      var last := |alphas| - 1;
      LastRowIsLatest(alphas[..last], key);
      if alphas[last].partition == key {
        assert LatestRow(alphas, key, last);
      } else if LastRow(alphas, key).Some? {
        var n: nat :| LatestRow(alphas[..last], key, n) && LastRow(alphas, key) == Some(alphas[..last][n]);
        assert LatestRow(alphas, key, n);
      } else {
        assert forall n: nat :: n < last ==> alphas[..last][n] == alphas[n];
      }
    }
  }

  lemma OneLatestRow(alphas: seq<AlphaRow>, key: PartitionKey, n: nat, m: nat)
    requires LatestRow(alphas, key, n) && LatestRow(alphas, key, m)
    ensures n == m
  {}

  /** At a level, the tighter of the partition's own and the policy's, the counts meet what its risk class requires. */
  predicate Meets(policy: Policy, key: PartitionKey, successes: nat, failures: nat, level: real) {
    policy.bound(successes, failures, if level < policy.alpha then level else policy.alpha)
    >= if key.riskClass in policy.minimum then policy.minimum[key.riskClass] else 1.0
  }

  /** An open gate, in terms of the trials, the labels, the rows and the record. */
  ghost predicate Opens(env: Env, db: Db, key: PartitionKey, record: Record) {
    && Successes(db, key) + Failures(db, key, env.policy.pending) >= env.policy.nMin
    && (exists i :: i in Counting(db, key) && env.now - MovedAt(db.labels, db.trials[i]) <= env.policy.maxAge)
    && (exists n: nat :: LatestRow(db.alphas, key, n)
          && Meets(env.policy, key, Successes(db, key), Failures(db, key, env.policy.pending), db.alphas[n].allocation.alpha))
    && (key in db.snapshots ==> db.snapshots[key].valid)
    && !record.lineageSuspended && !record.retired && record.state != SUSPENDED
  }

  /** The gate is open exactly if enough trials count, the newest mark on them is fresh, they meet the requirement at
      the partition's latest level, and nothing has suspended, retired or invalidated it. */
  lemma GateOpensExactly(env: Env, db: Db, key: PartitionKey, record: Record)
    ensures GateReasons(env, db, key, record, Read(db, key, env.policy.pending)) == {} <==> Opens(env, db, key, record)
  {
    hide Read, Successes, Failures, Counting, GateReasons, LastRow, Meets;
    NoReasonMeansOpen(env, db, key, record);
    ReadingMeans(db, key, env.policy.pending);
    LastRowIsLatest(db.alphas, key);
    forall n: nat, m: nat | LatestRow(db.alphas, key, n) && LatestRow(db.alphas, key, m) ensures n == m { OneLatestRow(db.alphas, key, n, m); }
    if AlphaOf(db.alphas, key).Some? { MeetsLevel(env.policy, key, Successes(db, key), Failures(db, key, env.policy.pending), AlphaOf(db.alphas, key).value); }
  }

  lemma MeetsLevel(policy: Policy, key: PartitionKey, successes: nat, failures: nat, level: real)
    ensures Meets(policy, key, successes, failures, level)
       <==> policy.bound(successes, failures, Effective(policy, Some(level))) >= Required(policy, key)
  {}
}
