/** A run from the empty database in which an epoch is opened by hand: the counts start over, and the gate reads the
    new evidence at the level the old evidence was read at.  */
module HandOpenings {
  import opened Tables
  import opened Shadow
  import opened Lifecycle
  import opened Worklist
  import opened Settling
  import opened Operations
  import opened OperationSteps
  import opened Invariants
  import opened Systems
  import opened Runs
  import opened ErrorBudgets
  import opened Scenarios
  import V = Validity
  import G = Gateway
  import Risk

  // ---- one opening -----------------------------------------------------------------------------------------------

  /** An epoch opened by hand starts the counts over and leaves the level and the record as they were. */
  lemma OpeningReusesLevel(db: Db, key: PartitionKey)
    requires TrialsOrdered(db) && EpochStarted(db, key).Done?
    ensures var after := EpochStarted(db, key).value;
            && Floor(after, key) == |db.ledger| > Floor(db, key) && Read(after, key, Pessimistic) == None
            && after.alphas == db.alphas && after.lifecycle == db.lifecycle
  {
    var floors, after := FloorsOf(db.epochs, key), EpochStarted(db, key).value;
    assert (floors + [|db.ledger|])[..|floors|] == floors;
    NoneCount(db.trials, db.labels, key, |db.ledger|);
  }

  lemma {:induction false} NoneCount(trials: seq<Trial>, labels: map<string, Resolution>, key: PartitionKey, floor: int)
    requires forall i :: 0 <= i < |trials| ==> trials[i].sequence <= floor
    ensures Tally(trials, labels, key, floor, COUNTING) == Zero()
  {
    if trials != [] { NoneCount(trials[..|trials| - 1], labels, key, floor); }
  }

  // ---- the run ---------------------------------------------------------------------------------------------------

  /** A trial is frozen, the epoch is opened by hand, and another trial is frozen. */
  function HandOpenedRun(at: Moment, key: PartitionKey, c: G.Decision, d: G.Decision): Trace {
    OneTrialRun(at, key, c) + [(at, Operate(OpenEpoch(key))), (at, Commit(d)), (at, Operate(Freeze(d.id, d.proposal)))]
  }

  /** The gate reads one pending trial and no other. */
  ghost predicate ReadsOnly(db: Db, key: PartitionKey, id: string) {
    && (var ts := V.EpochTrials(db.trials, key, Floor(db, key)); |ts| == 1 && ts[0].id == id)
    && Read(db, key, Pessimistic).Some? && Read(db, key, Pessimistic).value.successes == 0 && Read(db, key, Pessimistic).value.N() == 1
  }

  lemma OpeningWaits(db: Db, key: PartitionKey, trials: seq<Trial>) returns (b: Db)
    requires Waiting(db, key, trials)
    ensures EpochStarted(db, key) == Done(b) && Waiting(b, key, trials) && b.decisions == db.decisions && b.alphas == db.alphas
    ensures Floor(b, key) == |db.ledger| && FloorsOf(b.epochs, key) == FloorsOf(db.epochs, key) + [|db.ledger|]
  {
    b := EpochStarted(db, key).value;
    NewestIsLatest(FloorsOf(db.epochs, key), |db.ledger|);
  }

  /** A commit and a freeze move neither levels nor epochs. */
  lemma CommitAndFreeze(db: Db, key: PartitionKey, trials: seq<Trial>, now: int, d: G.Decision) returns (db1: Db, b: Db, t: Trial)
    requires Waiting(db, key, trials) && d.id !in db.decisions && Trialable(d.route) && d.proposal.partition == key
    requires Find(trials, d.id).None? && forall t :: t in trials ==> t.proposal != d.proposal
    ensures G.Recorded(db, d) == Done(db1) && Frozen(db1, now, d.id, d.proposal) == Done(b)
    ensures Waiting(b, key, trials + [t]) && b.decisions.Keys == db.decisions.Keys + {d.id}
    ensures t.id == d.id && t.partition == key && t.proposal == d.proposal && t.provenance in COUNTING && t.sequence > Floor(db, key)
    ensures t.sequence < |b.ledger| && KeepsLevels(db, b)
  {
    hide Frozen, FreezeRefusal, Waiting;
    db1 := CommitWaits(db, key, trials, d);
    b, t := FreezeWaits(db1, key, trials, now, d.id, d.proposal);
  }

  lemma {:induction false} NoneInEpoch(trials: seq<Trial>, key: PartitionKey, floor: int)
    requires forall i :: 0 <= i < |trials| ==> trials[i].sequence <= floor
    ensures V.EpochTrials(trials, key, floor) == []
  {
    if trials != [] { NoneInEpoch(trials[..|trials| - 1], key, floor); }
  }

  lemma OnlyLastInEpoch(trials: seq<Trial>, t: Trial, key: PartitionKey, floor: int)
    requires Counted(t, key, floor, COUNTING) && forall i :: 0 <= i < |trials| ==> trials[i].sequence <= floor
    ensures V.EpochTrials(trials + [t], key, floor) == [t]
  {
    assert (trials + [t])[..|trials|] == trials;
    NoneInEpoch(trials, key, floor);
  }

  /** One trial of the partition in its epoch, none of the others, and no label. */
  lemma OneRead(db: Db, key: PartitionKey, trials: seq<Trial>, t: Trial)
    requires Waiting(db, key, trials + [t]) && t.partition == key && t.provenance in COUNTING && t.sequence > Floor(db, key)
    requires forall i :: 0 <= i < |trials| ==> trials[i].sequence <= Floor(db, key)
    ensures ReadsOnly(db, key, t.id)
  {
    hide Floor, Tally, EvidenceTime;
    OnlyLastInEpoch(trials, t, key, Floor(db, key));
    V.TallyIsLook(db.trials, db.labels, key, Floor(db, key));
    assert V.PositiveAt(db.labels, [t]) == {};
    PessimisticCountsFrozen(db, key);
  }

  lemma HandOpenedSteps(env: Env, keyring: set<string>, key: PartitionKey, c: G.Decision, d: G.Decision)
    returns (db3: Db, db4: Db, db5: Db, db6: Db, t: Trial)
    requires key.policyVersion == env.policy.version && TwoDecisions(key, c, d)
    ensures exists db1, db2 :: && Operated(env, keyring, EMPTY, Refresh(key)) == Done(db1) && G.Recorded(db1, c) == Done(db2)
                               && Frozen(db2, env.now, c.id, c.proposal) == Done(db3)
    ensures Waiting(db3, key, [t]) && db3.epochs == map[] && ReadsOnly(db3, key, c.id)
    ensures EpochStarted(db3, key) == Done(db4) && G.Recorded(db4, d) == Done(db5) && Frozen(db5, env.now, d.id, d.proposal) == Done(db6)
    ensures ReadsOnly(db6, key, d.id) && db6.alphas == db3.alphas && FloorsOf(db6.epochs, key) == [|db3.ledger|]
  {
    hide Operated, Frozen, EpochStarted, Waiting, ReadsOnly;
    var db1 := FirstRefresh(env, keyring, key);
    var db2, u;
    db2, db3, t := CommitAndFreeze(db1, key, [], env.now, c);
    assert [] + [t] == [t];
    assert Floor(db3, key) == Floor(db1, key);
    OneRead(db3, key, [], t);
    db4 := OpeningWaits(db3, key, [t]);
    assert [t][1..] == [];
    db5, db6, u := CommitAndFreeze(db4, key, [t], env.now, d);
    assert Floor(db6, key) == Floor(db4, key);
    OneRead(db6, key, [t], u);
  }

  lemma HandOpenedStates(host: Host, s: System, at: Moment, key: PartitionKey, c: G.Decision, d: G.Decision, db3: Db, db4: Db, db5: Db, db6: Db)
    requires Run(host, s, OneTrialRun(at, key, c)) == s.(db := db3) && EpochStarted(db3, key) == Done(db4)
    requires G.Recorded(db4, d) == Done(db5) && Frozen(db5, at.now, d.id, d.proposal) == Done(db6)
    ensures Run(host, s, HandOpenedRun(at, key, c, d)) == s.(db := db6)
  {
    hide EpochStarted, G.Recorded, Frozen;
    var three := OneTrialRun(at, key, c);
    var four := three + [(at, Operate(OpenEpoch(key)))];
    var five := four + [(at, Commit(d))];
    StepDone(host, s, three, at, Operate(OpenEpoch(key)), s.(db := db3), db4);
    StepDone(host, s, four, at, Commit(d), s.(db := db4), db5);
    StepDone(host, s, five, at, Operate(Freeze(d.id, d.proposal)), s.(db := db5), db6);
    assert five + [(at, Operate(Freeze(d.id, d.proposal)))] == HandOpenedRun(at, key, c, d);
  }

  /** From the empty database: a partition is registered and a trial of it frozen, its epoch is opened by hand, and a
      second trial is frozen.  The gate first reads the one trial and then only the other, at the level recorded for
      the first: one level, two tries, and no row of the error budget between them. */
  lemma LevelAppliedTwice(host: Host, policy: Policy, rules: Risk.Rules, at: Moment, key: PartitionKey, c: G.Decision, d: G.Decision)
    requires key.policyVersion == policy.version && TwoDecisions(key, c, d)
    ensures var s := System(EMPTY, policy, rules); var trace := HandOpenedRun(at, key, c, d);
            var before, after := Run(host, s, trace[..3]).db, Run(host, s, trace).db;
            && ReadsOnly(before, key, c.id) && ReadsOnly(after, key, d.id) && after.alphas == before.alphas
            && LevelOfEpoch(before, key) && !LevelOfEpoch(after, key)
            && Openings(host, s, trace[..3], key) == 0 && Openings(host, s, trace, key) == 1
  {
    hide Effect, EpochStarted, Frozen, G.Recorded, ReadsOnly, Openings, Operated;
    var s, trace := System(EMPTY, policy, rules), HandOpenedRun(at, key, c, d);
    assert trace[..3] == OneTrialRun(at, key, c);
    var db3, db4, db5, db6, t := HandOpenedSteps(EnvOf(host, s, at), host.keyring, key, c, d);
    FirstThree(host, s, at, key, c, db3);
    HandOpenedStates(host, s, at, key, c, d, db3, db4, db5, db6);
    OpeningsCounted(host, policy, rules, trace[..3], key);
    OpeningsCounted(host, policy, rules, trace, key);
    LevelLost(db3, db6, key, |db3.ledger|);
  }

  lemma FirstThree(host: Host, s: System, at: Moment, key: PartitionKey, c: G.Decision, db3: Db)
    requires exists db1, db2 :: && Operated(EnvOf(host, s, at), host.keyring, s.db, Refresh(key)) == Done(db1) && G.Recorded(db1, c) == Done(db2)
                                && Frozen(db2, at.now, c.id, c.proposal) == Done(db3)
    ensures Run(host, s, OneTrialRun(at, key, c)) == s.(db := db3)
  {
    hide Refreshed, Frozen, G.Recorded;
    var db1, db2 :| && Operated(EnvOf(host, s, at), host.keyring, s.db, Refresh(key)) == Done(db1) && G.Recorded(db1, c) == Done(db2)
                    && Frozen(db2, at.now, c.id, c.proposal) == Done(db3);
    OneTrialState(host, s, at, key, c, db1, db2, db3);
  }

  lemma LevelLost(before: Db, after: Db, key: PartitionKey, next: nat)
    requires before.epochs == map[] && LevelInTime(before, key) && Listed(before, key)
    requires after.alphas == before.alphas && FloorsOf(after.epochs, key) == [next]
    ensures LevelOfEpoch(before, key) && !LevelOfEpoch(after, key) && Reopenings(before, key) == 0 && Reopenings(after, key) == 1
  {
    assert [next][..0] == [];
    assert Above([next], -1) == 1;
  }
}
