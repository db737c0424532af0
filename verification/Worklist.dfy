/** The worklist a resolved trial sets off: its partition is walked, the walk may censor other partitions'
    overdue trials, and those partitions are walked in turn before the label commits.  */
module Worklist {
  import opened Tables
  import opened Shadow
  import opened Lifecycle
  import opened Steps

  // ---- what is overdue ------------------------------------------------------------------------------

  /** In the order they were frozen. */
  ghost predicate InOrder(trials: seq<Trial>) {
    forall i, j :: 0 <= i < j < |trials| ==> trials[i].sequence < trials[j].sequence
  }

  lemma OneEarlier(first: Trial, rest: seq<Trial>)
    requires InOrder(rest) && forall t :: t in rest ==> first.sequence < t.sequence
    ensures InOrder([first] + rest)
  {
    var all := [first] + rest;
    forall i, j | 0 <= i < j < |all| ensures all[i].sequence < all[j].sequence {
      assert all[j] == rest[j - 1] && rest[j - 1] in rest;
      if i > 0 { assert all[i] == rest[i - 1]; }
    }
  }

  lemma {:induction false} OverdueInOrder(trials: seq<Trial>, labels: map<string, Resolution>, cutoff: int)
    requires InOrder(trials)
    ensures InOrder(Overdue(trials, labels, cutoff))
  {
    if trials != [] {
      var rest := Overdue(trials[1..], labels, cutoff);
      OverdueInOrder(trials[1..], labels, cutoff);
      forall t | t in rest ensures trials[0].sequence < t.sequence {
        OverdueMembers(trials[1..], labels, cutoff, t);
        var j :| 0 <= j < |trials[1..]| && trials[1..][j] == t;
        assert trials[j + 1] == t;
      }
      OneEarlier(trials[0], rest);
      assert Overdue(trials, labels, cutoff) == (if trials[0].id !in labels && trials[0].frozenAt < cutoff then [trials[0]] else []) + rest;
      assert [] + rest == rest;
    }
  }

  /** The overdue trials are exactly the unresolved ones frozen longer ago than the deadline, in the order they were
      frozen. */
  lemma LateExactly(env: Env, db: Db)
    requires TrialsOrdered(db)
    ensures forall t :: t in LateTrials(env, db) <==> t in db.trials && t.id !in db.labels && env.now > t.frozenAt + env.deadline
    ensures InOrder(LateTrials(env, db))
  {
    forall t: Trial ensures t in LateTrials(env, db) <==> t in db.trials && t.id !in db.labels && env.now > t.frozenAt + env.deadline {
      OverdueMembers(db.trials, db.labels, env.now - env.deadline, t);
    }
    OverdueInOrder(db.trials, db.labels, env.now - env.deadline);
  }

  // ---- what a walk does to the evidence -----------------------------------------------------------

  /** Every overdue trial censored now, and nothing else about the evidence changed. */
  ghost predicate CensoredAll(a: Db, b: Db, late: seq<Trial>, now: int) {
    && b == a.(labels := b.labels, ledger := b.ledger)
    && (forall id :: id in a.labels ==> id in b.labels && b.labels[id] == a.labels[id])
    && (forall id :: id in b.labels ==> id in a.labels || b.labels[id] == Censored(now))
    && (forall t :: t in late ==> t.id in b.labels)
  }

  lemma {:induction false} CensoringResolves(db: Db, late: seq<Trial>, now: int)
    requires AllCensored(db, late, now).Done?
    ensures CensoredAll(db, AllCensored(db, late, now).value, late, now)
    decreases |late|
  {
    if late != [] {
      var db1 := CensoredAt(db, late[0].id, now).value;
      CensoringResolves(db1, late[1..], now);
      assert forall t :: t in late <==> t == late[0] || t in late[1..];
    }
  }

  lemma NoneLate(trials: seq<Trial>, labels: map<string, Resolution>, cutoff: int)
    requires forall t :: t in trials && t.frozenAt < cutoff ==> t.id in labels
    ensures Overdue(trials, labels, cutoff) == []
  {
    if Overdue(trials, labels, cutoff) != [] {
      OverdueMembers(trials, labels, cutoff, Overdue(trials, labels, cutoff)[0]);
    }
  }

  lemma CensoringClears(env: Env, db: Db)
    requires AllCensored(db, LateTrials(env, db), env.now).Done?
    ensures LateTrials(env, AllCensored(db, LateTrials(env, db), env.now).value) == []
  {
    var after, cutoff := AllCensored(db, LateTrials(env, db), env.now).value, env.now - env.deadline;
    CensoringResolves(db, LateTrials(env, db), env.now);
    forall t | t in after.trials && t.frozenAt < cutoff ensures t.id in after.labels {
      OverdueMembers(db.trials, db.labels, cutoff, t);
    }
    NoneLate(after.trials, after.labels, cutoff);
  }

  lemma HeadEvidence(env: Env, db: Db, key: PartitionKey)
    requires Head(env, db, key).Done?
    ensures EvidenceOf(Head(env, db, key).value.db) == EvidenceOf(db)
  {
    EvidentlyStable(env, EvidenceOf(db), key);
    HeadKeeps(env, Evidently(EvidenceOf(db)), db, key);
  }

  lemma TailEvidence(env: Env, db: Db, key: PartitionKey, record: Record)
    requires Tail(env, db, key, record).Done? && Holds(db, key, record) && Awake(record)
    ensures EvidenceOf(Tail(env, db, key, record).value) == EvidenceOf(db)
  {
    EvidentlyStable(env, EvidenceOf(db), key);
    TailKeeps(env, Evidently(EvidenceOf(db)), db, key, record);
  }

  lemma HeadHolds(env: Env, db: Db, key: PartitionKey)
    requires Head(env, db, key).Done?
    ensures var h := Head(env, db, key).value; key in h.db.lifecycle && h.db.lifecycle[key] == h.record
  {
    EvidentlyStable(env, EvidenceOf(db), key);
    HeadKeeps(env, Evidently(EvidenceOf(db)), db, key);
  }

  lemma AwakeWalkProgress(env: Env, db: Db, key: PartitionKey)
    requires Head(env, db, key).Done? && Awake(Head(env, db, key).value.record) && WalkDeferring(env, db, key).Done?
    ensures var s := WalkDeferring(env, db, key).value;
            s.deferred == PartitionsOf(LateTrials(env, db)) && LateTrials(env, s.db) == []
  {
    hide Head, Tail;
    var h := Head(env, db, key).value;
    HeadEvidence(env, db, key);
    HeadHolds(env, db, key);
    CensoringClears(env, h.db);
    CensoringResolves(h.db, LateTrials(env, h.db), env.now);
    TailEvidence(env, AllCensored(h.db, LateTrials(env, h.db), env.now).value, key, h.record);
  }

  /** A walk censors everything overdue or defers nothing: the measure on which the worklist ends. */
  lemma WalkProgress(env: Env, db: Db, key: PartitionKey)
    requires WalkDeferring(env, db, key).Done?
    ensures var s := WalkDeferring(env, db, key).value;
            if LateTrials(env, db) == [] then s.deferred == {} && LateTrials(env, s.db) == []
            else LateTrials(env, s.db) == [] || (s.deferred == {} && LateTrials(env, s.db) == LateTrials(env, db))
  {
    var h := Head(env, db, key).value;
    HeadEvidence(env, db, key);
    if Awake(h.record) {
      AwakeWalkProgress(env, db, key);
    } else {
      SyncedSame(env, h.db, key, h.record);
    }
  }

  // ---- the loop ----------------------------------------------------------------------------------

  predicate Walkable(db: Db, key: PartitionKey) {
    key in db.lifecycle && Awake(db.lifecycle[key])
  }

  /** The worklist, in whatever order the deferred set yields its members. */
  function Drained(env: Env, db: Db, deferred: set<PartitionKey>): Outcome<Db>
    decreases |LateTrials(env, db)|, |deferred|
  {
    if deferred == {} then Done(db)
    else
      var key := env.pick(db, deferred);
      if Walkable(db, key) then
        var s :- WalkDeferring(env, db, key);
        WalkProgress(env, db, key);
        Drained(env, s.db, deferred - {key} + s.deferred)
      else Drained(env, db, deferred - {key})
  }

  function OnLabel(env: Env, db: Db, key: PartitionKey): Outcome<Db> {
    Drained(env, db, {key})
  }

  // ---- walks outside a label -----------------------------------------------------------------------

  /** Outside a label every censoring sets off a worklist of its own, while the list of overdue trials
      was drawn up before the first. */
  function EachCensored(env: Env, db: Db, late: seq<Trial>): Outcome<Db>
    decreases |late|
  {
    if late == [] then Done(db)
    else
      var db1 :- CensoredAt(db, late[0].id, env.now);
      var db2 :- OnLabel(env, db1, late[0].partition);
      EachCensored(env, db2, late[1..])
  }

  function Expired(env: Env, db: Db): Outcome<Db> {
    EachCensored(env, db, LateTrials(env, db))
  }

  function Refreshed(env: Env, db: Db, key: PartitionKey): Outcome<Db> {
    var h :- Head(env, db, key);
    if !Awake(h.record) then Synced(env, h.db, key, h.record)
    else
      var expired :- Expired(env, h.db);
      Tail(env, expired, key, h.record)
  }

  /** The state a refresh returns: that of the record it has held since before the trials were expired. */
  function StateReturned(env: Env, db: Db, key: PartitionKey): Outcome<State> {
    var h :- Head(env, db, key);
    if !Awake(h.record) then Done(h.record.state)
    else
      var expired :- Expired(env, h.db);
      var record :- TailRecord(env, expired, key, h.record);
      Done(record.state)
  }

  /** One label: refused, censoring the trial too if it was late, or admitted; and the walks it sets off. */
  function Adjudicated(env: Env, db: Db, keyring: set<string>, s: SignedLabel): Outcome<Db> {
    match LabelRefusal(db, keyring, env.deadline, env.now, s)
    case Some(LateLabel) =>
      var db1 :- CensoredAt(db, s.trialId, env.now);
      var db2 :- OnLabel(env, db1, s.partition);
      Quarantined(db2, s.trialId, LateLabel)
    case Some(reason) => Quarantined(db, s.trialId, reason)
    case None =>
      var db1 :- LabelRecorded(db, env.now, s);
      OnLabel(env, db1, s.partition)
  }
}
