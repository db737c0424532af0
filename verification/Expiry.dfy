/** Walking outside a label: exactly when it succeeds, and what it leaves.  The list of overdue trials is drawn
    up before the first of them is censored, and censoring the trial of a live partition sets off a walk that
    censors all the others; the list then meets a trial that is already resolved, and the transaction raises.  */
module Expiry {
  import opened Tables
  import opened Shadow
  import opened Lifecycle
  import opened Steps
  import opened Worklist
  import opened Settling

  ghost predicate DistinctIds(trials: seq<Trial>) {
    forall i, j :: 0 <= i < j < |trials| ==> trials[i].id != trials[j].id
  }

  lemma {:induction false} OverdueUnaffected(trials: seq<Trial>, labels: map<string, Resolution>, cutoff: int, id: string, r: Resolution)
    requires forall i :: 0 <= i < |trials| ==> trials[i].id != id
    ensures Overdue(trials, labels[id := r], cutoff) == Overdue(trials, labels, cutoff)
  {
    if trials != [] { OverdueUnaffected(trials[1..], labels, cutoff, id, r); }
  }

  /** Resolving the first overdue trial leaves the others. */
  lemma {:induction false} OverdueRest(trials: seq<Trial>, labels: map<string, Resolution>, cutoff: int, r: Resolution)
    requires DistinctIds(trials) && Overdue(trials, labels, cutoff) != []
    ensures var late := Overdue(trials, labels, cutoff);
            late[0].id !in labels && Overdue(trials, labels[late[0].id := r], cutoff) == late[1..]
  {
    if trials[0].id !in labels && trials[0].frozenAt < cutoff {
      OverdueUnaffected(trials[1..], labels, cutoff, trials[0].id, r);
    } else {
      OverdueRest(trials[1..], labels, cutoff, r);
      var late := Overdue(trials, labels, cutoff);
      OverdueMembers(trials[1..], labels, cutoff, late[0]);
    }
  }

  /** The live partitions are on the current policy version, as every policy change leaves them. */
  ghost predicate Versioned(env: Env, db: Db) {
    forall key :: Walkable(db, key) ==> key.policyVersion == env.policy.version
  }

  /** While a label is processed, a live partition's walk clears everything overdue, and a partition that
      is not live is passed over. */
  lemma OnLabelClears(env: Env, db: Db, key: PartitionKey)
    requires Versioned(env, db)
    ensures !Walkable(db, key) ==> OnLabel(env, db, key) == Done(db)
    ensures Walkable(db, key) && OnLabel(env, db, key).Done? ==>
              WalkDeferring(env, db, key).Done? && LateTrials(env, OnLabel(env, db, key).value) == []
  {
    assert env.pick(db, {key}) in {key};
    assert {key} - {key} == {} && Drained(env, db, {}) == Done(db);
    if Walkable(db, key) && OnLabel(env, db, key).Done? {
      var s := WalkDeferring(env, db, key).value;
      HeadAwake(env, db, key);
      AwakeWalkProgress(env, db, key);
      QuietDrainLate(env, s.db, {key} - {key} + s.deferred);
    }
  }

  lemma HeadAwake(env: Env, db: Db, key: PartitionKey)
    requires Walkable(db, key) && key.policyVersion == env.policy.version && Head(env, db, key).Done?
    ensures Head(env, db, key).value.record == db.lifecycle[key]
  {}

  /** Everything censored first and then one worklist, for the last: what the loop comes to if it succeeds. */
  function CensoredThenWalked(env: Env, db: Db, late: seq<Trial>): Outcome<Db> {
    if late == [] then Done(db)
    else
      var all :- AllCensored(db, late, env.now);
      OnLabel(env, all, late[|late| - 1].partition)
  }

  predicate OnlyLastWalks(db: Db, late: seq<Trial>) {
    forall i :: 0 <= i < |late| - 1 ==> !Walkable(db, late[i].partition)
  }

  /** Expiring outside a label, exactly: it raises if a trial before the last belongs to a live partition,
      and otherwise censors everything overdue and walks the last one's partition. */
  lemma {:induction false} ExpiringIsCensoringAll(env: Env, db: Db, late: seq<Trial>)
    requires late == LateTrials(env, db) && DistinctIds(db.trials) && Versioned(env, db)
    ensures EachCensored(env, db, late) == if OnlyLastWalks(db, late) then CensoredThenWalked(env, db, late) else Raised
    decreases |late|
  {
    hide OnLabel, DistinctIds;
    if late != [] && CensoredAt(db, late[0].id, env.now).Done? {
      var db1 := CensoredAt(db, late[0].id, env.now).value;
      OverdueRest(db.trials, db.labels, env.now - env.deadline, Censored(env.now));
      if |late| == 1 {
        LastOne(env, db, late);
      } else if Walkable(db, late[0].partition) {
        FirstWalks(env, db, db1, late);
      } else {
        ExpiringIsCensoringAll(env, db1, late[1..]);
        PassesOver(env, db, db1, late);
      }
    }
  }

  /** The first of several belongs to a live partition, whose walk resolves the others. */
  lemma FirstWalks(env: Env, db: Db, db1: Db, late: seq<Trial>)
    requires |late| > 1 && CensoredAt(db, late[0].id, env.now) == Done(db1) && late[1..] == LateTrials(env, db1)
    requires Versioned(env, db1) && Walkable(db1, late[0].partition) && Walkable(db, late[0].partition)
    ensures EachCensored(env, db, late) == Raised && !OnlyLastWalks(db, late)
  {
    hide OnLabel, CensoredAt, LateTrials;
    OnLabelClears(env, db1, late[0].partition);
    if OnLabel(env, db1, late[0].partition).Done? { NextIsResolved(env, db1, late[0].partition, late[1..]); }
  }

  /** The first of several belongs to no live partition, and the rest go on without it. */
  lemma PassesOver(env: Env, db: Db, db1: Db, late: seq<Trial>)
    requires |late| > 1 && CensoredAt(db, late[0].id, env.now) == Done(db1) && db1.lifecycle == db.lifecycle
    requires Versioned(env, db1) && !Walkable(db, late[0].partition)
    requires EachCensored(env, db1, late[1..]) == if OnlyLastWalks(db1, late[1..]) then CensoredThenWalked(env, db1, late[1..]) else Raised
    ensures EachCensored(env, db, late) == if OnlyLastWalks(db, late) then CensoredThenWalked(env, db, late) else Raised
  {
    hide OnLabel, CensoredAt, OnlyLastWalks;
    OnLabelClears(env, db1, late[0].partition);
    FirstPassedOver(db, db1, late);
    assert late[1..][|late| - 2] == late[|late| - 1];
  }

  lemma LastOne(env: Env, db: Db, late: seq<Trial>)
    requires |late| == 1 && CensoredAt(db, late[0].id, env.now).Done?
    ensures EachCensored(env, db, late) == CensoredThenWalked(env, db, late)
  {
    var db1 := CensoredAt(db, late[0].id, env.now).value;
    assert late[1..] == [];
    assert AllCensored(db1, late[1..], env.now) == Done(db1);
    var r := OnLabel(env, db1, late[0].partition);
    if r.Done? { assert EachCensored(env, r.value, late[1..]) == Done(r.value); }
  }

  lemma FirstPassedOver(db: Db, db1: Db, late: seq<Trial>)
    requires |late| > 1 && db1.lifecycle == db.lifecycle && !Walkable(db, late[0].partition)
    ensures OnlyLastWalks(db, late) <==> OnlyLastWalks(db1, late[1..])
  {
    assert forall i :: 0 <= i < |late| - 2 ==> late[1..][i] == late[i + 1];
    if OnlyLastWalks(db1, late[1..]) {
      forall i | 0 <= i < |late| - 1 ensures !Walkable(db, late[i].partition) {
        if i > 0 { assert late[1..][i - 1] == late[i]; }
      }
    }
  }

  lemma NextIsResolved(env: Env, db: Db, key: PartitionKey, rest: seq<Trial>)
    requires OnLabel(env, db, key).Done? && rest != [] && rest == LateTrials(env, db)
    requires LateTrials(env, OnLabel(env, db, key).value) == []
    ensures EachCensored(env, OnLabel(env, db, key).value, rest) == Raised
  {
    var after := OnLabel(env, db, key).value;
    CensoringStable(env, db);
    DrainedKeeps(env, Censoring(env, db), db, {key});
    ResolvedRaises(env, db, after, rest);
  }

  lemma ResolvedRaises(env: Env, db: Db, after: Db, rest: seq<Trial>)
    requires rest != [] && rest == LateTrials(env, db) && after.trials == db.trials && LateTrials(env, after) == []
    ensures EachCensored(env, after, rest) == Raised
  {
    OverdueMembers(db.trials, db.labels, env.now - env.deadline, rest[0]);
    OverdueMembers(after.trials, after.labels, env.now - env.deadline, rest[0]);
    assert rest[0].id in after.labels;
  }

  /** A live partition with an overdue trial that is not the last overdue one cannot be refreshed, nor can
      any other live partition, until a label's own worklist clears the trials. */
  lemma OverdueTrialBlocksRefresh(env: Env, db: Db, key: PartitionKey, i: nat)
    requires Head(env, db, key).Done?
    requires var h := Head(env, db, key).value;
             && Awake(h.record) && DistinctIds(h.db.trials) && Versioned(env, h.db)
             && i < |LateTrials(env, h.db)| - 1 && Walkable(h.db, LateTrials(env, h.db)[i].partition)
    ensures Refreshed(env, db, key) == Raised
  {
    var h := Head(env, db, key).value;
    ExpiringIsCensoringAll(env, h.db, LateTrials(env, h.db));
  }

  /** A tail run with an out-of-date copy of a settled partition's record leaves it settled. */
  lemma StaleTailSettles(env: Env, db: Db, key: PartitionKey, record: Record)
    requires Settled(env, db, key) && Holds(db, key, record) && Awake(record) && Tail(env, db, key, record).Done?
    ensures Settled(env, Tail(env, db, key, record).value, key)
  {
    var J := Evidently(EvidenceOf(db));
    EvidentlyStable(env, EvidenceOf(db), key);
    var reading := Read(db, key, env.policy.pending);
    StatelessSync(env, db, key, record);
    AdmittedKeeps(env, J, db, key, record, reading);
    AdmittedRight(db, key, record, reading);
    var w1 := Admitted(db, key, record, reading).value;
    GatedKeeps(env, J, w1.db, key, w1.record);
    var w2 := Gated(env, w1.db, key, w1.record, reading).value;
    if w2.db.lifecycle[key] == w2.record {
      FinishSettles(env, w1, key, reading);
    } else {
      assert w2 == Walked(db, record);
    }
  }

  /** What is published for a live partition does not depend on its state. */
  lemma StatelessSync(env: Env, db: Db, key: PartitionKey, record: Record)
    requires Settled(env, db, key) && Holds(db, key, record) && Awake(record)
    ensures Synced(env, db, key, record) == Done(db)
  {}

  lemma LastWalk(env: Env, db: Db, walked: PartitionKey, key: PartitionKey, record: Record)
    requires Versioned(env, db) && LateTrials(env, db) == [] && OnLabel(env, db, walked).Done?
    requires key in db.lifecycle && db.lifecycle[key] == record && Awake(record)
    requires IndexOf(db.alphas, key).Some?
    ensures var after := OnLabel(env, db, walked).value;
            && Holds(after, key, record) && LateTrials(env, after) == []
            && (Settled(env, after, key)
                || (after.lifecycle[key] == record && IndexOf(after.alphas, key).Some?))
  {
    assert env.pick(db, {walked}) in {walked};
    assert {walked} - {walked} == {};
    var after := OnLabel(env, db, walked).value;
    OnLabelClears(env, db, walked);
    if Walkable(db, walked) {
      var s := WalkDeferring(env, db, walked).value;
      WalkWithoutLate(env, db, walked);
      assert {walked} - {walked} + s.deferred == {};
      assert Drained(env, s.db, {}) == Done(s.db);
      HoldingStable(env, key, record);
      assert Stable(env, Holding(env, key, record), walked);
      WalkKeeps(env, Holding(env, key, record), db, walked);
      if walked == key {
        WalkSettles(env, db, key);
      } else {
        UnseenStable(env, key, ViewOf(db, key), walked);
        WalkKeeps(env, Unseen(key, ViewOf(db, key)), db, walked);
      }
    }
  }

  /** A refresh that succeeds leaves the partition settled with nothing overdue. */
  lemma RefreshSettles(env: Env, db: Db, key: PartitionKey)
    requires Refreshed(env, db, key).Done? && DistinctIds(db.trials)
    requires Versioned(env, Head(env, db, key).value.db)
    ensures Settled(env, Refreshed(env, db, key).value, key)
    ensures Walkable(Refreshed(env, db, key).value, key) ==> LateTrials(env, Refreshed(env, db, key).value) == []
  {
    var h := Head(env, db, key).value;
    HeadHolds(env, db, key);
    HeadEvidence(env, db, key);
    if !Awake(h.record) {
      SyncedSame(env, h.db, key, h.record);
    } else {
      HeadRegisters(env, db, key);
      ExpiringIsCensoringAll(env, h.db, LateTrials(env, h.db));
      ExpiredSettles(env, h.db, key, h.record);
    }
  }

  lemma ExpiredSettles(env: Env, db: Db, key: PartitionKey, record: Record)
    requires Versioned(env, db) && key in db.lifecycle && db.lifecycle[key] == record && Awake(record)
    requires IndexOf(db.alphas, key).Some? && key.policyVersion == env.policy.version
    requires var late := LateTrials(env, db);
             EachCensored(env, db, late).Done? && EachCensored(env, db, late) == CensoredThenWalked(env, db, late)
             && Tail(env, EachCensored(env, db, late).value, key, record).Done?
    ensures var after := Tail(env, Expired(env, db).value, key, record).value;
            Settled(env, after, key) && LateTrials(env, after) == []
  {
    hide Tail, EachCensored, AllCensored, OnLabel, Settled;
    var late := LateTrials(env, db);
    if late == [] {
      TailSettles(env, db, key, record);
      TailEvidence(env, db, key, record);
    } else {
      var all := AllCensored(db, late, env.now).value;
      CensoringResolves(db, late, env.now);
      CensoringClears(env, db);
      assert Versioned(env, all) by { assert forall k :: Walkable(all, k) ==> Walkable(db, k); }
      LastWalk(env, all, late[|late| - 1].partition, key, record);
      var d := Expired(env, db).value;
      TailEvidence(env, d, key, record);
      if Settled(env, d, key) { StaleTailSettles(env, d, key, record); } else { TailSettles(env, d, key, record); }
    }
  }

  // ---- what a refresh returns ----------------------------------------------------------------------------------

  /** Where a tail takes a live partition, read off the tables before it. */
  function TailTarget(env: Env, db: Db, key: PartitionKey, record: Record): State {
    var reading := Read(db, key, env.policy.pending);
    var reasons := GateReasons(env, db, key, record, reading);
    var admitted := if record.state == UNESTABLISHED && reading.Some? && reading.value.N() >= 1 then QUALIFYING else record.state;
    if admitted == QUALIFYING && reasons == {} then AUTONOMOUS
    else if admitted == AUTONOMOUS && reasons != {} then QUALIFYING
    else admitted
  }

  lemma GatedTarget(env: Env, db: Db, key: PartitionKey, record: Record, reading: Option<Reading>)
    requires Gated(env, db, key, record, reading).Done? && Awake(record)
    ensures var w := Gated(env, db, key, record, reading).value; var reasons := GateReasons(env, db, key, record, reading);
            w.record == record.(state := if record.state == QUALIFYING && reasons == {} then AUTONOMOUS
                                         else if record.state == AUTONOMOUS && reasons != {} then QUALIFYING else record.state)
  {}

  lemma AdmittedTarget(db: Db, key: PartitionKey, record: Record, reading: Option<Reading>)
    requires Admitted(db, key, record, reading).Done?
    ensures var w := Admitted(db, key, record, reading).value;
            && w.record == record.(state := if record.state == UNESTABLISHED && reading.Some? && reading.value.N() >= 1
                                            then QUALIFYING else record.state)
            && w.db.snapshots == db.snapshots && w.db.alphas == db.alphas
  {}

  lemma SameGate(env: Env, a: Db, b: Db, key: PartitionKey, r: Record, s: Record, reading: Option<Reading>)
    requires a.alphas == b.alphas && ((key in b.snapshots && !b.snapshots[key].valid) <==> (key in a.snapshots && !a.snapshots[key].valid))
    requires s == r.(state := s.state) && Awake(r) && Awake(s)
    ensures GateReasons(env, a, key, r, reading) == GateReasons(env, b, key, s, reading)
  {}

  /** The record a tail ends with is the one it was given, in the target state. */
  lemma TailReachesTarget(env: Env, db: Db, key: PartitionKey, record: Record)
    requires Tail(env, db, key, record).Done? && Awake(record)
    ensures TailRecord(env, db, key, record) == Done(record.(state := TailTarget(env, db, key, record)))
  {
    hide Gated, Admitted, Synced, GateReasons;
    var reading := Read(db, key, env.policy.pending);
    var db1 := Synced(env, db, key, record).value;
    SyncedSame(env, db, key, record);
    AdmittedTarget(db1, key, record, reading);
    var w1 := Admitted(db1, key, record, reading).value;
    GatedTarget(env, w1.db, key, w1.record, reading);
    SameGate(env, db, w1.db, key, record, w1.record, reading);
  }

  /** If it was given the stored record, it is what is stored. */
  lemma TailStoresTarget(env: Env, db: Db, key: PartitionKey, record: Record)
    requires Tail(env, db, key, record).Done? && Awake(record) && key in db.lifecycle && db.lifecycle[key] == record
    ensures var after := Tail(env, db, key, record).value;
            key in after.lifecycle && after.lifecycle[key] == record.(state := TailTarget(env, db, key, record))
  {
    TailReachesTarget(env, db, key, record);
    TailStoresRecord(env, db, key, record);
  }

  lemma TailStoresRecord(env: Env, db: Db, key: PartitionKey, record: Record)
    requires Tail(env, db, key, record).Done? && Awake(record) && key in db.lifecycle && db.lifecycle[key] == record
    ensures var after := Tail(env, db, key, record).value;
            TailRecord(env, db, key, record).Done? && key in after.lifecycle
            && after.lifecycle[key] == TailRecord(env, db, key, record).value
  {
    hide Gated, Admitted, Synced, GateReasons;
    var J := Evidently(EvidenceOf(db));
    EvidentlyStable(env, EvidenceOf(db), key);
    var reading := Read(db, key, env.policy.pending);
    var db1 := Synced(env, db, key, record).value;
    SyncedSame(env, db, key, record);
    AdmittedKeeps(env, J, db1, key, record, reading);
    var w1 := Admitted(db1, key, record, reading).value;
    GatedKeeps(env, J, w1.db, key, w1.record);
    var w2 := Gated(env, w1.db, key, w1.record, reading).value;
    SyncedSame(env, w2.db, key, w2.record);
  }

  /** What a tail of a partition does to what its target is read from. */
  ghost function Sides(env: Env, key: PartitionKey, db: Db): Db -> bool {
    (d: Db) => EvidenceOf(d) == EvidenceOf(db) && d.alphas == db.alphas
      && ((key in d.snapshots && !d.snapshots[key].valid) <==> (key in db.snapshots && !db.snapshots[key].valid))
  }

  lemma TailKeepsSides(env: Env, db: Db, key: PartitionKey, record: Record)
    requires Tail(env, db, key, record).Done? && Awake(record) && key in db.lifecycle && db.lifecycle[key] == record
    ensures Sides(env, key, db)(Tail(env, db, key, record).value)
  {
    hide Gated, Admitted, Synced, GateReasons;
    var J := Evidently(EvidenceOf(db));
    EvidentlyStable(env, EvidenceOf(db), key);
    var reading := Read(db, key, env.policy.pending);
    var db1 := Synced(env, db, key, record).value;
    SyncedSame(env, db, key, record);
    AdmittedKeeps(env, J, db1, key, record, reading);
    var w1 := Admitted(db1, key, record, reading).value;
    GatedKeeps(env, J, w1.db, key, w1.record);
    var w2 := Gated(env, w1.db, key, w1.record, reading).value;
    SyncedSame(env, w2.db, key, w2.record);
  }

  lemma SameTarget(env: Env, a: Db, b: Db, key: PartitionKey, record: Record)
    requires Sides(env, key, a)(b) && Awake(record)
    ensures TailTarget(env, b, key, record) == TailTarget(env, a, key, record)
  {
    SameGate(env, a, b, key, record, record, Read(a, key, env.policy.pending));
  }

  /** Whatever the worklists did to the stored record meanwhile, a tail with the record held since before them ends
      in the state that is stored. */
  lemma HeldIsStored(env: Env, db: Db, walked: PartitionKey, key: PartitionKey, record: Record, d: Db)
    requires Versioned(env, db) && LateTrials(env, db) == [] && OnLabel(env, db, walked) == Done(d)
    requires key in db.lifecycle && db.lifecycle[key] == record && Awake(record) && IndexOf(db.alphas, key).Some?
    requires Tail(env, d, key, record).Done?
    ensures var after := Tail(env, d, key, record).value;
            key in after.lifecycle && after.lifecycle[key].state == TailTarget(env, d, key, record)
  {
    hide Tail, WalkDeferring;
    assert env.pick(db, {walked}) in {walked};
    assert {walked} - {walked} == {};
    if walked == key {
      OnlyWalk(env, db, key, record, d);
      TailStoresTarget(env, db, key, record);
      TailKeepsSides(env, db, key, record);
      SameTarget(env, db, d, key, record);
      TailAgain(env, db, d, key, record);
    } else {
      OtherWalk(env, db, walked, key, d);
      TailStoresTarget(env, d, key, record);
    }
  }

  lemma OnlyWalk(env: Env, db: Db, key: PartitionKey, record: Record, d: Db)
    requires Versioned(env, db) && LateTrials(env, db) == [] && OnLabel(env, db, key) == Done(d)
    requires key in db.lifecycle && db.lifecycle[key] == record && Awake(record) && IndexOf(db.alphas, key).Some?
    ensures Tail(env, db, key, record) == Done(d)
  {
    assert env.pick(db, {key}) in {key};
    var s := WalkDeferring(env, db, key).value;
    WalkWithoutLate(env, db, key);
    var none: set<PartitionKey> := {key} - {key} + s.deferred;
    assert none == {} && Drained(env, s.db, none) == Done(s.db);
    HeadAwake(env, db, key);
    assert AllCensored(db, [], env.now) == Done(db);
  }

  lemma OtherWalk(env: Env, db: Db, walked: PartitionKey, key: PartitionKey, d: Db)
    requires Versioned(env, db) && LateTrials(env, db) == [] && OnLabel(env, db, walked) == Done(d) && walked != key && key in db.lifecycle
    ensures key in d.lifecycle && d.lifecycle[key] == db.lifecycle[key]
  {
    assert env.pick(db, {walked}) in {walked};
    if Walkable(db, walked) {
      var s := WalkDeferring(env, db, walked).value;
      WalkWithoutLate(env, db, walked);
      var none: set<PartitionKey> := {walked} - {walked} + s.deferred;
      assert none == {} && Drained(env, s.db, none) == Done(s.db);
      UnseenStable(env, key, ViewOf(db, key), walked);
      WalkKeeps(env, Unseen(key, ViewOf(db, key)), db, walked);
      assert ViewOf(s.db, key).record == ViewOf(db, key).record;
    } else {
      assert {walked} - {walked} == {} && Drained(env, db, {}) == Done(db);
    }
  }

  /** A second tail that holds the record the first one began with leaves the state where the first one did. */
  lemma TailAgain(env: Env, db: Db, d: Db, key: PartitionKey, record: Record)
    requires Awake(record) && key in d.lifecycle && d.lifecycle[key] == record.(state := TailTarget(env, d, key, record))
    requires Tail(env, d, key, record).Done?
    ensures var after := Tail(env, d, key, record).value;
            key in after.lifecycle && after.lifecycle[key].state == TailTarget(env, d, key, record)
  {
    hide GateReasons, Synced;
    SyncedSame(env, d, key, record);
    TailReachesTarget(env, d, key, record);
    TailLeavesOrStores(env, d, key, record);
  }

  lemma TailLeavesOrStores(env: Env, db: Db, key: PartitionKey, record: Record)
    requires Holds(db, key, record) && Awake(record) && Tail(env, db, key, record).Done?
    ensures var after := Tail(env, db, key, record).value;
            && TailRecord(env, db, key, record).Done? && key in after.lifecycle
            && (after.lifecycle[key] == db.lifecycle[key] || after.lifecycle[key] == TailRecord(env, db, key, record).value)
  {
    hide Gated, Admitted, Synced, GateReasons;
    var J := Evidently(EvidenceOf(db));
    EvidentlyStable(env, EvidenceOf(db), key);
    var reading := Read(db, key, env.policy.pending);
    var db1 := Synced(env, db, key, record).value;
    SyncedSame(env, db, key, record);
    AdmittedKeeps(env, J, db1, key, record, reading);
    var w1 := Admitted(db1, key, record, reading).value;
    GatedKeeps(env, J, w1.db, key, w1.record);
    var w2 := Gated(env, w1.db, key, w1.record, reading).value;
    SyncedSame(env, w2.db, key, w2.record);
  }

  lemma ExpiredReturns(env: Env, db: Db, key: PartitionKey, record: Record, d: Db)
    requires Versioned(env, db) && DistinctIds(db.trials) && key in db.lifecycle && db.lifecycle[key] == record && Awake(record)
    requires IndexOf(db.alphas, key).Some? && key.policyVersion == env.policy.version
    requires Expired(env, db) == Done(d) && Tail(env, d, key, record).Done?
    ensures var after := Tail(env, d, key, record).value;
            key in after.lifecycle && after.lifecycle[key].state == TailTarget(env, d, key, record)
  {
    hide Tail, OnLabel, AllCensored;
    var late := LateTrials(env, db);
    ExpiringIsCensoringAll(env, db, late);
    if late == [] {
      TailStoresTarget(env, db, key, record);
    } else {
      var all := AllCensored(db, late, env.now).value;
      CensoringResolves(db, late, env.now);
      CensoringClears(env, db);
      assert Versioned(env, all) by { assert forall k :: Walkable(all, k) ==> Walkable(db, k); }
      HeldIsStored(env, all, late[|late| - 1].partition, key, record, d);
    }
  }

  /** The state a refresh returns is the state it stores: the record it holds may fall behind, but catches up. */
  lemma ReturnedIsStored(env: Env, db: Db, key: PartitionKey)
    requires Refreshed(env, db, key).Done? && DistinctIds(db.trials)
    requires Versioned(env, Head(env, db, key).value.db)
    ensures var after := Refreshed(env, db, key).value;
            key in after.lifecycle && StateReturned(env, db, key) == Done(after.lifecycle[key].state)
  {
    hide Head, Tail, Expired, TailRecord;
    var h := Head(env, db, key).value;
    HeadHolds(env, db, key);
    HeadEvidence(env, db, key);
    if !Awake(h.record) {
      SyncedSame(env, h.db, key, h.record);
    } else {
      HeadRegisters(env, db, key);
      var d := Expired(env, h.db).value;
      ExpiredReturns(env, h.db, key, h.record, d);
      TailReachesTarget(env, d, key, h.record);
    }
  }

  /** A second refresh at the same instant writes nothing. */
  lemma RefreshTwice(env: Env, db: Db, key: PartitionKey)
    requires Refreshed(env, db, key).Done? && DistinctIds(db.trials)
    requires Versioned(env, Head(env, db, key).value.db) && Walkable(Refreshed(env, db, key).value, key)
    ensures Refreshed(env, Refreshed(env, db, key).value, key) == Refreshed(env, db, key)
  {
    RefreshSettles(env, db, key);
    SettledIsFixed(env, Refreshed(env, db, key).value, key);
  }

  /** A snapshot that says what the counts say, or zeros where no counting trial exists, at the epoch's level. */
  predicate Faithful(s: Snapshot, key: PartitionKey, reading: Option<Reading>, alpha: Option<real>) {
    && !s.suspended && s.alpha == alpha
    && (reading.Some? ==> s.id == ShadowEvidence(key) && s.successes == reading.value.successes
                          && s.failures == reading.value.failures && s.until == reading.value.until)
    && (reading.None? ==> s.successes == 0 && s.failures == 0)
  }

  /** The published snapshot of a settled live partition is faithful, and exists once a trial counts. */
  lemma SettledPublishes(env: Env, db: Db, key: PartitionKey)
    requires Settled(env, db, key) && Walkable(db, key)
    ensures Read(db, key, env.policy.pending).Some? ==> key in db.snapshots
    ensures key in db.snapshots ==> Faithful(db.snapshots[key], key, Read(db, key, env.policy.pending), AlphaOf(db.alphas, key))
  {
    var b := BasisOf(env, db, key, db.lifecycle[key]);
    if b.Some? { FixedIsSame(env, db, key, db.lifecycle[key], b.value); }
  }
}
