/** What holds when a label commits: every live partition with a trial resolved in that transaction has been
    walked after its last resolution, and one that lost its gate holds no evidence-based token.  */
module Settling {
  import opened Tables
  import opened Shadow
  import opened Lifecycle
  import opened Steps
  import opened Worklist

  // ---- facts that survive ----------------------------------------------------------------------------

  ghost predicate EverStable(env: Env, J: Db -> bool) {
    forall key :: Stable(env, J, key)
  }

  lemma {:induction false} DrainedKeeps(env: Env, J: Db -> bool, db: Db, deferred: set<PartitionKey>)
    requires EverStable(env, J) && J(db) && Drained(env, db, deferred).Done?
    ensures J(Drained(env, db, deferred).value)
    decreases |LateTrials(env, db)|, |deferred|
  {
    if deferred != {} {
      var key := env.pick(db, deferred);
      if Walkable(db, key) {
        assert Stable(env, J, key);
        WalkKeeps(env, J, db, key);
        WalkProgress(env, db, key);
        var s := WalkDeferring(env, db, key).value;
        DrainedKeeps(env, J, s.db, deferred - {key} + s.deferred);
      } else {
        DrainedKeeps(env, J, db, deferred - {key});
      }
    }
  }

  lemma {:induction false} EachCensoredKeeps(env: Env, J: Db -> bool, db: Db, late: seq<Trial>)
    requires EverStable(env, J) && J(db) && EachCensored(env, db, late).Done?
    requires AreLate(env, db.trials, late)
    ensures J(EachCensored(env, db, late).value)
    decreases |late|
  {
    if late != [] {
      var db1 := CensoredAt(db, late[0].id, env.now).value;
      assert Stable(env, J, late[0].partition);
      CensorsOne(env, db, late[0]);
      DrainedKeeps(env, J, db1, {late[0].partition});
      var db2 := OnLabel(env, db1, late[0].partition).value;
      SameTrialsStable(env, db1.trials);
      DrainedKeeps(env, SameTrials(db1.trials), db1, {late[0].partition});
      assert forall t :: t in late[1..] ==> t in late;
      EachCensoredKeeps(env, J, db2, late[1..]);
    }
  }

  ghost function SameTrials(trials: seq<Trial>): Db -> bool {
    (d: Db) => d.trials == trials
  }

  lemma SameTrialsStable(env: Env, trials: seq<Trial>)
    ensures EverStable(env, SameTrials(trials))
  {
    hide NewRow, Newcomer, GateOpen, OnlyRevoked, LegalNote, LateTrials;
    var J := SameTrials(trials);
    forall a, b, t | J(a) && Censors(env, a, b, t) ensures J(b) {}
    forall key ensures QuietStable(env, J, key) {}
  }

  /** The record that outer code holds while worklists run. */
  ghost function Holding(env: Env, key: PartitionKey, record: Record): Db -> bool {
    (d: Db) => Holds(d, key, record) && Awake(record) && key.policyVersion == env.policy.version
  }

  lemma HoldingStable(env: Env, key: PartitionKey, record: Record)
    ensures EverStable(env, Holding(env, key, record))
  {
    hide Holding, QuietStable, Censors;
    forall other ensures Stable(env, Holding(env, key, record), other) { HoldingWalk(env, key, record, other); }
  }

  /** The held copy stays good for every later state that agrees with it but for the state of a live partition. */
  lemma HoldingStep(env: Env, key: PartitionKey, record: Record, a: Db, b: Db)
    requires Holding(env, key, record)(a) && key in b.lifecycle && b.lifecycle[key] == a.lifecycle[key].(state := b.lifecycle[key].state)
    requires b.lifecycle[key].state != SUSPENDED
    ensures Holding(env, key, record)(b)
  {}

  lemma HoldingWalk(env: Env, key: PartitionKey, record: Record, other: PartitionKey)
    ensures Stable(env, Holding(env, key, record), other)
  {
    hide NewRow, Newcomer, GateOpen, OnlyRevoked, LegalNote, LateTrials, CensoredAt;
    var J := Holding(env, key, record);
    forall a, b, t | J(a) && Censors(env, a, b, t) ensures J(b) { CensoringTables(a, t.id, env.now); HoldingStep(env, key, record, a, b); }
    forall a, b | J(a) && Noted(a, b) ensures J(b) { HoldingStep(env, key, record, a, b); }
    forall a, b | J(a) && Withdrew(a, b) ensures J(b) { HoldingStep(env, key, record, a, b); }
    forall a, b | J(a) && Republished(a, b, other) ensures J(b) { HoldingStep(env, key, record, a, b); }
    forall a, b | J(a) && Stepped(env, a, b, other) ensures J(b) { HoldingStep(env, key, record, a, b); }
    forall a, b | J(a) && Enlisted(env, a, b, other) ensures J(b) { HoldingStep(env, key, record, a, b); }
    forall a, b | J(a) && CaughtUp(env, a, b, other) ensures J(b) { HoldingStep(env, key, record, a, b); }
    forall a, b | J(a) && VersionRetired(env, a, b, other) ensures J(b) { HoldingStep(env, key, record, a, b); }
  }

  /** What censoring leaves alone. */
  lemma CensoringTables(db: Db, id: string, now: int)
    requires CensoredAt(db, id, now).Done?
    ensures var b := CensoredAt(db, id, now).value; b == db.(labels := b.labels, ledger := b.ledger)
  {}

  lemma RefreshedKeeps(env: Env, J: Db -> bool, db: Db, key: PartitionKey)
    requires EverStable(env, J) && J(db) && Refreshed(env, db, key).Done?
    ensures J(Refreshed(env, db, key).value) && key in Refreshed(env, db, key).value.lifecycle
  {
    assert Stable(env, J, key);
    HeadKeeps(env, J, db, key);
    var h := Head(env, db, key).value;
    if !Awake(h.record) {
      SyncedKeeps(env, J, h.db, key, h.record);
      SyncedSame(env, h.db, key, h.record);
    } else {
      LateAreLate(env, h.db);
      var expired := Expired(env, h.db).value;
      EachCensoredKeeps(env, J, h.db, LateTrials(env, h.db));
      HoldingStable(env, key, h.record);
      EachCensoredKeeps(env, Holding(env, key, h.record), h.db, LateTrials(env, h.db));
      TailKeeps(env, J, expired, key, h.record);
      assert Stable(env, Holding(env, key, h.record), key);
      TailKeeps(env, Holding(env, key, h.record), expired, key, h.record);
    }
  }

  // ---- settled partitions ------------------------------------------------------------------------------

  /** A live partition whose published evidence and state agree with the counts, the policy and the clock. */
  ghost predicate Settled(env: Env, db: Db, key: PartitionKey) {
    Walkable(db, key) ==>
      var record, reading := db.lifecycle[key], Read(db, key, env.policy.pending);
      && IndexOf(db.alphas, key).Some? && key.policyVersion == env.policy.version
      && Synced(env, db, key, record) == Done(db)
      && (record.state == UNESTABLISHED ==> !(reading.Some? && reading.value.N() >= 1))
      && (record.state == QUALIFYING ==> GateReasons(env, db, key, record, reading) != {})
      && (record.state == AUTONOMOUS ==> GateReasons(env, db, key, record, reading) == {})
  }

  /** Walking a settled partition again at the same instant writes nothing. */
  lemma SettledIsFixed(env: Env, db: Db, key: PartitionKey)
    requires Settled(env, db, key) && Walkable(db, key) && LateTrials(env, db) == []
    ensures Refreshed(env, db, key) == Done(db) && WalkDeferring(env, db, key) == Done(Deferral(db, {}))
  {
    assert Head(env, db, key) == Done(Walked(db, db.lifecycle[key]));
    TailOfSettled(env, db, key);
    assert PartitionsOf([]) == {};
  }

  lemma TailOfSettled(env: Env, db: Db, key: PartitionKey)
    requires Settled(env, db, key) && Walkable(db, key)
    ensures Tail(env, db, key, db.lifecycle[key]) == Done(db)
  {}

  /** Publishing twice is publishing once. */
  lemma SyncedTwice(env: Env, db: Db, key: PartitionKey, record: Record)
    requires Synced(env, db, key, record).Done?
    ensures Synced(env, Synced(env, db, key, record).value, key, record) == Synced(env, db, key, record)
  {
    SyncedShape(env, db, key, record);
  }

  /** The gate's part of a walk leaves the state on the side of the gate that the evidence is on. */
  lemma GatedRight(env: Env, db: Db, key: PartitionKey, record: Record, reading: Option<Reading>)
    requires Gated(env, db, key, record, reading).Done? && Awake(record)
    ensures var w := Gated(env, db, key, record, reading).value; var reasons := GateReasons(env, db, key, record, reading);
            && (w.record.state == QUALIFYING ==> reasons != {}) && (w.record.state == AUTONOMOUS ==> reasons == {})
            && (w.record.state == UNESTABLISHED <==> record.state == UNESTABLISHED)
  {}

  lemma AdmittedRight(db: Db, key: PartitionKey, record: Record, reading: Option<Reading>)
    requires Admitted(db, key, record, reading).Done?
    ensures Admitted(db, key, record, reading).value.record.state == UNESTABLISHED ==> !(reading.Some? && reading.value.N() >= 1)
  {}

  lemma TailSettles(env: Env, db: Db, key: PartitionKey, record: Record)
    requires Tail(env, db, key, record).Done? && key in db.lifecycle && db.lifecycle[key] == record && Awake(record)
    requires IndexOf(db.alphas, key).Some? && key.policyVersion == env.policy.version
    ensures Settled(env, Tail(env, db, key, record).value, key)
  {
    var J := Evidently(EvidenceOf(db));
    EvidentlyStable(env, EvidenceOf(db), key);
    var reading := Read(db, key, env.policy.pending);
    var db1 := Synced(env, db, key, record).value;
    SyncedSame(env, db, key, record);
    AdmittedKeeps(env, J, db1, key, record, reading);
    AdmittedRight(db1, key, record, reading);
    var w1 := Admitted(db1, key, record, reading).value;
    GatedKeeps(env, J, w1.db, key, w1.record);
    FinishSettles(env, w1, key, reading);
  }

  /** The end of a walk: if the stored record is the one it moved, the partition is settled. */
  lemma FinishSettles(env: Env, w1: Walked, key: PartitionKey, reading: Option<Reading>)
    requires reading == Read(w1.db, key, env.policy.pending) && Holds(w1.db, key, w1.record) && Awake(w1.record)
    requires w1.record.state == UNESTABLISHED ==> !(reading.Some? && reading.value.N() >= 1)
    requires IndexOf(w1.db.alphas, key).Some? && key.policyVersion == env.policy.version
    requires Gated(env, w1.db, key, w1.record, reading).Done?
    requires var w2 := Gated(env, w1.db, key, w1.record, reading).value;
             key in w2.db.lifecycle && w2.db.lifecycle[key] == w2.record && Synced(env, w2.db, key, w2.record).Done?
    ensures var w2 := Gated(env, w1.db, key, w1.record, reading).value;
            Settled(env, Synced(env, w2.db, key, w2.record).value, key)
  {
    EvidentlyStable(env, EvidenceOf(w1.db), key);
    GatedKeeps(env, Evidently(EvidenceOf(w1.db)), w1.db, key, w1.record);
    GatedRight(env, w1.db, key, w1.record, reading);
    var w2 := Gated(env, w1.db, key, w1.record, reading).value;
    EndSettles(env, w1, w2, Synced(env, w2.db, key, w2.record).value, key, reading);
  }

  lemma EndSettles(env: Env, w1: Walked, w2: Walked, after: Db, key: PartitionKey, reading: Option<Reading>)
    requires Synced(env, w2.db, key, w2.record) == Done(after) && reading == Read(w2.db, key, env.policy.pending)
    requires key in w2.db.lifecycle && w2.db.lifecycle[key] == w2.record
    requires w2.db.snapshots == w1.db.snapshots && w2.db.alphas == w1.db.alphas
    requires w2.record == w1.record.(state := w2.record.state) && Awake(w1.record) && Awake(w2.record)
    requires IndexOf(w1.db.alphas, key).Some? && key.policyVersion == env.policy.version
    requires w2.record.state == UNESTABLISHED ==> !(reading.Some? && reading.value.N() >= 1)
    requires w2.record.state == QUALIFYING ==> GateReasons(env, w1.db, key, w1.record, reading) != {}
    requires w2.record.state == AUTONOMOUS ==> GateReasons(env, w1.db, key, w1.record, reading) == {}
    ensures Settled(env, after, key)
  {
    SyncedSame(env, w2.db, key, w2.record);
    SyncedTwice(env, w2.db, key, w2.record);
    GateUnmoved(env, w1, w2, after, key, reading);
  }

  lemma GateUnmoved(env: Env, w1: Walked, w2: Walked, after: Db, key: PartitionKey, reading: Option<Reading>)
    requires w2.db.snapshots == w1.db.snapshots && w2.db.alphas == w1.db.alphas && SyncedLike(w2.db, after, key)
    requires w2.record == w1.record.(state := w2.record.state) && Awake(w1.record) && Awake(w2.record)
    ensures GateReasons(env, w1.db, key, w1.record, reading) == GateReasons(env, after, key, w2.record, reading)
  {}

  /** A walk leaves the partition it walked settled. */
  lemma WalkSettles(env: Env, db: Db, key: PartitionKey)
    requires WalkDeferring(env, db, key).Done?
    ensures Settled(env, WalkDeferring(env, db, key).value.db, key)
  {
    HeadHolds(env, db, key);
    var h := Head(env, db, key).value;
    if Awake(h.record) {
      HeadRegisters(env, db, key);
      CensoringResolves(h.db, LateTrials(env, h.db), env.now);
      TailSettles(env, AllCensored(h.db, LateTrials(env, h.db), env.now).value, key, h.record);
    } else {
      SyncedSame(env, h.db, key, h.record);
    }
  }

  ghost function Indexed(key: PartitionKey): Db -> bool {
    (d: Db) => key in d.lifecycle ==> IndexOf(d.alphas, key).Some?
  }

  lemma RowIndexes(a: Db, b: Db, key: PartitionKey)
    requires b.alphas != [] && b.alphas[..|b.alphas| - 1] == a.alphas
    requires IndexOf(a.alphas, key).Some? || (b.alphas[|b.alphas| - 1].partition == key && b.alphas[|b.alphas| - 1].reason == REGISTERED)
    ensures IndexOf(b.alphas, key).Some?
  {}

  lemma IndexedStable(env: Env, key: PartitionKey, other: PartitionKey)
    ensures Stable(env, Indexed(key), other)
  {
    hide IndexOf, NewRow, Newcomer, Registrations;
    var J := Indexed(key);
    forall a, b | J(a) && Enlisted(env, a, b, other) ensures J(b) {
      if key in b.lifecycle { RowIndexes(a, b, key); }
    }
    forall a, b | J(a) && CaughtUp(env, a, b, other) ensures J(b) {
      if key in a.lifecycle { RowIndexes(a, b, key); }
    }
    forall a, b, t | J(a) && Censors(env, a, b, t) ensures J(b) {}
  }

  lemma HeadRegisters(env: Env, db: Db, key: PartitionKey)
    requires Head(env, db, key).Done? && Awake(Head(env, db, key).value.record)
    ensures IndexOf(Head(env, db, key).value.db.alphas, key).Some? && key.policyVersion == env.policy.version
  {
    if key in db.lifecycle && IndexOf(db.alphas, key).None? {
      LateRegistration(env, db, key);
    } else {
      IndexedStable(env, key, key);
      HeadKeeps(env, Indexed(key), db, key);
    }
  }

  lemma LateRegistration(env: Env, db: Db, key: PartitionKey)
    requires key in db.lifecycle && IndexOf(db.alphas, key).None?
    requires Head(env, db, key).Done? && Awake(Head(env, db, key).value.record)
    ensures IndexOf(Head(env, db, key).value.db.alphas, key).Some? && key.policyVersion == env.policy.version
  {
    var db1 := AlphaRecorded(env.policy, db, key, db.lifecycle[key].epoch, Floor(db, key), REGISTERED).value;
    assert db1.alphas[..|db1.alphas| - 1] == db.alphas;
    assert Head(env, db, key).value.db == db1;
  }

  // ---- the worklist settles everything it touches ---------------------------------------------------------

  /** What a partition's settledness is read from, besides the evidence tables. */
  datatype View = View(record: Option<Record>, snapshot: Option<Snapshot>, alpha: Option<real>, index: Option<nat>)

  function ViewOf(db: Db, key: PartitionKey): View {
    View(if key in db.lifecycle then Some(db.lifecycle[key]) else None,
         if key in db.snapshots then Some(db.snapshots[key]) else None, AlphaOf(db.alphas, key), IndexOf(db.alphas, key))
  }

  ghost function Unseen(key: PartitionKey, view: View): Db -> bool {
    (d: Db) => ViewOf(d, key) == view
  }

  lemma UnseenStep(key: PartitionKey, view: View, a: Db, b: Db)
    requires Unseen(key, view)(a) && b.alphas == a.alphas && (key in b.lifecycle <==> key in a.lifecycle) && (key in b.snapshots <==> key in a.snapshots)
    requires (key in a.lifecycle ==> b.lifecycle[key] == a.lifecycle[key]) && (key in a.snapshots ==> b.snapshots[key] == a.snapshots[key])
    ensures Unseen(key, view)(b)
  {}

  lemma UnseenStable(env: Env, key: PartitionKey, view: View, other: PartitionKey)
    requires other != key
    ensures Stable(env, Unseen(key, view), other)
  {
    hide NewRow, Newcomer, GateOpen, OnlyRevoked, LegalNote, LateTrials, CensoredAt, Rest, ViewOf;
    var J := Unseen(key, view);
    forall a, b, t | J(a) && Censors(env, a, b, t) ensures J(b) { CensoringTables(a, t.id, env.now); UnseenStep(key, view, a, b); }
    forall a, b | J(a) && Noted(a, b) ensures J(b) { UnseenStep(key, view, a, b); }
    forall a, b | J(a) && Withdrew(a, b) ensures J(b) { UnseenStep(key, view, a, b); }
    forall a, b | J(a) && Republished(a, b, other) ensures J(b) { UnseenStep(key, view, a, b); }
    forall a, b | J(a) && Stepped(env, a, b, other) ensures J(b) { UnseenStep(key, view, a, b); }
    forall a, b | J(a) && VersionRetired(env, a, b, other) ensures J(b) { UnseenStep(key, view, a, b); }
    forall a, b | J(a) && Enlisted(env, a, b, other) ensures J(b) { ViewOfOthers(a, b, key, other); }
    forall a, b | J(a) && CaughtUp(env, a, b, other) ensures J(b) { ViewOfOthers(a, b, key, other); }
  }

  lemma ViewOfOthers(a: Db, b: Db, key: PartitionKey, other: PartitionKey)
    requires key != other && b.alphas != [] && b.alphas[..|b.alphas| - 1] == a.alphas && b.alphas[|b.alphas| - 1].partition == other
    requires b.snapshots == a.snapshots && (b.lifecycle == a.lifecycle || (other in b.lifecycle && b.lifecycle == a.lifecycle[other := b.lifecycle[other]]))
    ensures ViewOf(b, key) == ViewOf(a, key)
  {}

  lemma PublishedNothing(db: Db, key: PartitionKey, s: Snapshot)
    requires Published(db, key, s) == db
    ensures key in db.snapshots && SameEvidence(db.snapshots[key], s)
  {
    hide SameEvidence, Published;
    PublishedSomething(db, key, s);
  }

  lemma PublishedSomething(db: Db, key: PartitionKey, s: Snapshot)
    ensures !(key in db.snapshots && SameEvidence(db.snapshots[key], s)) ==> Published(db, key, s) != db
  {
    if !(key in db.snapshots && SameEvidence(db.snapshots[key], s)) {
      var b := Published(db, key, s);
      assert key in b.snapshots && b.snapshots[key] == s;
    }
  }

  lemma FixedIsSame(env: Env, db: Db, key: PartitionKey, record: Record, b: Basis)
    requires Synced(env, db, key, record) == Done(db) && BasisOf(env, db, key, record) == Some(b)
    ensures AlphaOf(db.alphas, key).Some? && key in db.snapshots
    ensures SameEvidence(db.snapshots[key], Desired(db, key, record, b, AlphaOf(db.alphas, key).value))
  {
    PublishedNothing(db, key, Desired(db, key, record, b, AlphaOf(db.alphas, key).value));
  }

  /** The evidence tables that counts are read from. */
  predicate ReadAlike(a: Db, b: Db) {
    a.trials == b.trials && a.labels == b.labels && a.epochs == b.epochs
  }

  lemma SameViewSync(env: Env, a: Db, b: Db, key: PartitionKey, record: Record)
    requires ReadAlike(a, b) && ViewOf(a, key) == ViewOf(b, key) && Synced(env, a, key, record) == Done(a)
    ensures Synced(env, b, key, record) == Done(b)
  {
    var basis := BasisOf(env, a, key, record);
    assert BasisOf(env, b, key, record) == basis;
    if basis.Some? { FixedIsSame(env, a, key, record, basis.value); }
  }

  lemma SameViewGate(env: Env, a: Db, b: Db, key: PartitionKey, record: Record, reading: Option<Reading>)
    requires ViewOf(a, key) == ViewOf(b, key)
    ensures GateReasons(env, a, key, record, reading) == GateReasons(env, b, key, record, reading)
  {}

  lemma SameViewSettled(env: Env, a: Db, b: Db, key: PartitionKey)
    requires ReadAlike(a, b) && ViewOf(a, key) == ViewOf(b, key) && Settled(env, a, key)
    ensures Settled(env, b, key)
  {
    if Walkable(b, key) {
      SameViewSync(env, a, b, key, b.lifecycle[key]);
      SameViewGate(env, a, b, key, b.lifecycle[key], Read(b, key, env.policy.pending));
    }
  }

  lemma WalkSparesOthers(env: Env, db: Db, walked: PartitionKey, key: PartitionKey)
    requires WalkDeferring(env, db, walked).Done? && walked != key && LateTrials(env, db) == [] && Settled(env, db, key)
    ensures Settled(env, WalkDeferring(env, db, walked).value.db, key)
  {
    UnseenStable(env, key, ViewOf(db, key), walked);
    WalkKeeps(env, Unseen(key, ViewOf(db, key)), db, walked);
    WalkWithoutLate(env, db, walked);
    SameViewSettled(env, db, WalkDeferring(env, db, walked).value.db, key);
  }

  lemma WalkWithoutLate(env: Env, db: Db, key: PartitionKey)
    requires WalkDeferring(env, db, key).Done? && LateTrials(env, db) == []
    ensures EvidenceOf(WalkDeferring(env, db, key).value.db) == EvidenceOf(db)
    ensures WalkDeferring(env, db, key).value.deferred == {}
  {
    hide Head, Tail, Synced;
    HeadEvidence(env, db, key);
    HeadHolds(env, db, key);
    var h := Head(env, db, key).value;
    if Awake(h.record) {
      TailEvidence(env, h.db, key, h.record);
      assert PartitionsOf([]) == {};
    } else {
      SyncedSame(env, h.db, key, h.record);
    }
  }

  lemma AsleepIsSettled(env: Env, db: Db, key: PartitionKey)
    requires !Walkable(db, key)
    ensures Settled(env, db, key)
  {}

  /** Once nothing is overdue, the worklist settles what is deferred and disturbs nothing that is settled. */
  lemma {:induction false} QuietDrainSettles(env: Env, db: Db, deferred: set<PartitionKey>, key: PartitionKey)
    requires Drained(env, db, deferred).Done? && LateTrials(env, db) == [] && (key in deferred || Settled(env, db, key))
    ensures var after := Drained(env, db, deferred).value;
            Settled(env, after, key) && EvidenceOf(after) == EvidenceOf(db)
    decreases |deferred|
  {
    hide WalkDeferring, Settled, Overdue;
    if deferred != {} {
      var next := env.pick(db, deferred);
      if Walkable(db, next) {
        var s := WalkDeferring(env, db, next).value;
        WalkWithoutLate(env, db, next);
        WalkSettles(env, db, next);
        if next != key && key !in deferred { WalkSparesOthers(env, db, next, key); }
        QuietDrainSettles(env, s.db, deferred - {next} + s.deferred, key);
      } else {
        if next == key { AsleepIsSettled(env, db, key); }
        QuietDrainSettles(env, db, deferred - {next}, key);
      }
    }
  }

  /** At commit, every partition that was deferred or had an overdue trial resolved on the way is settled. */
  lemma {:induction false} DrainSettles(env: Env, db: Db, deferred: set<PartitionKey>, key: PartitionKey)
    requires Drained(env, db, deferred).Done?
    ensures var after := Drained(env, db, deferred).value;
            && (key in deferred ==> Settled(env, after, key))
            && (forall t :: t in LateTrials(env, db) && t.partition == key && t.id in after.labels ==> Settled(env, after, key))
            && (LateTrials(env, after) == [] || LateTrials(env, after) == LateTrials(env, db))
    decreases |LateTrials(env, db)|, |deferred|
  {
    var late := LateTrials(env, db);
    forall t | t in late ensures t.id !in db.labels { OverdueMembers(db.trials, db.labels, env.now - env.deadline, t); }
    if late == [] {
      if key in deferred { QuietDrainSettles(env, db, deferred, key); }
      QuietDrainLate(env, db, deferred);
    } else if deferred != {} {
      var next := env.pick(db, deferred);
      if Walkable(db, next) {
        var s := WalkDeferring(env, db, next).value;
        WalkProgress(env, db, next);
        if LateTrials(env, s.db) == [] {
          DrainAfterCensoring(env, db, deferred, next, key);
        } else {
          SleepingWalk(env, db, next);
          DrainSettles(env, s.db, deferred - {next}, key);
          if next == key { AsleepStays(env, s.db, deferred - {next}, key); }
        }
      } else {
        DrainSettles(env, db, deferred - {next}, key);
        if next == key { AsleepStays(env, db, deferred - {next}, key); }
      }
    }
  }

  /** A partition that is not live is not woken by a worklist. */
  lemma {:induction false} AsleepStays(env: Env, db: Db, deferred: set<PartitionKey>, key: PartitionKey)
    requires Drained(env, db, deferred).Done? && !Walkable(db, key)
    ensures !Walkable(Drained(env, db, deferred).value, key)
    decreases |LateTrials(env, db)|, |deferred|
  {
    if deferred != {} {
      var next := env.pick(db, deferred);
      if Walkable(db, next) {
        var s := WalkDeferring(env, db, next).value;
        UnseenStable(env, key, ViewOf(db, key), next);
        WalkKeeps(env, Unseen(key, ViewOf(db, key)), db, next);
        WalkProgress(env, db, next);
        AsleepStays(env, s.db, deferred - {next} + s.deferred, key);
      } else {
        AsleepStays(env, db, deferred - {next}, key);
      }
    }
  }

  /** A walk of a live partition that censors nothing although something is overdue retired it. */
  lemma SleepingWalk(env: Env, db: Db, key: PartitionKey)
    requires WalkDeferring(env, db, key).Done? && Walkable(db, key)
    requires LateTrials(env, WalkDeferring(env, db, key).value.db) != []
    ensures !Walkable(WalkDeferring(env, db, key).value.db, key) && WalkDeferring(env, db, key).value.deferred == {}
  {
    var h := Head(env, db, key).value;
    HeadHolds(env, db, key);
    if Awake(h.record) {
      AwakeWalkProgress(env, db, key);
      assert false;
    }
    HeadOfAwake(env, db, key);
    SyncedSame(env, h.db, key, h.record);
  }

  lemma HeadOfAwake(env: Env, db: Db, key: PartitionKey)
    requires Head(env, db, key).Done? && Walkable(db, key)
    ensures Head(env, db, key).value.record.state == db.lifecycle[key].state
  {}

  lemma DrainAfterCensoring(env: Env, db: Db, deferred: set<PartitionKey>, next: PartitionKey, key: PartitionKey)
    requires deferred != {} && next == env.pick(db, deferred) && Walkable(db, next) && Drained(env, db, deferred).Done?
    requires LateTrials(env, WalkDeferring(env, db, next).value.db) == [] && LateTrials(env, db) != []
    ensures var after := Drained(env, db, deferred).value;
            && (key in deferred || key in PartitionsOf(LateTrials(env, db)) ==> Settled(env, after, key))
            && LateTrials(env, after) == []
  {
    var s := WalkDeferring(env, db, next).value;
    WalkSettles(env, db, next);
    HeadHolds(env, db, next);
    if Awake(Head(env, db, next).value.record) {
      AwakeWalkProgress(env, db, next);
    } else {
      HeadEvidence(env, db, next);
      SyncedSame(env, Head(env, db, next).value.db, next, Head(env, db, next).value.record);
      assert false;
    }
    var rest := deferred - {next} + s.deferred;
    QuietDrainLate(env, s.db, rest);
    if key in deferred || key in s.deferred { QuietDrainSettles(env, s.db, rest, key); }
  }

  lemma {:induction false} QuietDrainLate(env: Env, db: Db, deferred: set<PartitionKey>)
    requires Drained(env, db, deferred).Done? && LateTrials(env, db) == []
    ensures LateTrials(env, Drained(env, db, deferred).value) == []
    decreases |deferred|
  {
    hide WalkDeferring, Overdue;
    if deferred != {} {
      var next := env.pick(db, deferred);
      if Walkable(db, next) {
        WalkWithoutLate(env, db, next);
        QuietDrainLate(env, WalkDeferring(env, db, next).value.db, deferred - {next});
      } else {
        QuietDrainLate(env, db, deferred - {next});
      }
    }
  }

  // ---- what a lost gate takes with it ---------------------------------------------------------------------

  predicate Stale(env: Env, db: Db, key: PartitionKey) {
    var reading := Read(db, key, env.policy.pending);
    reading.Some? && env.now - reading.value.until > env.policy.maxAge
  }

  ghost predicate NoneIssued(db: Db, key: PartitionKey) {
    forall t :: t in db.tokens && db.tokens[t].terms.partition == key && db.tokens[t].terms.approvalId.None? ==> db.tokens[t].state != Issued
  }

  /** A live partition that is no longer autonomous has stale evidence or no evidence-based token to spend. */
  ghost predicate Accounted(env: Env, db: Db, key: PartitionKey) {
    Walkable(db, key) && db.lifecycle[key].state != AUTONOMOUS ==> Stale(env, db, key) || NoneIssued(db, key)
  }

  lemma RevokedAreNotIssued(db: Db, cause: Cause, key: PartitionKey)
    requires TokensRevoked(db, cause, OnEvidence(db, key), CONTROLLER).Done?
    ensures NoneIssued(TokensRevoked(db, cause, OnEvidence(db, key), CONTROLLER).value, key)
  {
    RevokeInSpec(db.tokens, cause, OnEvidence(db, key));
    var after := TokensRevoked(db, cause, OnEvidence(db, key), CONTROLLER).value;
    forall t | t in OnEvidence(after, key) ensures after.tokens[t].state != Issued {
      assert OnlyRevokedToken(db.tokens[t], after.tokens[t]);
      assert t in OnEvidence(db, key);
    }
  }

  lemma GatedAccounts(env: Env, db: Db, key: PartitionKey, record: Record, reading: Option<Reading>)
    requires record.state == AUTONOMOUS && Gated(env, db, key, record, reading).Done?
    ensures var w := Gated(env, db, key, record, reading).value;
            w.record.state == AUTONOMOUS || NoneIssued(w.db, key)
            || (reading.Some? && env.now - reading.value.until > env.policy.maxAge)
  {
    var reasons := GateReasons(env, db, key, record, reading);
    if EVIDENCE_STALE !in reasons && reasons != {} {
      var moved := record.(state := QUALIFYING);
      var db1 := Logged(Saved(db, key, moved), key, Some(AUTONOMOUS), moved, Some(GATE_LOST_OUTCOME)).value;
      RevokedAreNotIssued(db1, GateLost, key);
    }
  }

  lemma TailAccounts(env: Env, db: Db, key: PartitionKey, record: Record)
    requires Tail(env, db, key, record).Done? && key in db.lifecycle && db.lifecycle[key] == record && Awake(record)
    requires record.state == AUTONOMOUS
    ensures Accounted(env, Tail(env, db, key, record).value, key)
  {
    var reading := Read(db, key, env.policy.pending);
    EvidentlyStable(env, EvidenceOf(db), key);
    var db1 := Synced(env, db, key, record).value;
    SyncedSame(env, db, key, record);
    GatedKeeps(env, Evidently(EvidenceOf(db)), db1, key, record);
    GatedAccounts(env, db1, key, record, reading);
    var w := Gated(env, db1, key, record, reading).value;
    SyncedShape(env, w.db, key, w.record);
    SyncedSame(env, w.db, key, w.record);
  }

  lemma WalkAccounts(env: Env, db: Db, key: PartitionKey)
    requires Walkable(db, key) && db.lifecycle[key].state == AUTONOMOUS && WalkDeferring(env, db, key).Done?
    ensures Accounted(env, WalkDeferring(env, db, key).value.db, key)
  {
    HeadHolds(env, db, key);
    HeadOfAwake(env, db, key);
    var h := Head(env, db, key).value;
    if Awake(h.record) {
      CensoringResolves(h.db, LateTrials(env, h.db), env.now);
      TailAccounts(env, AllCensored(h.db, LateTrials(env, h.db), env.now).value, key, h.record);
    } else {
      SyncedSame(env, h.db, key, h.record);
    }
  }

  ghost function Sparing(key: PartitionKey, view: View, tokens: map<string, Token>): Db -> bool {
    (d: Db) => ViewOf(d, key) == view && OnlyRevoked(tokens, d.tokens)
  }

  lemma SparingStable(env: Env, key: PartitionKey, view: View, tokens: map<string, Token>, other: PartitionKey)
    requires other != key
    ensures Stable(env, Sparing(key, view, tokens), other)
  {
    hide NewRow, Newcomer, GateOpen, LegalNote, LateTrials, ViewOf;
    var J := Sparing(key, view, tokens);
    UnseenStable(env, key, view, other);
    assert QuietStable(env, Unseen(key, view), other);
    forall a, b | J(a) && Withdrew(a, b) ensures J(b) { OnlyRevokedChain(tokens, a.tokens, b.tokens); }
    forall a, b, t | J(a) && Censors(env, a, b, t) ensures J(b) {}
    forall a, b | Unseen(key, view)(a) && Unseen(key, view)(b) && J(a) && a.tokens == b.tokens ensures J(b) {}
    forall a, b | J(a) && Noted(a, b) ensures J(b) {}
  }

  lemma WalkSparesAccount(env: Env, db: Db, walked: PartitionKey, key: PartitionKey)
    requires WalkDeferring(env, db, walked).Done? && walked != key && LateTrials(env, db) == [] && Accounted(env, db, key)
    ensures Accounted(env, WalkDeferring(env, db, walked).value.db, key)
  {
    hide WalkDeferring, Accounted, Settled;
    var after := WalkDeferring(env, db, walked).value.db;
    SparingStable(env, key, ViewOf(db, key), db.tokens, walked);
    WalkKeeps(env, Sparing(key, ViewOf(db, key), db.tokens), db, walked);
    WalkWithoutLate(env, db, walked);
    SparedAccount(env, db, after, key);
  }

  lemma SparedAccount(env: Env, db: Db, after: Db, key: PartitionKey)
    requires Accounted(env, db, key) && ReadAlike(after, db) && ViewOf(after, key) == ViewOf(db, key)
    requires OnlyRevoked(db.tokens, after.tokens)
    ensures Accounted(env, after, key)
  {
    if NoneIssued(db, key) {
      forall t | t in OnEvidence(after, key) ensures after.tokens[t].state != Issued {
        assert OnlyRevokedToken(db.tokens[t], after.tokens[t]);
        assert t in OnEvidence(db, key);
      }
    }
  }

  lemma {:induction false} QuietDrainAccounts(env: Env, db: Db, deferred: set<PartitionKey>, key: PartitionKey)
    requires Drained(env, db, deferred).Done? && LateTrials(env, db) == [] && Settled(env, db, key) && Accounted(env, db, key)
    ensures Accounted(env, Drained(env, db, deferred).value, key)
    decreases |deferred|
  {
    hide WalkDeferring, Settled, Accounted, Overdue;
    if deferred != {} {
      var next := env.pick(db, deferred);
      if Walkable(db, next) {
        WalkWithoutLate(env, db, next);
        if next == key {
          SettledIsFixed(env, db, key);
        } else {
          WalkSparesAccount(env, db, next, key);
          WalkSparesOthers(env, db, next, key);
        }
        QuietDrainAccounts(env, WalkDeferring(env, db, next).value.db, deferred - {next}, key);
      } else {
        QuietDrainAccounts(env, db, deferred - {next}, key);
      }
    }
  }

  lemma {:induction false} DrainAccounts(env: Env, db: Db, deferred: set<PartitionKey>, key: PartitionKey)
    requires Drained(env, db, deferred).Done? && Walkable(db, key) && db.lifecycle[key].state == AUTONOMOUS
    ensures Accounted(env, Drained(env, db, deferred).value, key)
    decreases |LateTrials(env, db)|, |deferred|
  {
    if deferred != {} {
      var next := env.pick(db, deferred);
      if Walkable(db, next) {
        var s := WalkDeferring(env, db, next).value;
        var rest := deferred - {next} + s.deferred;
        WalkProgress(env, db, next);
        if next != key {
          UnseenStable(env, key, ViewOf(db, key), next);
          WalkKeeps(env, Unseen(key, ViewOf(db, key)), db, next);
          DrainAccounts(env, s.db, rest, key);
        } else if LateTrials(env, s.db) == [] {
          WalkAccounts(env, db, key);
          WalkSettles(env, db, key);
          QuietDrainAccounts(env, s.db, rest, key);
        } else {
          SleepingWalk(env, db, key);
          AsleepStays(env, s.db, rest, key);
        }
      } else {
        DrainAccounts(env, db, deferred - {next}, key);
      }
    }
  }

  // ---- the theorem -------------------------------------------------------------------------------------

  function IdsOf(trials: seq<Trial>): set<string> {
    set t | t in trials :: t.id
  }

  /** Labels only grow, and only by censoring, now, trials of a list. */
  ghost predicate OnlyCensored(env: Env, late: set<string>, labels: map<string, Resolution>, after: map<string, Resolution>) {
    && (forall id :: id in labels ==> id in after && after[id] == labels[id])
    && (forall id :: id in after && id !in labels ==> id in late && after[id] == Censored(env.now))
  }

  ghost function Censoring(env: Env, db: Db): Db -> bool {
    (d: Db) => d.trials == db.trials && OnlyCensored(env, IdsOf(LateTrials(env, db)), db.labels, d.labels)
  }

  lemma CensorStep(env: Env, db: Db, a: Db, b: Db, t: Trial)
    requires Censoring(env, db)(a) && Censors(env, a, b, t)
    ensures Censoring(env, db)(b)
  {
    hide Overdue;
    OverdueMembers(a.trials, a.labels, env.now - env.deadline, t);
    OverdueMembers(db.trials, db.labels, env.now - env.deadline, t);
    var late := IdsOf(LateTrials(env, db));
    if t.id !in db.labels { assert t.id in late; }
    assert b.labels == a.labels[t.id := Censored(env.now)];
  }

  lemma CensoringStable(env: Env, db: Db)
    ensures EverStable(env, Censoring(env, db))
  {
    var J := Censoring(env, db);
    forall a, b, t | J(a) && Censors(env, a, b, t) ensures J(b) { CensorStep(env, db, a, b, t); }
    forall key ensures Stable(env, J, key) { QuietCensoring(env, db, key); }
  }

  lemma QuietCensoring(env: Env, db: Db, key: PartitionKey)
    ensures QuietStable(env, Censoring(env, db), key)
  {
    var J := Censoring(env, db);
    forall a, b | J(a) && Noted(a, b) ensures J(b) {}
    forall a, b | J(a) && Silent(env, a, b, key) ensures J(b) {}
    QuietFromSilent(env, J, key);
  }

  /** When the worklist of a label is done: it has resolved nothing but overdue trials, each once and as
      censored now; the label's partition, and the partition of every trial resolved on the way, is settled
      if it is live; and a partition that was autonomous and no longer is holds no evidence-based token,
      unless its evidence is stale. */
  lemma LabelWorklist(env: Env, db: Db, key: PartitionKey, after: Db)
    requires OnLabel(env, db, key) == Done(after)
    ensures OnlyCensored(env, IdsOf(LateTrials(env, db)), db.labels, after.labels)
    ensures Settled(env, after, key)
    ensures forall t :: t in LateTrials(env, db) && t.id in after.labels ==> Settled(env, after, t.partition)
    ensures forall k :: Walkable(db, k) && db.lifecycle[k].state == AUTONOMOUS ==> Accounted(env, after, k)
  {
    DrainSettles(env, db, {key}, key);
    CensoringStable(env, db);
    DrainedKeeps(env, Censoring(env, db), db, {key});
    forall t | t in LateTrials(env, db) && t.id in after.labels ensures Settled(env, after, t.partition) {
      DrainSettles(env, db, {key}, t.partition);
    }
    forall k | Walkable(db, k) && db.lifecycle[k].state == AUTONOMOUS ensures Accounted(env, after, k) {
      DrainAccounts(env, db, {key}, k);
    }
  }

  /** What a label's transaction leaves, when it resolved its trial as r. */
  ghost predicate LabelSettles(env: Env, db: Db, after: Db, id: string, key: PartitionKey, r: Resolution) {
    && OnlyCensored(env, IdsOf(LateTrials(env, db)), db.labels[id := r], after.labels)
    && Settled(env, after, key)
    && (forall t :: t in LateTrials(env, db) && t.id != id && t.id in after.labels ==> Settled(env, after, t.partition))
    && (forall k :: Walkable(db, k) && db.lifecycle[k].state == AUTONOMOUS ==> Accounted(env, after, k))
  }

  lemma ResolvedStillLate(env: Env, db: Db, db1: Db, id: string, r: Resolution)
    requires db1.trials == db.trials && db1.labels == db.labels[id := r] && id !in db.labels
    ensures forall t :: t in LateTrials(env, db1) <==> t in LateTrials(env, db) && t.id != id
  {
    forall t: Trial ensures t in LateTrials(env, db1) <==> t in LateTrials(env, db) && t.id != id {
      OverdueMembers(db.trials, db.labels, env.now - env.deadline, t);
      OverdueMembers(db1.trials, db1.labels, env.now - env.deadline, t);
    }
  }

  /** Resolving a trial and draining its worklist. */
  lemma ResolvingSettles(env: Env, db: Db, db1: Db, id: string, key: PartitionKey, r: Resolution, after: Db)
    requires db1.trials == db.trials && db1.labels == db.labels[id := r] && id !in db.labels && db1.lifecycle == db.lifecycle
    requires OnLabel(env, db1, key) == Done(after)
    ensures LabelSettles(env, db, after, id, key, r)
  {
    hide OnLabel, Settled, Accounted;
    ResolvedStillLate(env, db, db1, id, r);
    LabelWorklist(env, db1, key, after);
    assert IdsOf(LateTrials(env, db1)) <= IdsOf(LateTrials(env, db));
    forall k | Walkable(db, k) && db.lifecycle[k].state == AUTONOMOUS ensures Accounted(env, after, k) {
      assert Walkable(db1, k);
    }
  }

  lemma QuarantineSpares(env: Env, db: Db, id: string, reason: QuarantineReason, key: PartitionKey)
    requires Quarantined(db, id, reason).Done?
    ensures Settled(env, db, key) ==> Settled(env, Quarantined(db, id, reason).value, key)
    ensures Accounted(env, db, key) ==> Accounted(env, Quarantined(db, id, reason).value, key)
  {
    hide Settled, Accounted;
    var after := Quarantined(db, id, reason).value;
    assert ReadAlike(db, after) && ViewOf(db, key) == ViewOf(after, key) && db.tokens == after.tokens;
    if Settled(env, db, key) { SameViewSettled(env, db, after, key); }
    if Accounted(env, db, key) {
      forall t | t in db.tokens ensures OnlyRevokedToken(db.tokens[t], after.tokens[t]) {}
      SparedAccount(env, db, after, key);
    }
  }

  lemma QuarantineKeepsSettling(env: Env, db: Db, mid: Db, id: string, key: PartitionKey, r: Resolution, reason: QuarantineReason)
    requires LabelSettles(env, db, mid, id, key, r) && Quarantined(mid, id, reason).Done?
    ensures LabelSettles(env, db, Quarantined(mid, id, reason).value, id, key, r)
  {
    hide Settled, Accounted;
    forall k ensures Settled(env, mid, k) ==> Settled(env, Quarantined(mid, id, reason).value, k)
             ensures Accounted(env, mid, k) ==> Accounted(env, Quarantined(mid, id, reason).value, k)
    {
      QuarantineSpares(env, mid, id, reason, k);
    }
  }

  lemma AdmittedTransaction(env: Env, db: Db, keyring: set<string>, s: SignedLabel, after: Db)
    requires LabelRefusal(db, keyring, env.deadline, env.now, s) == None && Adjudicated(env, db, keyring, s) == Done(after)
    ensures LabelSettles(env, db, after, s.trialId, s.partition, Labeled(s.verdict, env.now, s.claimedAt))
  {
    hide OnLabel, LabelSettles, LabelRefusal;
    var db1 := LabelRecorded(db, env.now, s).value;
    ResolvingSettles(env, db, db1, s.trialId, s.partition, Labeled(s.verdict, env.now, s.claimedAt), after);
  }

  lemma LateTransaction(env: Env, db: Db, keyring: set<string>, s: SignedLabel, after: Db)
    requires LabelRefusal(db, keyring, env.deadline, env.now, s) == Some(LateLabel) && Adjudicated(env, db, keyring, s) == Done(after)
    ensures LabelSettles(env, db, after, s.trialId, s.partition, Censored(env.now))
  {
    hide OnLabel, LabelSettles, LabelRefusal, Quarantined;
    var db1 := CensoredAt(db, s.trialId, env.now).value;
    var db2 := OnLabel(env, db1, s.partition).value;
    ResolvingSettles(env, db, db1, s.trialId, s.partition, Censored(env.now), db2);
    QuarantineKeepsSettling(env, db, db2, s.trialId, s.partition, Censored(env.now), LateLabel);
  }

  lemma RefusedTransaction(env: Env, db: Db, keyring: set<string>, s: SignedLabel, after: Db)
    requires var refusal := LabelRefusal(db, keyring, env.deadline, env.now, s); refusal.Some? && refusal != Some(LateLabel)
    requires Adjudicated(env, db, keyring, s) == Done(after)
    ensures ReadAlike(db, after) && after.lifecycle == db.lifecycle && after.tokens == db.tokens
  {
    hide OnLabel, LabelRefusal;
  }

  /** The whole transaction of a label.  Admitted or late, its trial is resolved once, as labelled or as censored
      now; nothing else is resolved but overdue trials, as censored now; the label's partition and the partition of
      every trial resolved on the way is settled if it is live; and whatever was autonomous and no longer is holds no
      evidence-based token, unless its evidence is stale.  Refused for any other reason, it changes no trial, no
      label, no record and no token. */
  lemma LabelTransaction(env: Env, db: Db, keyring: set<string>, s: SignedLabel, after: Db)
    requires Adjudicated(env, db, keyring, s) == Done(after)
    ensures var refusal := LabelRefusal(db, keyring, env.deadline, env.now, s);
            && (refusal == None ==> LabelSettles(env, db, after, s.trialId, s.partition, Labeled(s.verdict, env.now, s.claimedAt)))
            && (refusal == Some(LateLabel) ==> LabelSettles(env, db, after, s.trialId, s.partition, Censored(env.now)))
            && (refusal.Some? && refusal != Some(LateLabel) ==>
                  ReadAlike(db, after) && after.lifecycle == db.lifecycle && after.tokens == db.tokens)
  {
    hide *;
    var refusal := LabelRefusal(db, keyring, env.deadline, env.now, s);
    if refusal == None {
      AdmittedTransaction(env, db, keyring, s, after);
    } else if refusal == Some(LateLabel) {
      LateTransaction(env, db, keyring, s, after);
    } else {
      RefusedTransaction(env, db, keyring, s, after);
    }
  }
}
