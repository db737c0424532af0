/** The single writes that walks are made of.  A fact that survives each of them survives every walk, every
    worklist and every label: the induction principle the invariants of the lifecycle are proved by.  */
module Steps {
  import opened Tables
  import opened AlphaSpending
  import opened Shadow
  import opened Lifecycle

  // ---- the writes ----------------------------------------------------------------------------------

  /** A transition is logged only if it is legal. */
  predicate LegalNote(body: Body) {
    body.AuthorityRevoked?
    || (body.Transition? && (body.event.Some? ==> Next(body.from, body.event.value) == Some(body.record.state)))
  }

  predicate Noted(a: Db, b: Db) {
    b.ledger != [] &&
    var e := b.ledger[|b.ledger| - 1];
    b == a.(ledger := a.ledger + [e]) && LegalNote(e.body)
  }

  ghost predicate Withdrew(a: Db, b: Db) {
    b == a.(tokens := b.tokens) && OnlyRevoked(a.tokens, b.tokens)
  }

  predicate Republished(a: Db, b: Db, key: PartitionKey) {
    key in b.snapshots
    && b.snapshots == a.snapshots[key := b.snapshots[key]] && b.lifecycle == a.lifecycle && EvidenceOf(a) == EvidenceOf(b)
    && b.snapshots[key].version == (if key in a.snapshots then a.snapshots[key].version + 1 else 1)
    && Rest(a, b) && a.tokens == b.tokens && a.ledger == b.ledger && a.alphas == b.alphas
  }

  /** The tables no walk touches. */
  predicate Rest(a: Db, b: Db) {
    && a.principals == b.principals && a.grants == b.grants && a.approvals == b.approvals && a.decisions == b.decisions
    && a.nonces == b.nonces && a.lineage == b.lineage && a.charges == b.charges && a.performed == b.performed
  }

  /** A move of an awake partition; into AUTONOMOUS only through an open gate. */
  ghost predicate Stepped(env: Env, a: Db, b: Db, key: PartitionKey) {
    key in a.lifecycle && Awake(a.lifecycle[key]) && key in b.lifecycle
    && b == Saved(a, key, a.lifecycle[key].(state := b.lifecycle[key].state))
    && (b.lifecycle[key].state == QUALIFYING || (b.lifecycle[key].state == AUTONOMOUS && GateOpen(env, a, key, a.lifecycle[key])))
  }

  predicate NewRow(policy: Policy, row: AlphaRow, index: nat, epoch: nat) {
    index >= 1 && row.allocation == Allocation(index, epoch, AllocatedAlpha(policy.alpha, policy.spending, policy.partitions,
                                                                            policy.epochs, index, epoch + 1))
  }

  /** A new partition: the next registration, and a record that inherits suspension and is retired from the
      start if its policy version is not the current one. */
  function Newcomer(env: Env, db: Db, key: PartitionKey): Record {
    NewRecord(SuspendedPredecessors(db, key) != {}).(retired := key.policyVersion != env.policy.version)
  }

  ghost predicate Enlisted(env: Env, a: Db, b: Db, key: PartitionKey) {
    key !in a.lifecycle && b.alphas != [] &&
    var row := b.alphas[|b.alphas| - 1];
    && b == Saved(a, key, Newcomer(env, a, key)).(alphas := a.alphas + [row])
    && row.partition == key && row.reason == REGISTERED && row.floor == Floor(a, key)
    && NewRow(env.policy, row, Registrations(a.alphas) + 1, 0)
  }

  ghost predicate CaughtUp(env: Env, a: Db, b: Db, key: PartitionKey) {
    key in a.lifecycle && IndexOf(a.alphas, key).None? && b.alphas != [] &&
    var row := b.alphas[|b.alphas| - 1];
    && b == a.(alphas := a.alphas + [row]) && row.partition == key && row.reason == REGISTERED && row.floor == Floor(a, key)
    && NewRow(env.policy, row, Registrations(a.alphas) + 1, a.lifecycle[key].epoch)
  }

  predicate VersionRetired(env: Env, a: Db, b: Db, key: PartitionKey) {
    key in a.lifecycle && !a.lifecycle[key].retired && key.policyVersion != env.policy.version
    && b == Saved(a, key, a.lifecycle[key].(retired := true))
  }

  /** An overdue trial is resolved as censored now. */
  predicate Censors(env: Env, a: Db, b: Db, t: Trial) {
    t in LateTrials(env, a) && Find(a.trials, t.id).Some? && CensoredAt(a, t.id, env.now) == Done(b)
  }

  /** Surviving the writes of a walk of one partition, apart from censoring. */
  ghost predicate QuietStable(env: Env, J: Db -> bool, key: PartitionKey) {
    && (forall a, b :: J(a) && Noted(a, b) ==> J(b))
    && (forall a, b :: J(a) && Withdrew(a, b) ==> J(b))
    && (forall a, b :: J(a) && Republished(a, b, key) ==> J(b))
    && (forall a, b :: J(a) && Stepped(env, a, b, key) ==> J(b))
    && (forall a, b :: J(a) && Enlisted(env, a, b, key) ==> J(b))
    && (forall a, b :: J(a) && CaughtUp(env, a, b, key) ==> J(b))
    && (forall a, b :: J(a) && VersionRetired(env, a, b, key) ==> J(b))
  }

  ghost predicate Stable(env: Env, J: Db -> bool, key: PartitionKey) {
    QuietStable(env, J, key) && forall a, b, t :: J(a) && Censors(env, a, b, t) ==> J(b)
  }

  /** Two facts that survive do so together. */
  lemma BothQuiet(env: Env, J: Db -> bool, K: Db -> bool, both: Db -> bool, key: PartitionKey)
    requires QuietStable(env, J, key) && QuietStable(env, K, key) && forall d :: both(d) <==> J(d) && K(d)
    ensures QuietStable(env, both, key)
  {}

  lemma BothStable(env: Env, J: Db -> bool, K: Db -> bool, both: Db -> bool, key: PartitionKey)
    requires Stable(env, J, key) && Stable(env, K, key) && forall d :: both(d) <==> J(d) && K(d)
    ensures Stable(env, both, key)
  {
    BothQuiet(env, J, K, both, key);
  }

  /** How one walk may change one partition's record. */
  predicate RecordStep(before: Record, after: Record) {
    && after == before.(state := after.state, retired := after.retired)
    && (before.retired ==> after == before)
    && (after.state == SUSPENDED <==> before.state == SUSPENDED)
  }

  /** The writes of a walk that leave no entry: tokens only lose authority, one snapshot or level or record
      changes, and the record only as a walk may change it. */
  ghost predicate Silent(env: Env, a: Db, b: Db, key: PartitionKey) {
    && b == a.(tokens := b.tokens, snapshots := b.snapshots, lifecycle := b.lifecycle, alphas := b.alphas)
    && OnlyRevoked(a.tokens, b.tokens)
    && (b.lifecycle == a.lifecycle || (key in b.lifecycle && b.lifecycle == a.lifecycle[key := b.lifecycle[key]]))
    && (if key in a.lifecycle then RecordStep(a.lifecycle[key], b.lifecycle[key])
        else key !in b.lifecycle || b.lifecycle[key] == Newcomer(env, a, key))
  }

  lemma WithdrewSilent(env: Env, a: Db, b: Db, key: PartitionKey)
    requires Withdrew(a, b)
    ensures Silent(env, a, b, key)
  {}

  lemma RepublishedSilent(env: Env, a: Db, b: Db, key: PartitionKey)
    requires Republished(a, b, key)
    ensures Silent(env, a, b, key)
  {}

  lemma SteppedSilent(env: Env, a: Db, b: Db, key: PartitionKey)
    requires Stepped(env, a, b, key)
    ensures Silent(env, a, b, key)
  {}

  lemma EnlistedSilent(env: Env, a: Db, b: Db, key: PartitionKey)
    requires Enlisted(env, a, b, key)
    ensures Silent(env, a, b, key)
  {}

  lemma CaughtUpSilent(env: Env, a: Db, b: Db, key: PartitionKey)
    requires CaughtUp(env, a, b, key)
    ensures Silent(env, a, b, key)
  {}

  lemma VersionRetiredSilent(env: Env, a: Db, b: Db, key: PartitionKey)
    requires VersionRetired(env, a, b, key)
    ensures Silent(env, a, b, key)
  {}

  lemma QuietFromSilent(env: Env, J: Db -> bool, key: PartitionKey)
    requires forall a, b :: J(a) && Noted(a, b) ==> J(b)
    requires forall a, b :: J(a) && Silent(env, a, b, key) ==> J(b)
    ensures QuietStable(env, J, key)
  {
    forall a, b | J(a) && Withdrew(a, b) ensures J(b) { WithdrewSilent(env, a, b, key); }
    forall a, b | J(a) && Republished(a, b, key) ensures J(b) { RepublishedSilent(env, a, b, key); }
    forall a, b | J(a) && Stepped(env, a, b, key) ensures J(b) { SteppedSilent(env, a, b, key); }
    forall a, b | J(a) && Enlisted(env, a, b, key) ensures J(b) { EnlistedSilent(env, a, b, key); }
    forall a, b | J(a) && CaughtUp(env, a, b, key) ensures J(b) { CaughtUpSilent(env, a, b, key); }
    forall a, b | J(a) && VersionRetired(env, a, b, key) ensures J(b) { VersionRetiredSilent(env, a, b, key); }
  }

  // ---- what each piece of a walk keeps ---------------------------------------------------------------

  lemma LoggedKeeps(env: Env, J: Db -> bool, db: Db, key: PartitionKey, from: Option<State>, record: Record, event: Option<Event>)
    requires QuietStable(env, J, key) && J(db) && Logged(db, key, from, record, event).Done?
    requires event.Some? ==> Next(from, event.value) == Some(record.state)
    ensures J(Logged(db, key, from, record, event).value)
  {
    assert Noted(db, Logged(db, key, from, record, event).value);
  }

  lemma RevokedKeeps(env: Env, J: Db -> bool, db: Db, key: PartitionKey, cause: Cause, scope: set<string>)
    requires QuietStable(env, J, key) && J(db) && TokensRevoked(db, cause, scope, CONTROLLER).Done?
    ensures J(TokensRevoked(db, cause, scope, CONTROLLER).value)
  {
    var between := db.(tokens := RevokeIn(db.tokens, cause, scope));
    RevokeInSpec(db.tokens, cause, scope);
    assert Withdrew(db, between);
    assert Noted(between, TokensRevoked(db, cause, scope, CONTROLLER).value);
  }

  lemma SyncedKeeps(env: Env, J: Db -> bool, db: Db, key: PartitionKey, record: Record)
    requires QuietStable(env, J, key) && J(db) && Synced(env, db, key, record).Done?
    ensures J(Synced(env, db, key, record).value)
  {
    var after := Synced(env, db, key, record).value;
    if after != db { assert Republished(db, after, key); }
  }

  /** The held copy of a record may be out of date in its state, in nothing else. */
  predicate Holds(db: Db, key: PartitionKey, record: Record) {
    key in db.lifecycle && db.lifecycle[key] == record.(state := db.lifecycle[key].state) && db.lifecycle[key].state != SUSPENDED
  }

  const WALK_EVENTS: set<Event> := {TRIAL_ADMITTED, GATE_MET, GATE_LOST_OUTCOME, EVIDENCE_EXPIRED}

  lemma MovedKeeps(env: Env, J: Db -> bool, db: Db, key: PartitionKey, record: Record, event: Event)
    requires QuietStable(env, J, key) && J(db) && Moved(db, key, record, event).Done?
    requires Holds(db, key, record) && Awake(record) && event in WALK_EVENTS && (event == GATE_MET ==> GateOpen(env, db, key, record))
    ensures var w := Moved(db, key, record, event).value;
            J(w.db) && EvidenceOf(w.db) == EvidenceOf(db) && w.db.lifecycle == db.lifecycle[key := w.record]
            && w.record == record.(state := w.record.state) && Awake(w.record)
            && w.db.alphas == db.alphas && w.db.snapshots == db.snapshots
  {
    var moved := record.(state := Next(Some(record.state), event).value);
    var saved := Saved(db, key, moved);
    assert Stepped(env, db, saved, key);
    LoggedKeeps(env, J, saved, key, Some(record.state), moved, Some(event));
    var db1 := Logged(saved, key, Some(record.state), moved, Some(event)).value;
    if event == GATE_LOST_OUTCOME { RevokedKeeps(env, J, db1, key, GateLost, OnEvidence(db1, key)); }
  }

  /** Publishing changes at most one snapshot, and neither clears nor sets its invalidation. */
  predicate SyncedLike(a: Db, b: Db, key: PartitionKey) {
    && EvidenceOf(a) == EvidenceOf(b) && a.lifecycle == b.lifecycle && a.alphas == b.alphas
    && ((key in b.snapshots && !b.snapshots[key].valid) <==> (key in a.snapshots && !a.snapshots[key].valid))
  }

  predicate SnapshotOnly(a: Db, b: Db, key: PartitionKey) {
    a == b || (key in b.snapshots && b == a.(snapshots := a.snapshots[key := b.snapshots[key]])
               && b.snapshots[key].valid == (key in a.snapshots ==> a.snapshots[key].valid))
  }

  lemma SyncedShape(env: Env, db: Db, key: PartitionKey, record: Record)
    requires Synced(env, db, key, record).Done?
    ensures SnapshotOnly(db, Synced(env, db, key, record).value, key)
  {}

  lemma SnapshotOnlyKeeps(a: Db, b: Db, key: PartitionKey)
    requires SnapshotOnly(a, b, key)
    ensures SyncedLike(a, b, key)
  {}

  lemma SyncedSame(env: Env, db: Db, key: PartitionKey, record: Record)
    requires Synced(env, db, key, record).Done?
    ensures SyncedLike(db, Synced(env, db, key, record).value, key)
  {
    SyncedShape(env, db, key, record);
    SnapshotOnlyKeeps(db, Synced(env, db, key, record).value, key);
  }

  lemma AdmittedKeeps(env: Env, J: Db -> bool, db: Db, key: PartitionKey, record: Record, reading: Option<Reading>)
    requires QuietStable(env, J, key) && J(db) && Admitted(db, key, record, reading).Done? && Holds(db, key, record) && Awake(record)
    ensures var w := Admitted(db, key, record, reading).value;
            J(w.db) && EvidenceOf(w.db) == EvidenceOf(db) && Holds(w.db, key, w.record) && Awake(w.record)
            && w.record == record.(state := w.record.state) && w.db.alphas == db.alphas && w.db.snapshots == db.snapshots
            && (w == Walked(db, record) || w.db.lifecycle[key] == w.record)
  {
    if record.state == UNESTABLISHED && reading.Some? && reading.value.N() >= 1 {
      MovedKeeps(env, J, db, key, record, TRIAL_ADMITTED);
    }
  }

  lemma GatedKeeps(env: Env, J: Db -> bool, db: Db, key: PartitionKey, record: Record)
    requires QuietStable(env, J, key) && J(db) && Holds(db, key, record) && Awake(record)
    requires Gated(env, db, key, record, Read(db, key, env.policy.pending)).Done?
    ensures var w := Gated(env, db, key, record, Read(db, key, env.policy.pending)).value;
            J(w.db) && EvidenceOf(w.db) == EvidenceOf(db) && Holds(w.db, key, w.record) && Awake(w.record)
            && w.record == record.(state := w.record.state) && w.db.alphas == db.alphas && w.db.snapshots == db.snapshots
            && (w == Walked(db, record) || w.db.lifecycle[key] == w.record)
  {
    var reading := Read(db, key, env.policy.pending);
    var reasons := GateReasons(env, db, key, record, reading);
    NoReasonMeansOpen(env, db, key, record);
    if record.state == QUALIFYING && reasons == {} {
      MovedKeeps(env, J, db, key, record, GATE_MET);
    } else if record.state == AUTONOMOUS && EVIDENCE_STALE in reasons {
      MovedKeeps(env, J, db, key, record, EVIDENCE_EXPIRED);
    } else if record.state == AUTONOMOUS && reasons != {} {
      MovedKeeps(env, J, db, key, record, GATE_LOST_OUTCOME);
    }
  }

  lemma TailKeeps(env: Env, J: Db -> bool, db: Db, key: PartitionKey, record: Record)
    requires QuietStable(env, J, key) && J(db) && Tail(env, db, key, record).Done? && Holds(db, key, record) && Awake(record)
    ensures J(Tail(env, db, key, record).value)
  {
    var reading := Read(db, key, env.policy.pending);
    var db1 := Synced(env, db, key, record).value;
    SyncedKeeps(env, J, db, key, record);
    SyncedSame(env, db, key, record);
    AdmittedKeeps(env, J, db1, key, record, reading);
    var w1 := Admitted(db1, key, record, reading).value;
    GatedKeeps(env, J, w1.db, key, w1.record);
    var w2 := Gated(env, w1.db, key, w1.record, reading).value;
    SyncedKeeps(env, J, w2.db, key, w2.record);
  }

  // ---- heads -----------------------------------------------------------------------------------------

  lemma InvalidatedKeeps(env: Env, J: Db -> bool, db: Db, key: PartitionKey, reason: string)
    requires QuietStable(env, J, key) && J(db)
    ensures J(Invalidated(db, key, reason)) && Invalidated(db, key, reason).lifecycle == db.lifecycle
  {
    if key in db.snapshots && db.snapshots[key].valid { assert Republished(db, Invalidated(db, key, reason), key); }
  }

  lemma RetiredKeeps(env: Env, J: Db -> bool, db: Db, key: PartitionKey, record: Record)
    requires QuietStable(env, J, key) && J(db) && Retired(db, key, record, false).Done?
    requires key in db.lifecycle && db.lifecycle[key] == record && !record.retired && key.policyVersion != env.policy.version
    ensures var w := Retired(db, key, record, false).value;
            J(w.db) && w.record == record.(retired := true) && w.db.lifecycle == db.lifecycle[key := w.record]
  {
    assert VersionRetired(env, db, Saved(db, key, record.(retired := true)), key);
    EarlyRetirementKeeps(env, J, db, key, record);
  }

  lemma FirstAlphaShape(env: Env, db: Db, key: PartitionKey)
    requires FirstAlpha(env, db, key).Done?
    ensures var b := FirstAlpha(env, db, key).value;
            b.alphas != [] && b == Saved(db, key, NewRecord(false)).(alphas := db.alphas + [b.alphas[|b.alphas| - 1]])
            && b.alphas[|b.alphas| - 1].partition == key && b.alphas[|b.alphas| - 1].reason == REGISTERED
            && b.alphas[|b.alphas| - 1].floor == Floor(db, key)
            && NewRow(env.policy, b.alphas[|b.alphas| - 1], Registrations(db.alphas) + 1, 0)
  {}

  lemma EnlistStep(env: Env, db: Db, key: PartitionKey)
    requires key !in db.lifecycle && FirstAlpha(env, db, key).Done?
    ensures Enlisted(env, db, Saved(FirstAlpha(env, db, key).value, key, Newcomer(env, db, key)), key)
  {
    FirstAlphaShape(env, db, key);
    var b := FirstAlpha(env, db, key).value;
    assert Saved(b, key, Newcomer(env, db, key)).lifecycle == db.lifecycle[key := Newcomer(env, db, key)];
  }

  lemma NewcomerSuspendsNobody(a: Db, b: Db, key: PartitionKey)
    requires key !in a.lifecycle && a.lineage == b.lineage && b.lifecycle == a.lifecycle[key := NewRecord(false)]
    ensures SuspendedPredecessors(b, key) == SuspendedPredecessors(a, key)
  {}

  lemma EnrolledKeeps(env: Env, J: Db -> bool, db: Db, key: PartitionKey)
    requires QuietStable(env, J, key) && J(db) && key !in db.lifecycle && Enrolled(env, db, key).Done?
    ensures var w := Enrolled(env, db, key).value;
            J(Saved(w.db, key, Newcomer(env, db, key))) && w.record == NewRecord(SuspendedPredecessors(db, key) != {})
            && w.db.lifecycle == db.lifecycle[key := w.record]
  {
    var db1 := FirstAlpha(env, db, key).value;
    EnlistStep(env, db, key);
    NewcomerSuspendsNobody(db, db1, key);
    EnlistedKeeps(env, J, db, db1, key, SuspendedPredecessors(db, key) != {}, Newcomer(env, db, key));
  }

  /** Whatever record is stored in the end, the entries and revocations of an enrolment keep the fact. */
  lemma EnlistedKeeps(env: Env, J: Db -> bool, db: Db, db1: Db, key: PartitionKey, inherits: bool, final: Record)
    requires QuietStable(env, J, key) && J(Saved(db1, key, final))
    requires db1.lifecycle == db.lifecycle[key := NewRecord(false)]
    requires Logged(db1, key, None, NewRecord(false), Some(FIRST_PROPOSAL)).Done?
    ensures var db2 := Logged(db1, key, None, NewRecord(false), Some(FIRST_PROPOSAL)).value;
            && J(Saved(db2, key, final))
            && (inherits && LineageFlagged(db2, key, NewRecord(false)).Done? ==>
                  var w := LineageFlagged(db2, key, NewRecord(false)).value;
                  J(Saved(w.db, key, final)) && w.record == NewRecord(true) && w.db.lifecycle == db.lifecycle[key := w.record])
  {
    LoggedKeeps(env, J, Saved(db1, key, final), key, None, NewRecord(false), Some(FIRST_PROPOSAL));
    var db2 := Logged(db1, key, None, NewRecord(false), Some(FIRST_PROPOSAL)).value;
    assert Saved(db2, key, final) == Logged(Saved(db1, key, final), key, None, NewRecord(false), Some(FIRST_PROPOSAL)).value;
    if inherits && LineageFlagged(db2, key, NewRecord(false)).Done? {
      InheritingKeeps(env, J, db2, key, final);
    }
  }

  lemma InheritingKeeps(env: Env, J: Db -> bool, db: Db, key: PartitionKey, final: Record)
    requires QuietStable(env, J, key) && J(Saved(db, key, final)) && LineageFlagged(db, key, NewRecord(false)).Done?
    ensures var w := LineageFlagged(db, key, NewRecord(false)).value;
            J(Saved(w.db, key, final)) && w.record == NewRecord(true) && w.db.lifecycle == db.lifecycle[key := w.record]
  {
    var base, flagged := Saved(db, key, final), NewRecord(true);
    LoggedKeeps(env, J, base, key, Some(UNESTABLISHED), flagged, None);
    var db1 := Logged(base, key, Some(UNESTABLISHED), flagged, None).value;
    RevokedKeeps(env, J, db1, key, LineageSuspended, OfPartitions(db1, {key}));
    InheritingSame(db, key, final, db1);
  }

  lemma InheritingSame(db: Db, key: PartitionKey, final: Record, db1: Db)
    requires LineageFlagged(db, key, NewRecord(false)).Done?
    requires Logged(Saved(db, key, final), key, Some(UNESTABLISHED), NewRecord(true), None) == Done(db1)
    ensures TokensRevoked(db1, LineageSuspended, OfPartitions(db1, {key}), CONTROLLER)
         == Done(Saved(LineageFlagged(db, key, NewRecord(false)).value.db, key, final))
  {
    var flagged := NewRecord(true);
    var db2 := Logged(Saved(db, key, flagged), key, Some(UNESTABLISHED), flagged, None).value;
    assert db1 == Saved(db2, key, final);
    assert OfPartitions(db1, {key}) == OfPartitions(db2, {key});
    RevokeSaved(db2, key, final, LineageSuspended, OfPartitions(db2, {key}));
  }

  lemma RevokeSaved(db: Db, key: PartitionKey, record: Record, cause: Cause, scope: set<string>)
    requires TokensRevoked(db, cause, scope, CONTROLLER).Done?
    ensures TokensRevoked(Saved(db, key, record), cause, scope, CONTROLLER)
         == Done(Saved(TokensRevoked(db, cause, scope, CONTROLLER).value, key, record))
  {}

  /** Retiring a newcomer whose record was stored as retired already. */
  lemma EarlyRetirementKeeps(env: Env, J: Db -> bool, db: Db, key: PartitionKey, record: Record)
    requires QuietStable(env, J, key) && Retired(db, key, record, false).Done?
    requires J(Saved(db, key, record.(retired := true)))
    ensures var w := Retired(db, key, record, false).value;
            J(w.db) && w.record == record.(retired := true) && w.db.lifecycle == db.lifecycle[key := w.record]
  {
    var gone := record.(retired := true);
    InvalidatedKeeps(env, J, Saved(db, key, gone), key, "PARTITION_RETIRED");
    LoggedKeeps(env, J, Invalidated(Saved(db, key, gone), key, "PARTITION_RETIRED"), key, Some(record.state), gone, None);
  }

  lemma FlaggedKeeps(env: Env, J: Db -> bool, db: Db, key: PartitionKey, record: Record)
    requires QuietStable(env, J, key) && LineageFlagged(db, key, record).Done?
    requires J(Saved(db, key, record.(lineageSuspended := true)))
    ensures var w := LineageFlagged(db, key, record).value;
            J(w.db) && w.record == record.(lineageSuspended := true) && w.db.lifecycle == db.lifecycle[key := w.record]
  {
    var flagged := record.(lineageSuspended := true);
    LoggedKeeps(env, J, Saved(db, key, flagged), key, Some(record.state), flagged, None);
    var db1 := Logged(Saved(db, key, flagged), key, Some(record.state), flagged, None).value;
    RevokedKeeps(env, J, db1, key, LineageSuspended, OfPartitions(db1, {key}));
  }

  lemma NewHeadKeeps(env: Env, J: Db -> bool, db: Db, key: PartitionKey)
    requires QuietStable(env, J, key) && J(db) && key !in db.lifecycle && Head(env, db, key).Done?
    ensures var h := Head(env, db, key).value;
            J(h.db) && key in h.db.lifecycle && h.db.lifecycle[key] == h.record
            && (!h.record.retired ==> key.policyVersion == env.policy.version)
  {
    EnrolledKeeps(env, J, db, key);
    EnrolledEnds(env, J, Enrolled(env, db, key).value, key, Newcomer(env, db, key));
  }

  lemma EnrolledEnds(env: Env, J: Db -> bool, w: Walked, key: PartitionKey, newcomer: Record)
    requires QuietStable(env, J, key) && J(Saved(w.db, key, newcomer)) && key in w.db.lifecycle && w.db.lifecycle[key] == w.record
    requires newcomer == w.record.(retired := key.policyVersion != env.policy.version) && !w.record.retired
    ensures key.policyVersion == env.policy.version ==> J(w.db)
    ensures key.policyVersion != env.policy.version && Retired(w.db, key, w.record, false).Done? ==>
              var h := Retired(w.db, key, w.record, false).value;
              J(h.db) && key in h.db.lifecycle && h.db.lifecycle[key] == h.record && h.record.retired
  {
    if key.policyVersion != env.policy.version {
      if Retired(w.db, key, w.record, false).Done? { EarlyRetirementKeeps(env, J, w.db, key, w.record); }
    } else {
      assert Saved(w.db, key, w.record) == w.db;
    }
  }

  lemma HeadKeeps(env: Env, J: Db -> bool, db: Db, key: PartitionKey)
    requires QuietStable(env, J, key) && J(db) && Head(env, db, key).Done?
    ensures var h := Head(env, db, key).value;
            J(h.db) && key in h.db.lifecycle && h.db.lifecycle[key] == h.record
            && (!h.record.retired ==> key.policyVersion == env.policy.version)
  {
    if key !in db.lifecycle {
      NewHeadKeeps(env, J, db, key);
    } else if IndexOf(db.alphas, key).None? {
      var db1 := AlphaRecorded(env.policy, db, key, db.lifecycle[key].epoch, Floor(db, key), REGISTERED).value;
      assert CaughtUp(env, db, db1, key);
      if !db1.lifecycle[key].retired && key.policyVersion != env.policy.version { RetiredKeeps(env, J, db1, key, db1.lifecycle[key]); }
    } else if !db.lifecycle[key].retired && key.policyVersion != env.policy.version {
      RetiredKeeps(env, J, db, key, db.lifecycle[key]);
    }
  }

  // ---- walks -----------------------------------------------------------------------------------------

  ghost function Evidently(e: Evidence): Db -> bool {
    (d: Db) => EvidenceOf(d) == e
  }

  lemma EvidentlyStable(env: Env, e: Evidence, key: PartitionKey)
    ensures QuietStable(env, Evidently(e), key)
  {
    hide NewRow, Newcomer, GateOpen, Registrations, OnlyRevoked, LegalNote;
  }

  ghost predicate AreLate(env: Env, trials: seq<Trial>, late: seq<Trial>) {
    forall t :: t in late ==> t in trials && t.frozenAt < env.now - env.deadline && Find(trials, t.id).Some?
  }

  lemma CensorsOne(env: Env, db: Db, t: Trial)
    requires AreLate(env, db.trials, [t]) && CensoredAt(db, t.id, env.now).Done?
    ensures Censors(env, db, CensoredAt(db, t.id, env.now).value, t)
  {
    OverdueMembers(db.trials, db.labels, env.now - env.deadline, t);
    assert t in [t];
  }

  lemma {:induction false} CensoredKeeps(env: Env, J: Db -> bool, db: Db, key: PartitionKey, late: seq<Trial>)
    requires Stable(env, J, key) && J(db) && AllCensored(db, late, env.now).Done? && AreLate(env, db.trials, late)
    ensures var after := AllCensored(db, late, env.now).value;
            J(after) && after.trials == db.trials && after.lifecycle == db.lifecycle
    decreases |late|
  {
    if late != [] {
      var db1 := CensoredAt(db, late[0].id, env.now).value;
      CensorsOne(env, db, late[0]);
      assert forall t :: t in late[1..] ==> t in late;
      CensoredKeeps(env, J, db1, key, late[1..]);
    }
  }

  lemma LateAreLate(env: Env, db: Db)
    ensures AreLate(env, db.trials, LateTrials(env, db))
  {
    forall t | t in LateTrials(env, db) ensures t in db.trials && t.frozenAt < env.now - env.deadline && Find(db.trials, t.id).Some? {
      OverdueMembers(db.trials, db.labels, env.now - env.deadline, t);
    }
  }

  lemma WalkKeeps(env: Env, J: Db -> bool, db: Db, key: PartitionKey)
    requires Stable(env, J, key) && J(db) && WalkDeferring(env, db, key).Done?
    ensures J(WalkDeferring(env, db, key).value.db)
  {
    var h := Head(env, db, key).value;
    HeadKeeps(env, J, db, key);
    if !Awake(h.record) {
      SyncedKeeps(env, J, h.db, key, h.record);
    } else {
      LateAreLate(env, h.db);
      CensoredKeeps(env, J, h.db, key, LateTrials(env, h.db));
      TailKeeps(env, J, AllCensored(h.db, LateTrials(env, h.db), env.now).value, key, h.record);
    }
  }
}
