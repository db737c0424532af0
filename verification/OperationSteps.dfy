/** The writes of the operations, beyond those of walks, and what a fact that survives them survives.  */
module OperationSteps {
  import opened Tables
  import opened Shadow
  import opened Lifecycle
  import opened Steps
  import opened Worklist
  import opened Settling
  import opened Operations
  import opened Principals

  predicate Severed(a: Db, b: Db, key: PartitionKey) {
    && key in a.lifecycle && Awake(a.lifecycle[key]) && key in b.lifecycle
    && b == Saved(a, key, a.lifecycle[key].(state := SUSPENDED, suspensionReason := b.lifecycle[key].suspensionReason))
  }

  predicate Flagged(a: Db, b: Db, key: PartitionKey) {
    key in a.lifecycle && b == Saved(a, key, a.lifecycle[key].(lineageSuspended := true))
  }

  predicate Withdrawn(a: Db, b: Db, key: PartitionKey) {
    key in a.lifecycle && b == Saved(a, key, a.lifecycle[key].(retired := true))
  }

  predicate Joined(a: Db, b: Db, old_: PartitionKey, new_: PartitionKey) {
    old_ in a.lifecycle && a.lifecycle[old_].retired && b == Linked(a, old_, new_)
  }

  /** The states an epoch's opening may leave a record in: never a way out of suspension but to QUALIFYING,
      never a way into autonomy. */
  predicate ReopensTo(before: State, after: State) {
    after == before || after == QUALIFYING
  }

  /** A new epoch, its floor, oracle and level recorded, and the record moved with it. */
  predicate Reopened(env: Env, a: Db, b: Db, key: PartitionKey, oracle: Oracle, reason: AlphaReason) {
    && key in a.lifecycle && !a.lifecycle[key].retired && reason != REGISTERED && key in b.lifecycle
    && EpochOpenedFor(env.policy, a, key, a.lifecycle[key], oracle, reason).Done?
    && var w := EpochOpenedFor(env.policy, a, key, a.lifecycle[key], oracle, reason).value;
       var r := b.lifecycle[key];
       b == Saved(w.db, key, w.record.(state := r.state, lineageSuspended := r.lineageSuspended, suspensionReason := r.suspensionReason))
       && ReopensTo(a.lifecycle[key].state, r.state)
       && r.lineageSuspended == (reason != RELEASED && a.lifecycle[key].lineageSuspended)
       && (reason == RELEASED ==> r.state != SUSPENDED)
       && (reason != RELEASED ==> r == w.record.(state := r.state) && Awake(a.lifecycle[key]) && r.state != AUTONOMOUS)
  }

  ghost predicate SurvivesSevere(J: Db -> bool) { forall a, b, key :: J(a) && Severed(a, b, key) ==> J(b) }
  ghost predicate SurvivesFlag(J: Db -> bool) { forall a, b, key :: J(a) && Flagged(a, b, key) ==> J(b) }
  ghost predicate SurvivesWithdrawal(J: Db -> bool) { forall a, b, key :: J(a) && Withdrawn(a, b, key) ==> J(b) }
  ghost predicate SurvivesLink(J: Db -> bool) { forall a, b, k, l :: J(a) && Joined(a, b, k, l) ==> J(b) }
  ghost predicate SurvivesEpoch(env: Env, J: Db -> bool, key: PartitionKey, reason: AlphaReason) {
    forall a, b, oracle :: J(a) && Reopened(env, a, b, key, oracle, reason) ==> J(b)
  }

  // ---- severe failures -------------------------------------------------------------------------------

  lemma SeverityMoveKeeps(env: Env, J: Db -> bool, db: Db, key: PartitionKey, reason: string)
    requires QuietStable(env, J, key) && SurvivesSevere(J) && J(db) && Walkable(db, key)
    requires Moved(db, key, db.lifecycle[key].(suspensionReason := Some(reason)), SEVERE_FAILURE).Done?
    ensures J(Moved(db, key, db.lifecycle[key].(suspensionReason := Some(reason)), SEVERE_FAILURE).value.db)
  {
    var record := db.lifecycle[key].(suspensionReason := Some(reason));
    var moved := record.(state := SUSPENDED);
    assert Severed(db, Saved(db, key, moved), key);
    LoggedKeeps(env, J, Saved(db, key, moved), key, Some(record.state), moved, Some(SEVERE_FAILURE));
    var db1 := Logged(Saved(db, key, moved), key, Some(record.state), moved, Some(SEVERE_FAILURE)).value;
    RevokedKeeps(env, J, db1, key, SevereFailure, OfPartitions(db1, Descendants(db1, key)));
  }

  lemma SevereKeeps(env: Env, J: Db -> bool, db: Db, key: PartitionKey, reason: string)
    requires EverStable(env, J) && SurvivesSevere(J) && J(db) && SevereRecorded(env, db, key, reason).Done?
    ensures J(SevereRecorded(env, db, key, reason).value)
  {
    RefreshedKeeps(env, J, db, key);
    assert Stable(env, J, key);
    var db1 := Refreshed(env, db, key).value;
    var record := db1.lifecycle[key];
    if !Awake(record) {
      LoggedKeeps(env, J, db1, key, Some(record.state), record, None);
    } else {
      SeverityMoveKeeps(env, J, db1, key, reason);
      var w := Moved(db1, key, record.(suspensionReason := Some(reason)), SEVERE_FAILURE).value;
      SyncedKeeps(env, J, w.db, key, w.record);
    }
  }

  // ---- new epochs ------------------------------------------------------------------------------------

  /** Opening an epoch and storing the record it moves is one step. */
  lemma ReopenKeeps(env: Env, J: Db -> bool, db: Db, key: PartitionKey, oracle: Oracle, reason: AlphaReason, w: Walked, moved: Record)
    requires SurvivesEpoch(env, J, key, reason) && J(db) && key in db.lifecycle && !db.lifecycle[key].retired && reason != REGISTERED
    requires EpochOpenedFor(env.policy, db, key, db.lifecycle[key], oracle, reason) == Done(w)
    requires moved == w.record.(state := moved.state, lineageSuspended := moved.lineageSuspended, suspensionReason := moved.suspensionReason)
    requires ReopensTo(db.lifecycle[key].state, moved.state)
    requires moved.lineageSuspended == (reason != RELEASED && db.lifecycle[key].lineageSuspended)
    requires reason == RELEASED ==> moved.state != SUSPENDED
    requires reason != RELEASED ==> moved == w.record.(state := moved.state) && Awake(db.lifecycle[key]) && moved.state != AUTONOMOUS
    ensures J(Saved(w.db, key, moved))
  {
    assert Reopened(env, db, Saved(w.db, key, moved), key, oracle, reason);
  }

  lemma ReleaseMoveKeeps(env: Env, J: Db -> bool, db: Db, key: PartitionKey, oracle: Oracle, w: Walked, m: Walked)
    requires QuietStable(env, J, key) && SurvivesEpoch(env, J, key, RELEASED) && J(db)
    requires key in db.lifecycle && !db.lifecycle[key].retired
    requires EpochOpenedFor(env.policy, db, key, db.lifecycle[key], oracle, RELEASED) == Done(w)
    requires w.record.state == SUSPENDED
    requires Moved(w.db, key, w.record.(lineageSuspended := false, suspensionReason := None), HUMAN_RELEASE) == Done(m)
    ensures J(m.db)
  {
    var moved := w.record.(lineageSuspended := false, suspensionReason := None, state := QUALIFYING);
    ReopenKeeps(env, J, db, key, oracle, RELEASED, w, moved);
    LoggedKeeps(env, J, Saved(w.db, key, moved), key, Some(SUSPENDED), moved, Some(HUMAN_RELEASE));
  }

  lemma ReleaseKeeps(env: Env, J: Db -> bool, db: Db, keyring: set<string>, key: PartitionKey, actor: string, reason: string,
                     mac: Mac, oracle: Oracle)
    requires QuietStable(env, J, key) && SurvivesEpoch(env, J, key, RELEASED) && J(db)
    requires Released(env, db, keyring, key, actor, reason, mac, oracle).Done?
    ensures J(Released(env, db, keyring, key, actor, reason, mac, oracle).value)
  {
    var w := EpochOpenedFor(env.policy, db, key, db.lifecycle[key], oracle, RELEASED).value;
    var cleared := w.record.(lineageSuspended := false);
    if cleared.state == SUSPENDED {
      var m := Moved(w.db, key, cleared.(suspensionReason := None), HUMAN_RELEASE).value;
      ReleaseMoveKeeps(env, J, db, key, oracle, w, m);
      SyncedKeeps(env, J, m.db, key, m.record);
    } else {
      ReopenKeeps(env, J, db, key, oracle, RELEASED, w, cleared);
      LoggedKeeps(env, J, Saved(w.db, key, cleared), key, Some(cleared.state), cleared, None);
      SyncedKeeps(env, J, Logged(Saved(w.db, key, cleared), key, Some(cleared.state), cleared, None).value, key, cleared);
    }
  }

  lemma OracleMoveKeeps(env: Env, J: Db -> bool, db: Db, key: PartitionKey, oracle: Oracle, w: Walked, m: Walked)
    requires QuietStable(env, J, key) && SurvivesEpoch(env, J, key, CHANGED_ORACLE) && J(db) && Walkable(db, key)
    requires EpochOpenedFor(env.policy, db, key, db.lifecycle[key], oracle, CHANGED_ORACLE) == Done(w)
    requires Moved(w.db, key, w.record, ORACLE_CHANGED) == Done(m)
    ensures J(m.db)
  {
    var moved := w.record.(state := Next(Some(w.record.state), ORACLE_CHANGED).value);
    ReopenKeeps(env, J, db, key, oracle, CHANGED_ORACLE, w, moved);
    LoggedKeeps(env, J, Saved(w.db, key, moved), key, Some(w.record.state), moved, Some(ORACLE_CHANGED));
    var db1 := Logged(Saved(w.db, key, moved), key, Some(w.record.state), moved, Some(ORACLE_CHANGED)).value;
    RevokedKeeps(env, J, db1, key, OracleChanged, OnEvidence(db1, key));
  }

  lemma OracleChangeKeeps(env: Env, J: Db -> bool, db: Db, key: PartitionKey, oracle: Oracle)
    requires EverStable(env, J) && SurvivesEpoch(env, J, key, CHANGED_ORACLE) && J(db) && OracleReplaced(env, db, key, oracle).Done?
    ensures J(OracleReplaced(env, db, key, oracle).value)
  {
    RefreshedKeeps(env, J, db, key);
    assert Stable(env, J, key);
    var db1 := Refreshed(env, db, key).value;
    var w := EpochOpenedFor(env.policy, db1, key, db1.lifecycle[key], oracle, CHANGED_ORACLE).value;
    var m := Moved(w.db, key, w.record, ORACLE_CHANGED).value;
    OracleMoveKeeps(env, J, db1, key, oracle, w, m);
    SyncedKeeps(env, J, m.db, key, m.record);
  }

  // ---- retirement ------------------------------------------------------------------------------------

  lemma WithdrawalKeeps(env: Env, J: Db -> bool, db: Db, key: PartitionKey, churned: bool)
    requires QuietStable(env, J, key) && SurvivesWithdrawal(J) && J(db) && key in db.lifecycle
    requires Retired(db, key, db.lifecycle[key], churned).Done?
    ensures var w := Retired(db, key, db.lifecycle[key], churned).value;
            J(w.db) && w.record == db.lifecycle[key].(retired := true) && w.db.lifecycle == db.lifecycle[key := w.record]
            && w.db.lineage == db.lineage
  {
    var record := db.lifecycle[key];
    var gone := record.(retired := true);
    assert Withdrawn(db, Saved(db, key, gone), key);
    InvalidatedKeeps(env, J, Saved(db, key, gone), key, "PARTITION_RETIRED");
    var db0 := Invalidated(Saved(db, key, gone), key, "PARTITION_RETIRED");
    LoggedKeeps(env, J, db0, key, Some(record.state), gone, None);
    var db1 := Logged(db0, key, Some(record.state), gone, None).value;
    if churned { RevokedKeeps(env, J, db1, key, PartitionRetired, OfPartitions(db1, {key})); }
  }

  lemma FlagKeeps(env: Env, J: Db -> bool, db: Db, key: PartitionKey)
    requires QuietStable(env, J, key) && SurvivesFlag(J) && J(db) && key in db.lifecycle
    requires LineageFlagged(db, key, db.lifecycle[key]).Done?
    ensures J(LineageFlagged(db, key, db.lifecycle[key]).value.db)
  {
    assert Flagged(db, Saved(db, key, db.lifecycle[key].(lineageSuspended := true)), key);
    FlaggedKeeps(env, J, db, key, db.lifecycle[key]);
  }

  lemma ChurnBeginKeeps(env: Env, J: Db -> bool, db: Db, old_: PartitionKey, new_: PartitionKey)
    requires EverStable(env, J) && SurvivesWithdrawal(J) && SurvivesLink(J) && J(db) && ChurnBegun(env, db, old_, new_).Done?
    ensures J(ChurnBegun(env, db, old_, new_).value.db)
  {
    RefreshedKeeps(env, J, db, old_);
    var db1 := Refreshed(env, db, old_).value;
    assert Stable(env, J, old_);
    WithdrawalKeeps(env, J, db1, old_, true);
    var w := Retired(db1, old_, db1.lifecycle[old_], true).value;
    assert Joined(w.db, Linked(w.db, old_, new_), old_, new_);
  }

  lemma ChurnFinishKeeps(env: Env, J: Db -> bool, db: Db, new_: PartitionKey, suspended: bool)
    requires EverStable(env, J) && SurvivesFlag(J) && J(db) && ChurnFinished(env, db, new_, suspended).Done?
    ensures J(ChurnFinished(env, db, new_, suspended).value)
  {
    RefreshedKeeps(env, J, db, new_);
    assert Stable(env, J, new_);
    var db2 := Refreshed(env, db, new_).value;
    if suspended && !db2.lifecycle[new_].lineageSuspended { FlagKeeps(env, J, db2, new_); }
  }

  lemma ChurnKeeps(env: Env, J: Db -> bool, db: Db, old_: PartitionKey, new_: PartitionKey)
    requires EverStable(env, J) && SurvivesWithdrawal(J) && SurvivesLink(J) && SurvivesFlag(J) && J(db)
    requires Churned(env, db, old_, new_).Done?
    ensures J(Churned(env, db, old_, new_).value)
  {
    ChurnBeginKeeps(env, J, db, old_, new_);
    var begun := ChurnBegun(env, db, old_, new_).value;
    ChurnFinishKeeps(env, J, begun.db, new_, Suspends(begun.record));
  }

  lemma {:induction false} VersionsKeep(env: Env, J: Db -> bool, db: Db, keys: set<PartitionKey>, version: string)
    requires EverStable(env, J) && SurvivesWithdrawal(J) && SurvivesLink(J) && J(db) && VersionsRetired(env, db, keys, version).Done?
    ensures J(VersionsRetired(env, db, keys, version).value)
    decreases |keys|
  {
    if keys != {} {
      var key := env.pick(db, keys);
      assert Stable(env, J, key);
      WithdrawalKeeps(env, J, db, key, false);
      var w := Retired(db, key, db.lifecycle[key], false).value;
      var linked := Linked(w.db, key, key.(policyVersion := version));
      assert Joined(w.db, linked, key, key.(policyVersion := version));
      VersionsKeep(env, J, linked, keys - {key}, version);
    }
  }

  /** A change of version retires every partition it names and forgets none. */
  lemma {:induction false} VersionsRetire(env: Env, db: Db, keys: set<PartitionKey>, version: string)
    requires VersionsRetired(env, db, keys, version).Done?
    ensures var after := VersionsRetired(env, db, keys, version).value;
            && after.lifecycle.Keys == db.lifecycle.Keys
            && forall key :: key in db.lifecycle && (key in keys || db.lifecycle[key].retired) ==> after.lifecycle[key].retired
    decreases |keys|
  {
    if keys != {} {
      var key := env.pick(db, keys);
      var J := (d: Db) => true;
      WithdrawalKeeps(env, J, db, key, false);
      var w := Retired(db, key, db.lifecycle[key], false).value;
      VersionsRetire(env, Linked(w.db, key, key.(policyVersion := version)), keys - {key}, version);
    }
  }

  /** A revocation recorded by anyone, not only by the controller. */
  ghost predicate SurvivesRevocation(J: Db -> bool) {
    forall a, b, cause, scope, actor :: J(a) && Revokes(a, b, cause, scope, actor) ==> J(b)
  }

  predicate Revokes(a: Db, b: Db, cause: Cause, scope: set<string>, actor: string) {
    TokensRevoked(a, cause, scope, actor) == Done(b)
  }

  lemma PolicyKeeps(env: Env, J: Db -> bool, db: Db, old_: Policy, new_: Policy, actor: string)
    requires EverStable(env, J) && SurvivesWithdrawal(J) && SurvivesLink(J) && SurvivesRevocation(J) && J(db)
    requires PolicyReplaced(env, db, old_, new_, actor).Done?
    ensures J(PolicyReplaced(env, db, old_, new_, actor).value)
  {
    var after := PolicyReplaced(env, db, old_, new_, actor).value;
    if new_.version != old_.version {
      VersionsKeep(env, J, db, OnVersion(db, old_.version), new_.version);
      var db1 := VersionsRetired(env, db, OnVersion(db, old_.version), new_.version).value;
      assert Revokes(db1, after, PolicyChanged, OfVersion(db1, old_.version), actor);
    } else if !(new_.prohibited <= old_.prohibited) {
      assert Revokes(db, after, EffectProhibited, NowProhibited(db, old_.version, new_.prohibited - old_.prohibited), actor);
    }
  }

  lemma DenialKeeps(env: Env, J: Db -> bool, db: Db, key: PartitionKey, reason: string)
    requires QuietStable(env, J, key) && J(db) && EvidenceDenied(db, key, reason).Done?
    ensures J(EvidenceDenied(db, key, reason).value)
  {
    var s := db.snapshots[key];
    var db1 := db.(snapshots := db.snapshots[key := s.(version := s.version + 1, valid := false, reason := Some(reason))]);
    assert Republished(db, db1, key);
    RevokedKeeps(env, J, db1, key, EvidenceInvalidated, OfPartitions(db, {key}));
  }
}
