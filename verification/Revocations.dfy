/** Exactly which tokens each revoking event takes, said of the tokens' own terms, and that the event names them.  */
module Revocations {
  import opened Tables
  import opened Shadow
  import opened Lifecycle
  import opened Steps
  import opened Worklist
  import opened Settling
  import opened Operations
  import opened OperationSteps
  import opened Invariants
  import opened Principals
  import Closure
  import Risk
  import G = Gateway
  import A = Authorizations

  // ---- an exact revocation ---------------------------------------------------------------------------------------

  /** Every issued token whose terms are hit is revoked for the cause, and no other token changes. */
  ghost predicate RevokesExactly(a: Db, b: Db, cause: Cause, hit: Terms -> bool) {
    && b.tokens.Keys == a.tokens.Keys
    && forall t :: t in a.tokens ==>
         b.tokens[t] == if a.tokens[t].state == Issued && hit(a.tokens[t].terms) then Token(a.tokens[t].terms, Revoked, Some(cause)) else a.tokens[t]
  }

  ghost function HitIn(db: Db, hit: Terms -> bool, state: TokenState): set<string> {
    set t | t in db.tokens && hit(db.tokens[t].terms) && db.tokens[t].state == state
  }

  /** One new entry names the tokens revoked and those already too far to be. */
  ghost predicate Announces(a: Db, b: Db, cause: Cause, hit: Terms -> bool, actor: string) {
    exists n :: |a.ledger| <= n < |b.ledger|
      && b.ledger[n] == Entry(actor, AuthorityRevoked(cause, HitIn(a, hit, Issued), HitIn(a, hit, HandlerStarted)))
  }

  ghost predicate Takes(a: Db, b: Db, cause: Cause, hit: Terms -> bool, actor: string) {
    RevokesExactly(a, b, cause, hit) && Announces(a, b, cause, hit, actor)
  }

  lemma RevokedTakes(db: Db, cause: Cause, scope: set<string>, actor: string, hit: Terms -> bool, after: Db)
    requires TokensRevoked(db, cause, scope, actor) == Done(after)
    requires forall t :: t in db.tokens ==> (t in scope <==> hit(db.tokens[t].terms))
    ensures Takes(db, after, cause, hit, actor)
  {
    assert InState(db.tokens, scope, Issued) == HitIn(db, hit, Issued);
    assert InState(db.tokens, scope, HandlerStarted) == HitIn(db, hit, HandlerStarted);
    assert after.ledger[|db.ledger|] == Entry(actor, AuthorityRevoked(cause, HitIn(db, hit, Issued), HitIn(db, hit, HandlerStarted)));
  }

  /** The event may come after other entries, and before others. */
  lemma TakesAround(a: Db, a': Db, b': Db, b: Db, cause: Cause, hit: Terms -> bool, actor: string)
    requires a'.tokens == a.tokens && |a.ledger| <= |a'.ledger| && Takes(a', b', cause, hit, actor)
    requires b.tokens == b'.tokens && b'.ledger <= b.ledger
    ensures Takes(a, b, cause, hit, actor)
  {
    assert HitIn(a, hit, Issued) == HitIn(a', hit, Issued) && HitIn(a, hit, HandlerStarted) == HitIn(a', hit, HandlerStarted);
    var n :| |a'.ledger| <= n < |b'.ledger|
             && b'.ledger[n] == Entry(actor, AuthorityRevoked(cause, HitIn(a', hit, Issued), HitIn(a', hit, HandlerStarted)));
    assert b.ledger[n] == b'.ledger[n];
  }

  /** No token of the partition is left to spend. */
  ghost predicate NoneOf(db: Db, key: PartitionKey) {
    forall t :: t in db.tokens && db.tokens[t].terms.partition == key ==> db.tokens[t].state != Issued
  }

  lemma OnlyRevokedLeavesNone(a: Db, b: Db, key: PartitionKey)
    requires NoneOf(a, key) && OnlyRevoked(a.tokens, b.tokens)
    ensures NoneOf(b, key)
  {
    forall t | t in b.tokens && b.tokens[t].terms.partition == key ensures b.tokens[t].state != Issued {
      assert OnlyRevokedToken(a.tokens[t], b.tokens[t]);
    }
  }

  // ---- a change of policy ----------------------------------------------------------------------------------------

  ghost function IssuedUnder(version: string): Terms -> bool {
    (t: Terms) => t.policyVersion == version
  }

  ghost function NowForbidden(version: string, before: set<string>, now: set<string>): Terms -> bool {
    (t: Terms) => t.policyVersion == version && exists e :: e in t.effects && e in now && e !in before
  }

  lemma {:induction false} RetiringTakesNothing(env: Env, db: Db, keys: set<PartitionKey>, version: string)
    requires VersionsRetired(env, db, keys, version).Done?
    ensures VersionsRetired(env, db, keys, version).value.tokens == db.tokens
    ensures |db.ledger| <= |VersionsRetired(env, db, keys, version).value.ledger|
    decreases |keys|
  {
    if keys != {} {
      var key := env.pick(db, keys);
      var w := Retired(db, key, db.lifecycle[key], false).value;
      RetiringTables(db, key, db.lifecycle[key], w);
      RetiringTakesNothing(env, Linked(w.db, key, key.(policyVersion := version)), keys - {key}, version);
    }
  }

  lemma RetiringTables(db: Db, key: PartitionKey, record: Record, w: Walked)
    requires Retired(db, key, record, false) == Done(w)
    ensures w.db.tokens == db.tokens && |db.ledger| <= |w.db.ledger|
  {}

  /** A new version takes exactly the issued tokens of the old one; a wider prohibition under one version exactly those
      of the version with an effect it adds; and no other change of policy takes any. */
  lemma PolicyTakes(env: Env, db: Db, old_: Policy, new_: Policy, actor: string, after: Db)
    requires PolicyReplaced(env, db, old_, new_, actor) == Done(after)
    ensures new_.version != old_.version ==> Takes(db, after, PolicyChanged, IssuedUnder(old_.version), actor)
    ensures new_.version == old_.version && !(new_.prohibited <= old_.prohibited) ==>
              Takes(db, after, EffectProhibited, NowForbidden(old_.version, old_.prohibited, new_.prohibited), actor)
    ensures new_.version == old_.version && new_.prohibited <= old_.prohibited ==> after == db
  {
    hide VersionsRetired, TokensRevoked, Takes;
    if new_.version != old_.version {
      var db1 := VersionsRetired(env, db, OnVersion(db, old_.version), new_.version).value;
      RetiringTakesNothing(env, db, OnVersion(db, old_.version), new_.version);
      RevokedTakes(db1, PolicyChanged, OfVersion(db1, old_.version), actor, IssuedUnder(old_.version), after);
      TakesAround(db, db1, after, after, PolicyChanged, IssuedUnder(old_.version), actor);
    } else if !(new_.prohibited <= old_.prohibited) {
      ForbiddenMeans(db, old_.version, old_.prohibited, new_.prohibited);
      RevokedTakes(db, EffectProhibited, NowProhibited(db, old_.version, new_.prohibited - old_.prohibited), actor,
                   NowForbidden(old_.version, old_.prohibited, new_.prohibited), after);
    }
  }

  lemma ForbiddenMeans(db: Db, version: string, before: set<string>, now: set<string>)
    ensures forall t :: t in db.tokens ==>
              (t in NowProhibited(db, version, now - before) <==> NowForbidden(version, before, now)(db.tokens[t].terms))
  {
    forall t | t in db.tokens ensures t in NowProhibited(db, version, now - before) <==> NowForbidden(version, before, now)(db.tokens[t].terms) {
      var common := db.tokens[t].terms.effects * (now - before);
      if common != {} {
        var e :| e in common;
        assert e in db.tokens[t].terms.effects && e in now && e !in before;
      }
      if e :| e in db.tokens[t].terms.effects && e in now && e !in before { assert e in common; }
    }
  }

  // ---- what happens to a partition -------------------------------------------------------------------------------

  ghost function OfPartition(key: PartitionKey): Terms -> bool {
    (t: Terms) => t.partition == key
  }

  /** Of the partition or of any that descends from it. */
  ghost function OfLineage(lineage: set<(PartitionKey, PartitionKey)>, key: PartitionKey): Terms -> bool {
    (t: Terms) => t.partition in Closure.Reach(lineage, {key})
  }

  /** On the partition's evidence alone, with no approval. */
  ghost function OnItsEvidence(key: PartitionKey): Terms -> bool {
    (t: Terms) => t.partition == key && t.approvalId.None?
  }

  lemma OneKey(db: Db, key: PartitionKey)
    ensures forall t :: t in db.tokens ==> (t in OfPartitions(db, {key}) <==> OfPartition(key)(db.tokens[t].terms))
  {}

  /** A move that revokes: what it takes. */
  lemma MoveTakes(db: Db, key: PartitionKey, record: Record, event: Event, w: Walked)
    requires Moved(db, key, record, event) == Done(w)
    ensures event == SEVERE_FAILURE ==> Takes(db, w.db, SevereFailure, OfLineage(db.lineage, key), CONTROLLER)
    ensures event == GATE_LOST_OUTCOME ==> Takes(db, w.db, GateLost, OnItsEvidence(key), CONTROLLER)
    ensures event == ORACLE_CHANGED ==> Takes(db, w.db, OracleChanged, OnItsEvidence(key), CONTROLLER)
    ensures event !in {SEVERE_FAILURE, GATE_LOST_OUTCOME, ORACLE_CHANGED} ==> w.db.tokens == db.tokens
  {
    hide TokensRevoked, Takes, Closure.Reach;
    var moved := record.(state := Next(Some(record.state), event).value);
    var db1 := Logged(Saved(db, key, moved), key, Some(record.state), moved, Some(event)).value;
    match event
    case SEVERE_FAILURE =>
      RevokedTakes(db1, SevereFailure, OfPartitions(db1, Descendants(db1, key)), CONTROLLER, OfLineage(db.lineage, key), w.db);
      TakesAround(db, db1, w.db, w.db, SevereFailure, OfLineage(db.lineage, key), CONTROLLER);
    case GATE_LOST_OUTCOME =>
      RevokedTakes(db1, GateLost, OnEvidence(db1, key), CONTROLLER, OnItsEvidence(key), w.db);
      TakesAround(db, db1, w.db, w.db, GateLost, OnItsEvidence(key), CONTROLLER);
    case ORACLE_CHANGED =>
      RevokedTakes(db1, OracleChanged, OnEvidence(db1, key), CONTROLLER, OnItsEvidence(key), w.db);
      TakesAround(db, db1, w.db, w.db, OracleChanged, OnItsEvidence(key), CONTROLLER);
    case _ =>
  }

  lemma SyncTakesNothing(env: Env, db: Db, key: PartitionKey, record: Record)
    requires Synced(env, db, key, record).Done?
    ensures Synced(env, db, key, record).value.tokens == db.tokens && Synced(env, db, key, record).value.ledger == db.ledger
  {
    hide *;
    SyncedShape(env, db, key, record);
    SnapshotOnlyTakesNothing(db, Synced(env, db, key, record).value, key);
  }

  lemma SnapshotOnlyTakesNothing(a: Db, b: Db, key: PartitionKey)
    requires SnapshotOnly(a, b, key)
    ensures b.tokens == a.tokens && b.ledger == a.ledger
  {}

  lemma SevereMoves(db: Db, key: PartitionKey, record: Record, w: Walked)
    requires Moved(db, key, record, SEVERE_FAILURE) == Done(w)
    ensures w.record == record.(state := SUSPENDED) && key in w.db.lifecycle && w.db.lifecycle[key] == w.record
    ensures w.db.snapshots == db.snapshots
  {
    hide Descendants, OfPartitions, TokensRevoked, OnEvidence;
    var moved := record.(state := SUSPENDED);
    var db1 := Logged(Saved(db, key, moved), key, Some(record.state), moved, Some(SEVERE_FAILURE)).value;
    assert db1.lifecycle == db.lifecycle[key := moved];
    RevokingTables(db1, SevereFailure, OfPartitions(db1, Descendants(db1, key)), CONTROLLER);
  }

  /** The same record of the same evidence. */
  predicate SameNumbers(a: Snapshot, b: Snapshot) {
    b.id == a.id && b.successes == a.successes && b.failures == a.failures && b.until == a.until && b.valid == a.valid
  }

  lemma SuspendedBasis(env: Env, db: Db, key: PartitionKey, record: Record, alpha: real)
    requires record.state == SUSPENDED
    ensures BasisOf(env, db, key, record).Some?
    ensures var s := Desired(db, key, record, BasisOf(env, db, key, record).value, alpha);
            s.suspended && s.reason == record.suspensionReason && (key in db.snapshots ==> SameNumbers(db.snapshots[key], s))
  {
    hide Read;
  }

  lemma PublishedSuspended(db: Db, key: PartitionKey, s: Snapshot)
    requires s.suspended && (key in db.snapshots ==> SameNumbers(db.snapshots[key], s))
    ensures var b := Published(db, key, s);
            key in b.snapshots && b.snapshots[key].suspended && (key in db.snapshots ==> SameNumbers(db.snapshots[key], b.snapshots[key]))
  {}

  lemma SuspensionPublishes(env: Env, db: Db, key: PartitionKey, record: Record)
    requires record.state == SUSPENDED && Synced(env, db, key, record).Done?
    ensures var b := Synced(env, db, key, record).value;
            b.lifecycle == db.lifecycle && key in b.snapshots && b.snapshots[key].suspended
            && (key in db.snapshots ==> SameNumbers(db.snapshots[key], b.snapshots[key]))
  {
    hide BasisOf, Desired, Published, AlphaOf;
    SyncedSame(env, db, key, record);
    var alpha := AlphaOf(db.alphas, key);
    if alpha.Some? {
      SuspendedBasis(env, db, key, record, alpha.value);
      PublishedSuspended(db, key, Desired(db, key, record, BasisOf(env, db, key, record).value, alpha.value));
    } else {
      SuspendedBasis(env, db, key, record, 0.0);
    }
  }

  /** A severe failure of a live partition takes every issued token of it and of its descendants, approved or not,
      suspends it for the reason given, and says so in its snapshot, which keeps its numbers. */
  lemma SevereTakes(env: Env, db: Db, key: PartitionKey, reason: string, after: Db)
    requires SeverityMarked(env, db, key, reason) == Done(after) && Walkable(db, key)
    ensures Takes(db, after, SevereFailure, OfLineage(db.lineage, key), CONTROLLER) && NoneOf(after, key)
    ensures key in after.lifecycle && after.lifecycle[key].state == SUSPENDED && after.lifecycle[key].suspensionReason == Some(reason)
    ensures key in after.snapshots && after.snapshots[key].suspended
    ensures key in db.snapshots ==> SameNumbers(db.snapshots[key], after.snapshots[key])
  {
    hide Moved, Synced, Takes, NoneOf, RevokesExactly, Closure.Reach;
    var record := db.lifecycle[key].(suspensionReason := Some(reason));
    var w := Moved(db, key, record, SEVERE_FAILURE).value;
    MoveTakes(db, key, record, SEVERE_FAILURE, w);
    SevereMoves(db, key, record, w);
    SyncTakesNothing(env, w.db, key, w.record);
    SuspensionPublishes(env, w.db, key, w.record);
    TakesAround(db, db, w.db, after, SevereFailure, OfLineage(db.lineage, key), CONTROLLER);
    Closure.ReachCloses(db.lineage, {key});
    TakenNone(db, after, SevereFailure, OfLineage(db.lineage, key), CONTROLLER, key);
  }

  lemma TakenNone(a: Db, b: Db, cause: Cause, hit: Terms -> bool, actor: string, key: PartitionKey)
    requires Takes(a, b, cause, hit, actor) && forall terms: Terms :: terms.partition == key ==> hit(terms)
    ensures NoneOf(b, key)
  {}

  /** A retirement by churn takes every issued token of the partition. */
  lemma RetirementTakes(db: Db, key: PartitionKey, record: Record, w: Walked)
    requires Retired(db, key, record, true) == Done(w)
    ensures Takes(db, w.db, PartitionRetired, OfPartition(key), CONTROLLER) && NoneOf(w.db, key)
  {
    hide TokensRevoked, Takes, NoneOf, Invalidated;
    InvalidationQuiet(Saved(db, key, record.(retired := true)), key, "PARTITION_RETIRED");
    var gone := record.(retired := true);
    var db1 := Logged(Invalidated(Saved(db, key, gone), key, "PARTITION_RETIRED"), key, Some(record.state), gone, None).value;
    OneKey(db1, key);
    RevokedTakes(db1, PartitionRetired, OfPartitions(db1, {key}), CONTROLLER, OfPartition(key), w.db);
    TakesAround(db, db1, w.db, w.db, PartitionRetired, OfPartition(key), CONTROLLER);
    TakenNone(db, w.db, PartitionRetired, OfPartition(key), CONTROLLER, key);
  }

  lemma InvalidationQuiet(db: Db, key: PartitionKey, reason: string)
    ensures Invalidated(db, key, reason) == db.(snapshots := Invalidated(db, key, reason).snapshots)
  {}

  /** A retirement of either kind leaves no valid evidence of the partition: a snapshot that was valid is marked, in a
      new version. */
  lemma RetirementInvalidates(db: Db, key: PartitionKey, record: Record, churned: bool, w: Walked)
    requires Retired(db, key, record, churned) == Done(w) && key in db.snapshots
    ensures var before := db.snapshots[key];
            w.db.snapshots == db.snapshots[key := if before.valid
                                                  then before.(version := before.version + 1, valid := false, reason := Some("PARTITION_RETIRED"))
                                                  else before]
  {
    hide TokensRevoked;
    var gone := record.(retired := true);
    var db1 := Logged(Invalidated(Saved(db, key, gone), key, "PARTITION_RETIRED"), key, Some(record.state), gone, None).value;
    if churned { RevokingTables(db1, PartitionRetired, OfPartitions(db1, {key}), CONTROLLER); }
  }

  /** A further severe failure, of a partition suspended or retired already, is only recorded. */
  lemma SevereRecordedOnly(env: Env, db: Db, key: PartitionKey, reason: string, after: Db)
    requires SeverityMarked(env, db, key, reason) == Done(after) && !Walkable(db, key)
    ensures key in db.lifecycle && after == db.(ledger := db.ledger + [Entry(CONTROLLER, Transition(key, Some(db.lifecycle[key].state), db.lifecycle[key], None))])
  {}

  /** A lineage flag takes them too. */
  lemma FlagTakes(db: Db, key: PartitionKey, record: Record, w: Walked)
    requires LineageFlagged(db, key, record) == Done(w)
    ensures Takes(db, w.db, LineageSuspended, OfPartition(key), CONTROLLER) && NoneOf(w.db, key)
  {
    hide TokensRevoked, Takes, NoneOf;
    var flagged := record.(lineageSuspended := true);
    var db1 := Logged(Saved(db, key, flagged), key, Some(record.state), flagged, None).value;
    OneKey(db1, key);
    RevokedTakes(db1, LineageSuspended, OfPartitions(db1, {key}), CONTROLLER, OfPartition(key), w.db);
    TakesAround(db, db1, w.db, w.db, LineageSuspended, OfPartition(key), CONTROLLER);
    TakenNone(db, w.db, LineageSuspended, OfPartition(key), CONTROLLER, key);
  }

  /** And a declared invalidation, which also marks the snapshot. */
  lemma InvalidationTakes(db: Db, key: PartitionKey, reason: string, after: Db)
    requires EvidenceDenied(db, key, reason) == Done(after)
    ensures Takes(db, after, EvidenceInvalidated, OfPartition(key), CONTROLLER) && NoneOf(after, key)
    ensures key in db.snapshots && after.snapshots == db.snapshots[key := after.snapshots[key]]
    ensures !after.snapshots[key].valid && after.snapshots[key].version == db.snapshots[key].version + 1
  {
    hide Takes, NoneOf;
    var s := db.snapshots[key];
    var db1 := db.(snapshots := db.snapshots[key := s.(version := s.version + 1, valid := false, reason := Some(reason))]);
    OneKey(db, key);
    RevokedTakes(db1, EvidenceInvalidated, OfPartitions(db, {key}), CONTROLLER, OfPartition(key), after);
    TakesAround(db, db1, after, after, EvidenceInvalidated, OfPartition(key), CONTROLLER);
    TakenNone(db, after, EvidenceInvalidated, OfPartition(key), CONTROLLER, key);
  }

  // ---- the whole operations --------------------------------------------------------------------------------------

  lemma RefreshOnlyRevokes(env: Env, db: Db, key: PartitionKey)
    requires Refreshed(env, db, key).Done?
    ensures OnlyRevoked(db.tokens, Refreshed(env, db, key).value.tokens)
  {
    FramedWalks(env, db);
    SameTokens(db.tokens);
    RefreshedKeeps(env, FramedFrom(db), db, key);
  }

  /** A recorded severe failure of a partition that is live when it is recorded leaves it no token to spend. */
  lemma SevereLeavesNone(env: Env, db: Db, key: PartitionKey, reason: string, after: Db)
    requires SevereRecorded(env, db, key, reason) == Done(after) && Walkable(Refreshed(env, db, key).value, key)
    ensures NoneOf(after, key) && OnlyRevoked(db.tokens, after.tokens)
  {
    hide Refreshed, SeverityMarked, NoneOf, OnlyRevoked;
    var db1 := Refreshed(env, db, key).value;
    RefreshOnlyRevokes(env, db, key);
    SevereTakes(env, db1, key, reason, after);
    TakingOnlyRevokes(db1, after, SevereFailure, OfLineage(db1.lineage, key), CONTROLLER);
    OnlyRevokedChain(db.tokens, db1.tokens, after.tokens);
  }

  lemma TakingOnlyRevokes(a: Db, b: Db, cause: Cause, hit: Terms -> bool, actor: string)
    requires Takes(a, b, cause, hit, actor)
    ensures OnlyRevoked(a.tokens, b.tokens)
  {
    forall t | t in a.tokens ensures OnlyRevokedToken(a.tokens[t], b.tokens[t]) {}
  }

  /** A churn leaves the partition that is replaced no token to spend, and if it flags the successor, that one neither. */
  lemma ChurnLeavesNone(env: Env, db: Db, old_: PartitionKey, new_: PartitionKey, after: Db)
    requires Churned(env, db, old_, new_) == Done(after)
    ensures NoneOf(after, old_)
    ensures var begun := ChurnBegun(env, db, old_, new_).value; var db2 := Refreshed(env, begun.db, new_).value;
            Suspends(begun.record) && !db2.lifecycle[new_].lineageSuspended ==> NoneOf(after, new_)
  {
    hide Refreshed, Retired, LineageFlagged, NoneOf, Takes;
    var db1 := Refreshed(env, db, old_).value;
    var w := Retired(db1, old_, db1.lifecycle[old_], true).value;
    RetirementTakes(db1, old_, db1.lifecycle[old_], w);
    var linked := Linked(w.db, old_, new_);
    LinkedLeavesNone(w.db, linked, old_);
    RefreshOnlyRevokes(env, linked, new_);
    var db2 := Refreshed(env, linked, new_).value;
    OnlyRevokedLeavesNone(linked, db2, old_);
    if Suspends(w.record) && !db2.lifecycle[new_].lineageSuspended {
      var flagged := LineageFlagged(db2, new_, db2.lifecycle[new_]).value;
      FlagTakes(db2, new_, db2.lifecycle[new_], flagged);
      TakingOnlyRevokes(db2, after, LineageSuspended, OfPartition(new_), CONTROLLER);
      OnlyRevokedLeavesNone(db2, after, old_);
    }
  }

  lemma LinkedLeavesNone(a: Db, b: Db, key: PartitionKey)
    requires NoneOf(a, key) && b.tokens == a.tokens
    ensures NoneOf(b, key)
  {}

  lemma OracleMoves(db: Db, key: PartitionKey, record: Record, w: Walked)
    requires Moved(db, key, record, ORACLE_CHANGED) == Done(w) && record.state != SUSPENDED
    ensures w.record == record.(state := if record.state == AUTONOMOUS then QUALIFYING else record.state)
    ensures key in w.db.lifecycle && w.db.lifecycle[key] == w.record
  {
    hide TokensRevoked, OnEvidence;
    var moved := record.(state := if record.state == AUTONOMOUS then QUALIFYING else record.state);
    var db1 := Logged(Saved(db, key, moved), key, Some(record.state), moved, Some(ORACLE_CHANGED)).value;
    RevokingTables(db1, OracleChanged, OnEvidence(db1, key), CONTROLLER);
  }

  /** A change of oracle takes exactly the tokens that rest on the partition's evidence, and leaves the partition in the
      next epoch, qualifying if it was autonomous and where it was otherwise. */
  lemma OracleTakes(env: Env, db: Db, key: PartitionKey, oracle: Oracle, after: Db)
    requires OracleMoved(env, db, key, oracle) == Done(after)
    ensures Takes(db, after, OracleChanged, OnItsEvidence(key), CONTROLLER)
    ensures var before := db.lifecycle[key];
            key in after.lifecycle
            && after.lifecycle[key] == before.(epoch := before.epoch + 1, state := if before.state == AUTONOMOUS then QUALIFYING else before.state)
    ensures forall t :: t in after.tokens && OnItsEvidence(key)(after.tokens[t].terms) ==> after.tokens[t].state != Issued
  {
    hide EpochOpenedFor, Moved, Synced, Announces;
    var begun := EpochOpenedFor(env.policy, db, key, db.lifecycle[key], oracle, CHANGED_ORACLE).value;
    var w := Moved(begun.db, key, begun.record, ORACLE_CHANGED).value;
    OpeningTakesNothing(env.policy, db, key, db.lifecycle[key], oracle, CHANGED_ORACLE);
    OpeningCounts(env.policy, db, key, db.lifecycle[key], oracle, CHANGED_ORACLE);
    MoveTakes(begun.db, key, begun.record, ORACLE_CHANGED, w);
    OracleMoves(begun.db, key, begun.record, w);
    SyncedSame(env, w.db, key, w.record);
    SyncTakesNothing(env, w.db, key, w.record);
    TakesAround(db, begun.db, w.db, after, OracleChanged, OnItsEvidence(key), CONTROLLER);
  }

  lemma OpeningCounts(policy: Policy, db: Db, key: PartitionKey, record: Record, oracle: Oracle, reason: AlphaReason)
    requires EpochOpenedFor(policy, db, key, record, oracle, reason).Done?
    ensures EpochOpenedFor(policy, db, key, record, oracle, reason).value.record == record.(epoch := record.epoch + 1)
  {
    hide EpochStarted, OracleSet;
  }

  lemma OpeningTakesNothing(policy: Policy, db: Db, key: PartitionKey, record: Record, oracle: Oracle, reason: AlphaReason)
    requires EpochOpenedFor(policy, db, key, record, oracle, reason).Done?
    ensures var w := EpochOpenedFor(policy, db, key, record, oracle, reason).value;
            w.db.tokens == db.tokens && |db.ledger| <= |w.db.ledger|
  {
    hide EpochStarted, OracleSet;
    var mid, end := EpochShape(policy, db, key, record, oracle, reason);
  }

  // ---- what happens to authority ---------------------------------------------------------------------------------

  /** Under the grant, at any depth. */
  ghost function Under(grants: map<string, Grant>, id: string): Terms -> bool {
    (t: Terms) => id in Ancestors(grants, t.grantId)
  }

  /** Under a grant the principal holds, at any depth, or on an approval the principal gave. */
  ghost function Behind(db: Db, principal: string): Terms -> bool {
    (t: Terms) =>
      (exists a :: a in Ancestors(db.grants, t.grantId) && a in db.grants && db.grants[a].grantee == principal)
      || (t.approvalId.Some? && t.approvalId.value in db.approvals && db.approvals[t.approvalId.value].principalId == principal)
  }

  ghost function OnApproval(id: string): Terms -> bool {
    (t: Terms) => t.approvalId == Some(id)
  }

  lemma GrantTakes(db: Db, id: string, actor: string, after: Db)
    requires GrantWithdrawn(db, id, actor) == Done(after)
    ensures Takes(db, after, Cause.GrantRevoked, Under(db.grants, id), actor)
  {
    hide Takes, Closure.Reach;
    var db1 := Appended(db.(grants := db.grants[id := db.grants[id].(revoked := true)]), actor, PermissionChanged("grant.revoked", id)).value;
    RevokingKeepsEdges(db.grants, id);
    forall t | t in db1.tokens ensures t in TokensUnder(db1, {id}) <==> Under(db.grants, id)(db1.tokens[t].terms) {
      SubtreesAreChains(db1.grants, {id}, db1.tokens[t].terms.grantId);
    }
    RevokedTakes(db1, Cause.GrantRevoked, TokensUnder(db1, {id}), actor, Under(db.grants, id), after);
    TakesAround(db, db1, after, after, Cause.GrantRevoked, Under(db.grants, id), actor);
  }

  lemma DeactivationTakes(db: Db, principal: string, actor: string, after: Db)
    requires Deactivated(db, principal, actor) == Done(after)
    ensures Takes(db, after, PrincipalDeactivated, Behind(db, principal), actor)
  {
    hide Takes, Closure.Reach;
    var db1 := Appended(db.(principals := db.principals[principal := db.principals[principal].(active := false)]), actor,
                        PermissionChanged("deactivated", principal)).value;
    forall t | t in db1.tokens ensures t in DeactivationScope(db1, principal) <==> Behind(db, principal)(db1.tokens[t].terms) {
      SubtreesAreChains(db.grants, Held(db.grants, principal), db1.tokens[t].terms.grantId);
    }
    RevokedTakes(db1, PrincipalDeactivated, DeactivationScope(db1, principal), actor, Behind(db, principal), after);
    TakesAround(db, db1, after, after, PrincipalDeactivated, Behind(db, principal), actor);
  }

  lemma RescissionTakes(db: Db, keyring: set<string>, id: string, approval: Approval, mac: Mac, after: Db)
    requires ApprovalWithdrawn(db, keyring, id, approval, mac) == Done(after)
    ensures Takes(db, after, ApprovalRescinded, OnApproval(id), approval.principalId)
  {
    hide Takes;
    var row := if id in db.approvals then db.approvals[id] else approval;
    var db1 := Appended(db.(approvals := db.approvals[id := row.(rescinded := true)]), approval.principalId,
                        PermissionChanged("approval.rescinded", id)).value;
    RevokedTakes(db1, ApprovalRescinded, TokensOn(db1, id), approval.principalId, OnApproval(id), after);
    TakesAround(db, db1, after, after, ApprovalRescinded, OnApproval(id), approval.principalId);
  }

  /** On a tool that the old or the new rules govern, and refused by the new rules as things stand. */
  ghost function RefusedBy(db: Db, old_: Risk.Rules, rules: Risk.Rules): Terms -> bool {
    (t: Terms) => (ConcernsTool(old_, t.tool) || ConcernsTool(rules, t.tool)) && !A.RiskAllows(rules, db, t.proposal)
  }

  /** Some envelope is for the tool, or some budget for it or for every tool. */
  predicate ConcernsTool(rules: Risk.Rules, tool: string) {
    || (exists e :: e in rules.envelopes && e.tool == tool)
    || (exists b :: b in rules.budgets && (b.tools == {} || tool in b.tools))
  }

  lemma GovernsMeans(rules: Risk.Rules, tool: string)
    ensures Risk.Governs(rules, tool) <==> ConcernsTool(rules, tool)
  {}

  lemma RulesTake(db: Db, old_: Risk.Rules, rules: Risk.Rules, after: Db)
    requires Risk.RulesChanged(db, old_, rules) == Done(after)
    ensures var changed := (rules.envelopes, rules.budgets, rules.conflicts) != (old_.envelopes, old_.budgets, old_.conflicts);
            var empty := old_.envelopes == [] && old_.budgets == [] && rules.envelopes == [] && rules.budgets == [];
            if !changed || empty then after == db
            else Takes(db, after, if rules.envelopes != old_.envelopes then EnvelopeChanged else BudgetTightened, RefusedBy(db, old_, rules), CONTROLLER)
  {
    hide Takes, Risk.RiskBlockers, Risk.Governs, ConcernsTool, A.RiskAllows;
    forall t | t in db.tokens ensures t in Risk.Refused(db, old_, rules) <==> RefusedBy(db, old_, rules)(db.tokens[t].terms) {
      var terms := db.tokens[t].terms;
      GovernsMeans(old_, terms.tool);
      GovernsMeans(rules, terms.tool);
      A.RiskMeans(rules, db, terms.proposal);
    }
    var cause := if rules.envelopes != old_.envelopes then EnvelopeChanged else BudgetTightened;
    var same := rules.envelopes == old_.envelopes && rules.budgets == old_.budgets && rules.conflicts == old_.conflicts;
    if !same && (Risk.Governing(old_) || Risk.Governing(rules)) { RevokedTakes(db, cause, Risk.Refused(db, old_, rules), CONTROLLER, RefusedBy(db, old_, rules), after); }
  }

  /** A revocation by request takes just the token it names. */
  lemma RequestTakes(db: Db, id: string, why: string, after: Db)
    requires G.Dropped(db, id, why) == Done(after)
    ensures after == db.(tokens := after.tokens) && after.tokens.Keys == db.tokens.Keys
    ensures forall t :: t in db.tokens ==>
              after.tokens[t] == if t == id && db.tokens[t].state == Issued then Token(db.tokens[t].terms, Revoked, Some(ByRequest(why))) else db.tokens[t]
  {}
}
