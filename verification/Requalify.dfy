/** A suspended partition returns to autonomy only through a signed release and then on evidence frozen after
    it, and one signature releases at most once.  */
module Requalify {
  import opened Tables
  import opened Shadow
  import opened Lifecycle
  import opened Steps
  import opened Worklist
  import opened Settling
  import opened Operations
  import opened OperationSteps
  import opened Invariants
  import opened Principals

  // ---- leaving suspension -----------------------------------------------------------------------------

  ghost function Suspended(key: PartitionKey): Db -> bool {
    (d: Db) => key in d.lifecycle && d.lifecycle[key].state == SUSPENDED
  }

  lemma SuspensionWalks(env: Env, key: PartitionKey)
    ensures EverStable(env, Suspended(key)) && SurvivesEvidence(Suspended(key))
  {
    var J := Suspended(key);
    WalksSurvive(env, J);
    WritesSurvive(J);
  }

  lemma SuspensionEpochs(env: Env, key: PartitionKey, k: PartitionKey, reason: AlphaReason)
    requires k != key || reason != RELEASED
    ensures SurvivesEpoch(env, Suspended(key), k, reason)
  {
    var J := Suspended(key);
    forall a, b, oracle | J(a) && Reopened(env, a, b, k, oracle, reason) ensures J(b) {
      var mid, end := EpochShape(env.policy, a, k, a.lifecycle[k], oracle, reason);
    }
  }

  /** Opening an epoch for a release or a change of oracle: its floor is its own place on the ledger, the oracle named is
      the one bound to it, and one row of the error budget carries the same floor and the reason. */
  lemma OpeningBinds(policy: Policy, db: Db, key: PartitionKey, record: Record, oracle: Oracle, reason: AlphaReason, w: Walked)
    requires TrialsOrdered(db) && EpochOpenedFor(policy, db, key, record, oracle, reason) == Done(w)
    ensures Floor(w.db, key) == |db.ledger| && w.record == record.(epoch := record.epoch + 1)
    ensures (key, |db.ledger|) !in db.oracles ==> (key, |db.ledger|) in w.db.oracles && w.db.oracles[(key, |db.ledger|)].oracle == oracle
    ensures (key, |db.ledger|) in w.db.oracles && w.db.oracles[(key, |db.ledger|)].oracle.id == oracle.id
            && w.db.oracles[(key, |db.ledger|)].oracle.version == oracle.version
    ensures |w.db.alphas| == |db.alphas| + 1 && w.db.alphas[..|db.alphas|] == db.alphas
    ensures var row := w.db.alphas[|db.alphas|];
            row.partition == key && row.floor == |db.ledger| && row.reason == reason && row.allocation.epoch == record.epoch + 1
  {
    hide OracleSet;
    var mid, end := EpochShape(policy, db, key, record, oracle, reason);
    StartTables(db, key);
    NewestIsLatest(FloorsOf(db.epochs, key), |db.ledger|);
    StartOracles(db, key);
    BindingOracles(mid, key, oracle);
    BindingTables(mid, key, oracle);
  }

  lemma StartOracles(db: Db, key: PartitionKey)
    requires EpochStarted(db, key).Done?
    ensures EpochStarted(db, key).value.oracles == db.oracles
  {}

  lemma BindingOracles(db: Db, key: PartitionKey, oracle: Oracle)
    requires OracleSet(db, key, oracle).Done?
    ensures var place, after := (key, Floor(db, key)), OracleSet(db, key, oracle).value.oracles;
            && place in after && after[place].oracle.id == oracle.id && after[place].oracle.version == oracle.version
            && (place !in db.oracles ==> after[place].oracle == oracle)
  {}

  /** Only a release of that partition ends a suspension: no walk, label, failure, churn, oracle change or
      invalidation does. */
  lemma SuspensionHolds(env: Env, keyring: set<string>, db: Db, op: Operation, key: PartitionKey)
    requires Suspended(key)(db) && Operated(env, keyring, db, op).Done? && !(op.Release? && op.key == key)
    ensures Suspended(key)(Operated(env, keyring, db, op).value)
  {
    hide Refreshed, Expired, Adjudicated, SevereRecorded, OracleReplaced, Churned, Released;
    var J := Suspended(key);
    SuspensionWalks(env, key);
    match op
    case Release(k, actor, reason, mac, oracle) =>
      SuspensionEpochs(env, key, k, RELEASED);
      assert Stable(env, J, k);
      ReleaseKeeps(env, J, db, keyring, k, actor, reason, mac, oracle);
    case ChangeOracle(k, oracle) => SuspensionEpochs(env, key, k, CHANGED_ORACLE); OracleChangeKeeps(env, J, db, k, oracle);
    case Churn(k, successor) => SuspensionRecords(key); ChurnKeeps(env, J, db, k, successor);
    case _ => SuspensionRecords(key); PlainKeeps(env, J, keyring, db, op);
  }

  lemma SuspensionRecords(key: PartitionKey)
    ensures var J := Suspended(key); SurvivesSevere(J) && SurvivesFlag(J) && SurvivesWithdrawal(J) && SurvivesLink(J)
  {}

  /** A release is signed by an active human for this partition's present epoch, and leads to qualifying, in
      the next epoch, whose floor is the release itself. */
  lemma ReleaseIsSigned(env: Env, keyring: set<string>, db: Db, op: Operation, after: Db)
    requires op.Release? && Operated(env, keyring, db, op) == Done(after)
    ensures MayRelease(db, keyring, op.key, op.actor, op.reason, op.mac, op.oracle)
    ensures op.key in db.lifecycle && !db.lifecycle[op.key].retired && op.actor in db.principals
    ensures var human := db.principals[op.actor];
            && human.active && human.kind == Human && human.keyId == Some(op.mac.keyId) && op.mac.keyId in keyring
            && op.mac.payload == ReleasePayload(op.key, db.lifecycle[op.key].epoch, op.reason, op.oracle.id, op.oracle.version)
    ensures op.key in after.lifecycle && after.lifecycle[op.key].epoch == db.lifecycle[op.key].epoch + 1
    ensures !Suspends(after.lifecycle[op.key])
    ensures db.lifecycle[op.key].state == SUSPENDED ==> after.lifecycle[op.key].state == QUALIFYING
    ensures Floor(after, op.key) >= |db.ledger| && after.trials == db.trials
  {
    var w := EpochOpenedFor(env.policy, db, op.key, db.lifecycle[op.key], op.oracle, RELEASED).value;
    ReleaseFloor(env.policy, db, op.key, op.oracle, w);
    ReleaseEnds(env, w.db, op.key, w.record.(lineageSuspended := false), after);
  }

  lemma ReleaseFloor(policy: Policy, db: Db, key: PartitionKey, oracle: Oracle, w: Walked)
    requires key in db.lifecycle && EpochOpenedFor(policy, db, key, db.lifecycle[key], oracle, RELEASED) == Done(w)
    ensures Floor(w.db, key) >= |db.ledger| && w.db.trials == db.trials
    ensures w.record == db.lifecycle[key].(epoch := db.lifecycle[key].epoch + 1)
  {
    EpochTables(policy, db, key, db.lifecycle[key], oracle, RELEASED);
    NewFloor(FloorsOf(db.epochs, key), |db.ledger|);
  }

  lemma NewFloor(floors: seq<nat>, more: nat)
    ensures Latest(floors + [more]) >= more
  {
    assert (floors + [more])[|floors|] in floors + [more];
  }

  lemma ReleaseEnds(env: Env, db: Db, key: PartitionKey, cleared: Record, after: Db)
    requires !cleared.lineageSuspended
    requires var w := if cleared.state == SUSPENDED then Moved(db, key, cleared.(suspensionReason := None), HUMAN_RELEASE)
                      else
                        var db1 :- Logged(Saved(db, key, cleared), key, Some(cleared.state), cleared, None);
                        Done(Walked(db1, cleared));
             w.Done? && Synced(env, w.value.db, key, w.value.record) == Done(after)
    ensures EvidenceOf(after) == EvidenceOf(db) && key in after.lifecycle && !Suspends(after.lifecycle[key])
    ensures after.lifecycle[key].epoch == cleared.epoch
    ensures after.lifecycle[key].state == if cleared.state == SUSPENDED then QUALIFYING else cleared.state
  {
    var w := if cleared.state == SUSPENDED then Moved(db, key, cleared.(suspensionReason := None), HUMAN_RELEASE).value
             else Walked(Logged(Saved(db, key, cleared), key, Some(cleared.state), cleared, None).value, cleared);
    SyncedSame(env, w.db, key, w.record);
  }

  // ---- returning to autonomy --------------------------------------------------------------------------

  /** How many counting trials of a partition were frozen after a floor. */
  function FrozenSince(trials: seq<Trial>, key: PartitionKey, floor: int): nat {
    Tally(trials, map[], key, floor, COUNTING).frozen
  }

  lemma {:induction false} FrozenIgnoresLabels(trials: seq<Trial>, labels: map<string, Resolution>, key: PartitionKey, floor: int)
    ensures Tally(trials, labels, key, floor, COUNTING).frozen == FrozenSince(trials, key, floor)
    decreases |trials|
  {
    if trials != [] { FrozenIgnoresLabels(trials[..|trials| - 1], labels, key, floor); }
  }

  lemma {:induction false} FrozenFromEarlier(trials: seq<Trial>, key: PartitionKey, floor: int, later: int)
    requires floor <= later
    ensures FrozenSince(trials, key, later) <= FrozenSince(trials, key, floor)
    decreases |trials|
  {
    if trials != [] { FrozenFromEarlier(trials[..|trials| - 1], key, floor, later); }
  }

  lemma FrozenGrows(trials: seq<Trial>, t: Trial, key: PartitionKey, floor: int)
    ensures FrozenSince(trials, key, floor) <= FrozenSince(trials + [t], key, floor)
  {
    assert (trials + [t])[..|trials|] == trials;
  }

  lemma GateCounts(env: Env, db: Db, key: PartitionKey, record: Record, floor: int, least: nat)
    requires GateOpen(env, db, key, record) && Floor(db, key) >= floor && env.policy.nMin >= least
    ensures FrozenSince(db.trials, key, floor) >= least
  {
    EvidenceConserved(db.trials, db.labels, key, Floor(db, key), COUNTING);
    FrozenIgnoresLabels(db.trials, db.labels, key, Floor(db, key));
    FrozenFromEarlier(db.trials, key, floor, Floor(db, key));
  }

  /** Autonomy since a floor rests on enough trials frozen after it. */
  ghost function Requalified(key: PartitionKey, floor: int, least: nat): Db -> bool {
    (d: Db) => Floor(d, key) >= floor
      && (key in d.lifecycle && d.lifecycle[key].state == AUTONOMOUS ==> FrozenSince(d.trials, key, floor) >= least)
  }

  lemma FloorRises(floors: seq<nat>, more: nat)
    ensures Latest(floors + [more]) >= Latest(floors)
  {
    assert (floors + [more])[..|floors|] == floors;
  }

  lemma RequalifiedStep(key: PartitionKey, floor: int, least: nat, a: Db, b: Db)
    requires Requalified(key, floor, least)(a) && b.trials == a.trials && b.epochs == a.epochs
    requires key in b.lifecycle && b.lifecycle[key].state == AUTONOMOUS ==> key in a.lifecycle && a.lifecycle[key].state == AUTONOMOUS
    ensures Requalified(key, floor, least)(b)
  {}

  lemma RequalifiedWalk(env: Env, key: PartitionKey, floor: int, least: nat, k: PartitionKey)
    requires env.policy.nMin >= least
    ensures Stable(env, Requalified(key, floor, least), k)
  {
    var J := Requalified(key, floor, least);
    forall a, b, t | J(a) && Censors(env, a, b, t) ensures J(b) { RequalifiedStep(key, floor, least, a, b); }
    forall a, b | J(a) && Noted(a, b) ensures J(b) { RequalifiedStep(key, floor, least, a, b); }
    forall a, b | J(a) && Withdrew(a, b) ensures J(b) { RequalifiedStep(key, floor, least, a, b); }
    forall a, b | J(a) && Republished(a, b, k) ensures J(b) { RequalifiedStep(key, floor, least, a, b); }
    forall a, b | J(a) && Enlisted(env, a, b, k) ensures J(b) { RequalifiedStep(key, floor, least, a, b); }
    forall a, b | J(a) && CaughtUp(env, a, b, k) ensures J(b) { RequalifiedStep(key, floor, least, a, b); }
    forall a, b | J(a) && VersionRetired(env, a, b, k) ensures J(b) { RequalifiedStep(key, floor, least, a, b); }
    forall a, b | J(a) && Stepped(env, a, b, k) ensures J(b) { RequalifiedMove(env, key, floor, least, a, b, k); }
  }

  lemma RequalifiedMove(env: Env, key: PartitionKey, floor: int, least: nat, a: Db, b: Db, k: PartitionKey)
    requires env.policy.nMin >= least && Requalified(key, floor, least)(a) && Stepped(env, a, b, k)
    ensures Requalified(key, floor, least)(b)
  {
    if k == key && b.lifecycle[key].state == AUTONOMOUS {
      GateCounts(env, a, key, a.lifecycle[key], floor, least);
    } else {
      RequalifiedStep(key, floor, least, a, b);
    }
  }

  lemma RequalifiedFreeze(key: PartitionKey, floor: int, least: nat, a: Db, b: Db, now: int, id: string, p: Proposal)
    requires Requalified(key, floor, least)(a) && Freezes(a, b, now, id, p)
    ensures Requalified(key, floor, least)(b)
  {
    if FreezeRefusal(a, id, p).Some? {
      RequalifiedStep(key, floor, least, a, b);
    } else {
      FrozenGrows(a.trials, b.trials[|a.trials|], key, floor);
    }
  }

  lemma RefusalReadsSame(db: Db, id: string, reason: QuarantineReason)
    requires Quarantined(db, id, reason).Done?
    ensures var b := Quarantined(db, id, reason).value; b.trials == db.trials && b.epochs == db.epochs && b.lifecycle == db.lifecycle
  {}

  lemma BindingReadsSame(db: Db, key: PartitionKey, oracle: Oracle)
    requires OracleSet(db, key, oracle).Done?
    ensures var b := OracleSet(db, key, oracle).value; b.trials == db.trials && b.epochs == db.epochs && b.lifecycle == db.lifecycle
  {
    hide OracleSet;
    BindingTables(db, key, oracle);
    BindWrote(db, key, oracle);
  }

  lemma ResolvingReadsSame(db: Db, id: string, actor: string, body: Body, r: Resolution)
    requires Resolved(db, id, actor, body, r).Done?
    ensures var b := Resolved(db, id, actor, body, r).value; b.trials == db.trials && b.epochs == db.epochs && b.lifecycle == db.lifecycle
  {}

  lemma ReviewReadsSame(db: Db, id: string, reviewer: string)
    requires ReviewRecorded(db, id, reviewer).Done?
    ensures var b := ReviewRecorded(db, id, reviewer).value; b.trials == db.trials && b.epochs == db.epochs && b.lifecycle == db.lifecycle
  {
    if Find(db.trials, id).None? { RefusalReadsSame(db, id, UnknownTrial); }
  }

  lemma RequalifiedOpening(key: PartitionKey, floor: int, least: nat, a: Db, b: Db, k: PartitionKey)
    requires Requalified(key, floor, least)(a) && Opens(a, b, k)
    ensures Requalified(key, floor, least)(b)
  {
    FloorRises(FloorsOf(a.epochs, k), |a.ledger|);
  }

  lemma RequalifiedEvidence(key: PartitionKey, floor: int, least: nat)
    ensures SurvivesEvidence(Requalified(key, floor, least))
  {
    hide Requalified, Quarantined, OracleSet, Resolved, ReviewRecorded, Frozen, EpochStarted;
    var J := Requalified(key, floor, least);
    forall a, b, id, reason | J(a) && Refuses(a, b, id, reason) ensures J(b) {
      RefusalReadsSame(a, id, reason);
      RequalifiedStep(key, floor, least, a, b);
    }
    forall a, b, k, oracle | J(a) && Binds(a, b, k, oracle) ensures J(b) {
      BindingReadsSame(a, k, oracle);
      RequalifiedStep(key, floor, least, a, b);
    }
    forall a, b, now, s | J(a) && Admits(a, b, now, s) ensures J(b) {
      ResolvingReadsSame(a, s.trialId, s.oracle.id, ShadowLabeled(s.trialId, s.verdict, s.oracle, s.claimedAt, now), Labeled(s.verdict, now, s.claimedAt));
      RequalifiedStep(key, floor, least, a, b);
    }
    forall a, b, now, id | J(a) && CensorsLate(a, b, now, id) ensures J(b) {
      ResolvingReadsSame(a, id, CONTROLLER, ShadowCensored(id, now), Censored(now));
      RequalifiedStep(key, floor, least, a, b);
    }
    forall a, b, id, reviewer | J(a) && Reviews(a, b, id, reviewer) ensures J(b) {
      ReviewReadsSame(a, id, reviewer);
      RequalifiedStep(key, floor, least, a, b);
    }
    forall a, b, k | J(a) && Opens(a, b, k) ensures J(b) { RequalifiedOpening(key, floor, least, a, b, k); }
    forall a, b, now, id, p | J(a) && Freezes(a, b, now, id, p) ensures J(b) { RequalifiedFreeze(key, floor, least, a, b, now, id, p); }
  }

  lemma EpochsExtend(policy: Policy, db: Db, k: PartitionKey, record: Record, oracle: Oracle, reason: AlphaReason, key: PartitionKey)
    requires EpochOpenedFor(policy, db, k, record, oracle, reason).Done?
    ensures var w := EpochOpenedFor(policy, db, k, record, oracle, reason).value;
            w.db.trials == db.trials && Floor(w.db, key) >= Floor(db, key)
  {
    EpochTables(policy, db, k, record, oracle, reason);
    FloorRises(FloorsOf(db.epochs, k), |db.ledger|);
  }

  lemma RequalifiedEpoch(env: Env, key: PartitionKey, floor: int, least: nat, a: Db, b: Db, k: PartitionKey, oracle: Oracle, reason: AlphaReason)
    requires Requalified(key, floor, least)(a) && Reopened(env, a, b, k, oracle, reason)
    ensures Requalified(key, floor, least)(b)
  {
    var w := EpochOpenedFor(env.policy, a, k, a.lifecycle[k], oracle, reason).value;
    EpochTables(env.policy, a, k, a.lifecycle[k], oracle, reason);
    EpochsExtend(env.policy, a, k, a.lifecycle[k], oracle, reason, key);
    var mid2 := a.(epochs := w.db.epochs);
    assert Requalified(key, floor, least)(mid2);
    RequalifiedStep(key, floor, least, mid2, b);
  }

  lemma RequalifiedRecords(key: PartitionKey, floor: int, least: nat)
    ensures var J := Requalified(key, floor, least);
            SurvivesSevere(J) && SurvivesFlag(J) && SurvivesWithdrawal(J) && SurvivesLink(J) && SurvivesRevocation(J)
  {
    var J := Requalified(key, floor, least);
    forall a, b, k | J(a) && Severed(a, b, k) ensures J(b) { RequalifiedStep(key, floor, least, a, b); }
    forall a, b, k | J(a) && Flagged(a, b, k) ensures J(b) { RequalifiedStep(key, floor, least, a, b); }
    forall a, b, k | J(a) && Withdrawn(a, b, k) ensures J(b) { RequalifiedStep(key, floor, least, a, b); }
    forall a, b, k, l | J(a) && Joined(a, b, k, l) ensures J(b) { RequalifiedStep(key, floor, least, a, b); }
    forall a, b, cause, scope, actor | J(a) && Revokes(a, b, cause, scope, actor) ensures J(b) { RequalifiedStep(key, floor, least, a, b); }
  }

  lemma RequalifiedEndures(env: Env, key: PartitionKey, floor: int, least: nat)
    requires env.policy.nMin >= least
    ensures Enduring(env, Requalified(key, floor, least))
  {
    var J := Requalified(key, floor, least);
    forall k ensures Stable(env, J, k) { RequalifiedWalk(env, key, floor, least, k); }
    RequalifiedEvidence(key, floor, least);
    forall a, b, k, oracle, reason | J(a) && Reopened(env, a, b, k, oracle, reason) ensures J(b) {
      RequalifiedEpoch(env, key, floor, least, a, b, k, oracle, reason);
    }
    assert forall k, reason :: SurvivesEpoch(env, J, k, reason);
    RequalifiedRecords(key, floor, least);
  }

  // ---- one signature, one release ---------------------------------------------------------------------

  ghost function EpochAtLeast(key: PartitionKey, epoch: nat): Db -> bool {
    (d: Db) => key in d.lifecycle && d.lifecycle[key].epoch >= epoch
  }

  lemma EpochRises(env: Env, key: PartitionKey, epoch: nat)
    ensures forall k, reason :: SurvivesEpoch(env, EpochAtLeast(key, epoch), k, reason)
  {
    var J := EpochAtLeast(key, epoch);
    forall a, b, k, oracle, reason | J(a) && Reopened(env, a, b, k, oracle, reason) ensures J(b) {
      EpochTables(env.policy, a, k, a.lifecycle[k], oracle, reason);
    }
  }

  lemma EpochsOnlyRise(env: Env, key: PartitionKey, epoch: nat)
    ensures Enduring(env, EpochAtLeast(key, epoch))
  {
    WalksSurvive(env, EpochAtLeast(key, epoch));
    WritesSurvive(EpochAtLeast(key, epoch));
    EpochRises(env, key, epoch);
    EpochRecords(key, epoch);
  }

  lemma EpochRecords(key: PartitionKey, epoch: nat)
    ensures var J := EpochAtLeast(key, epoch);
            SurvivesSevere(J) && SurvivesFlag(J) && SurvivesWithdrawal(J) && SurvivesLink(J) && SurvivesRevocation(J)
  {}

  /** A signature names an epoch; once the partition is past it, the signature releases nothing. */
  lemma SpentSignature(db: Db, keyring: set<string>, key: PartitionKey, epoch: nat, actor: string, reason: string, mac: Mac, oracle: Oracle)
    requires mac.payload.ReleasePayload? && mac.payload.partition == key && mac.payload.epoch < epoch && EpochAtLeast(key, epoch)(db)
    ensures !MayRelease(db, keyring, key, actor, reason, mac, oracle)
  {}

  /** A release that succeeds spends its signature: it named the epoch the partition is now past. */
  lemma ReleaseSpendsSignature(env: Env, keyring: set<string>, db: Db, op: Operation, after: Db)
    requires op.Release? && Operated(env, keyring, db, op) == Done(after)
    ensures op.key in db.lifecycle && EpochAtLeast(op.key, db.lifecycle[op.key].epoch + 1)(after)
    ensures op.mac.payload.ReleasePayload? && op.mac.payload.partition == op.key && op.mac.payload.epoch == db.lifecycle[op.key].epoch
  {
    ReleaseIsSigned(env, keyring, db, op, after);
  }
}
