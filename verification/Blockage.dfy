/** How long expiry outside a label stays blocked: once an overdue trial of a live partition has another overdue
    trial behind it, every transaction that would bring a live partition up to date raises, until a label or a new
    policy version comes.  */
module Blockage {
  import opened Tables
  import opened Shadow
  import opened Lifecycle
  import opened Steps
  import opened Worklist
  import opened Settling
  import opened Operations
  import opened OperationSteps
  import opened Invariants
  import opened Systems
  import opened Runs
  import opened Lineage
  import E = Expiry

  /** Two unresolved trials past the cutoff, the earlier of them of a live partition on the current version. */
  ghost function Jam(version: string, cutoff: int, i: nat, j: nat): Db -> bool {
    (d: Db) =>
      && i < j < |d.trials| && LateAt(d, cutoff, i) && LateAt(d, cutoff, j)
      && Walkable(d, d.trials[i].partition) && d.trials[i].partition.policyVersion == version
  }

  predicate LateAt(db: Db, cutoff: int, i: nat)
    requires i < |db.trials|
  {
    db.trials[i].id !in db.labels && db.trials[i].frozenAt < cutoff
  }

  // ---- a jam blocks expiry -----------------------------------------------------------------------------------

  lemma {:induction false} OverdueSplits(a: seq<Trial>, b: seq<Trial>, labels: map<string, Resolution>, cutoff: int)
    ensures Overdue(a + b, labels, cutoff) == Overdue(a, labels, cutoff) + Overdue(b, labels, cutoff)
  {
    if a == [] {
      assert a + b == b;
    } else {
      assert (a + b)[1..] == a[1..] + b;
      OverdueSplits(a[1..], b, labels, cutoff);
    }
  }

  lemma OverdueOne(t: Trial, labels: map<string, Resolution>, cutoff: int)
    requires t.id !in labels && t.frozenAt < cutoff
    ensures Overdue([t], labels, cutoff) == [t]
  {
    assert [t][1..] == [];
  }

  lemma JamIsLate(trials: seq<Trial>, labels: map<string, Resolution>, cutoff: int, i: nat, j: nat)
    requires i < j < |trials| && trials[i].id !in labels && trials[i].frozenAt < cutoff
    requires trials[j].id !in labels && trials[j].frozenAt < cutoff
    ensures exists k :: 0 <= k < |Overdue(trials, labels, cutoff)| - 1 && Overdue(trials, labels, cutoff)[k] == trials[i]
  {
    var before, rest := trials[..i], trials[i + 1..];
    OverdueSplits(before, [trials[i]] + rest, labels, cutoff);
    OverdueSplits([trials[i]], rest, labels, cutoff);
    OverdueOne(trials[i], labels, cutoff);
    assert trials == before + ([trials[i]] + rest);
    assert rest[j - i - 1] == trials[j];
    OverdueMembers(rest, labels, cutoff, trials[j]);
    assert Overdue(trials, labels, cutoff)[|Overdue(before, labels, cutoff)|] == trials[i];
  }

  /** What a run's states satisfy of what expiry asks. */
  ghost predicate WellFormed(db: Db, version: string) {
    EvidenceInv(db) && Orderly(version)(db)
  }

  lemma JamBlocksExpiry(env: Env, db: Db, cutoff: int, i: nat, j: nat)
    requires Jam(env.policy.version, cutoff, i, j)(db) && WellFormed(db, env.policy.version) && cutoff <= env.now - env.deadline
    ensures Expired(env, db) == Raised
  {
    var late := LateTrials(env, db);
    JamIsLate(db.trials, db.labels, env.now - env.deadline, i, j);
    var k :| 0 <= k < |late| - 1 && late[k] == db.trials[i];
    assert !E.OnlyLastWalks(db, late);
    E.ExpiringIsCensoringAll(env, db, late);
  }

  // ---- a jam survives what it does not stop --------------------------------------------------------------------

  lemma JamStep(version: string, cutoff: int, i: nat, j: nat, a: Db, b: Db)
    requires Jam(version, cutoff, i, j)(a) && b.trials == a.trials && b.labels == a.labels
    requires Walkable(b, a.trials[i].partition)
    ensures Jam(version, cutoff, i, j)(b)
  {}

  lemma JamWalks(env: Env, cutoff: int, i: nat, j: nat, key: PartitionKey)
    ensures QuietStable(env, Jam(env.policy.version, cutoff, i, j), key)
  {
    var v := env.policy.version;
    var J := Jam(v, cutoff, i, j);
    forall a, b | J(a) && Noted(a, b) ensures J(b) { JamStep(v, cutoff, i, j, a, b); }
    forall a, b | J(a) && Withdrew(a, b) ensures J(b) { JamStep(v, cutoff, i, j, a, b); }
    forall a, b | J(a) && Republished(a, b, key) ensures J(b) { JamStep(v, cutoff, i, j, a, b); }
    forall a, b | J(a) && Stepped(env, a, b, key) ensures J(b) { JamStep(v, cutoff, i, j, a, b); }
    forall a, b | J(a) && Enlisted(env, a, b, key) ensures J(b) { JamStep(v, cutoff, i, j, a, b); }
    forall a, b | J(a) && CaughtUp(env, a, b, key) ensures J(b) { JamStep(v, cutoff, i, j, a, b); }
    forall a, b | J(a) && VersionRetired(env, a, b, key) ensures J(b) { JamStep(v, cutoff, i, j, a, b); }
  }

  lemma JamEvidence(version: string, cutoff: int, i: nat, j: nat, a: Db, b: Db)
    requires Jam(version, cutoff, i, j)(a) && a.trials <= b.trials && b.labels == a.labels && b.lifecycle == a.lifecycle
    ensures Jam(version, cutoff, i, j)(b)
  {
    assert b.trials[i] == a.trials[i] && b.trials[j] == a.trials[j];
  }

  lemma FormedWalks(env: Env)
    ensures EverStable(env, Formed(env.policy.version))
  {
    EvidenceWalks(env);
    OrderlyWalks(env);
    forall key ensures Stable(env, Formed(env.policy.version), key) {
      assert Stable(env, Evidential(), key) && Stable(env, Orderly(env.policy.version), key);
      BothStable(env, Evidential(), Orderly(env.policy.version), Formed(env.policy.version), key);
    }
  }

  ghost function Formed(version: string): Db -> bool {
    (d: Db) => WellFormed(d, version)
  }

  /** Whether bringing the partition up to date would find it live. */
  predicate Wakes(env: Env, db: Db, key: PartitionKey) {
    if key in db.lifecycle then Walkable(db, key) else key.policyVersion == env.policy.version
  }

  lemma WakingHead(env: Env, db: Db, key: PartitionKey)
    requires Head(env, db, key).Done? && Orderly(env.policy.version)(db)
    ensures Awake(Head(env, db, key).value.record) <==> Wakes(env, db, key)
  {
    hide Enrolled;
    if key !in db.lifecycle {
      EvidentlyStable(env, EvidenceOf(db), key);
      EnrolledKeeps(env, Evidently(EvidenceOf(db)), db, key);
    }
  }

  /** While the jam lasts a refresh succeeds exactly for what it would not wake, and then keeps the jam. */
  lemma JammedRefresh(env: Env, db: Db, key: PartitionKey, cutoff: int, i: nat, j: nat)
    requires Jam(env.policy.version, cutoff, i, j)(db) && WellFormed(db, env.policy.version) && cutoff <= env.now - env.deadline
    ensures Wakes(env, db, key) ==> Refreshed(env, db, key) == Raised
    ensures Refreshed(env, db, key).Done? ==>
              var b := Refreshed(env, db, key).value;
              && Jam(env.policy.version, cutoff, i, j)(b) && WellFormed(b, env.policy.version)
              && key in b.lifecycle && !Walkable(b, key)
  {
    if Head(env, db, key).Done? {
      var J := Jam(env.policy.version, cutoff, i, j);
      var h := Head(env, db, key).value;
      JamWalks(env, cutoff, i, j, key);
      HeadKeeps(env, J, db, key);
      FormedWalks(env);
      assert Stable(env, Formed(env.policy.version), key);
      HeadKeeps(env, Formed(env.policy.version), db, key);
      WakingHead(env, db, key);
      if Awake(h.record) {
        JamBlocksExpiry(env, h.db, cutoff, i, j);
      } else if Synced(env, h.db, key, h.record).Done? {
        SyncedKeeps(env, J, h.db, key, h.record);
        SyncedKeeps(env, Formed(env.policy.version), h.db, key, h.record);
        SyncedSame(env, h.db, key, h.record);
      }
    }
  }

  lemma JammedSevere(env: Env, db: Db, key: PartitionKey, reason: string, cutoff: int, i: nat, j: nat)
    requires Jam(env.policy.version, cutoff, i, j)(db) && WellFormed(db, env.policy.version) && cutoff <= env.now - env.deadline
    ensures Wakes(env, db, key) ==> SevereRecorded(env, db, key, reason) == Raised
    ensures SevereRecorded(env, db, key, reason).Done? ==> Jam(env.policy.version, cutoff, i, j)(SevereRecorded(env, db, key, reason).value)
  {
    JammedRefresh(env, db, key, cutoff, i, j);
  }

  lemma JammedOracle(env: Env, db: Db, key: PartitionKey, oracle: Oracle, cutoff: int, i: nat, j: nat)
    requires Jam(env.policy.version, cutoff, i, j)(db) && WellFormed(db, env.policy.version) && cutoff <= env.now - env.deadline
    ensures OracleReplaced(env, db, key, oracle) == Raised
  {
    JammedRefresh(env, db, key, cutoff, i, j);
  }

  /** Retiring what is not live and recording an edge keeps the jam. */
  lemma JammedRetirement(env: Env, db: Db, old_: PartitionKey, new_: PartitionKey, cutoff: int, i: nat, j: nat)
    requires Jam(env.policy.version, cutoff, i, j)(db) && WellFormed(db, env.policy.version)
    requires old_ in db.lifecycle && !Walkable(db, old_) && Retired(db, old_, db.lifecycle[old_], true).Done?
    ensures var linked := Linked(Retired(db, old_, db.lifecycle[old_], true).value.db, old_, new_);
            Jam(env.policy.version, cutoff, i, j)(linked) && WellFormed(linked, env.policy.version)
  {
    RetirementFormed(env, db, old_, new_);
    RetirementTables(db, old_);
    JamStep(env.policy.version, cutoff, i, j, db, Linked(Retired(db, old_, db.lifecycle[old_], true).value.db, old_, new_));
  }

  lemma RetirementFormed(env: Env, db: Db, old_: PartitionKey, new_: PartitionKey)
    requires WellFormed(db, env.policy.version) && old_ in db.lifecycle && Retired(db, old_, db.lifecycle[old_], true).Done?
    ensures WellFormed(Linked(Retired(db, old_, db.lifecycle[old_], true).value.db, old_, new_), env.policy.version)
  {
    EvidenceEndures(env);
    OrderlyEndures(env);
    LinkedKeeps(env, Evidential(), db, old_, new_);
    LinkedKeeps(env, Orderly(env.policy.version), db, old_, new_);
  }

  lemma LinkedKeeps(env: Env, J: Db -> bool, db: Db, old_: PartitionKey, new_: PartitionKey)
    requires Enduring(env, J) && J(db) && old_ in db.lifecycle && Retired(db, old_, db.lifecycle[old_], true).Done?
    ensures J(Linked(Retired(db, old_, db.lifecycle[old_], true).value.db, old_, new_))
  {
    assert Stable(env, J, old_);
    WithdrawalKeeps(env, J, db, old_, true);
    var w := Retired(db, old_, db.lifecycle[old_], true).value;
    assert Joined(w.db, Linked(w.db, old_, new_), old_, new_);
  }

  lemma RetirementTables(db: Db, key: PartitionKey)
    requires key in db.lifecycle && Retired(db, key, db.lifecycle[key], true).Done?
    ensures var w := Retired(db, key, db.lifecycle[key], true).value;
            w.db.trials == db.trials && w.db.labels == db.labels && w.db.lifecycle == db.lifecycle[key := w.record] && w.record.retired
  {}

  lemma JammedChurnStart(env: Env, db: Db, old_: PartitionKey, new_: PartitionKey, cutoff: int, i: nat, j: nat)
    requires Jam(env.policy.version, cutoff, i, j)(db) && WellFormed(db, env.policy.version) && cutoff <= env.now - env.deadline
    requires ChurnBegun(env, db, old_, new_).Done?
    ensures var w := ChurnBegun(env, db, old_, new_).value;
            Jam(env.policy.version, cutoff, i, j)(w.db) && WellFormed(w.db, env.policy.version)
    ensures !Wakes(env, db, old_)
  {
    JammedRefresh(env, db, old_, cutoff, i, j);
    JammedRetirement(env, Refreshed(env, db, old_).value, old_, new_, cutoff, i, j);
  }

  lemma FlagKeepsJam(version: string, db: Db, key: PartitionKey, cutoff: int, i: nat, j: nat)
    requires Jam(version, cutoff, i, j)(db) && key in db.lifecycle && !Walkable(db, key)
    requires LineageFlagged(db, key, db.lifecycle[key]).Done?
    ensures Jam(version, cutoff, i, j)(LineageFlagged(db, key, db.lifecycle[key]).value.db)
  {
    JamStep(version, cutoff, i, j, db, LineageFlagged(db, key, db.lifecycle[key]).value.db);
  }

  lemma JammedChurnEnd(env: Env, db: Db, new_: PartitionKey, suspended: bool, cutoff: int, i: nat, j: nat)
    requires Jam(env.policy.version, cutoff, i, j)(db) && WellFormed(db, env.policy.version) && cutoff <= env.now - env.deadline
    ensures Wakes(env, db, new_) ==> ChurnFinished(env, db, new_, suspended) == Raised
    ensures ChurnFinished(env, db, new_, suspended).Done? ==>
              Jam(env.policy.version, cutoff, i, j)(ChurnFinished(env, db, new_, suspended).value)
  {
    hide Refreshed, LineageFlagged, WellFormed;
    JammedRefresh(env, db, new_, cutoff, i, j);
    if ChurnFinished(env, db, new_, suspended).Done? {
      var db2 := Refreshed(env, db, new_).value;
      if suspended && !db2.lifecycle[new_].lineageSuspended { FlagKeepsJam(env.policy.version, db2, new_, cutoff, i, j); }
    }
  }

  /** A churn that begins leaves its successor as live, or as unknown, as it was. */
  lemma SuccessorStillWakes(env: Env, db: Db, old_: PartitionKey, new_: PartitionKey)
    requires Orderly(env.policy.version)(db) && ChurnBegun(env, db, old_, new_).Done? && old_ != new_ && Wakes(env, db, new_)
    ensures new_ !in db.lifecycle || db.lifecycle[new_].state != SUSPENDED
    ensures new_ in ChurnBegun(env, db, old_, new_).value.db.lifecycle <==> new_ in db.lifecycle
    ensures Wakes(env, ChurnBegun(env, db, old_, new_).value.db, new_)
  {
    var db1 := Refreshed(env, db, old_).value;
    RefreshRegistersOne(env, db, old_);
    RetirementTables(db1, old_);
    if new_ in db.lifecycle {
      AwakeStays(env, new_);
      RefreshedKeeps(env, StillAwake(new_), db, old_);
    }
  }

  ghost function StillAwake(key: PartitionKey): Db -> bool {
    (d: Db) => Walkable(d, key)
  }

  lemma AwakeStays(env: Env, key: PartitionKey)
    requires key.policyVersion == env.policy.version
    ensures EverStable(env, StillAwake(key))
  {
    var J := StillAwake(key);
    forall a, b, t | J(a) && Censors(env, a, b, t) ensures J(b) {}
    forall other ensures Stable(env, J, other) { AwakeWalk(env, key, other); }
  }

  lemma AwakeWalk(env: Env, key: PartitionKey, other: PartitionKey)
    requires key.policyVersion == env.policy.version
    ensures QuietStable(env, StillAwake(key), other)
  {
    var J := StillAwake(key);
    forall a, b | J(a) && VersionRetired(env, a, b, other) ensures J(b) { assert other != key; }
    forall a, b | J(a) && Enlisted(env, a, b, other) ensures J(b) { assert other != key; }
    forall a, b | J(a) && Stepped(env, a, b, other) ensures J(b) {}
  }

  lemma JammedChurn(env: Env, db: Db, old_: PartitionKey, new_: PartitionKey, cutoff: int, i: nat, j: nat)
    requires Jam(env.policy.version, cutoff, i, j)(db) && WellFormed(db, env.policy.version) && cutoff <= env.now - env.deadline
    ensures Wakes(env, db, old_) || Wakes(env, db, new_) ==> Churned(env, db, old_, new_) == Raised
    ensures Churned(env, db, old_, new_).Done? ==> Jam(env.policy.version, cutoff, i, j)(Churned(env, db, old_, new_).value)
  {
    if old_ != new_ && ChurnBegun(env, db, old_, new_).Done? {
      JammedChurnStart(env, db, old_, new_, cutoff, i, j);
      var begun := ChurnBegun(env, db, old_, new_).value;
      if Wakes(env, db, new_) { SuccessorStillWakes(env, db, old_, new_); }
      JammedChurnEnd(env, begun.db, new_, Suspends(begun.record), cutoff, i, j);
    }
  }

  // ---- every operation -----------------------------------------------------------------------------------------

  /** The operations that bring a live partition up to date, or expire directly. */
  predicate Updates(env: Env, db: Db, op: Operation) {
    match op
    case Refresh(key) => Wakes(env, db, key)
    case ExpireUnlabeled => true
    case RecordSevere(key, _) => Wakes(env, db, key)
    case ChangeOracle(_, _) => true
    case Churn(key, successor) => Wakes(env, db, key) || Wakes(env, db, successor)
    case _ => false
  }

  lemma JammedRelease(env: Env, keyring: set<string>, db: Db, op: Operation, cutoff: int, i: nat, j: nat)
    requires Jam(env.policy.version, cutoff, i, j)(db) && op.Release? && Operated(env, keyring, db, op).Done?
    ensures Jam(env.policy.version, cutoff, i, j)(Operated(env, keyring, db, op).value)
  {
    hide Jam, Reopened, Released, QuietStable;
    var J := Jam(env.policy.version, cutoff, i, j);
    JamWalks(env, cutoff, i, j, op.key);
    forall a, b, oracle | J(a) && Reopened(env, a, b, op.key, oracle, RELEASED) ensures J(b) {
      JamReopens(env, cutoff, i, j, a, b, op.key, oracle);
    }
    ReleaseKeeps(env, J, db, keyring, op.key, op.actor, op.reason, op.mac, op.oracle);
  }

  lemma JamReopens(env: Env, cutoff: int, i: nat, j: nat, a: Db, b: Db, key: PartitionKey, oracle: Oracle)
    requires Jam(env.policy.version, cutoff, i, j)(a) && Reopened(env, a, b, key, oracle, RELEASED)
    ensures Jam(env.policy.version, cutoff, i, j)(b)
  {
    EpochTables(env.policy, a, key, a.lifecycle[key], oracle, RELEASED);
    OpeningKeepsLabels(env.policy, a, key, a.lifecycle[key], oracle, RELEASED);
    JamStep(env.policy.version, cutoff, i, j, a, b);
  }

  /** Evidence writes that resolve nothing. */
  predicate Unresolving(a: Db, b: Db) {
    a.trials <= b.trials && b.labels == a.labels && b.lifecycle == a.lifecycle
  }

  lemma RefusalResolvesNothing(db: Db, id: string, reason: QuarantineReason)
    requires Quarantined(db, id, reason).Done?
    ensures Unresolving(db, Quarantined(db, id, reason).value)
  {}

  lemma FreezeResolvesNothing(db: Db, now: int, id: string, p: Proposal)
    requires Frozen(db, now, id, p).Done?
    ensures Unresolving(db, Frozen(db, now, id, p).value)
  {
    var refusal := FreezeRefusal(db, id, p);
    if refusal.Some? {
      assert Frozen(db, now, id, p) == Quarantined(db, id, refusal.value);
      RefusalResolvesNothing(db, id, refusal.value);
    } else {
      NewTrialResolvesNothing(db, now, id, p);
    }
  }

  lemma NewTrialResolvesNothing(db: Db, now: int, id: string, p: Proposal)
    requires Frozen(db, now, id, p).Done? && FreezeRefusal(db, id, p).None?
    ensures Unresolving(db, Frozen(db, now, id, p).value)
  {}

  lemma BindingResolvesNothing(db: Db, key: PartitionKey, oracle: Oracle)
    requires OracleSet(db, key, oracle).Done?
    ensures Unresolving(db, OracleSet(db, key, oracle).value)
  {}

  lemma OpeningResolvesNothing(db: Db, key: PartitionKey)
    requires EpochStarted(db, key).Done?
    ensures Unresolving(db, EpochStarted(db, key).value)
  {}

  lemma ReviewResolvesNothing(db: Db, id: string, reviewer: string)
    requires ReviewRecorded(db, id, reviewer).Done?
    ensures Unresolving(db, ReviewRecorded(db, id, reviewer).value)
  {
    if Find(db.trials, id).None? { RefusalResolvesNothing(db, id, UnknownTrial); }
  }

  lemma JammedWrites(env: Env, keyring: set<string>, db: Db, op: Operation, cutoff: int, i: nat, j: nat)
    requires Jam(env.policy.version, cutoff, i, j)(db) && Operated(env, keyring, db, op).Done?
    requires op.Freeze? || op.BindOracle? || op.OpenEpoch? || op.Review?
    ensures Jam(env.policy.version, cutoff, i, j)(Operated(env, keyring, db, op).value)
  {
    WritesResolveNothing(env, keyring, db, op);
    JamEvidence(env.policy.version, cutoff, i, j, db, Operated(env, keyring, db, op).value);
  }

  lemma WritesResolveNothing(env: Env, keyring: set<string>, db: Db, op: Operation)
    requires Operated(env, keyring, db, op).Done? && (op.Freeze? || op.BindOracle? || op.OpenEpoch? || op.Review?)
    ensures Unresolving(db, Operated(env, keyring, db, op).value)
  {
    match op
    case Freeze(id, p) => FreezeResolvesNothing(db, env.now, id, p);
    case BindOracle(key, oracle) => BindingResolvesNothing(db, key, oracle);
    case OpenEpoch(key) => OpeningResolvesNothing(db, key);
    case Review(id, reviewer) => ReviewResolvesNothing(db, id, reviewer);
  }

  /** While the jam lasts no operation that would bring a live partition up to date succeeds, and none but a label's
      ends it. */
  lemma JamHolds(env: Env, keyring: set<string>, db: Db, op: Operation, cutoff: int, i: nat, j: nat)
    requires Jam(env.policy.version, cutoff, i, j)(db) && WellFormed(db, env.policy.version) && cutoff <= env.now - env.deadline
    ensures Updates(env, db, op) ==> Operated(env, keyring, db, op) == Raised
    ensures !op.Adjudicate? && Operated(env, keyring, db, op).Done? ==>
              Jam(env.policy.version, cutoff, i, j)(Operated(env, keyring, db, op).value)
  {
    hide Refreshed, Expired, Adjudicated, SevereRecorded, OracleReplaced, Churned, Released, Frozen;
    match op
    case Refresh(key) => JammedRefresh(env, db, key, cutoff, i, j);
    case ExpireUnlabeled => JamBlocksExpiry(env, db, cutoff, i, j);
    case Adjudicate(s) =>
    case RecordSevere(key, reason) => JammedSevere(env, db, key, reason, cutoff, i, j);
    case ChangeOracle(key, oracle) => JammedOracle(env, db, key, oracle, cutoff, i, j);
    case Churn(key, successor) => JammedChurn(env, db, key, successor, cutoff, i, j);
    case Release(key, actor, reason, mac, oracle) =>
      if Operated(env, keyring, db, op).Done? { JammedRelease(env, keyring, db, op, cutoff, i, j); }
    case Invalidate(key, reason) =>
      JamWalks(env, cutoff, i, j, key);
      if Operated(env, keyring, db, op).Done? { DenialKeeps(env, Jam(env.policy.version, cutoff, i, j), db, key, reason); }
    case _ => if Operated(env, keyring, db, op).Done? { JammedWrites(env, keyring, db, op, cutoff, i, j); }
  }

  // ---- every run -----------------------------------------------------------------------------------------------

  /** Not a label, not a new policy version, and not before the cutoff. */
  predicate Unhelpful(host: Host, version: string, cutoff: int, m: Moment, step: Step) {
    && cutoff <= m.now - host.deadline
    && (step.Operate? ==> !step.op.Adjudicate?) && (step.ChangePolicy? ==> step.policy.version == version)
  }

  ghost function Jammed(cutoff: int, i: nat, j: nat): System -> bool {
    (s: System) => Jam(s.policy.version, cutoff, i, j)(s.db) && Sound(s)
  }

  lemma SamePolicyKeepsJam(env: Env, db: Db, new_: Policy, actor: string, cutoff: int, i: nat, j: nat)
    requires Jam(env.policy.version, cutoff, i, j)(db) && new_.version == env.policy.version
    requires PolicyReplaced(env, db, env.policy, new_, actor).Done?
    ensures Jam(env.policy.version, cutoff, i, j)(PolicyReplaced(env, db, env.policy, new_, actor).value)
  {}

  lemma ElsewhereKeepsJam(version: string, cutoff: int, i: nat, j: nat, a: Db, b: Db)
    requires Jam(version, cutoff, i, j)(a) && Elsewhere(a, b)
    ensures Jam(version, cutoff, i, j)(b)
  {
    JamStep(version, cutoff, i, j, a, b);
  }

  lemma JamOutlasts(host: Host, s: System, m: Moment, step: Step, cutoff: int, i: nat, j: nat)
    requires Jammed(cutoff, i, j)(s) && Unhelpful(host, s.policy.version, cutoff, m, step) && Effect(host, s, m, step).Done?
    ensures Jam(s.policy.version, cutoff, i, j)(Effect(host, s, m, step).value)
  {
    hide Jam, Operated, PolicyReplaced;
    if step.Operate? {
      JamHolds(EnvOf(host, s, m), host.keyring, s.db, step.op, cutoff, i, j);
    } else if step.ChangePolicy? {
      SamePolicyKeepsJam(EnvOf(host, s, m), s.db, step.policy, step.actor, cutoff, i, j);
    } else {
      OtherSteps(host, s, m, step);
      ElsewhereKeepsJam(s.policy.version, cutoff, i, j, s.db, Effect(host, s, m, step).value);
    }
  }

  lemma JamStays(host: Host, s: System, m: Moment, step: Step, cutoff: int, i: nat, j: nat)
    requires Jammed(cutoff, i, j)(s) && Unhelpful(host, s.policy.version, cutoff, m, step)
    ensures Jammed(cutoff, i, j)(After(host, s, m, step)) && After(host, s, m, step).policy.version == s.policy.version
  {
    hide Effect, Jam, Sound;
    StepSound(host, s, m, step);
    if Effect(host, s, m, step).Done? { JamOutlasts(host, s, m, step, cutoff, i, j); }
  }

  lemma {:induction false} JamAlong(host: Host, s: System, trace: Trace, cutoff: int, i: nat, j: nat)
    requires Jammed(cutoff, i, j)(s)
    requires forall k :: 0 <= k < |trace| ==> Unhelpful(host, s.policy.version, cutoff, trace[k].0, trace[k].1)
    ensures Jammed(cutoff, i, j)(Run(host, s, trace)) && Run(host, s, trace).policy.version == s.policy.version
    decreases |trace|
  {
    hide After, Jam, Sound;
    if trace != [] {
      var n := |trace| - 1;
      assert forall k :: 0 <= k < n ==> trace[..n][k] == trace[k];
      JamAlong(host, s, trace[..n], cutoff, i, j);
      JamStays(host, Run(host, s, trace[..n]), trace[n].0, trace[n].1, cutoff, i, j);
    }
  }

  /** Two overdue trials, the earlier of a live partition, block every refresh, severe failure, churn and change of
      oracle that would bring a live partition up to date, and every direct expiry, from then on: however long the
      run, until a label or a new policy version comes, each of them raises. */
  lemma BlockedUntilLabelled(host: Host, s: System, trace: Trace, m: Moment, op: Operation, cutoff: int, i: nat, j: nat)
    requires Jammed(cutoff, i, j)(s) && cutoff <= m.now - host.deadline
    requires forall k :: 0 <= k < |trace| ==> Unhelpful(host, s.policy.version, cutoff, trace[k].0, trace[k].1)
    ensures var after := Run(host, s, trace);
            Updates(EnvOf(host, after, m), after.db, op) ==> Effect(host, after, m, Operate(op)) == Raised
  {
    hide *;
    JamAlong(host, s, trace, cutoff, i, j);
    var after := Run(host, s, trace);
    if Updates(EnvOf(host, after, m), after.db, op) { JammedRaises(host, after, m, op, cutoff, i, j); }
  }

  lemma JammedRaises(host: Host, s: System, m: Moment, op: Operation, cutoff: int, i: nat, j: nat)
    requires Jammed(cutoff, i, j)(s) && cutoff <= m.now - host.deadline && Updates(EnvOf(host, s, m), s.db, op)
    ensures Effect(host, s, m, Operate(op)) == Raised
  {
    hide Updates, Operated;
    JamHolds(EnvOf(host, s, m), host.keyring, s.db, op, cutoff, i, j);
  }

  ghost predicate JamAt(env: Env, db: Db, i: nat, j: nat) {
    Jam(env.policy.version, env.now - env.deadline, i, j)(db)
  }

  /** The jam is exactly what expiry fails on: a trial before the last of the overdue ones belongs to a live
      partition. */
  lemma JamIsCondition(env: Env, db: Db)
    requires Orderly(env.policy.version)(db)
    ensures (exists i: nat, j: nat :: JamAt(env, db, i, j)) <==> !E.OnlyLastWalks(db, LateTrials(env, db))
  {
    var cutoff, late := env.now - env.deadline, LateTrials(env, db);
    if i: nat, j: nat :| JamAt(env, db, i, j) {
      JamIsLate(db.trials, db.labels, cutoff, i, j);
      var k :| 0 <= k < |late| - 1 && late[k] == db.trials[i];
      assert !E.OnlyLastWalks(db, late);
    }
    if !E.OnlyLastWalks(db, late) {
      var k :| 0 <= k < |late| - 1 && Walkable(db, late[k].partition);
      var i, j := LatePlaces(db.trials, db.labels, cutoff, k);
      assert JamAt(env, db, i, j);
    }
  }

  lemma {:induction false} LatePlaces(trials: seq<Trial>, labels: map<string, Resolution>, cutoff: int, k: nat) returns (i: nat, j: nat)
    requires k < |Overdue(trials, labels, cutoff)| - 1
    ensures i < j < |trials| && trials[i] == Overdue(trials, labels, cutoff)[k]
    ensures trials[i].id !in labels && trials[i].frozenAt < cutoff && trials[j].id !in labels && trials[j].frozenAt < cutoff
    decreases |trials|
  {
    var rest := Overdue(trials[1..], labels, cutoff);
    if trials[0].id !in labels && trials[0].frozenAt < cutoff {
      assert Overdue(trials, labels, cutoff) == [trials[0]] + rest;
      if k == 0 {
        i := 0;
        OverdueMembers(trials[1..], labels, cutoff, rest[0]);
        var m :| 0 <= m < |trials| - 1 && trials[1..][m] == rest[0];
        j := m + 1;
      } else {
        i, j := LatePlaces(trials[1..], labels, cutoff, k - 1);
        i, j := i + 1, j + 1;
      }
    } else {
      i, j := LatePlaces(trials[1..], labels, cutoff, k);
      i, j := i + 1, j + 1;
    }
  }
}
