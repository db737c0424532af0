/** Facts that survive every step of the evidence and lifecycle machinery.  */
module Invariants {
  import opened Tables
  import opened AlphaSpending
  import opened Shadow
  import opened Lifecycle
  import opened Steps
  import opened Worklist
  import opened Settling
  import opened Operations
  import opened OperationSteps
  import opened Principals

  // ---- the evidence writes that are not part of a walk ------------------------------------------------

  predicate Refuses(a: Db, b: Db, id: string, reason: QuarantineReason) { Quarantined(a, id, reason) == Done(b) }
  predicate Binds(a: Db, b: Db, key: PartitionKey, oracle: Oracle) { OracleSet(a, key, oracle) == Done(b) }
  predicate Freezes(a: Db, b: Db, now: int, id: string, p: Proposal) { Frozen(a, now, id, p) == Done(b) }
  predicate Admits(a: Db, b: Db, now: int, s: SignedLabel) {
    Find(a.trials, s.trialId).Some? && LabelRecorded(a, now, s) == Done(b)
  }
  predicate Reviews(a: Db, b: Db, id: string, reviewer: string) { ReviewRecorded(a, id, reviewer) == Done(b) }
  predicate Opens(a: Db, b: Db, key: PartitionKey) { EpochStarted(a, key) == Done(b) }
  predicate CensorsLate(a: Db, b: Db, now: int, id: string) { Find(a.trials, id).Some? && CensoredAt(a, id, now) == Done(b) }

  ghost predicate SurvivesWrites(J: Db -> bool) {
    && (forall a, b, id, reason :: J(a) && Refuses(a, b, id, reason) ==> J(b))
    && (forall a, b, key, oracle :: J(a) && Binds(a, b, key, oracle) ==> J(b))
    && (forall a, b, now, id, p :: J(a) && Freezes(a, b, now, id, p) ==> J(b))
    && (forall a, b, now, id :: J(a) && CensorsLate(a, b, now, id) ==> J(b))
    && (forall a, b, id, reviewer :: J(a) && Reviews(a, b, id, reviewer) ==> J(b))
  }

  ghost predicate SurvivesAdmission(J: Db -> bool) {
    forall a, b, now, s :: J(a) && Admits(a, b, now, s) ==> J(b)
  }

  ghost predicate SurvivesOpening(J: Db -> bool, key: PartitionKey) {
    forall a, b :: J(a) && Opens(a, b, key) ==> J(b)
  }

  ghost predicate SurvivesEvidence(J: Db -> bool) {
    SurvivesWrites(J) && SurvivesAdmission(J) && forall key :: SurvivesOpening(J, key)
  }

  ghost predicate Enduring(env: Env, J: Db -> bool) {
    && EverStable(env, J) && SurvivesSevere(J) && SurvivesFlag(J) && SurvivesWithdrawal(J) && SurvivesLink(J)
    && SurvivesRevocation(J) && SurvivesEvidence(J) && forall key, reason :: SurvivesEpoch(env, J, key, reason)
  }

  /** Surviving every write but the opening of an epoch by hand and the admission of a label. */
  ghost predicate Bearing(env: Env, J: Db -> bool) {
    && EverStable(env, J) && SurvivesSevere(J) && SurvivesFlag(J) && SurvivesWithdrawal(J) && SurvivesLink(J)
    && SurvivesRevocation(J) && SurvivesWrites(J) && forall key, reason :: SurvivesEpoch(env, J, key, reason)
  }

  // ---- the operations, as data ------------------------------------------------------------------------

  datatype Operation =
    | Refresh(key: PartitionKey)
    | ExpireUnlabeled
    | Adjudicate(label_: SignedLabel)
    | Freeze(id: string, proposal: Proposal)
    | BindOracle(key: PartitionKey, oracle: Oracle)
    | OpenEpoch(key: PartitionKey)
    | Review(id: string, reviewer: string)
    | RecordSevere(key: PartitionKey, reason: string)
    | Release(key: PartitionKey, actor: string, reason: string, mac: Mac, oracle: Oracle)
    | ChangeOracle(key: PartitionKey, oracle: Oracle)
    | Churn(key: PartitionKey, successor: PartitionKey)
    | Invalidate(key: PartitionKey, reason: string)

  function Operated(env: Env, keyring: set<string>, db: Db, op: Operation): Outcome<Db> {
    match op
    case Refresh(key) => Refreshed(env, db, key)
    case ExpireUnlabeled => Expired(env, db)
    case Adjudicate(s) => Adjudicated(env, db, keyring, s)
    case Freeze(id, p) => Frozen(db, env.now, id, p)
    case BindOracle(key, oracle) => OracleSet(db, key, oracle)
    case OpenEpoch(key) => EpochStarted(db, key)
    case Review(id, reviewer) => ReviewRecorded(db, id, reviewer)
    case RecordSevere(key, reason) => SevereRecorded(env, db, key, reason)
    case Release(key, actor, reason, mac, oracle) => Released(env, db, keyring, key, actor, reason, mac, oracle)
    case ChangeOracle(key, oracle) => OracleReplaced(env, db, key, oracle)
    case Churn(key, successor) => Churned(env, db, key, successor)
    case Invalidate(key, reason) => EvidenceDenied(db, key, reason)
  }

  lemma RefusalFinds(db: Db, keyring: set<string>, deadline: int, now: int, s: SignedLabel)
    requires LabelRefusal(db, keyring, deadline, now, s) in {None, Some(LateLabel)}
    ensures Find(db.trials, s.trialId).Some?
  {}

  lemma AdjudicatedKeeps(env: Env, J: Db -> bool, db: Db, keyring: set<string>, s: SignedLabel)
    requires EverStable(env, J) && SurvivesWrites(J) && SurvivesAdmission(J) && J(db) && Adjudicated(env, db, keyring, s).Done?
    ensures J(Adjudicated(env, db, keyring, s).value)
  {
    var after, refusal := Adjudicated(env, db, keyring, s).value, LabelRefusal(db, keyring, env.deadline, env.now, s);
    if refusal == Some(LateLabel) {
      RefusalFinds(db, keyring, env.deadline, env.now, s);
      var db1 := CensoredAt(db, s.trialId, env.now).value;
      assert CensorsLate(db, db1, env.now, s.trialId);
      DrainedKeeps(env, J, db1, {s.partition});
      assert Refuses(OnLabel(env, db1, s.partition).value, after, s.trialId, LateLabel);
    } else if refusal.Some? {
      assert Refuses(db, after, s.trialId, refusal.value);
    } else {
      RefusalFinds(db, keyring, env.deadline, env.now, s);
      var db1 := LabelRecorded(db, env.now, s).value;
      assert Admits(db, db1, env.now, s);
      DrainedKeeps(env, J, db1, {s.partition});
    }
  }

  /** What only one operation needs. */
  ghost predicate SurvivesChoice(J: Db -> bool, op: Operation) {
    (op.OpenEpoch? ==> SurvivesOpening(J, op.key)) && (op.Adjudicate? ==> SurvivesAdmission(J))
  }

  /** Operations that open no epoch and retire nothing. */
  predicate Plain(op: Operation) {
    !op.Release? && !op.ChangeOracle? && !op.Churn?
  }

  lemma PlainKeeps(env: Env, J: Db -> bool, keyring: set<string>, db: Db, op: Operation)
    requires EverStable(env, J) && SurvivesWrites(J) && SurvivesSevere(J) && SurvivesChoice(J, op)
    requires Plain(op) && J(db) && Operated(env, keyring, db, op).Done?
    ensures J(Operated(env, keyring, db, op).value)
  {
    var after := Operated(env, keyring, db, op).value;
    match op
    case Refresh(key) => RefreshedKeeps(env, J, db, key);
    case ExpireUnlabeled => LateAreLate(env, db); EachCensoredKeeps(env, J, db, LateTrials(env, db));
    case Adjudicate(s) => AdjudicatedKeeps(env, J, db, keyring, s);
    case Freeze(id, p) => assert Freezes(db, after, env.now, id, p);
    case BindOracle(key, oracle) => assert Binds(db, after, key, oracle);
    case OpenEpoch(key) => assert Opens(db, after, key);
    case Review(id, reviewer) => assert Reviews(db, after, id, reviewer);
    case RecordSevere(key, reason) => SevereKeeps(env, J, db, key, reason);
    case Invalidate(key, reason) => assert Stable(env, J, key); DenialKeeps(env, J, db, key, reason);
  }

  /** A fact that survives every write survives every operation. */
  lemma OperationKeeps(env: Env, J: Db -> bool, keyring: set<string>, db: Db, op: Operation)
    requires Enduring(env, J) && J(db) && Operated(env, keyring, db, op).Done?
    ensures J(Operated(env, keyring, db, op).value)
  {
    hide Operated, EverStable, SurvivesWrites, SurvivesOpening, SurvivesAdmission;
    BearingKeeps(env, J, keyring, db, op);
  }

  /** One that does not survive some openings by hand, or admissions, survives all the other operations. */
  lemma BearingKeeps(env: Env, J: Db -> bool, keyring: set<string>, db: Db, op: Operation)
    requires Bearing(env, J) && SurvivesChoice(J, op) && J(db) && Operated(env, keyring, db, op).Done?
    ensures J(Operated(env, keyring, db, op).value)
  {
    match op
    case Release(key, actor, reason, mac, oracle) =>
      assert Stable(env, J, key) && SurvivesEpoch(env, J, key, RELEASED);
      ReleaseKeeps(env, J, db, keyring, key, actor, reason, mac, oracle);
    case ChangeOracle(key, oracle) => assert SurvivesEpoch(env, J, key, CHANGED_ORACLE); OracleChangeKeeps(env, J, db, key, oracle);
    case Churn(key, successor) => ChurnKeeps(env, J, db, key, successor);
    case _ => PlainKeeps(env, J, keyring, db, op);
  }

  // ---- what the machinery leaves alone ------------------------------------------------------------------

  /** Nothing but evidence and lifecycle tables changes, tokens only lose authority, and the ledger grows. */
  ghost predicate Framed(a: Db, b: Db) {
    && a.principals == b.principals && a.grants == b.grants && a.approvals == b.approvals && a.decisions == b.decisions
    && a.nonces == b.nonces && a.charges == b.charges && a.performed == b.performed
    && OnlyRevoked(a.tokens, b.tokens) && a.ledger <= b.ledger
  }

  ghost function FramedFrom(db: Db): Db -> bool {
    (d: Db) => Framed(db, d)
  }

  lemma SameTokens(tokens: map<string, Token>)
    ensures OnlyRevoked(tokens, tokens)
  {}

  lemma WroteFramed(db: Db, a: Db, b: Db)
    requires Framed(db, a) && Wrote(a, b)
    ensures Framed(db, b)
  {}

  /** An epoch's opening is evidence writes and one row of the error budget. */
  lemma EpochShape(policy: Policy, db: Db, key: PartitionKey, record: Record, oracle: Oracle, reason: AlphaReason) returns (mid: Db, end: Db)
    requires EpochOpenedFor(policy, db, key, record, oracle, reason).Done?
    ensures EpochStarted(db, key) == Done(mid) && OracleSet(mid, key, oracle) == Done(end)
    ensures var w := EpochOpenedFor(policy, db, key, record, oracle, reason).value;
            w.db == end.(alphas := w.db.alphas) && w.record == record.(epoch := record.epoch + 1)
    ensures Wrote(db, mid) && Wrote(mid, end)
  {
    mid := EpochStarted(db, key).value;
    end := OracleSet(mid, key, oracle).value;
    EpochWrote(db, key);
    BindWrote(mid, key, oracle);
  }

  lemma BindingTables(db: Db, key: PartitionKey, oracle: Oracle)
    requires OracleSet(db, key, oracle).Done?
    ensures OracleSet(db, key, oracle).value.epochs == db.epochs && OracleSet(db, key, oracle).value.trials == db.trials
  {}

  lemma OpeningKeepsLabels(policy: Policy, db: Db, key: PartitionKey, record: Record, oracle: Oracle, reason: AlphaReason)
    requires EpochOpenedFor(policy, db, key, record, oracle, reason).Done?
    ensures EpochOpenedFor(policy, db, key, record, oracle, reason).value.db.labels == db.labels
  {
    hide EpochStarted, OracleSet;
    var mid, end := EpochShape(policy, db, key, record, oracle, reason);
    StartLabels(db, key);
    BindingLabels(mid, key, oracle);
  }

  lemma StartLabels(db: Db, key: PartitionKey)
    requires EpochStarted(db, key).Done?
    ensures EpochStarted(db, key).value.labels == db.labels
  {}

  lemma BindingLabels(db: Db, key: PartitionKey, oracle: Oracle)
    requires OracleSet(db, key, oracle).Done?
    ensures OracleSet(db, key, oracle).value.labels == db.labels
  {}

  lemma StartTables(db: Db, key: PartitionKey)
    requires EpochStarted(db, key).Done?
    ensures EpochStarted(db, key).value.epochs == db.epochs[key := FloorsOf(db.epochs, key) + [|db.ledger|]]
    ensures EpochStarted(db, key).value.trials == db.trials
  {}

  /** The trials an epoch's opening leaves, and the floors it adds to. */
  lemma EpochTables(policy: Policy, db: Db, key: PartitionKey, record: Record, oracle: Oracle, reason: AlphaReason)
    requires EpochOpenedFor(policy, db, key, record, oracle, reason).Done?
    ensures var w := EpochOpenedFor(policy, db, key, record, oracle, reason).value;
            && w.db.trials == db.trials && w.db.epochs == db.epochs[key := FloorsOf(db.epochs, key) + [|db.ledger|]]
            && w.db.lifecycle == db.lifecycle && w.record == record.(epoch := record.epoch + 1)
  {
    var mid, end := EpochShape(policy, db, key, record, oracle, reason);
    StartTables(db, key);
    BindingTables(mid, key, oracle);
  }

  /** The evidence writes, one by one, for a fact that every such write keeps. */
  lemma WritesSurvive(J: Db -> bool)
    requires forall a, b :: J(a) && Wrote(a, b) ==> J(b)
    ensures SurvivesEvidence(J)
  {
    forall a, b, id, reason | J(a) && Refuses(a, b, id, reason) ensures J(b) { QuarantineWrote(a, id, reason); }
    forall a, b, key, oracle | J(a) && Binds(a, b, key, oracle) ensures J(b) { BindWrote(a, key, oracle); }
    forall a, b, now, id, p | J(a) && Freezes(a, b, now, id, p) ensures J(b) { FreezeWrote(a, now, id, p); }
    forall a, b, now, s | J(a) && Admits(a, b, now, s) ensures J(b) {
      ResolveWrote(a, s.trialId, s.oracle.id, ShadowLabeled(s.trialId, s.verdict, s.oracle, s.claimedAt, now), Labeled(s.verdict, now, s.claimedAt));
    }
    forall a, b, now, id | J(a) && CensorsLate(a, b, now, id) ensures J(b) {
      ResolveWrote(a, id, CONTROLLER, ShadowCensored(id, now), Censored(now));
    }
    forall a, b, id, reviewer | J(a) && Reviews(a, b, id, reviewer) ensures J(b) { ReviewWrote(a, id, reviewer); }
    forall a, b, key | J(a) && Opens(a, b, key) ensures J(b) { EpochWrote(a, key); }
  }

  /** A fact that survives evidence writes and silent writes survives walks. */
  lemma WalksSurvive(env: Env, J: Db -> bool)
    requires forall a, b :: J(a) && Wrote(a, b) ==> J(b)
    requires forall a, b :: J(a) && Noted(a, b) ==> J(b)
    requires forall a, b, key :: J(a) && Silent(env, a, b, key) ==> J(b)
    ensures EverStable(env, J)
  {
    forall a, b, t | J(a) && Censors(env, a, b, t) ensures J(b) {
      ResolveWrote(a, t.id, CONTROLLER, ShadowCensored(t.id, env.now), Censored(env.now));
    }
    forall key ensures Stable(env, J, key) { QuietFromSilent(env, J, key); }
  }

  lemma FramedEpoch(env: Env, db: Db, a: Db, b: Db, key: PartitionKey, oracle: Oracle, reason: AlphaReason)
    requires Framed(db, a) && Reopened(env, a, b, key, oracle, reason)
    ensures Framed(db, b)
  {
    var mid, end := EpochShape(env.policy, a, key, a.lifecycle[key], oracle, reason);
    WroteFramed(db, a, mid);
    WroteFramed(db, mid, end);
  }

  lemma FramedRevocation(db: Db, a: Db, b: Db, cause: Cause, scope: set<string>, actor: string)
    requires Framed(db, a) && Revokes(a, b, cause, scope, actor)
    ensures Framed(db, b)
  {
    RevokeInSpec(a.tokens, cause, scope);
    OnlyRevokedChain(db.tokens, a.tokens, b.tokens);
  }

  lemma FramedWalks(env: Env, db: Db)
    ensures EverStable(env, FramedFrom(db)) && SurvivesEvidence(FramedFrom(db))
  {
    var J := FramedFrom(db);
    forall a, b | J(a) && Wrote(a, b) ensures J(b) { WroteFramed(db, a, b); }
    WritesSurvive(J);
    forall a, b, key | J(a) && Silent(env, a, b, key) ensures J(b) { SilentFramed(env, db, a, b, key); }
    WalksSurvive(env, J);
  }

  lemma FramedEndures(env: Env, db: Db)
    ensures Enduring(env, FramedFrom(db))
  {
    var J := FramedFrom(db);
    FramedWalks(env, db);
    forall a, b, key, oracle, reason | J(a) && Reopened(env, a, b, key, oracle, reason) ensures J(b) {
      FramedEpoch(env, db, a, b, key, oracle, reason);
    }
    assert forall key, reason :: SurvivesEpoch(env, J, key, reason);
    forall a, b, cause, scope, actor | J(a) && Revokes(a, b, cause, scope, actor) ensures J(b) {
      FramedRevocation(db, a, b, cause, scope, actor);
    }
    assert SurvivesRevocation(J);
    FramedRecords(db);
  }

  lemma FramedRecords(db: Db)
    ensures var J := FramedFrom(db); SurvivesSevere(J) && SurvivesFlag(J) && SurvivesWithdrawal(J) && SurvivesLink(J)
  {}

  lemma SilentFramed(env: Env, db: Db, a: Db, b: Db, key: PartitionKey)
    requires Framed(db, a) && Silent(env, a, b, key)
    ensures Framed(db, b)
  {
    OnlyRevokedChain(db.tokens, a.tokens, b.tokens);
  }

  // ---- the evidence tables --------------------------------------------------------------------------------

  ghost function Evidential(): Db -> bool {
    (d: Db) => EvidenceInv(d)
  }

  lemma SameEvidenceInv(a: Db, b: Db)
    requires EvidenceInv(a) && EvidenceOf(a) == EvidenceOf(b) && a.ledger == b.ledger
    ensures EvidenceInv(b)
  {
    NoteKeeps(a, b);
  }

  lemma EpochEvidence(policy: Policy, db: Db, key: PartitionKey, record: Record, oracle: Oracle, reason: AlphaReason)
    requires EvidenceInv(db) && EpochOpenedFor(policy, db, key, record, oracle, reason).Done?
    ensures EvidenceInv(EpochOpenedFor(policy, db, key, record, oracle, reason).value.db)
  {
    var mid, end := EpochShape(policy, db, key, record, oracle, reason);
    EpochKeeps(db, key);
    BindKeeps(mid, key, oracle);
    SameEvidenceInv(end, EpochOpenedFor(policy, db, key, record, oracle, reason).value.db);
  }

  lemma EvidenceWalks(env: Env)
    ensures EverStable(env, Evidential())
  {
    var J := Evidential();
    forall a, b, t | J(a) && Censors(env, a, b, t) ensures J(b) {
      ResolveKeeps(a, t.id, CONTROLLER, ShadowCensored(t.id, env.now), Censored(env.now));
    }
    forall a, b | J(a) && Noted(a, b) ensures J(b) { NoteKeeps(a, b); }
    forall key ensures Stable(env, J, key) {
      forall a, b | J(a) && Silent(env, a, b, key) ensures J(b) {
        SameEvidenceInv(a, b);
      }
      QuietFromSilent(env, J, key);
    }
  }

  lemma EvidenceEndures(env: Env)
    ensures Enduring(env, Evidential())
  {
    var J := Evidential();
    EvidenceWalks(env);
    forall a, b | J(a) && EvidenceOf(a) == EvidenceOf(b) && a.ledger == b.ledger ensures J(b) { SameEvidenceInv(a, b); }
    forall a, b, cause, scope, actor | J(a) && Revokes(a, b, cause, scope, actor) ensures J(b) { NoteKeeps(a, b); }
    assert SurvivesRevocation(J);
    EvidenceWrites();
    EvidenceEpochs(env);
  }

  lemma EvidenceEpochs(env: Env)
    ensures forall key, reason :: SurvivesEpoch(env, Evidential(), key, reason)
  {
    var J := Evidential();
    forall a, b, key, oracle, reason | J(a) && Reopened(env, a, b, key, oracle, reason) ensures J(b) {
      EpochEvidence(env.policy, a, key, a.lifecycle[key], oracle, reason);
      SameEvidenceInv(EpochOpenedFor(env.policy, a, key, a.lifecycle[key], oracle, reason).value.db, b);
    }
  }

  lemma EvidenceWrites()
    ensures SurvivesEvidence(Evidential())
  {
    var J := Evidential();
    forall a, b, id, reason | J(a) && Refuses(a, b, id, reason) ensures J(b) { QuarantineKeeps(a, id, reason); }
    forall a, b, key, oracle | J(a) && Binds(a, b, key, oracle) ensures J(b) { BindKeeps(a, key, oracle); }
    forall a, b, now, id, p | J(a) && Freezes(a, b, now, id, p) ensures J(b) { FreezeKeeps(a, now, id, p); }
    forall a, b, now, s | J(a) && Admits(a, b, now, s) ensures J(b) {
      ResolveKeeps(a, s.trialId, s.oracle.id, ShadowLabeled(s.trialId, s.verdict, s.oracle, s.claimedAt, now), Labeled(s.verdict, now, s.claimedAt));
    }
    forall a, b, now, id | J(a) && CensorsLate(a, b, now, id) ensures J(b) {
      ResolveKeeps(a, id, CONTROLLER, ShadowCensored(id, now), Censored(now));
    }
    forall a, b, id, reviewer | J(a) && Reviews(a, b, id, reviewer) ensures J(b) { ReviewKeeps(a, id, reviewer); }
    forall a, b, key | J(a) && Opens(a, b, key) ensures J(b) { EpochKeeps(a, key); }
  }

  // ---- versions, edges and the log ------------------------------------------------------------------------

  /** Unretired partitions are on the current policy version, and only retired ones have successors. */
  ghost predicate LifecycleInv(db: Db, version: string) {
    && (forall key :: key in db.lifecycle && !db.lifecycle[key].retired ==> key.policyVersion == version)
    && (forall e :: e in db.lineage ==> e.0 in db.lifecycle && db.lifecycle[e.0].retired)
  }

  /** Every transition on the ledger with an event is a legal one. */
  ghost predicate LogLegal(db: Db) {
    forall i :: 0 <= i < |db.ledger| && db.ledger[i].body.Transition? ==> LegalNote(db.ledger[i].body)
  }

  ghost function Orderly(version: string): Db -> bool {
    (d: Db) => LifecycleInv(d, version) && LogLegal(d)
  }

  lemma WroteOrderly(version: string, a: Db, b: Db)
    requires Orderly(version)(a) && Wrote(a, b)
    ensures Orderly(version)(b)
  {}

  lemma SilentOrderly(env: Env, a: Db, b: Db, key: PartitionKey)
    requires Orderly(env.policy.version)(a) && Silent(env, a, b, key)
    ensures Orderly(env.policy.version)(b)
  {}

  lemma RecordOrderly(version: string, a: Db, b: Db, key: PartitionKey)
    requires Orderly(version)(a) && key in a.lifecycle && key in b.lifecycle
    requires b == a.(lifecycle := a.lifecycle[key := b.lifecycle[key]]) && (a.lifecycle[key].retired ==> b.lifecycle[key].retired)
    ensures Orderly(version)(b)
  {}

  lemma RevokedOrderly(version: string, a: Db, b: Db, cause: Cause, scope: set<string>, actor: string)
    requires Orderly(version)(a) && Revokes(a, b, cause, scope, actor)
    ensures Orderly(version)(b)
  {}

  lemma OrderlyEpoch(env: Env, a: Db, b: Db, key: PartitionKey, oracle: Oracle, reason: AlphaReason)
    requires Orderly(env.policy.version)(a) && Reopened(env, a, b, key, oracle, reason)
    ensures Orderly(env.policy.version)(b)
  {
    var mid, end := EpochShape(env.policy, a, key, a.lifecycle[key], oracle, reason);
    WroteOrderly(env.policy.version, a, mid);
    WroteOrderly(env.policy.version, mid, end);
    var saved := end.(lifecycle := b.lifecycle);
    RecordOrderly(env.policy.version, end, saved, key);
    assert b == saved.(alphas := b.alphas);
  }

  lemma OrderlyWalks(env: Env)
    ensures EverStable(env, Orderly(env.policy.version)) && SurvivesEvidence(Orderly(env.policy.version))
  {
    var J := Orderly(env.policy.version);
    forall a, b | J(a) && Wrote(a, b) ensures J(b) { WroteOrderly(env.policy.version, a, b); }
    WritesSurvive(J);
    forall a, b, key | J(a) && Silent(env, a, b, key) ensures J(b) { SilentOrderly(env, a, b, key); }
    WalksSurvive(env, J);
  }

  lemma OrderlyEndures(env: Env)
    ensures Enduring(env, Orderly(env.policy.version))
  {
    var version := env.policy.version;
    var J := Orderly(version);
    OrderlyWalks(env);
    forall a, b, key, oracle, reason | J(a) && Reopened(env, a, b, key, oracle, reason) ensures J(b) {
      OrderlyEpoch(env, a, b, key, oracle, reason);
    }
    assert forall key, reason :: SurvivesEpoch(env, J, key, reason);
    forall a, b, key | J(a) && Severed(a, b, key) ensures J(b) { RecordOrderly(version, a, b, key); }
    forall a, b, key | J(a) && Flagged(a, b, key) ensures J(b) { RecordOrderly(version, a, b, key); }
    forall a, b, key | J(a) && Withdrawn(a, b, key) ensures J(b) { RecordOrderly(version, a, b, key); }
    forall a, b, cause, scope, actor | J(a) && Revokes(a, b, cause, scope, actor) ensures J(b) {
      RevokedOrderly(version, a, b, cause, scope, actor);
    }
    OrderlyLinks(version);
  }

  lemma OrderlyLinks(version: string)
    ensures SurvivesLink(Orderly(version))
  {}
}
