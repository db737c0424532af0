/** What gets into the evidence: exactly which labels are admitted and why the others are not, which decisions become
    trials, and that every verdict of a run was signed by its epoch's oracle.  */
module Admissions {
  import opened Tables
  import opened Shadow
  import opened Lifecycle
  import opened Steps
  import opened Worklist
  import opened Settling
  import opened Operations
  import opened OperationSteps
  import opened Invariants
  import opened Systems
  import opened Runs
  import Risk

  // ---- what a label has to be ------------------------------------------------------------------------------------

  predicate Names(db: Db, s: SignedLabel, t: Trial) {
    t in db.trials && t.id == s.trialId && t.partition == s.partition && t.proposal == s.proposal
  }

  /** An active oracle principal with a key. */
  predicate IsOracle(db: Db, id: string) {
    id in db.principals && db.principals[id].active && db.principals[id].kind == OracleKind && db.principals[id].keyId.Some?
  }

  /** The oracle's own signature over every field of the label, with a key the host knows. */
  predicate SignedBy(db: Db, keyring: set<string>, s: SignedLabel)
    requires IsOracle(db, s.oracle.id)
  {
    var key := db.principals[s.oracle.id].keyId.value;
    key in keyring && s.mac.keyId == key
    && s.mac.payload == LabelPayload(s.trialId, s.partition, s.proposal, s.verdict, s.oracle, s.claimedAt)
  }

  predicate Impartial(db: Db, s: SignedLabel) {
    forall i :: 0 <= i < |db.ledger| ==> db.ledger[i] != Entry(s.oracle.id, HumanReview(s.trialId))
  }

  predicate OpenedAt(db: Db, key: PartitionKey, floor: int) {
    key in db.epochs && exists i :: 0 <= i < |db.epochs[key]| && db.epochs[key][i] == floor
  }

  /** The trial was frozen in the epoch with this floor: the latest opened before it, or -1 if none was. */
  ghost predicate FrozenIn(db: Db, t: Trial, floor: int) {
    && (floor == -1 || OpenedAt(db, t.partition, floor)) && floor < t.sequence
    && forall other :: OpenedAt(db, t.partition, other) && other < t.sequence ==> other <= floor
  }

  predicate BoundTo(db: Db, key: PartitionKey, floor: int, oracle: Oracle) {
    (key, floor) in db.oracles && db.oracles[(key, floor)].oracle.id == oracle.id && db.oracles[(key, floor)].oracle.version == oracle.version
  }

  predicate InTime(t: Trial, deadline: int, now: int) {
    t.frozenAt <= now <= t.frozenAt + deadline
  }

  /** What an admitted label is: of a known, pending trial with just this partition and proposal, signed by an active
      oracle that did not review it and is the one its epoch is bound to, and received in time. */
  ghost predicate Admissible(db: Db, keyring: set<string>, deadline: int, now: int, s: SignedLabel) {
    && s.trialId !in db.labels && IsOracle(db, s.oracle.id) && SignedBy(db, keyring, s) && Impartial(db, s)
    && exists t, floor :: Names(db, s, t) && InTime(t, deadline, now) && FrozenIn(db, t, floor) && BoundTo(db, s.partition, floor, s.oracle)
  }

  /** The first thing that is wrong with a label, in the order it is asked for. */
  ghost predicate RefusedFor(db: Db, keyring: set<string>, deadline: int, now: int, s: SignedLabel, reason: QuarantineReason) {
    match reason
    case UnknownTrial => forall t :: t in db.trials ==> t.id != s.trialId
    case WrongPartition => exists t :: t in db.trials && t.id == s.trialId && t.partition != s.partition
    case DigestMismatch => exists t :: t in db.trials && t.id == s.trialId && t.partition == s.partition && t.proposal != s.proposal
    case OracleNotRegistered => (exists t :: Names(db, s, t)) && !IsOracle(db, s.oracle.id)
    case BadSignature => (exists t :: Names(db, s, t)) && IsOracle(db, s.oracle.id) && !SignedBy(db, keyring, s)
    case AlreadyAdjudicated => (exists t :: Names(db, s, t)) && Authentic(db, keyring, s) && s.trialId in db.labels
    case ReviewerIsOracle => (exists t :: Names(db, s, t)) && Authentic(db, keyring, s) && s.trialId !in db.labels && !Impartial(db, s)
    case OracleNotBound =>
      Regular(db, keyring, s) && exists t, floor :: Names(db, s, t) && FrozenIn(db, t, floor) && (s.partition, floor) !in db.oracles
    case WrongOracle =>
      Regular(db, keyring, s)
      && exists t, floor :: Names(db, s, t) && FrozenIn(db, t, floor) && (s.partition, floor) in db.oracles && !BoundTo(db, s.partition, floor, s.oracle)
    case LabelBeforeFreeze =>
      Regular(db, keyring, s)
      && exists t, floor :: Names(db, s, t) && FrozenIn(db, t, floor) && BoundTo(db, s.partition, floor, s.oracle) && now < t.frozenAt
    case LateLabel =>
      Regular(db, keyring, s)
      && exists t, floor :: Names(db, s, t) && FrozenIn(db, t, floor) && BoundTo(db, s.partition, floor, s.oracle)
                            && t.frozenAt <= now && now > t.frozenAt + deadline
    case _ => false
  }

  predicate Authentic(db: Db, keyring: set<string>, s: SignedLabel) {
    IsOracle(db, s.oracle.id) && SignedBy(db, keyring, s)
  }

  predicate Regular(db: Db, keyring: set<string>, s: SignedLabel) {
    Authentic(db, keyring, s) && s.trialId !in db.labels && Impartial(db, s)
  }

  // ---- what the program asks is this -----------------------------------------------------------------------------

  lemma {:induction false} FoundIs(trials: seq<Trial>, t: Trial)
    requires t in trials && forall i, j :: 0 <= i < j < |trials| ==> trials[i].id != trials[j].id
    ensures Find(trials, t.id) == Some(t)
  {
    if trials[0] != t {
      var i :| 0 <= i < |trials| && trials[i] == t;
      assert trials[1..][i - 1] == t;
      FoundIs(trials[1..], t);
    }
  }

  lemma FloorIsFrozenIn(db: Db, t: Trial)
    ensures FrozenIn(db, t, TrialFloor(db, t))
  {
    var floors, floor := FloorsOf(db.epochs, t.partition), TrialFloor(db, t);
    if floor != -1 {
      var i :| 0 <= i < |floors| && floors[i] == floor;
      assert OpenedAt(db, t.partition, floor);
    }
    forall other | OpenedAt(db, t.partition, other) && other < t.sequence ensures other <= floor {
      var i :| 0 <= i < |db.epochs[t.partition]| && db.epochs[t.partition][i] == other;
      assert floors[i] in floors;
    }
  }

  lemma OneFloor(db: Db, t: Trial, a: int, b: int)
    requires FrozenIn(db, t, a) && FrozenIn(db, t, b)
    ensures a == b
  {}

  lemma ReviewedMeans(db: Db, s: SignedLabel)
    ensures Reviewed(db.ledger, s.trialId, s.oracle.id) <==> !Impartial(db, s)
  {}

  lemma AuthenticMeans(db: Db, keyring: set<string>, s: SignedLabel)
    ensures IsOracle(db, s.oracle.id) <==>
            Active(db, s.oracle.id) && db.principals[s.oracle.id].kind == OracleKind && db.principals[s.oracle.id].keyId.Some?
    ensures IsOracle(db, s.oracle.id) ==>
              (SignedBy(db, keyring, s) <==> Verifies(keyring, db.principals[s.oracle.id].keyId.value, PayloadOf(s), s.mac))
  {}

  lemma NamedIsFound(db: Db, s: SignedLabel)
    requires TrialsOrdered(db)
    ensures forall t :: Names(db, s, t) ==> Find(db.trials, s.trialId) == Some(t)
    ensures var found := Find(db.trials, s.trialId);
            found.Some? ==>
              && (s.partition == found.value.partition && s.proposal == found.value.proposal ==> Names(db, s, found.value))
              && FrozenIn(db, found.value, TrialFloor(db, found.value))
              && forall floor :: FrozenIn(db, found.value, floor) ==> floor == TrialFloor(db, found.value)
  {
    hide TrialFloor, FrozenIn;
    var found := Find(db.trials, s.trialId);
    forall t | Names(db, s, t) ensures found == Some(t) { FoundIs(db.trials, t); }
    if found.Some? {
      var t := found.value;
      FloorIsFrozenIn(db, t);
      forall floor | FrozenIn(db, t, floor) ensures floor == TrialFloor(db, t) { OneFloor(db, t, floor, TrialFloor(db, t)); }
    }
  }

  /** The program gives no reason exactly to admissible labels. */
  lemma NoRefusalMeans(db: Db, keyring: set<string>, deadline: int, now: int, s: SignedLabel)
    requires TrialsOrdered(db)
    ensures LabelRefusal(db, keyring, deadline, now, s).None? <==> Admissible(db, keyring, deadline, now, s)
  {
    hide TrialFloor, FrozenIn, Reviewed, Impartial, SignedBy, Verifies, PayloadOf, Find, TrialsOrdered;
    NamedIsFound(db, s);
    ReviewedMeans(db, s);
    AuthenticMeans(db, keyring, s);
  }

  /** And otherwise the first thing that is wrong. */
  lemma RefusalMeans(db: Db, keyring: set<string>, deadline: int, now: int, s: SignedLabel, reason: QuarantineReason)
    requires TrialsOrdered(db) && LabelRefusal(db, keyring, deadline, now, s) == Some(reason)
    ensures RefusedFor(db, keyring, deadline, now, s, reason)
  {
    hide TrialFloor, FrozenIn, Reviewed, Impartial, SignedBy, Verifies, PayloadOf, TrialsOrdered;
    NamedIsFound(db, s);
    ReviewedMeans(db, s);
    AuthenticMeans(db, keyring, s);
  }

  // ---- the whole transaction of a label --------------------------------------------------------------------------

  /** Since a state nothing has got a verdict: what was resolved stays as it was, and what is new is censored. */
  ghost function NoVerdicts(from: map<string, Resolution>): Db -> bool {
    (d: Db) =>
      && (forall id :: id in from ==> id in d.labels && d.labels[id] == from[id])
      && (forall id :: id in d.labels && id !in from ==> d.labels[id].Censored?)
  }

  lemma NoVerdictsSame(from: map<string, Resolution>, a: Db, b: Db)
    requires NoVerdicts(from)(a) && b.labels == a.labels
    ensures NoVerdicts(from)(b)
  {}

  lemma NoVerdictsCensored(from: map<string, Resolution>, a: Db, id: string, now: int)
    requires NoVerdicts(from)(a) && CensoredAt(a, id, now).Done?
    ensures NoVerdicts(from)(CensoredAt(a, id, now).value)
  {}

  lemma NoVerdictsWalks(env: Env, from: map<string, Resolution>)
    ensures EverStable(env, NoVerdicts(from))
  {
    hide NoVerdicts;
    var J := NoVerdicts(from);
    forall a, b, t | J(a) && Censors(env, a, b, t) ensures J(b) { NoVerdictsCensored(from, a, t.id, env.now); }
    forall key ensures Stable(env, J, key) {
      forall a, b | J(a) && Noted(a, b) ensures J(b) { NoVerdictsSame(from, a, b); }
      forall a, b | J(a) && Silent(env, a, b, key) ensures J(b) { NoVerdictsSame(from, a, b); }
      QuietFromSilent(env, J, key);
    }
  }

  /** Quarantines are no part of a walk. */
  ghost function SameRefusals(quarantines: seq<Quarantine>): Db -> bool {
    (d: Db) => d.quarantines == quarantines
  }

  lemma RefusalsWalk(env: Env, quarantines: seq<Quarantine>)
    ensures EverStable(env, SameRefusals(quarantines))
  {
    var J := SameRefusals(quarantines);
    forall a, b, t | J(a) && Censors(env, a, b, t) ensures J(b) { CensoringTables(a, t.id, env.now); }
    forall key ensures Stable(env, J, key) {
      forall a, b | J(a) && Silent(env, a, b, key) ensures J(b) {}
      QuietFromSilent(env, J, key);
    }
  }

  lemma WorklistAdmitsNothing(env: Env, db: Db, key: PartitionKey, after: Db)
    requires OnLabel(env, db, key) == Done(after)
    ensures NoVerdicts(db.labels)(after) && after.quarantines == db.quarantines
  {
    NoVerdictsWalks(env, db.labels);
    DrainedKeeps(env, NoVerdicts(db.labels), db, {key});
    RefusalsWalk(env, db.quarantines);
    DrainedKeeps(env, SameRefusals(db.quarantines), db, {key});
  }

  /** The refusal stays on the record, and on the ledger as the last thing the transaction wrote. */
  ghost predicate Quarantines(before: Db, after: Db, id: string, reason: QuarantineReason) {
    && after.ledger != [] && after.ledger[|after.ledger| - 1] == Entry(CONTROLLER, ShadowQuarantined(id, reason))
    && after.quarantines == before.quarantines + [Quarantine(|after.ledger| - 1, id, reason)]
  }

  lemma QuarantinedRow(db: Db, id: string, reason: QuarantineReason, before: Db)
    requires Quarantined(db, id, reason).Done? && db.quarantines == before.quarantines
    ensures Quarantines(before, Quarantined(db, id, reason).value, id, reason) && Quarantined(db, id, reason).value.labels == db.labels
  {}

  lemma AdmittedLabel(env: Env, db: Db, keyring: set<string>, s: SignedLabel, after: Db)
    requires LabelRefusal(db, keyring, env.deadline, env.now, s).None? && Adjudicated(env, db, keyring, s) == Done(after)
    ensures s.trialId !in db.labels && NoVerdicts(db.labels[s.trialId := Labeled(s.verdict, env.now, s.claimedAt)])(after)
    ensures after.quarantines == db.quarantines
  {
    hide OnLabel, LabelRefusal, NoVerdicts;
    var db1 := LabelRecorded(db, env.now, s).value;
    WorklistAdmitsNothing(env, db1, s.partition, after);
  }

  lemma LateLabelled(env: Env, db: Db, keyring: set<string>, s: SignedLabel, after: Db)
    requires LabelRefusal(db, keyring, env.deadline, env.now, s) == Some(LateLabel) && Adjudicated(env, db, keyring, s) == Done(after)
    ensures s.trialId !in db.labels && NoVerdicts(db.labels[s.trialId := Censored(env.now)])(after)
    ensures Quarantines(db, after, s.trialId, LateLabel)
  {
    hide OnLabel, LabelRefusal, NoVerdicts, Quarantined, Quarantines;
    var db1 := CensoredAt(db, s.trialId, env.now).value;
    var db2 := OnLabel(env, db1, s.partition).value;
    WorklistAdmitsNothing(env, db1, s.partition, db2);
    QuarantinedRow(db2, s.trialId, LateLabel, db);
    NoVerdictsSame(db1.labels, db2, after);
  }

  /** A label gives its trial a verdict exactly if it is admissible, the verdict it carries and received now, and
      gives no other trial one.  A label that is not leaves its reason on the record and no verdict; only a late one
      resolves its trial, as censored. */
  lemma LabelAdmittedExactly(env: Env, db: Db, keyring: set<string>, s: SignedLabel, after: Db)
    requires EvidenceInv(db) && Adjudicated(env, db, keyring, s) == Done(after)
    ensures Admissible(db, keyring, env.deadline, env.now, s) <==>
            s.trialId !in db.labels && s.trialId in after.labels && after.labels[s.trialId].Labeled?
    ensures Admissible(db, keyring, env.deadline, env.now, s) ==>
            after.labels[s.trialId] == Labeled(s.verdict, env.now, s.claimedAt) && after.quarantines == db.quarantines
    ensures forall id :: id in after.labels && id !in db.labels && after.labels[id].Labeled? ==> id == s.trialId
    ensures !Admissible(db, keyring, env.deadline, env.now, s) ==>
            exists reason :: RefusedFor(db, keyring, env.deadline, env.now, s, reason) && Quarantines(db, after, s.trialId, reason)
                             && if reason == LateLabel then s.trialId in after.labels && after.labels[s.trialId] == Censored(env.now)
                                else after.labels == db.labels
  {
    hide LabelRefusal, Admissible, RefusedFor, Quarantines, OnLabel;
    var refusal := LabelRefusal(db, keyring, env.deadline, env.now, s);
    NoRefusalMeans(db, keyring, env.deadline, env.now, s);
    if refusal.None? {
      AdmittedLabel(env, db, keyring, s, after);
    } else {
      RefusalMeans(db, keyring, env.deadline, env.now, s, refusal.value);
      if refusal == Some(LateLabel) {
        LateLabelled(env, db, keyring, s, after);
      } else {
        QuarantinedRow(db, s.trialId, refusal.value, db);
      }
    }
  }

  /** What the transaction leaves besides: an admissible label, or a late one, settles every partition it concerns and
      takes what a lost gate takes with it; any other changes no reading, no record and no token. */
  lemma LabelSettlesExactly(env: Env, db: Db, keyring: set<string>, s: SignedLabel, after: Db)
    requires EvidenceInv(db) && Adjudicated(env, db, keyring, s) == Done(after)
    ensures Admissible(db, keyring, env.deadline, env.now, s) ==>
              LabelSettles(env, db, after, s.trialId, s.partition, Labeled(s.verdict, env.now, s.claimedAt))
    ensures !Admissible(db, keyring, env.deadline, env.now, s) && after.labels != db.labels ==>
              LabelSettles(env, db, after, s.trialId, s.partition, Censored(env.now))
    ensures !Admissible(db, keyring, env.deadline, env.now, s) && after.labels == db.labels ==>
              ReadAlike(db, after) && after.lifecycle == db.lifecycle && after.tokens == db.tokens
  {
    hide LabelRefusal, Admissible, OnLabel, LabelSettles, Quarantines, NoVerdicts;
    var refusal := LabelRefusal(db, keyring, env.deadline, env.now, s);
    NoRefusalMeans(db, keyring, env.deadline, env.now, s);
    LabelTransaction(env, db, keyring, s, after);
    if refusal == Some(LateLabel) {
      LateLabelled(env, db, keyring, s, after);
      NewlyResolved(db, after, s.trialId, Censored(env.now));
    } else if refusal.Some? {
      QuarantinedRow(db, s.trialId, refusal.value, db);
    }
  }

  lemma NewlyResolved(db: Db, after: Db, id: string, r: Resolution)
    requires id !in db.labels && NoVerdicts(db.labels[id := r])(after)
    ensures after.labels != db.labels
  {}

  // ---- every verdict of a run ------------------------------------------------------------------------------------

  lemma NoVerdictsWrites(from: map<string, Resolution>)
    ensures SurvivesWrites(NoVerdicts(from))
  {
    hide NoVerdicts, Frozen, OracleSet, ReviewRecorded;
    var J := NoVerdicts(from);
    forall a, b, id, reason | J(a) && Refuses(a, b, id, reason) ensures J(b) { NoVerdictsSame(from, a, b); }
    forall a, b, key, oracle | J(a) && Binds(a, b, key, oracle) ensures J(b) { BindingLabels(a, key, oracle); NoVerdictsSame(from, a, b); }
    forall a, b, now, id, p | J(a) && Freezes(a, b, now, id, p) ensures J(b) { FreezingLabels(a, now, id, p); NoVerdictsSame(from, a, b); }
    forall a, b, now, id | J(a) && CensorsLate(a, b, now, id) ensures J(b) { NoVerdictsCensored(from, a, id, now); }
    forall a, b, id, reviewer | J(a) && Reviews(a, b, id, reviewer) ensures J(b) { ReviewingLabels(a, id, reviewer); NoVerdictsSame(from, a, b); }
  }

  lemma QuarantineLabels(db: Db, id: string, reason: QuarantineReason)
    requires Quarantined(db, id, reason).Done?
    ensures Quarantined(db, id, reason).value.labels == db.labels
  {}

  lemma FreezingLabels(db: Db, now: int, id: string, p: Proposal)
    requires Frozen(db, now, id, p).Done?
    ensures Frozen(db, now, id, p).value.labels == db.labels
  {
    hide FreezeRefusal, ProvenanceOf, Quarantined;
    if FreezeRefusal(db, id, p).Some? { QuarantineLabels(db, id, FreezeRefusal(db, id, p).value); }
  }

  lemma ReviewingLabels(db: Db, id: string, reviewer: string)
    requires ReviewRecorded(db, id, reviewer).Done?
    ensures ReviewRecorded(db, id, reviewer).value.labels == db.labels
  {
    hide Find, Quarantined;
    if Find(db.trials, id).None? { QuarantineLabels(db, id, UnknownTrial); }
  }

  lemma NoVerdictsOpening(from: map<string, Resolution>, key: PartitionKey)
    ensures SurvivesOpening(NoVerdicts(from), key)
  {
    hide NoVerdicts, EpochStarted;
    forall a, b | NoVerdicts(from)(a) && Opens(a, b, key) ensures NoVerdicts(from)(b) { StartLabels(a, key); NoVerdictsSame(from, a, b); }
  }

  lemma NoVerdictsRecords(from: map<string, Resolution>)
    ensures var J := NoVerdicts(from);
            SurvivesSevere(J) && SurvivesFlag(J) && SurvivesWithdrawal(J) && SurvivesLink(J) && SurvivesRevocation(J)
  {
    hide NoVerdicts;
    var J := NoVerdicts(from);
    forall a, b, key | J(a) && Severed(a, b, key) ensures J(b) { NoVerdictsSame(from, a, b); }
    forall a, b, key | J(a) && Flagged(a, b, key) ensures J(b) { NoVerdictsSame(from, a, b); }
    forall a, b, key | J(a) && Withdrawn(a, b, key) ensures J(b) { NoVerdictsSame(from, a, b); }
    forall a, b, k, l | J(a) && Joined(a, b, k, l) ensures J(b) { NoVerdictsSame(from, a, b); }
    forall a, b, cause, scope, actor | J(a) && Revokes(a, b, cause, scope, actor) ensures J(b) { NoVerdictsSame(from, a, b); }
  }

  lemma NoVerdictsEpoch(env: Env, from: map<string, Resolution>, a: Db, b: Db, key: PartitionKey, oracle: Oracle, reason: AlphaReason)
    requires NoVerdicts(from)(a) && Reopened(env, a, b, key, oracle, reason)
    ensures NoVerdicts(from)(b)
  {
    hide NoVerdicts, EpochOpenedFor;
    OpeningKeepsLabels(env.policy, a, key, a.lifecycle[key], oracle, reason);
    NoVerdictsSame(from, a, b);
  }

  lemma NoVerdictsBear(env: Env, from: map<string, Resolution>)
    ensures Bearing(env, NoVerdicts(from)) && forall key :: SurvivesOpening(NoVerdicts(from), key)
  {
    hide NoVerdicts, EverStable, Reopened, SurvivesWrites, SurvivesOpening, SurvivesSevere, SurvivesFlag, SurvivesWithdrawal, SurvivesLink,
         SurvivesRevocation;
    var J := NoVerdicts(from);
    NoVerdictsWalks(env, from);
    NoVerdictsWrites(from);
    NoVerdictsRecords(from);
    forall key ensures SurvivesOpening(J, key) { NoVerdictsOpening(from, key); }
    forall a, b, key, oracle, reason | J(a) && Reopened(env, a, b, key, oracle, reason) ensures J(b) {
      NoVerdictsEpoch(env, from, a, b, key, oracle, reason);
    }
    assert forall key, reason :: SurvivesEpoch(env, J, key, reason);
  }

  /** Only adjudication gives verdicts. */
  lemma OtherStepsGiveNoVerdict(host: Host, s: System, m: Moment, step: Step)
    requires !(step.Operate? && step.op.Adjudicate?)
    ensures NoVerdicts(s.db.labels)(After(host, s, m, step).db)
  {
    hide Operated, PolicyReplaced, NoVerdicts, Bearing, Permitted, Redeemed;
    var J, env := NoVerdicts(s.db.labels), EnvOf(host, s, m);
    NoneGivenYet(s.db);
    if Effect(host, s, m, step).Done? {
      NoVerdictsBear(env, s.db.labels);
      if step.Operate? {
        BearingKeeps(env, J, host.keyring, s.db, step.op);
      } else if step.ChangePolicy? {
        BearingPolicy(env, J, s.db, s.policy, step.policy, step.actor);
      } else {
        OtherSteps(host, s, m, step);
        NoVerdictsSame(s.db.labels, s.db, Effect(host, s, m, step).value);
      }
    }
  }

  lemma NoneGivenYet(db: Db)
    ensures NoVerdicts(db.labels)(db)
  {}

  lemma BearingPolicy(env: Env, J: Db -> bool, db: Db, old_: Policy, new_: Policy, actor: string)
    requires Bearing(env, J) && J(db) && PolicyReplaced(env, db, old_, new_, actor).Done?
    ensures J(PolicyReplaced(env, db, old_, new_, actor).value)
  {
    PolicyKeeps(env, J, db, old_, new_, actor);
  }

  /** The i-th step of the run admitted this resolution of the trial, on a label that was admissible then. */
  ghost predicate AdmittedAt(host: Host, s: System, trace: Trace, i: nat, id: string, r: Resolution) {
    && i < |trace| && trace[i].1.Operate? && trace[i].1.op.Adjudicate? && trace[i].1.op.label_.trialId == id
    && r == Labeled(trace[i].1.op.label_.verdict, trace[i].0.now, trace[i].1.op.label_.claimedAt)
    && Admissible(Run(host, s, trace[..i]).db, host.keyring, host.deadline, trace[i].0.now, trace[i].1.op.label_)
  }

  lemma AdmittedEarlier(host: Host, s: System, trace: Trace, n: nat, i: nat, id: string, r: Resolution)
    requires n <= |trace| && AdmittedAt(host, s, trace[..n], i, id, r)
    ensures AdmittedAt(host, s, trace, i, id, r)
  {
    hide Admissible;
    assert trace[..n][..i] == trace[..i] && trace[..n][i] == trace[i];
  }

  lemma LastStepAdmits(host: Host, s: System, trace: Trace, id: string)
    requires trace != [] && EvidenceInv(Run(host, s, trace[..|trace| - 1]).db)
    requires id in Run(host, s, trace).db.labels && Run(host, s, trace).db.labels[id].Labeled?
    ensures var before := Run(host, s, trace[..|trace| - 1]).db.labels;
            (id in before && before[id] == Run(host, s, trace).db.labels[id])
            || AdmittedAt(host, s, trace, |trace| - 1, id, Run(host, s, trace).db.labels[id])
  {
    hide Admissible, Adjudicated, EvidenceInv, RefusedFor, Quarantines;
    var n := |trace| - 1;
    var before, m, step := Run(host, s, trace[..n]), trace[n].0, trace[n].1;
    if step.Operate? && step.op.Adjudicate? {
      if Effect(host, before, m, step).Done? {
        AdjudicationKeepsLabels(EnvOf(host, before, m), before.db, host.keyring, step.op.label_, Effect(host, before, m, step).value);
        LabelAdmittedExactly(EnvOf(host, before, m), before.db, host.keyring, step.op.label_, Effect(host, before, m, step).value);
      }
    } else {
      OtherStepsGiveNoVerdict(host, before, m, step);
    }
  }

  lemma AdjudicationKeepsLabels(env: Env, db: Db, keyring: set<string>, s: SignedLabel, after: Db)
    requires Adjudicated(env, db, keyring, s) == Done(after)
    ensures forall id :: id in db.labels ==> id in after.labels && after.labels[id] == db.labels[id]
  {
    hide LabelRefusal, OnLabel, Quarantined, Quarantines;
    var refusal := LabelRefusal(db, keyring, env.deadline, env.now, s);
    if refusal.None? {
      AdmittedLabel(env, db, keyring, s, after);
    } else if refusal == Some(LateLabel) {
      LateLabelled(env, db, keyring, s, after);
    } else {
      QuarantinedRow(db, s.trialId, refusal.value, db);
    }
  }

  /** In every state of every run, every verdict on the record was carried by a label that was admissible when it was
      received: signed by the oracle its trial's epoch was bound to, on just that trial, in time. */
  lemma {:induction false} EveryVerdictIsSigned(host: Host, s: System, trace: Trace, id: string)
    requires Sound(s) && s.db.labels == map[] && id in Run(host, s, trace).db.labels && Run(host, s, trace).db.labels[id].Labeled?
    ensures exists i: nat :: AdmittedAt(host, s, trace, i, id, Run(host, s, trace).db.labels[id])
    decreases |trace|
  {
    hide After, AdmittedAt, EvidenceInv;
    if trace != [] {
      var n := |trace| - 1;
      RunSound(host, s, trace[..n]);
      LastStepAdmits(host, s, trace, id);
      if !AdmittedAt(host, s, trace, n, id, Run(host, s, trace).db.labels[id]) {
        EveryVerdictIsSigned(host, s, trace[..n], id);
        var i: nat :| AdmittedAt(host, s, trace[..n], i, id, Run(host, s, trace[..n]).db.labels[id]);
        AdmittedEarlier(host, s, trace, n, i, id, Run(host, s, trace).db.labels[id]);
      }
    }
  }

  // ---- which decisions become trials -----------------------------------------------------------------------------

  predicate HumanApproved(db: Db, decisionId: string) {
    exists t :: t in db.tokens && db.tokens[t].terms.decisionId == decisionId && db.tokens[t].terms.approvalId.Some?
  }

  /** Where the trial of a decision comes from: its approval, if it has one, and otherwise its route. */
  predicate ComesFrom(db: Db, decisionId: string, route: Route, provenance: Provenance) {
    match provenance
    case HumanApprovedTrial => HumanApproved(db, decisionId)
    case AuditTrial => !HumanApproved(db, decisionId) && route == Audit
    case AutonomousTrial => !HumanApproved(db, decisionId) && route == Autonomous
    case ShadowTrial => !HumanApproved(db, decisionId) && route == HumanApproval
  }

  /** A trial of the same proposal counts in its partition's epoch already. */
  predicate CountsAlready(db: Db, p: Proposal) {
    exists t :: t in db.trials && t.proposal == p && t.partition == p.partition && t.provenance != HumanApprovedTrial
      && (p.partition in db.epochs ==> forall f :: f in db.epochs[p.partition] ==> f < t.sequence)
  }

  /** What a frozen trial is: the trial of a committed decision on just that proposal, frozen once, and counted once in
      an epoch. */
  predicate Freezable(db: Db, id: string, p: Proposal, provenance: Provenance) {
    && (forall t :: t in db.trials ==> t.id != id)
    && id in db.decisions && db.decisions[id].proposal == p && ComesFrom(db, id, db.decisions[id].route, provenance)
    && (provenance != HumanApprovedTrial ==> !CountsAlready(db, p))
  }

  /** What is wrong with a decision, in the order it is asked for. */
  predicate UnfrozenFor(db: Db, id: string, p: Proposal, reason: QuarantineReason) {
    match reason
    case DuplicateTrial => exists t :: t in db.trials && t.id == id
    case NotCommitted => id !in db.decisions
    case DigestMismatch => id in db.decisions && db.decisions[id].proposal != p
    case NotTrialable => id in db.decisions && db.decisions[id].proposal == p && forall v :: !ComesFrom(db, id, db.decisions[id].route, v)
    case DuplicateProposal => id in db.decisions && db.decisions[id].proposal == p && CountsAlready(db, p) && !HumanApproved(db, id)
    case _ => false
  }

  lemma ProvenanceMeans(db: Db, id: string, route: Route, provenance: Provenance)
    ensures ProvenanceOf(db, id, route) == Some(provenance) <==> ComesFrom(db, id, route, provenance)
  {}

  lemma CountedAlreadyMeans(db: Db, p: Proposal)
    ensures AlreadyCounted(db, p) <==> CountsAlready(db, p)
  {
    forall t: Trial ensures Counted(t, p.partition, Floor(db, p.partition), COUNTING) <==>
                            t.partition == p.partition && t.provenance != HumanApprovedTrial
                            && (p.partition in db.epochs ==> forall f :: f in db.epochs[p.partition] ==> f < t.sequence) {}
  }

  lemma FreezeRefusalMeans(db: Db, id: string, p: Proposal, provenance: Provenance)
    ensures FreezeRefusal(db, id, p).None? ==> id in db.decisions && ProvenanceOf(db, id, db.decisions[id].route).Some?
    ensures FreezeRefusal(db, id, p).None? && ProvenanceOf(db, id, db.decisions[id].route) == Some(provenance) <==> Freezable(db, id, p, provenance)
    ensures FreezeRefusal(db, id, p).Some? ==> UnfrozenFor(db, id, p, FreezeRefusal(db, id, p).value)
  {
    hide ProvenanceOf, AlreadyCounted, CountsAlready, ComesFrom;
    CountedAlreadyMeans(db, p);
    if id in db.decisions {
      forall v ensures ProvenanceOf(db, id, db.decisions[id].route) == Some(v) <==> ComesFrom(db, id, db.decisions[id].route, v) {
        ProvenanceMeans(db, id, db.decisions[id].route, v);
      }
      OneProvenance(db, id, db.decisions[id].route);
    }
  }

  lemma OneProvenance(db: Db, id: string, route: Route)
    ensures HumanApproved(db, id) <==> ComesFrom(db, id, route, HumanApprovedTrial)
    ensures forall v, w :: ComesFrom(db, id, route, v) && ComesFrom(db, id, route, w) ==> v == w
  {}

  /** Freezing adds a trial exactly for a freezable decision, with the instant, the place on the ledger and the
      provenance it has; for any other it adds the reason to the record and nothing else. */
  lemma FreezesExactly(db: Db, now: int, id: string, p: Proposal, after: Db)
    requires Frozen(db, now, id, p) == Done(after)
    ensures forall v :: Freezable(db, id, p, v) ==>
              && after.trials == db.trials + [Trial(id, v, p.partition, p, now, |db.ledger|)] && after.quarantines == db.quarantines
              && after.ledger == db.ledger + [Entry(CONTROLLER, ShadowFrozen(id, v, p.partition, p, now))]
    ensures (forall v :: !Freezable(db, id, p, v)) ==>
              after.trials == db.trials && exists reason :: UnfrozenFor(db, id, p, reason) && Quarantines(db, after, id, reason)
  {
    hide FreezeRefusal, ProvenanceOf, Freezable, UnfrozenFor, Quarantines;
    FreezeRefusalMeans(db, id, p, ShadowTrial);
    if FreezeRefusal(db, id, p).Some? {
      forall v ensures !Freezable(db, id, p, v) { FreezeRefusalMeans(db, id, p, v); }
      var reason := FreezeRefusal(db, id, p).value;
      QuarantinedRow(db, id, reason, db);
      assert UnfrozenFor(db, id, p, reason) && Quarantines(db, after, id, reason);
    } else {
      var own := ProvenanceOf(db, id, db.decisions[id].route).value;
      forall v ensures Freezable(db, id, p, v) <==> v == own { FreezeRefusalMeans(db, id, p, v); }
      assert Freezable(db, id, p, own);
    }
  }

  /** Binding an epoch fixes its oracle for good: the first oracle bound stays, the same one may be bound again, and
      another is refused. */
  lemma BindsExactly(db: Db, key: PartitionKey, oracle: Oracle, after: Db)
    requires OracleSet(db, key, oracle) == Done(after)
    ensures var place := (key, Floor(db, key));
            && place in after.oracles && after.oracles[place].oracle.id == oracle.id && after.oracles[place].oracle.version == oracle.version
            && (place in db.oracles ==> after == db)
            && (place !in db.oracles ==> after.oracles == db.oracles[place := BoundOracle(oracle, |db.ledger|)])
  {}
}
