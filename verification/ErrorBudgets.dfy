/** The error budget over whole runs: what is allocated, to whom, and from which trials on each level counts. */
module ErrorBudgets {
  import opened Tables
  import opened AlphaSpending
  import opened Shadow
  import opened Lifecycle
  import opened Steps
  import opened Worklist
  import opened Settling
  import opened Operations
  import opened OperationSteps
  import opened Invariants
  import opened Allocations
  import opened Systems
  import opened Runs
  import Risk

  // ---- the error budget --------------------------------------------------------------------------------------

  ghost function Spends(alpha: real, c: real): Policy -> bool {
    (p: Policy) => Frugal(p, alpha, c)
  }

  lemma {:induction false} AllocationsAlong(host: Host, s: System, trace: Trace, alpha: real, c: real)
    requires AlphaInv(s.db, alpha, c) && Policies(s, trace, Spends(alpha, c))
    ensures AlphaInv(Run(host, s, trace).db, alpha, c)
    decreases |trace|
  {
    hide AlphaInv, Frugal;
    if trace != [] {
      var n := |trace| - 1;
      PoliciesPrefix(s, trace, Spends(alpha, c), n);
      AllocationsAlong(host, s, trace[..n], alpha, c);
      PoliciesAlong(host, s, trace[..n], Spends(alpha, c));
      var before := Run(host, s, trace[..n]);
      ConservingEndures(EnvOf(host, before, trace[n].0), alpha, c);
      ElsewhereConserves(alpha, c);
      StepKeeps(host, before, trace[n].0, trace[n].1, Conserving(alpha, c));
    }
  }

  lemma ElsewhereConserves(alpha: real, c: real)
    ensures forall a, b :: Conserving(alpha, c)(a) && Elsewhere(a, b) ==> Conserving(alpha, c)(b)
  {
    forall a, b | Conserving(alpha, c)(a) && Elsewhere(a, b) ensures Conserving(alpha, c)(b) { SameRowsKeep(a, b, alpha, c); }
  }

  /** The policies in force at one time or another of a run. */
  ghost predicate EverInForce(s: System, trace: Trace, p: Policy) {
    p == s.policy || exists i :: 0 <= i < |trace| && trace[i].1.ChangePolicy? && trace[i].1.policy == p
  }

  ghost function InForce(s: System, trace: Trace): Policy -> bool {
    (p: Policy) => EverInForce(s, trace, p)
  }

  lemma {:induction false} PricedAlong(host: Host, s: System, trace: Trace, allowed: Policy -> bool)
    requires Priced(allowed)(s.db) && Policies(s, trace, allowed)
    ensures Priced(allowed)(Run(host, s, trace).db)
    decreases |trace|
  {
    hide After, PricedRow;
    if trace != [] {
      var n := |trace| - 1;
      PoliciesPrefix(s, trace, allowed, n);
      PricedAlong(host, s, trace[..n], allowed);
      PoliciesAlong(host, s, trace[..n], allowed);
      var before := Run(host, s, trace[..n]);
      PricedEndures(EnvOf(host, before, trace[n].0), allowed);
      StepKeeps(host, before, trace[n].0, trace[n].1, Priced(allowed));
    }
  }

  /** What the gate applies to a registered partition: its registration's and its current epoch's share of the
      budget of some policy of the run. */
  ghost predicate AppliesAllocation(db: Db, key: PartitionKey, allowed: Policy -> bool)
    requires key in db.lifecycle
  {
    && IndexOf(db.alphas, key).Some? && IndexOf(db.alphas, key).value >= 1
    && exists p :: allowed(p) && AlphaOf(db.alphas, key) == Some(LevelUnder(p, IndexOf(db.alphas, key).value, db.lifecycle[key].epoch))
  }

  lemma AppliesOwnRow(db: Db, key: PartitionKey, alpha: real, c: real, allowed: Policy -> bool)
    requires AlphaInv(db, alpha, c) && Priced(allowed)(db) && key in db.lifecycle
    ensures AppliesAllocation(db, key, allowed)
  {
    assert RowsAgree(db, key);
    LastRowIsRow(db.alphas, key);
    var i :| 0 <= i < |db.alphas| && db.alphas[i] == LastRow(db.alphas, key).value;
    assert PricedRow(db.alphas[i], allowed);
  }

  // ---- from which trials on a level counts -------------------------------------------------------------------

  /** How many floors lie above a given one. */
  function Above(floors: seq<nat>, floor: int): nat {
    if floors == [] then 0
    else Above(floors[..|floors| - 1], floor) + if floors[|floors| - 1] > floor then 1 else 0
  }

  lemma {:induction false} NoneAbove(floors: seq<nat>, floor: int)
    requires floor >= -1
    ensures Above(floors, floor) == 0 <==> Latest(floors) <= floor
  {
    if floors != [] {
      var front := floors[..|floors| - 1];
      NoneAbove(front, floor);
      assert forall f :: f in floors <==> f in front || f == floors[|floors| - 1];
    }
  }

  lemma OneMoreAbove(floors: seq<nat>, floor: int, next: nat)
    requires floor < next
    ensures Above(floors + [next], floor) == Above(floors, floor) + 1
  {
    assert (floors + [next])[..|floors|] == floors;
  }

  /** How many epochs of a partition have been opened since its latest level was recorded. */
  function Reopenings(db: Db, key: PartitionKey): nat {
    var row := LastRow(db.alphas, key);
    if row.Some? then Above(FloorsOf(db.epochs, key), row.value.floor) else 0
  }

  function RowsOf(alphas: seq<AlphaRow>, key: PartitionKey): nat {
    if alphas == [] then 0
    else RowsOf(alphas[..|alphas| - 1], key) + if alphas[|alphas| - 1].partition == key then 1 else 0
  }

  lemma {:induction false} RowsMeanLast(alphas: seq<AlphaRow>, key: PartitionKey)
    ensures LastRow(alphas, key).Some? <==> RowsOf(alphas, key) > 0
  {
    if alphas != [] { RowsMeanLast(alphas[..|alphas| - 1], key); }
  }

  predicate FloorsLogged(db: Db, key: PartitionKey) {
    forall f :: f in FloorsOf(db.epochs, key) ==> f < |db.ledger|
  }

  /** The trials that count under the latest level: none from before it was recorded. */
  predicate LevelInTime(db: Db, key: PartitionKey) {
    LastRow(db.alphas, key).Some? ==> -1 <= LastRow(db.alphas, key).value.floor <= Floor(db, key)
  }

  /** The latest level of the partition was recorded for the epoch that the gate reads. */
  predicate LevelOfEpoch(db: Db, key: PartitionKey) {
    LastRow(db.alphas, key).Some? ==> LastRow(db.alphas, key).value.floor == Floor(db, key)
  }

  lemma NoReopeningMeansOwnLevel(db: Db, key: PartitionKey)
    requires LevelInTime(db, key)
    ensures LevelOfEpoch(db, key) <==> Reopenings(db, key) == 0
  {
    if LastRow(db.alphas, key).Some? { NoneAbove(FloorsOf(db.epochs, key), LastRow(db.alphas, key).value.floor); }
  }

  /** Since a state, the partition's latest level and epochs are the same, or it has a new level for its epoch. */
  ghost function Tracks(key: PartitionKey, from: Db): Db -> bool {
    (d: Db) =>
      && FloorsLogged(d, key) && LevelInTime(d, key) && RowsOf(from.alphas, key) <= RowsOf(d.alphas, key)
      && if RowsOf(d.alphas, key) == RowsOf(from.alphas, key)
         then LastRow(d.alphas, key) == LastRow(from.alphas, key) && FloorsOf(d.epochs, key) == FloorsOf(from.epochs, key)
         else Reopenings(d, key) == 0
  }

  lemma TracksSame(key: PartitionKey, from: Db, a: Db, b: Db)
    requires Tracks(key, from)(a) && b.alphas == a.alphas && FloorsOf(b.epochs, key) == FloorsOf(a.epochs, key) && |a.ledger| <= |b.ledger|
    ensures Tracks(key, from)(b)
  {}

  lemma OneRowMore(alphas: seq<AlphaRow>, row: AlphaRow, key: PartitionKey)
    ensures RowsOf(alphas + [row], key) == RowsOf(alphas, key) + if row.partition == key then 1 else 0
    ensures LastRow(alphas + [row], key) == if row.partition == key then Some(row) else LastRow(alphas, key)
  {
    assert (alphas + [row])[..|alphas|] == alphas;
  }

  /** A new level of the partition is recorded for the epoch it counts in. */
  lemma TracksRow(key: PartitionKey, from: Db, a: Db, b: Db, row: AlphaRow)
    requires Tracks(key, from)(a) && b.alphas == a.alphas + [row] && FloorsLogged(b, key) && |a.ledger| <= |b.ledger|
    requires if row.partition == key then row.floor == Floor(b, key) else FloorsOf(b.epochs, key) == FloorsOf(a.epochs, key)
    ensures Tracks(key, from)(b)
  {
    OneRowMore(a.alphas, row, key);
    if row.partition == key { NoneAbove(FloorsOf(b.epochs, key), row.floor); }
  }

  /** Writes that leave the levels and the epochs, and only add to the ledger. */
  predicate KeepsLevels(a: Db, b: Db) {
    b.alphas == a.alphas && b.epochs == a.epochs && |a.ledger| <= |b.ledger|
  }

  lemma TracksWalks(env: Env, key: PartitionKey, from: Db, k: PartitionKey)
    ensures Stable(env, Tracks(key, from), k)
  {
    hide Tracks, NewRow, Newcomer, GateOpen, OnlyRevoked, LegalNote, LateTrials, CensoredAt, Floor;
    var J := Tracks(key, from);
    forall a, b, t | J(a) && Censors(env, a, b, t) ensures J(b) { CensoringKeepsLevels(a, t.id, env.now); TracksSame(key, from, a, b); }
    forall a, b | J(a) && Noted(a, b) ensures J(b) { TracksSame(key, from, a, b); }
    forall a, b | J(a) && Withdrew(a, b) ensures J(b) { TracksSame(key, from, a, b); }
    forall a, b | J(a) && Republished(a, b, k) ensures J(b) { TracksSame(key, from, a, b); }
    forall a, b | J(a) && Stepped(env, a, b, k) ensures J(b) { TracksSame(key, from, a, b); }
    forall a, b | J(a) && VersionRetired(env, a, b, k) ensures J(b) { TracksSame(key, from, a, b); }
    forall a, b | J(a) && Enlisted(env, a, b, k) ensures J(b) { TracksEnlisted(env, key, from, a, b, k); }
    forall a, b | J(a) && CaughtUp(env, a, b, k) ensures J(b) { TracksCaughtUp(env, key, from, a, b, k); }
  }

  lemma CensoringKeepsLevels(db: Db, id: string, now: int)
    requires CensoredAt(db, id, now).Done?
    ensures KeepsLevels(db, CensoredAt(db, id, now).value)
  {}

  lemma TracksEnlisted(env: Env, key: PartitionKey, from: Db, a: Db, b: Db, k: PartitionKey)
    requires Tracks(key, from)(a) && Enlisted(env, a, b, k)
    ensures Tracks(key, from)(b)
  {
    hide NewRow, Newcomer;
    TracksRow(key, from, a, b, b.alphas[|b.alphas| - 1]);
  }

  lemma TracksCaughtUp(env: Env, key: PartitionKey, from: Db, a: Db, b: Db, k: PartitionKey)
    requires Tracks(key, from)(a) && CaughtUp(env, a, b, k)
    ensures Tracks(key, from)(b)
  {
    hide NewRow;
    TracksRow(key, from, a, b, b.alphas[|b.alphas| - 1]);
  }

  lemma StartFloors(db: Db, k: PartitionKey)
    requires EpochStarted(db, k).Done?
    ensures var b := EpochStarted(db, k).value;
            && b.alphas == db.alphas && |b.ledger| == |db.ledger| + 1
            && forall key :: FloorsOf(b.epochs, key) == if key == k then FloorsOf(db.epochs, k) + [|db.ledger|] else FloorsOf(db.epochs, key)
  {}

  lemma BindingLevels(db: Db, key: PartitionKey, oracle: Oracle)
    requires OracleSet(db, key, oracle).Done?
    ensures KeepsLevels(db, OracleSet(db, key, oracle).value)
  {
    hide OracleSet;
    BindingTables(db, key, oracle);
    BindWrote(db, key, oracle);
  }

  lemma QuarantineLevels(db: Db, id: string, reason: QuarantineReason)
    requires Quarantined(db, id, reason).Done?
    ensures KeepsLevels(db, Quarantined(db, id, reason).value)
  {}

  lemma FreezingLevels(db: Db, now: int, id: string, p: Proposal)
    requires Frozen(db, now, id, p).Done?
    ensures KeepsLevels(db, Frozen(db, now, id, p).value)
  {
    hide FreezeRefusal, ProvenanceOf, Quarantined;
    if FreezeRefusal(db, id, p).Some? { QuarantineLevels(db, id, FreezeRefusal(db, id, p).value); }
  }

  lemma ResolvingLevels(db: Db, id: string, actor: string, body: Body, r: Resolution)
    requires Resolved(db, id, actor, body, r).Done?
    ensures KeepsLevels(db, Resolved(db, id, actor, body, r).value)
  {}

  lemma ReviewLevels(db: Db, id: string, reviewer: string)
    requires ReviewRecorded(db, id, reviewer).Done?
    ensures KeepsLevels(db, ReviewRecorded(db, id, reviewer).value)
  {
    hide Find, Quarantined;
    if Find(db.trials, id).None? { QuarantineLevels(db, id, UnknownTrial); }
  }

  lemma TracksWrites(key: PartitionKey, from: Db)
    ensures SurvivesWrites(Tracks(key, from))
  {
    hide Tracks, Frozen, OracleSet, Resolved, ReviewRecorded, Quarantined;
    var J := Tracks(key, from);
    forall a, b, id, reason | J(a) && Refuses(a, b, id, reason) ensures J(b) { QuarantineLevels(a, id, reason); TracksSame(key, from, a, b); }
    forall a, b, k, oracle | J(a) && Binds(a, b, k, oracle) ensures J(b) { BindingLevels(a, k, oracle); TracksSame(key, from, a, b); }
    forall a, b, now, id, p | J(a) && Freezes(a, b, now, id, p) ensures J(b) { FreezingLevels(a, now, id, p); TracksSame(key, from, a, b); }
    forall a, b, now, id | J(a) && CensorsLate(a, b, now, id) ensures J(b) {
      ResolvingLevels(a, id, CONTROLLER, ShadowCensored(id, now), Censored(now));
      TracksSame(key, from, a, b);
    }
    forall a, b, id, reviewer | J(a) && Reviews(a, b, id, reviewer) ensures J(b) { ReviewLevels(a, id, reviewer); TracksSame(key, from, a, b); }
  }

  lemma TracksAdmission(key: PartitionKey, from: Db)
    ensures SurvivesAdmission(Tracks(key, from))
  {
    hide Tracks, Resolved;
    forall a, b, now, s | Tracks(key, from)(a) && Admits(a, b, now, s) ensures Tracks(key, from)(b) {
      ResolvingLevels(a, s.trialId, s.oracle.id, ShadowLabeled(s.trialId, s.verdict, s.oracle, s.claimedAt, now), Labeled(s.verdict, now, s.claimedAt));
      TracksSame(key, from, a, b);
    }
  }

  /** Of the openings by hand, those of other partitions. */
  lemma TracksOpening(key: PartitionKey, from: Db, k: PartitionKey)
    requires k != key
    ensures SurvivesOpening(Tracks(key, from), k)
  {
    hide Tracks, EpochStarted;
    forall a, b | Tracks(key, from)(a) && Opens(a, b, k) ensures Tracks(key, from)(b) {
      StartFloors(a, k);
      TracksSame(key, from, a, b);
    }
  }

  lemma TracksRecords(key: PartitionKey, from: Db)
    ensures var J := Tracks(key, from);
            SurvivesSevere(J) && SurvivesFlag(J) && SurvivesWithdrawal(J) && SurvivesLink(J) && SurvivesRevocation(J)
  {
    hide Tracks;
    var J := Tracks(key, from);
    forall a, b, k | J(a) && Severed(a, b, k) ensures J(b) { TracksSame(key, from, a, b); }
    forall a, b, k | J(a) && Flagged(a, b, k) ensures J(b) { TracksSame(key, from, a, b); }
    forall a, b, k | J(a) && Withdrawn(a, b, k) ensures J(b) { TracksSame(key, from, a, b); }
    forall a, b, k, l | J(a) && Joined(a, b, k, l) ensures J(b) { TracksSame(key, from, a, b); }
    forall a, b, cause, scope, actor | J(a) && Revokes(a, b, cause, scope, actor) ensures J(b) { TracksSame(key, from, a, b); }
  }

  /** What a release or a change of oracle records: the new epoch's floor is the new level's. */
  lemma TracksEpoch(env: Env, key: PartitionKey, from: Db, a: Db, b: Db, k: PartitionKey, oracle: Oracle, reason: AlphaReason)
    requires Tracks(key, from)(a) && Reopened(env, a, b, k, oracle, reason)
    ensures Tracks(key, from)(b)
  {
    hide EpochStarted, OracleSet, Latest, Above, LastRow, RowsOf;
    var mid, end := EpochShape(env.policy, a, k, a.lifecycle[k], oracle, reason);
    StartFloors(a, k);
    BindingLevels(mid, k, oracle);
    var row := b.alphas[|b.alphas| - 1];
    assert b.alphas == a.alphas + [row] && row.partition == k && row.floor == |a.ledger|;
    if k == key { NewestIsLatest(FloorsOf(a.epochs, key), |a.ledger|); }
    TracksRow(key, from, a, b, row);
  }

  lemma TracksBears(env: Env, key: PartitionKey, from: Db)
    ensures Bearing(env, Tracks(key, from))
  {
    hide Tracks, Stable, Reopened, SurvivesWrites, SurvivesSevere, SurvivesFlag, SurvivesWithdrawal, SurvivesLink,
         SurvivesRevocation;
    var J := Tracks(key, from);
    TracksWrites(key, from);
    TracksRecords(key, from);
    forall k ensures Stable(env, J, k) { TracksWalks(env, key, from, k); }
    forall a, b, k, oracle, reason | J(a) && Reopened(env, a, b, k, oracle, reason) ensures J(b) {
      TracksEpoch(env, key, from, a, b, k, oracle, reason);
    }
    assert forall k, reason :: SurvivesEpoch(env, J, k, reason);
  }

  // ---- openings by hand --------------------------------------------------------------------------------------

  /** The step opens an epoch of the partition on its own, not as part of a release or a change of oracle. */
  ghost predicate HandOpens(host: Host, s: System, m: Moment, step: Step, key: PartitionKey) {
    step == Operate(OpenEpoch(key)) && Effect(host, s, m, step).Done?
  }

  /** What one step does to the number of epochs opened since the latest level. */
  ghost predicate CountsOpening(a: Db, b: Db, key: PartitionKey, hand: bool) {
    && LevelInTime(b, key)
    && if RowsOf(b.alphas, key) == RowsOf(a.alphas, key)
       then LastRow(b.alphas, key) == LastRow(a.alphas, key)
            && (LastRow(b.alphas, key).Some? ==> Reopenings(b, key) == Reopenings(a, key) + if hand then 1 else 0)
       else Reopenings(b, key) == 0 && !hand
  }

  lemma TrackedCounts(a: Db, b: Db, key: PartitionKey)
    requires Tracks(key, a)(b)
    ensures CountsOpening(a, b, key, false)
  {}

  lemma HandOpeningCounts(db: Db, key: PartitionKey)
    requires FloorsLogged(db, key) && LevelInTime(db, key) && EpochStarted(db, key).Done?
    ensures CountsOpening(db, EpochStarted(db, key).value, key, true)
  {
    hide EpochStarted;
    var b, floors := EpochStarted(db, key).value, FloorsOf(db.epochs, key);
    StartFloors(db, key);
    NewestIsLatest(floors, |db.ledger|);
    var row := LastRow(db.alphas, key);
    if row.Some? { OneMoreAbove(floors, row.value.floor, |db.ledger|); }
  }

  lemma StepCounts(host: Host, s: System, m: Moment, step: Step, key: PartitionKey)
    requires EvidenceInv(s.db) && LevelInTime(s.db, key)
    ensures CountsOpening(s.db, After(host, s, m, step).db, key, HandOpens(host, s, m, step, key))
  {
    hide Operated, PolicyReplaced, Tracks, CountsOpening, EvidenceInv;
    LoggedFloors(s.db, key);
    if step == Operate(OpenEpoch(key)) {
      OpeningEffect(host, s, m, key);
    } else {
      QuietStepTracks(host, s, m, step, key);
    }
  }

  lemma LoggedFloors(db: Db, key: PartitionKey)
    requires EvidenceInv(db)
    ensures FloorsLogged(db, key)
  {}

  lemma OpeningEffect(host: Host, s: System, m: Moment, key: PartitionKey)
    requires FloorsLogged(s.db, key) && LevelInTime(s.db, key)
    ensures var step := Operate(OpenEpoch(key));
            CountsOpening(s.db, After(host, s, m, step).db, key, HandOpens(host, s, m, step, key))
  {
    if EpochStarted(s.db, key).Done? { HandOpeningCounts(s.db, key); }
  }

  lemma QuietStepTracks(host: Host, s: System, m: Moment, step: Step, key: PartitionKey)
    requires FloorsLogged(s.db, key) && LevelInTime(s.db, key) && step != Operate(OpenEpoch(key))
    ensures CountsOpening(s.db, After(host, s, m, step).db, key, false)
  {
    hide Operated, PolicyReplaced, Tracks, CountsOpening, Permitted, Redeemed, Reopenings;
    var env := EnvOf(host, s, m);
    TracksItself(s.db, key);
    if Effect(host, s, m, step).Raised? {
      TrackedCounts(s.db, s.db, key);
    } else if step.Operate? {
      OperationTracks(env, host.keyring, s.db, step.op, key);
    } else if step.ChangePolicy? {
      PolicyTracks(env, s.db, s.policy, step.policy, step.actor, key);
    } else {
      OtherSteps(host, s, m, step);
      ElsewhereCounts(s.db, Effect(host, s, m, step).value, key);
    }
  }

  lemma ElsewhereCounts(a: Db, b: Db, key: PartitionKey)
    requires Elsewhere(a, b) && LevelInTime(a, key)
    ensures CountsOpening(a, b, key, false)
  {}

  lemma OperationTracks(env: Env, keyring: set<string>, db: Db, op: Operation, key: PartitionKey)
    requires Tracks(key, db)(db) && op != OpenEpoch(key) && Operated(env, keyring, db, op).Done?
    ensures CountsOpening(db, Operated(env, keyring, db, op).value, key, false)
  {
    hide Operated, Tracks, Bearing, CountsOpening;
    TracksBears(env, key, db);
    if op.OpenEpoch? { TracksOpening(key, db, op.key); }
    TracksAdmission(key, db);
    BearingKeeps(env, Tracks(key, db), keyring, db, op);
    TrackedCounts(db, Operated(env, keyring, db, op).value, key);
  }

  lemma PolicyTracks(env: Env, db: Db, old_: Policy, new_: Policy, actor: string, key: PartitionKey)
    requires Tracks(key, db)(db) && PolicyReplaced(env, db, old_, new_, actor).Done?
    ensures CountsOpening(db, PolicyReplaced(env, db, old_, new_, actor).value, key, false)
  {
    hide PolicyReplaced, Tracks, CountsOpening;
    TracksBears(env, key, db);
    PolicyKeeps(env, Tracks(key, db), db, old_, new_, actor);
    TrackedCounts(db, PolicyReplaced(env, db, old_, new_, actor).value, key);
  }

  lemma TracksItself(db: Db, key: PartitionKey)
    requires FloorsLogged(db, key) && LevelInTime(db, key)
    ensures Tracks(key, db)(db)
  {}

  /** How often an epoch of the partition was opened by hand since its latest level was recorded. */
  ghost function Openings(host: Host, s: System, trace: Trace, key: PartitionKey): nat {
    if trace == [] then 0
    else
      var n := |trace| - 1;
      var before := Run(host, s, trace[..n]);
      if RowsOf(Run(host, s, trace).db.alphas, key) != RowsOf(before.db.alphas, key) then 0
      else Openings(host, s, trace[..n], key) + if HandOpens(host, before, trace[n].0, trace[n].1, key) then 1 else 0
  }

  lemma {:induction false} OpeningsCounted(host: Host, policy: Policy, rules: Risk.Rules, trace: Trace, key: PartitionKey)
    ensures var db := Run(host, System(EMPTY, policy, rules), trace).db;
            LevelInTime(db, key)
            && (LastRow(db.alphas, key).Some? ==> Reopenings(db, key) == Openings(host, System(EMPTY, policy, rules), trace, key))
    decreases |trace|
  {
    hide After, HandOpens, Reopenings, LevelInTime, EvidenceInv;
    var s := System(EMPTY, policy, rules);
    if trace == [] {
      EmptyInTime(key);
    } else {
      var n := |trace| - 1;
      OpeningsCounted(host, policy, rules, trace[..n], key);
      EmptyIsSound(policy, rules);
      RunSound(host, s, trace[..n]);
      StepCounts(host, Run(host, s, trace[..n]), trace[n].0, trace[n].1, key);
    }
  }

  lemma EmptyInTime(key: PartitionKey)
    ensures LevelInTime(EMPTY, key) && LastRow(EMPTY.alphas, key).None?
  {}

  /** A reset of counts and its level, exactly: in a state of a run, the latest level of a registered partition was
      recorded for the very epoch the gate reads if and only if no epoch of it has been opened by hand since; and the
      tables show how many have. */
  lemma LevelOfEpochExactly(host: Host, policy: Policy, rules: Risk.Rules, trace: Trace, key: PartitionKey)
    requires LastRow(Run(host, System(EMPTY, policy, rules), trace).db.alphas, key).Some?
    ensures var s := System(EMPTY, policy, rules); var db := Run(host, s, trace).db;
            && (LastRow(db.alphas, key).value.floor == Floor(db, key) <==> Openings(host, s, trace, key) == 0)
            && Above(FloorsOf(db.epochs, key), LastRow(db.alphas, key).value.floor) == Openings(host, s, trace, key)
  {
    OpeningsCounted(host, policy, rules, trace, key);
    NoReopeningMeansOwnLevel(Run(host, System(EMPTY, policy, rules), trace).db, key);
  }

  /** The i-th step opens by hand an epoch of a partition that has a level. */
  ghost predicate ResetsAt(host: Host, s: System, trace: Trace, key: PartitionKey, i: nat) {
    && i < |trace| && HandOpens(host, Run(host, s, trace[..i]), trace[i].0, trace[i].1, key)
    && LastRow(Run(host, s, trace[..i]).db.alphas, key).Some?
  }

  ghost function NoReset(host: Host, s: System, trace: Trace): nat -> bool {
    (i: nat) => forall key :: !ResetsAt(host, s, trace, key, i)
  }

  /** In the state before the i-th step every level belongs to the epoch it is applied to. */
  ghost function OwnLevels(host: Host, s: System, trace: Trace): nat -> bool {
    (i: nat) => i <= |trace| && forall key :: LevelOfEpoch(Run(host, s, trace[..i]).db, key)
  }

  lemma OwnLevelsOn(host: Host, policy: Policy, rules: Risk.Rules, trace: Trace, i: nat)
    requires var s := System(EMPTY, policy, rules); i < |trace| && OwnLevels(host, s, trace)(i)
    ensures var s := System(EMPTY, policy, rules); OwnLevels(host, s, trace)(i + 1) <==> NoReset(host, s, trace)(i)
  {
    hide After, HandOpens, EvidenceInv, Reopenings, LevelInTime, LevelOfEpoch;
    var s := System(EMPTY, policy, rules);
    var before, after := Run(host, s, trace[..i]), Run(host, s, trace[..i + 1]);
    RunSnoc(host, s, trace, i);
    EmptyIsSound(policy, rules);
    RunSound(host, s, trace[..i]);
    forall key ensures LevelOfEpoch(after.db, key) <==> !ResetsAt(host, s, trace, key, i) {
      OpeningsCounted(host, policy, rules, trace[..i], key);
      StepCounts(host, before, trace[i].0, trace[i].1, key);
      NoReopeningMeansOwnLevel(before.db, key);
      NoReopeningMeansOwnLevel(after.db, key);
      UnlevelledHasNone(before.db, key);
      UnlevelledHasNone(after.db, key);
    }
  }

  lemma UnlevelledHasNone(db: Db, key: PartitionKey)
    ensures LastRow(db.alphas, key).None? ==> Reopenings(db, key) == 0
  {}

  /** And so for whole runs: every level belongs to the epoch it is applied to in every state, if and only if no epoch
      of a registered partition is ever opened by hand. */
  lemma OwnLevelsExactly(host: Host, policy: Policy, rules: Risk.Rules, trace: Trace)
    ensures var s := System(EMPTY, policy, rules);
            Always(OwnLevels(host, s, trace), |trace| + 1) <==> Always(NoReset(host, s, trace), |trace|)
  {
    var s := System(EMPTY, policy, rules);
    var good, kind := OwnLevels(host, s, trace), NoReset(host, s, trace);
    assert trace[..0] == [];
    forall i: nat | i < |trace| && good(i) ensures good(i + 1) <==> kind(i) { OwnLevelsOn(host, policy, rules, trace, i); }
    ThroughoutExactly(good, kind, |trace|);
  }

  // ---- the whole promise -------------------------------------------------------------------------------------

  /** From an empty database, whatever partitions are registered, suspended, released, renamed or moved to other
      oracles, in whatever order and under whatever policies with online and lineage spending: everything ever
      allocated adds up to at most the largest of their levels, no place in the two series is used twice, and
      what the gate applies to a partition is its current epoch's allocation, at the level of its registration
      index and epoch under a policy of the run, recorded for the very trials it reads exactly if none of its epochs
      was opened by hand since. */
  lemma ErrorBudgetConserved(host: Host, policy: Policy, rules: Risk.Rules, trace: Trace, alpha: real, c: real)
    requires Policies(System(EMPTY, policy, rules), trace, Spends(alpha, c)) && SpendingConstant(c) && alpha >= 0.0
    ensures var db := Run(host, System(EMPTY, policy, rules), trace).db; var rows := Allocs(db.alphas);
            && Total(rows) <= alpha
            && (forall i, j :: 0 <= i < j < |rows| ==> (rows[i].index, rows[i].epoch) != (rows[j].index, rows[j].epoch))
            && (forall key :: key in db.lifecycle ==>
                  LastRow(db.alphas, key).Some? && LastRow(db.alphas, key).value.allocation.epoch == db.lifecycle[key].epoch)
            && (forall key :: key in db.lifecycle ==> AppliesAllocation(db, key, InForce(System(EMPTY, policy, rules), trace)))
            && (forall key :: key in db.lifecycle ==>
                  (LastRow(db.alphas, key).value.floor == Floor(db, key) <==> Openings(host, System(EMPTY, policy, rules), trace, key) == 0))
  {
    var s := System(EMPTY, policy, rules);
    assert AlphaInv(s.db, alpha, c);
    AllocationsAlong(host, s, trace, alpha, c);
    assert Policies(s, trace, InForce(s, trace)) by {
      forall i | 0 <= i < |trace| && trace[i].1.ChangePolicy? ensures InForce(s, trace)(trace[i].1.policy) {}
    }
    assert Priced(InForce(s, trace))(s.db);
    PricedAlong(host, s, trace, InForce(s, trace));
    var db := Run(host, s, trace).db;
    BudgetConserved(db, alpha, c);
    forall key | key in db.lifecycle
      ensures LastRow(db.alphas, key).Some? && LastRow(db.alphas, key).value.allocation.epoch == db.lifecycle[key].epoch
      ensures AppliesAllocation(db, key, InForce(s, trace))
      ensures LastRow(db.alphas, key).value.floor == Floor(db, key) <==> Openings(host, s, trace, key) == 0
    {
      assert RowsAgree(db, key);
      LevelOfEpochExactly(host, policy, rules, trace, key);
      AppliesOwnRow(db, key, alpha, c, InForce(s, trace));
    }
  }
}
