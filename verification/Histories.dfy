/** What every state of every run says of its evidence and its snapshots: what a refresh publishes, and what, once
    written, is never taken back.  */
module Histories {
  import opened Tables
  import opened Shadow
  import opened Lifecycle
  import opened Steps
  import opened Worklist
  import opened Settling
  import opened Operations
  import opened OperationSteps
  import opened Invariants
  import opened Lineage
  import opened Systems
  import opened Runs
  import E = Expiry
  import C = Controller
  import L = MoveLog

  // ---- snapshots only advance ----------------------------------------------------------------------------------

  /** The snapshot is still there, unchanged or of a larger version. */
  ghost function AtLeast(key: PartitionKey, s: Snapshot): Db -> bool {
    (d: Db) => key in d.snapshots && (d.snapshots[key] == s || d.snapshots[key].version > s.version)
  }

  lemma AtLeastSame(key: PartitionKey, s: Snapshot, a: Db, b: Db)
    requires AtLeast(key, s)(a) && b.snapshots == a.snapshots
    ensures AtLeast(key, s)(b)
  {}

  lemma AtLeastWalks(env: Env, key: PartitionKey, s: Snapshot, k: PartitionKey)
    ensures Stable(env, AtLeast(key, s), k)
  {
    hide NewRow, Newcomer, GateOpen, OnlyRevoked, LegalNote, LateTrials, CensoredAt;
    var J := AtLeast(key, s);
    forall a, b, t | J(a) && Censors(env, a, b, t) ensures J(b) { CensoringTables(a, t.id, env.now); AtLeastSame(key, s, a, b); }
    forall a, b | J(a) && Noted(a, b) ensures J(b) { AtLeastSame(key, s, a, b); }
    forall a, b | J(a) && Withdrew(a, b) ensures J(b) { AtLeastSame(key, s, a, b); }
    forall a, b | J(a) && Stepped(env, a, b, k) ensures J(b) { AtLeastSame(key, s, a, b); }
    forall a, b | J(a) && VersionRetired(env, a, b, k) ensures J(b) { AtLeastSame(key, s, a, b); }
    forall a, b | J(a) && Enlisted(env, a, b, k) ensures J(b) { AtLeastSame(key, s, a, b); }
    forall a, b | J(a) && CaughtUp(env, a, b, k) ensures J(b) { AtLeastSame(key, s, a, b); }
  }

  lemma AtLeastRecords(key: PartitionKey, s: Snapshot)
    ensures var J := AtLeast(key, s);
            SurvivesSevere(J) && SurvivesFlag(J) && SurvivesWithdrawal(J) && SurvivesLink(J) && SurvivesRevocation(J)
  {}

  lemma AtLeastWrites(key: PartitionKey, s: Snapshot)
    ensures SurvivesEvidence(AtLeast(key, s))
  {
    WritesSurvive(AtLeast(key, s));
  }

  lemma AtLeastEpoch(env: Env, key: PartitionKey, s: Snapshot, a: Db, b: Db, k: PartitionKey, oracle: Oracle, reason: AlphaReason)
    requires AtLeast(key, s)(a) && Reopened(env, a, b, k, oracle, reason)
    ensures AtLeast(key, s)(b)
  {
    var mid, end := EpochShape(env.policy, a, k, a.lifecycle[k], oracle, reason);
  }

  lemma AtLeastLasts(key: PartitionKey, s: Snapshot)
    ensures Lasting(AtLeast(key, s))
  {
    forall env: Env ensures Enduring(env, AtLeast(key, s)) { AtLeastEndures(env, key, s); }
  }

  lemma AtLeastEndures(env: Env, key: PartitionKey, s: Snapshot)
    ensures Enduring(env, AtLeast(key, s))
  {
    hide Stable, Reopened, SurvivesEvidence, SurvivesSevere, SurvivesFlag, SurvivesWithdrawal, SurvivesLink,
         SurvivesRevocation;
    var J := AtLeast(key, s);
    AtLeastWrites(key, s);
    AtLeastRecords(key, s);
    forall k ensures Stable(env, J, k) { AtLeastWalks(env, key, s, k); }
    forall a, b, k, oracle, reason | J(a) && Reopened(env, a, b, k, oracle, reason) ensures J(b) {
      AtLeastEpoch(env, key, s, a, b, k, oracle, reason);
    }
    assert forall k, reason :: SurvivesEpoch(env, J, k, reason);
  }

  /** Over every run: a partition's snapshot never disappears, its version never falls, and any change of its
      content comes with a larger version. */
  lemma SnapshotsOnlyAdvance(host: Host, s: System, trace: Trace, i: nat, j: nat, key: PartitionKey)
    requires i <= j <= |trace| && key in Run(host, s, trace[..i]).db.snapshots
    ensures key in Run(host, s, trace[..j]).db.snapshots
    ensures var before, after := Run(host, s, trace[..i]).db.snapshots[key], Run(host, s, trace[..j]).db.snapshots[key];
            before.version <= after.version && (before != after ==> before.version < after.version)
  {
    hide After;
    var before := Run(host, s, trace[..i]).db.snapshots[key];
    AtLeastLasts(key, before);
    LastsAlong(host, s, trace, AtLeast(key, before), i, j);
  }

  // ---- labels are final ------------------------------------------------------------------------------------------

  ghost function ResolvedAs(id: string, r: Resolution): Db -> bool {
    (d: Db) => id in d.labels && d.labels[id] == r
  }

  /** Every write keeps the resolutions there are. */
  predicate KeepsLabels(a: Db, b: Db) {
    forall id :: id in a.labels ==> id in b.labels && b.labels[id] == a.labels[id]
  }

  lemma ResolvingKeepsLabels(db: Db, id: string, actor: string, body: Body, r: Resolution)
    requires Resolved(db, id, actor, body, r).Done?
    ensures KeepsLabels(db, Resolved(db, id, actor, body, r).value)
  {}

  lemma QuarantineKeepsLabels(db: Db, id: string, reason: QuarantineReason)
    requires Quarantined(db, id, reason).Done?
    ensures KeepsLabels(db, Quarantined(db, id, reason).value)
  {}

  lemma FreezeKeepsLabels(db: Db, now: int, id: string, p: Proposal)
    requires Frozen(db, now, id, p).Done?
    ensures KeepsLabels(db, Frozen(db, now, id, p).value)
  {
    if FreezeRefusal(db, id, p).Some? { QuarantineKeepsLabels(db, id, FreezeRefusal(db, id, p).value); }
  }

  lemma ReviewKeepsLabels(db: Db, id: string, reviewer: string)
    requires ReviewRecorded(db, id, reviewer).Done?
    ensures KeepsLabels(db, ReviewRecorded(db, id, reviewer).value)
  {
    if Find(db.trials, id).None? { QuarantineKeepsLabels(db, id, UnknownTrial); }
  }

  lemma ResolvedWrites(id: string, r: Resolution)
    ensures SurvivesEvidence(ResolvedAs(id, r))
  {
    hide Resolved, Quarantined, Frozen, ReviewRecorded;
    var J := ResolvedAs(id, r);
    forall a, b, k, reason | J(a) && Refuses(a, b, k, reason) ensures J(b) { QuarantineKeepsLabels(a, k, reason); }
    forall a, b, key, oracle | J(a) && Binds(a, b, key, oracle) ensures J(b) {}
    forall a, b, now, k, p | J(a) && Freezes(a, b, now, k, p) ensures J(b) { FreezeKeepsLabels(a, now, k, p); }
    forall a, b, now, s | J(a) && Admits(a, b, now, s) ensures J(b) {
      ResolvingKeepsLabels(a, s.trialId, s.oracle.id, ShadowLabeled(s.trialId, s.verdict, s.oracle, s.claimedAt, now), Labeled(s.verdict, now, s.claimedAt));
    }
    forall a, b, now, k | J(a) && CensorsLate(a, b, now, k) ensures J(b) {
      ResolvingKeepsLabels(a, k, CONTROLLER, ShadowCensored(k, now), Censored(now));
    }
    forall a, b, k, reviewer | J(a) && Reviews(a, b, k, reviewer) ensures J(b) { ReviewKeepsLabels(a, k, reviewer); }
    forall a, b, key | J(a) && Opens(a, b, key) ensures J(b) {}
  }

  lemma ResolvedWalks(env: Env, id: string, r: Resolution)
    ensures EverStable(env, ResolvedAs(id, r))
  {
    var J := ResolvedAs(id, r);
    forall a, b, t | J(a) && Censors(env, a, b, t) ensures J(b) {
      ResolvingKeepsLabels(a, t.id, CONTROLLER, ShadowCensored(t.id, env.now), Censored(env.now));
    }
    forall key ensures Stable(env, J, key) { ResolvedWalk(env, id, r, key); }
  }

  lemma ResolvedWalk(env: Env, id: string, r: Resolution, key: PartitionKey)
    ensures QuietStable(env, ResolvedAs(id, r), key)
  {
    var J := ResolvedAs(id, r);
    forall a, b | J(a) && Silent(env, a, b, key) ensures J(b) {}
    QuietFromSilent(env, J, key);
  }

  lemma ResolvedEpoch(env: Env, id: string, r: Resolution, a: Db, b: Db, k: PartitionKey, oracle: Oracle, reason: AlphaReason)
    requires ResolvedAs(id, r)(a) && Reopened(env, a, b, k, oracle, reason)
    ensures ResolvedAs(id, r)(b)
  {
    var mid, end := EpochShape(env.policy, a, k, a.lifecycle[k], oracle, reason);
  }

  lemma ResolvedLasts(id: string, r: Resolution)
    ensures Lasting(ResolvedAs(id, r))
  {
    hide Resolved, EverStable, SurvivesEvidence, EpochOpenedFor;
    var J := ResolvedAs(id, r);
    ResolvedWrites(id, r);
    forall env: Env ensures Enduring(env, J) {
      ResolvedWalks(env, id, r);
      forall a, b, k, oracle, reason | J(a) && Reopened(env, a, b, k, oracle, reason) ensures J(b) {
        ResolvedEpoch(env, id, r, a, b, k, oracle, reason);
      }
      assert forall k, reason :: SurvivesEpoch(env, J, k, reason);
    }
  }

  /** Over every run: a trial's resolution, once written, never changes. */
  lemma ResolutionsAreFinal(host: Host, s: System, trace: Trace, i: nat, j: nat, id: string)
    requires i <= j <= |trace| && id in Run(host, s, trace[..i]).db.labels
    ensures id in Run(host, s, trace[..j]).db.labels
    ensures Run(host, s, trace[..j]).db.labels[id] == Run(host, s, trace[..i]).db.labels[id]
  {
    hide After;
    var r := Run(host, s, trace[..i]).db.labels[id];
    ResolvedLasts(id, r);
    LastsAlong(host, s, trace, ResolvedAs(id, r), i, j);
  }

  // ---- what a refresh publishes ----------------------------------------------------------------------------------

  lemma OrderedIsDistinct(db: Db)
    requires TrialsOrdered(db)
    ensures E.DistinctIds(db.trials)
  {}

  lemma HeadVersioned(env: Env, db: Db, key: PartitionKey)
    requires Orderly(env.policy.version)(db) && Head(env, db, key).Done?
    ensures E.Versioned(env, Head(env, db, key).value.db)
  {
    OrderlyWalks(env);
    assert Stable(env, Orderly(env.policy.version), key);
    HeadKeeps(env, Orderly(env.policy.version), db, key);
  }

  lemma HeadIndexes(env: Env, db: Db, key: PartitionKey)
    requires Head(env, db, key).Done?
    ensures IndexOf(Head(env, db, key).value.db.alphas, key).Some?
  {
    if key in db.lifecycle && IndexOf(db.alphas, key).None? {
      LateIndex(env, db, key);
    } else {
      IndexedStable(env, key, key);
      HeadKeeps(env, Indexed(key), db, key);
    }
  }

  lemma LateIndex(env: Env, db: Db, key: PartitionKey)
    requires key in db.lifecycle && IndexOf(db.alphas, key).None? && Head(env, db, key).Done?
    ensures IndexOf(Head(env, db, key).value.db.alphas, key).Some?
  {
    var db1 := AlphaRecorded(env.policy, db, key, db.lifecycle[key].epoch, Floor(db, key), REGISTERED).value;
    assert db1.alphas[..|db1.alphas| - 1] == db.alphas;
    if !db1.lifecycle[key].retired && key.policyVersion != env.policy.version {
      IndexedStable(env, key, key);
      RetiredKeeps(env, Indexed(key), db1, key, db1.lifecycle[key]);
    }
  }

  /** A refresh of a partition that is not live ends where another would start and end. */
  lemma AsleepTwice(env: Env, db: Db, key: PartitionKey)
    requires Refreshed(env, db, key).Done? && !Awake(Head(env, db, key).value.record)
    ensures var b := Refreshed(env, db, key).value;
            && Refreshed(env, b, key) == Done(b)
            && key in b.lifecycle && !Awake(b.lifecycle[key]) && Synced(env, b, key, b.lifecycle[key]) == Done(b)
  {
    var h := Head(env, db, key).value;
    var b := Refreshed(env, db, key).value;
    HeadHolds(env, db, key);
    HeadIndexes(env, db, key);
    SyncedShape(env, h.db, key, h.record);
    SyncedTwice(env, h.db, key, h.record);
    HeadSettlesVersion(env, db, key);
    assert Head(env, b, key) == Done(Walked(b, h.record));
  }

  lemma HeadSettlesVersion(env: Env, db: Db, key: PartitionKey)
    requires Head(env, db, key).Done?
    ensures Head(env, db, key).value.record.retired || key.policyVersion == env.policy.version
  {
    EvidentlyStable(env, EvidenceOf(db), key);
    HeadKeeps(env, Evidently(EvidenceOf(db)), db, key);
  }

  lemma AwakeStaysAwake(env: Env, db: Db, key: PartitionKey)
    requires Refreshed(env, db, key).Done? && Awake(Head(env, db, key).value.record)
    ensures Walkable(Refreshed(env, db, key).value, key)
  {
    var h := Head(env, db, key).value;
    HeadHolds(env, db, key);
    HeadSettlesVersion(env, db, key);
    HoldingStable(env, key, h.record);
    RefreshRest(env, Holding(env, key, h.record), db, key);
  }

  /** What a successful refresh leaves in the store: a snapshot that says what the counts say, unless the partition
      is suspended, and nothing for a second refresh at the same instant to do. */
  ghost predicate Published(env: Env, b: Db, key: PartitionKey) {
    && Refreshed(env, b, key) == Done(b) && Settled(env, b, key) && key in b.lifecycle
    && (b.lifecycle[key].state != SUSPENDED ==>
          && (Read(b, key, env.policy.pending).Some? ==> key in b.snapshots)
          && (key in b.snapshots ==> E.Faithful(b.snapshots[key], key, Read(b, key, env.policy.pending), AlphaOf(b.alphas, key))))
  }

  lemma RefreshPublishes(env: Env, db: Db, key: PartitionKey)
    requires EvidenceInv(db) && Orderly(env.policy.version)(db) && Refreshed(env, db, key).Done?
    ensures Published(env, Refreshed(env, db, key).value, key)
  {
    hide Refreshed, Synced, Head;
    var b := Refreshed(env, db, key).value;
    RefreshedHeads(env, db, key);
    OrderedIsDistinct(db);
    HeadVersioned(env, db, key);
    if Awake(Head(env, db, key).value.record) {
      AwakeStaysAwake(env, db, key);
      E.RefreshSettles(env, db, key);
      E.RefreshTwice(env, db, key);
    } else {
      AsleepTwice(env, db, key);
    }
    if b.lifecycle[key].state != SUSPENDED { FixedPublishes(env, b, key); }
  }

  lemma RefreshedHeads(env: Env, db: Db, key: PartitionKey)
    requires Refreshed(env, db, key).Done?
    ensures Head(env, db, key).Done?
  {}

  /** A snapshot that syncing leaves alone, of a partition that is not suspended, is faithful. */
  lemma FixedPublishes(env: Env, db: Db, key: PartitionKey)
    requires key in db.lifecycle && db.lifecycle[key].state != SUSPENDED && Synced(env, db, key, db.lifecycle[key]) == Done(db)
    ensures Read(db, key, env.policy.pending).Some? ==> key in db.snapshots
    ensures key in db.snapshots ==> E.Faithful(db.snapshots[key], key, Read(db, key, env.policy.pending), AlphaOf(db.alphas, key))
  {
    var b := BasisOf(env, db, key, db.lifecycle[key]);
    if b.Some? { FixedIsSame(env, db, key, db.lifecycle[key], b.value); }
  }

  /** In every state of every run: a refresh that succeeds leaves the published snapshot equal to the tally, zeros
      where no trial counts, at the current epoch's level, and a second refresh at the same instant writes nothing. */
  lemma RefreshInRun(host: Host, s: System, trace: Trace, m: Moment, key: PartitionKey)
    requires Sound(s) && Effect(host, Run(host, s, trace), m, Operate(Refresh(key))).Done?
    ensures var before := Run(host, s, trace); var after := After(host, before, m, Operate(Refresh(key)));
            && Published(EnvOf(host, before, m), after.db, key)
            && Effect(host, after, m, Operate(Refresh(key))) == Done(after.db)
  {
    hide Refreshed;
    RunSound(host, s, trace);
    var before := Run(host, s, trace);
    RefreshPublishes(EnvOf(host, before, m), before.db, key);
  }

  /** In every state of every run: an unattended route means the partition is autonomous and its gate is open on its
      own counts, in the state the decision leaves. */
  lemma UnattendedInRun(host: Host, s: System, trace: Trace, m: Moment, vetoed: bool, p: Proposal, audited: bool)
    requires Sound(s)
    requires var before := Run(host, s, trace); var e := C.Evaluated(EnvOf(host, before, m), before.db, vetoed, p, audited);
             e.Done? && C.Unattended(e.value.route)
    ensures var before := Run(host, s, trace); var env := EnvOf(host, before, m);
            var after := C.Evaluated(env, before.db, vetoed, p, audited).value.db;
            && p.partition in after.lifecycle && after.lifecycle[p.partition].state == AUTONOMOUS
            && GateOpen(env, after, p.partition, after.lifecycle[p.partition])
  {
    hide Refreshed, Effect;
    RunSound(host, s, trace);
    var before := Run(host, s, trace);
    var env := EnvOf(host, before, m);
    OrderedIsDistinct(before.db);
    HeadVersioned(env, before.db, p.partition);
    C.UnattendedMeansGateOpen(env, before.db, vetoed, p, audited);
  }

  /** In every state of every run: a refresh of a live partition that succeeds logs a move twice exactly if the last
      trial overdue is the partition's own and its evidence, with everything overdue censored, moves it. */
  lemma MovesInRun(host: Host, s: System, trace: Trace, m: Moment, key: PartitionKey)
    requires var before := Run(host, s, trace); var env := EnvOf(host, before, m);
             Sound(s) && Refreshed(env, before.db, key).Done? && Awake(Head(env, before.db, key).value.record)
    ensures var before := Run(host, s, trace); var env := EnvOf(host, before, m); var h := Head(env, before.db, key).value;
            L.Repeats(L.NewMarks(before.db, After(host, before, m, Operate(Refresh(key))).db)) <==> L.CensorsOwnLast(env, h.db, key, h.record)
  {
    hide L.Repeats, L.NewMarks, L.CensorsOwnLast, Head, Tail, Expired, Synced, Run;
    RunSound(host, s, trace);
    var before := Run(host, s, trace);
    var env := EnvOf(host, before, m);
    OrderedIsDistinct(before.db);
    HeadVersioned(env, before.db, key);
    L.MoveRepeatsExactly(env, before.db, key);
  }
}
