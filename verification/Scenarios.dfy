/** Short runs from the empty database, step by step: how the states come about in which the program does not do
    what its documentation suggests.  */
module Scenarios {
  import opened Tables
  import opened Shadow
  import opened Lifecycle
  import opened Steps
  import opened Worklist
  import opened Settling
  import opened Operations
  import opened OperationSteps
  import opened Invariants
  import opened Lineage
  import opened Systems
  import opened Runs
  import opened ErrorBudgets
  import opened Blockage
  import V = Validity
  import G = Gateway
  import Risk

  lemma RunAppend(host: Host, s: System, trace: Trace, m: Moment, step: Step)
    ensures Run(host, s, trace + [(m, step)]) == After(host, Run(host, s, trace), m, step)
  {
    hide Effect;
    assert (trace + [(m, step)])[..|trace|] == trace;
  }

  // ---- before any trial ----------------------------------------------------------------------------------------

  /** Nothing is frozen, and the controller may write. */
  predicate Bare(db: Db) {
    db.trials == [] && Active(db, CONTROLLER)
  }

  predicate Listed(db: Db, key: PartitionKey) {
    IndexOf(db.alphas, key).Some? && AlphaOf(db.alphas, key).Some?
  }

  /** What steps on a bare database leave alone. */
  ghost predicate Alike(a: Db, b: Db) {
    Bare(b) && forall key :: Listed(a, key) ==> Listed(b, key)
  }

  lemma RowLists(a: Db, b: Db, key: PartitionKey)
    requires b.alphas != [] && b.alphas[..|b.alphas| - 1] == a.alphas
    requires b.alphas[|b.alphas| - 1].partition == key && b.alphas[|b.alphas| - 1].reason == REGISTERED
    ensures Listed(b, key) && forall k :: Listed(a, k) ==> Listed(b, k)
  {}

  lemma NewcomerEnrols(env: Env, db: Db, key: PartitionKey)
    requires Bare(db) && key !in db.lifecycle && SuspendedPredecessors(db, key) == {} && key.policyVersion == env.policy.version
    ensures Head(env, db, key).Done?
    ensures var h := Head(env, db, key).value;
            && h.record == NewRecord(false) && Alike(db, h.db) && Listed(h.db, key)
            && h.db == db.(lifecycle := db.lifecycle[key := NewRecord(false)], alphas := h.db.alphas, ledger := h.db.ledger)
  {
    var db1 := FirstAlpha(env, db, key).value;
    FirstAlphaShape(env, db, key);
    assert db1.alphas[..|db1.alphas| - 1] == db.alphas;
    RowLists(db, db1, key);
    NewcomerSuspendsNobody(db, db1, key);
  }

  /** What registering a partition changes. */
  ghost predicate Registers(a: Db, b: Db, key: PartitionKey) {
    && Alike(a, b) && Listed(b, key)
    && b == a.(lifecycle := a.lifecycle[key := NewRecord(false)], alphas := b.alphas, ledger := b.ledger)
  }

  /** A first refresh registers the partition and does nothing else. */
  lemma NewcomerRefreshes(env: Env, db: Db, key: PartitionKey) returns (b: Db)
    requires Bare(db) && key !in db.lifecycle && SuspendedPredecessors(db, key) == {} && key.policyVersion == env.policy.version
    requires key !in db.snapshots
    ensures Refreshed(env, db, key) == Done(b) && Registers(db, b, key)
  {
    NewcomerEnrols(env, db, key);
    b := Head(env, db, key).value.db;
    RestOfFirstRefresh(env, b, key);
  }

  lemma RestOfFirstRefresh(env: Env, db: Db, key: PartitionKey)
    requires Bare(db) && key !in db.snapshots
    ensures Expired(env, db) == Done(db) && Tail(env, db, key, NewRecord(false)) == Done(db)
  {
    assert LateTrials(env, db) == [];
    assert Read(db, key, env.policy.pending) == None;
    assert Synced(env, db, key, NewRecord(false)) == Done(db);
  }

  /** A retired partition that never had a snapshot refreshes to itself. */
  lemma RetiredRefreshes(env: Env, db: Db, key: PartitionKey)
    requires Bare(db) && key in db.lifecycle && db.lifecycle[key].retired && db.lifecycle[key].state == UNESTABLISHED
    requires Listed(db, key) && key !in db.snapshots
    ensures Refreshed(env, db, key) == Done(db)
  {
    assert Head(env, db, key) == Done(Walked(db, db.lifecycle[key]));
    assert Read(db, key, env.policy.pending) == None;
  }

  /** A suspended partition's refresh publishes and does nothing else. */
  lemma SuspendedRefreshes(env: Env, db: Db, key: PartitionKey)
    requires Bare(db) && key in db.lifecycle && !db.lifecycle[key].retired && db.lifecycle[key].state == SUSPENDED
    requires Listed(db, key) && key.policyVersion == env.policy.version
    ensures Refreshed(env, db, key).Done? && Alike(db, Refreshed(env, db, key).value)
    ensures var b := Refreshed(env, db, key).value; b == db.(snapshots := b.snapshots) && b.snapshots.Keys == db.snapshots.Keys + {key}
  {
    hide Expired, Tail;
    assert Head(env, db, key) == Done(Walked(db, db.lifecycle[key]));
  }

  /** What retiring a partition by churn changes, as far as these runs look. */
  ghost predicate Retires(a: Db, b: Db, key: PartitionKey) {
    && key in a.lifecycle && Alike(a, b) && b.lifecycle == a.lifecycle[key := a.lifecycle[key].(retired := true)]
    && b.lineage == a.lineage && b.alphas == a.alphas && b.snapshots.Keys == a.snapshots.Keys
  }

  lemma RetiringWorks(db: Db, key: PartitionKey) returns (b: Db)
    requires Bare(db) && key in db.lifecycle
    ensures Retired(db, key, db.lifecycle[key], true) == Done(Walked(b, db.lifecycle[key].(retired := true))) && Retires(db, b, key)
  {
    var saved := Saved(db, key, db.lifecycle[key].(retired := true));
    var invalidated := Invalidated(saved, key, "PARTITION_RETIRED");
    InvalidatedShape(saved, key, "PARTITION_RETIRED");
    b := RetirementLogged(invalidated, key, db.lifecycle[key]);
    assert Retires(db, b, key);
  }

  lemma InvalidatedShape(db: Db, key: PartitionKey, reason: string)
    ensures var b := Invalidated(db, key, reason); b == db.(snapshots := b.snapshots) && b.snapshots.Keys == db.snapshots.Keys
  {}

  lemma RetirementLogged(db: Db, key: PartitionKey, record: Record) returns (b: Db)
    requires Active(db, CONTROLLER)
    ensures var logged := Logged(db, key, Some(record.state), record.(retired := true), None);
            logged.Done? && TokensRevoked(logged.value, PartitionRetired, OfPartitions(logged.value, {key}), CONTROLLER) == Done(b)
    ensures b == db.(tokens := b.tokens, ledger := b.ledger)
  {
    var logged := Logged(db, key, Some(record.state), record.(retired := true), None).value;
    b := TokensRevoked(logged, PartitionRetired, OfPartitions(logged, {key}), CONTROLLER).value;
  }

  lemma ChurnBegins(env: Env, db: Db, old_: PartitionKey, new_: PartitionKey, db1: Db, db2: Db, record: Record)
    requires Refreshed(env, db, old_) == Done(db1) && old_ in db1.lifecycle
    requires Retired(db1, old_, db1.lifecycle[old_], true) == Done(Walked(db2, record))
    ensures ChurnBegun(env, db, old_, new_) == Done(Walked(Linked(db2, old_, new_), record))
  {}

  // ---- a suspension passed on too late -------------------------------------------------------------------------

  /** What a first severe failure leaves. */
  ghost predicate Falls(a: Db, b: Db, key: PartitionKey, reason: string) {
    && Alike(a, b) && Listed(b, key) && b.lineage == a.lineage && b.snapshots.Keys == a.snapshots.Keys + {key}
    && b.lifecycle == a.lifecycle[key := NewRecord(false).(state := SUSPENDED, suspensionReason := Some(reason))]
  }

  /** A severe failure of an unknown partition registers it and suspends it. */
  lemma NewcomerSuspended(env: Env, db: Db, key: PartitionKey, reason: string) returns (b: Db)
    requires Bare(db) && key !in db.lifecycle && SuspendedPredecessors(db, key) == {} && key.policyVersion == env.policy.version
    requires key !in db.snapshots
    ensures SevereRecorded(env, db, key, reason) == Done(b) && Falls(db, b, key, reason)
  {
    var db1 := NewcomerRefreshes(env, db, key);
    b := NewcomerMarked(env, db1, key, reason);
    RegistersThenFalls(db, db1, b, key, reason);
  }

  lemma RegistersThenFalls(db: Db, db1: Db, b: Db, key: PartitionKey, reason: string)
    requires Registers(db, db1, key) && Falls(db1, b, key, reason)
    ensures Falls(db, b, key, reason)
  {}

  lemma NewcomerMarked(env: Env, db: Db, key: PartitionKey, reason: string) returns (b: Db)
    requires Bare(db) && key in db.lifecycle && db.lifecycle[key] == NewRecord(false) && Listed(db, key)
    ensures SeverityMarked(env, db, key, reason) == Done(b) && Falls(db, b, key, reason)
  {
    var record := NewRecord(false).(suspensionReason := Some(reason));
    NewcomerFalls(db, key, record);
    var w := Moved(db, key, record, SEVERE_FAILURE).value;
    SuspensionPublished(env, w.db, key, w.record);
    b := Synced(env, w.db, key, w.record).value;
  }

  lemma NewcomerFalls(db: Db, key: PartitionKey, record: Record)
    requires Bare(db) && key in db.lifecycle && record.state == UNESTABLISHED
    ensures Moved(db, key, record, SEVERE_FAILURE).Done?
    ensures var w := Moved(db, key, record, SEVERE_FAILURE).value;
            && Bare(w.db) && w.record == record.(state := SUSPENDED) && w.db.lifecycle == db.lifecycle[key := w.record]
            && w.db.alphas == db.alphas && w.db.snapshots == db.snapshots && w.db.lineage == db.lineage
  {}

  lemma SuspensionPublished(env: Env, db: Db, key: PartitionKey, record: Record)
    requires record.state == SUSPENDED && AlphaOf(db.alphas, key).Some?
    ensures Synced(env, db, key, record).Done?
    ensures var b := Synced(env, db, key, record).value; b == db.(snapshots := b.snapshots) && b.snapshots.Keys == db.snapshots.Keys + {key}
  {}

  /** What a churn leaves that finds its first partition unknown. */
  ghost predicate Renames(a: Db, b: Db, old_: PartitionKey, new_: PartitionKey) {
    && Alike(a, b) && Listed(b, old_) && Listed(b, new_) && b.lineage == a.lineage + {(old_, new_)}
    && b.snapshots.Keys == a.snapshots.Keys
    && b.lifecycle == a.lifecycle[old_ := NewRecord(false).(retired := true)][new_ := NewRecord(false)]
  }

  /** A churn between two unknown partitions registers both and retires the first. */
  lemma NewcomersChurn(env: Env, db: Db, old_: PartitionKey, new_: PartitionKey) returns (b: Db)
    requires Bare(db) && old_ !in db.lifecycle && new_ !in db.lifecycle && old_ != new_
    requires old_.policyVersion == env.policy.version && new_.policyVersion == env.policy.version
    requires old_ !in db.snapshots && new_ !in db.snapshots && db.lineage == {}
    ensures Churned(env, db, old_, new_) == Done(b) && Renames(db, b, old_, new_)
  {
    hide Refreshed, ChurnBegun;
    var linked := NewcomerChurnBegins(env, db, old_, new_);
    NoneSuspended(linked, old_, new_);
    b := NewcomerRefreshes(env, linked, new_);
  }

  lemma NewcomerChurnBegins(env: Env, db: Db, old_: PartitionKey, new_: PartitionKey) returns (b: Db)
    requires Bare(db) && old_ !in db.lifecycle && old_ != new_ && old_.policyVersion == env.policy.version
    requires old_ !in db.snapshots && db.lineage == {}
    ensures ChurnBegun(env, db, old_, new_) == Done(Walked(b, NewRecord(false).(retired := true)))
    ensures Alike(db, b) && Listed(b, old_) && b.lineage == {(old_, new_)} && b.snapshots.Keys == db.snapshots.Keys
    ensures b.lifecycle == db.lifecycle[old_ := NewRecord(false).(retired := true)]
  {
    hide Refreshed, Retired, ChurnBegun;
    assert SuspendedPredecessors(db, old_) == {};
    var db1 := NewcomerRefreshes(env, db, old_);
    var db2 := RetiringWorks(db1, old_);
    ChurnBegins(env, db, old_, new_, db1, db2, NewRecord(false).(retired := true));
    b := Linked(db2, old_, new_);
  }

  lemma NoneSuspended(db: Db, old_: PartitionKey, new_: PartitionKey)
    requires db.lineage == {(old_, new_)} && old_ in db.lifecycle && !Suspends(db.lifecycle[old_])
    ensures SuspendedPredecessors(db, new_) == {}
  {}

  /** What a churn of a suspended partition onto a retired one leaves. */
  ghost predicate FlagsRetired(a: Db, b: Db, old_: PartitionKey, new_: PartitionKey)
    requires old_ in a.lifecycle
  {
    && b.lineage == a.lineage + {(old_, new_)}
    && b.lifecycle == a.lifecycle[old_ := a.lifecycle[old_].(retired := true)][new_ := NewRecord(true).(retired := true)]
  }

  /** It flags the retired one and nothing behind it. */
  lemma SuspendedOntoRetired(env: Env, db: Db, old_: PartitionKey, new_: PartitionKey) returns (b: Db)
    requires Bare(db) && old_ in db.lifecycle && new_ in db.lifecycle && old_ != new_ && Listed(db, old_) && Listed(db, new_)
    requires db.lifecycle[old_].state == SUSPENDED && !db.lifecycle[old_].retired && old_.policyVersion == env.policy.version
    requires db.lifecycle[new_] == NewRecord(false).(retired := true) && new_ !in db.snapshots
    ensures Churned(env, db, old_, new_) == Done(b) && FlagsRetired(db, b, old_, new_)
  {
    SuspendedRefreshes(env, db, old_);
    var db1 := Refreshed(env, db, old_).value;
    var db2 := RetiringWorks(db1, old_);
    var gone := db.lifecycle[old_].(retired := true);
    ChurnBegins(env, db, old_, new_, db1, db2, gone);
    var linked := Linked(db2, old_, new_);
    RetiredRefreshes(env, linked, new_);
    FlaggingWorks(linked, new_);
    b := LineageFlagged(linked, new_, linked.lifecycle[new_]).value.db;
  }

  lemma FlaggingWorks(db: Db, key: PartitionKey)
    requires Bare(db) && key in db.lifecycle
    ensures LineageFlagged(db, key, db.lifecycle[key]).Done?
    ensures var b := LineageFlagged(db, key, db.lifecycle[key]).value.db;
            b.lineage == db.lineage && b.lifecycle == db.lifecycle[key := db.lifecycle[key].(lineageSuspended := true)]
  {}

  /** Three transactions: a failure suspends one partition, a second is renamed to a third, and the first is renamed
      to the second. */
  function StrandingRun(m: Moment, old_: PartitionKey, new_: PartitionKey, last: PartitionKey): Trace {
    [(m, Operate(RecordSevere(old_, "severe"))), (m, Operate(Churn(new_, last))), (m, Operate(Churn(old_, new_)))]
  }

  /** What goes wrong in the last of them. */
  ghost predicate StrandedBetween(version: string, before: Db, after: Db, old_: PartitionKey, new_: PartitionKey, last: PartitionKey) {
    && StrandsSuccessor(before, Churn(old_, new_), {})
    && Descending(version, {})(before) && !Descending(version, {})(after)
    && RetiredAs(new_, NewRecord(false).(retired := true))(before) && RetiredAs(new_, NewRecord(true).(retired := true))(after)
    && (new_, last) in after.lineage && Loose(after, last)
  }

  /** The input on which suspension does not survive renaming and a retired record changes: the retired partition is
      flagged after its own successor was created, and the successor stays free. */
  lemma ChurnOntoRetiredStrands(host: Host, policy: Policy, rules: Risk.Rules, m: Moment,
                                old_: PartitionKey, new_: PartitionKey, last: PartitionKey)
    requires old_ != new_ && old_ != last && new_ != last
    requires old_.policyVersion == policy.version && new_.policyVersion == policy.version && last.policyVersion == policy.version
    ensures var trace, s := StrandingRun(m, old_, new_, last), System(EMPTY, policy, rules);
            StrandedBetween(policy.version, Run(host, s, trace[..2]).db, Run(host, s, trace).db, old_, new_, last)
  {
    var s := System(EMPTY, policy, rules);
    var db1, db2, db3 := StrandingSteps(EnvOf(host, s, m), host.keyring, old_, new_, last);
    ThreeOperations(host, s, m, RecordSevere(old_, "severe"), Churn(new_, last), Churn(old_, new_), db1, db2, db3);
  }

  lemma StrandingSteps(env: Env, keyring: set<string>, old_: PartitionKey, new_: PartitionKey, last: PartitionKey)
    returns (db1: Db, db2: Db, db3: Db)
    requires old_ != new_ && old_ != last && new_ != last
    requires old_.policyVersion == env.policy.version && new_.policyVersion == env.policy.version && last.policyVersion == env.policy.version
    ensures Operated(env, keyring, EMPTY, RecordSevere(old_, "severe")) == Done(db1)
    ensures Operated(env, keyring, db1, Churn(new_, last)) == Done(db2) && Operated(env, keyring, db2, Churn(old_, new_)) == Done(db3)
    ensures StrandedBetween(env.policy.version, db2, db3, old_, new_, last)
  {
    db1 := FirstStep(env, keyring, old_);
    db2 := SecondStep(env, keyring, db1, old_, new_, last);
    db3 := ThirdStep(env, keyring, db2, old_, new_);
    SuccessorStranded(env.policy.version, db2, db3, old_, new_, last);
  }

  lemma FirstStep(env: Env, keyring: set<string>, key: PartitionKey) returns (b: Db)
    requires key.policyVersion == env.policy.version
    ensures Operated(env, keyring, EMPTY, RecordSevere(key, "severe")) == Done(b) && Falls(EMPTY, b, key, "severe")
  {
    hide Refreshed, Expired, Adjudicated, SevereRecorded, OracleReplaced, Churned, Released;
    b := NewcomerSuspended(env, EMPTY, key, "severe");
  }

  lemma ChurnDone(env: Env, keyring: set<string>, db: Db, old_: PartitionKey, new_: PartitionKey, b: Db)
    requires Churned(env, db, old_, new_) == Done(b)
    ensures Operated(env, keyring, db, Churn(old_, new_)) == Done(b)
  {
    ChurnIsOperation(env, keyring, db, old_, new_);
  }

  lemma ChurnIsOperation(env: Env, keyring: set<string>, db: Db, old_: PartitionKey, new_: PartitionKey)
    ensures Operated(env, keyring, db, Churn(old_, new_)) == Churned(env, db, old_, new_)
  {
    hide Churned;
  }

  lemma SecondStep(env: Env, keyring: set<string>, db: Db, old_: PartitionKey, new_: PartitionKey, last: PartitionKey) returns (b: Db)
    requires old_ != new_ && old_ != last && new_ != last && Falls(EMPTY, db, old_, "severe")
    requires new_.policyVersion == env.policy.version && last.policyVersion == env.policy.version
    ensures Operated(env, keyring, db, Churn(new_, last)) == Done(b) && Renames(db, b, new_, last)
  {
    b := NewcomersChurn(env, db, new_, last);
    ChurnDone(env, keyring, db, new_, last, b);
  }

  lemma ThirdStep(env: Env, keyring: set<string>, db: Db, old_: PartitionKey, new_: PartitionKey) returns (b: Db)
    requires Bare(db) && old_ in db.lifecycle && new_ in db.lifecycle && old_ != new_ && Listed(db, old_) && Listed(db, new_)
    requires db.lifecycle[old_].state == SUSPENDED && !db.lifecycle[old_].retired && old_.policyVersion == env.policy.version
    requires db.lifecycle[new_] == NewRecord(false).(retired := true) && new_ !in db.snapshots
    ensures Operated(env, keyring, db, Churn(old_, new_)) == Done(b) && FlagsRetired(db, b, old_, new_)
  {
    b := SuspendedOntoRetired(env, db, old_, new_);
    ChurnDone(env, keyring, db, old_, new_, b);
  }

  lemma SuccessorStranded(version: string, db: Db, after: Db, old_: PartitionKey, new_: PartitionKey, last: PartitionKey)
    requires old_ != new_ && old_ != last && new_ != last
    requires old_.policyVersion == version && new_.policyVersion == version && last.policyVersion == version
    requires db.lifecycle.Keys == {old_, new_, last} && db.lineage == {(new_, last)}
    requires Suspends(db.lifecycle[old_]) && !db.lifecycle[old_].retired
    requires db.lifecycle[new_] == NewRecord(false).(retired := true) && db.lifecycle[last] == NewRecord(false)
    requires FlagsRetired(db, after, old_, new_)
    ensures StrandedBetween(version, db, after, old_, new_, last)
  {
    assert (new_, last) in db.lineage && Loose(db, last);
    assert !EdgeHolds(after, (new_, last), {});
    forall e | e in db.lineage ensures EdgeHolds(db, e, {}) {}
  }

  lemma RunDone(host: Host, s: System, trace: Trace, m: Moment, op: Operation, before: System, db: Db)
    requires Run(host, s, trace) == before && Operated(EnvOf(host, before, m), host.keyring, before.db, op) == Done(db)
    ensures Run(host, s, trace + [(m, Operate(op))]) == before.(db := db)
  {
    hide Operated;
    RunAppend(host, s, trace, m, Operate(op));
  }

  lemma ThreeOperations(host: Host, s: System, m: Moment, a: Operation, b: Operation, c: Operation, db1: Db, db2: Db, db3: Db)
    requires var env := EnvOf(host, s, m);
             && Operated(env, host.keyring, s.db, a) == Done(db1) && Operated(env, host.keyring, db1, b) == Done(db2)
             && Operated(env, host.keyring, db2, c) == Done(db3)
    ensures var trace := [(m, Operate(a)), (m, Operate(b)), (m, Operate(c))];
            Run(host, s, trace[..2]).db == db2 && Run(host, s, trace).db == db3
  {
    hide Operated, After, Effect;
    var one, two := [(m, Operate(a))], [(m, Operate(a)), (m, Operate(b))];
    var three := [(m, Operate(a)), (m, Operate(b)), (m, Operate(c))];
    RunDone(host, s, [], m, a, s, db1);
    assert [] + one == one;
    RunDone(host, s, one, m, b, s.(db := db1), db2);
    assert one + [(m, Operate(b))] == two;
    RunDone(host, s, two, m, c, s.(db := db2), db3);
    assert two + [(m, Operate(c))] == three && three[..2] == two;
  }

  // ---- two overdue trials ----------------------------------------------------------------------------------------

  predicate Trialable(route: Route) {
    route == Autonomous || route == Audit || route == HumanApproval
  }

  /** One live partition with no snapshot yet, no token, and the given trials, none of them resolved. */
  ghost predicate Waiting(db: Db, key: PartitionKey, trials: seq<Trial>) {
    && db.lifecycle == map[key := NewRecord(false)] && Listed(db, key) && Active(db, CONTROLLER)
    && db.tokens == map[] && db.snapshots == map[] && db.labels == map[] && db.lineage == {} && db.trials == trials
    && FloorsLogged(db, key)
  }

  lemma FirstRefresh(env: Env, keyring: set<string>, key: PartitionKey) returns (b: Db)
    requires key.policyVersion == env.policy.version
    ensures Operated(env, keyring, EMPTY, Refresh(key)) == Done(b) && Waiting(b, key, []) && b.decisions == map[] && b.epochs == map[]
  {
    b := NewcomerRefreshes(env, EMPTY, key);
  }

  lemma CommitWaits(db: Db, key: PartitionKey, trials: seq<Trial>, d: G.Decision) returns (b: Db)
    requires Waiting(db, key, trials) && d.id !in db.decisions
    ensures G.Recorded(db, d) == Done(b) && Waiting(b, key, trials)
    ensures b.decisions == db.decisions[d.id := Committed(d.proposal, d.route, |db.ledger|)] && KeepsLevels(db, b)
  {
    b := G.Recorded(db, d).value;
  }

  lemma FreezeAllowed(db: Db, key: PartitionKey, trials: seq<Trial>, id: string, p: Proposal)
    requires Waiting(db, key, trials) && id in db.decisions && db.decisions[id].proposal == p && Trialable(db.decisions[id].route)
    requires Find(trials, id).None? && forall t :: t in trials ==> t.proposal != p
    ensures FreezeRefusal(db, id, p).None?
  {}

  lemma FreezeWaits(db: Db, key: PartitionKey, trials: seq<Trial>, now: int, id: string, p: Proposal) returns (b: Db, t: Trial)
    requires Waiting(db, key, trials) && id in db.decisions && db.decisions[id].proposal == p && Trialable(db.decisions[id].route)
    requires Find(trials, id).None? && p.partition == key && forall t :: t in trials ==> t.proposal != p
    ensures Frozen(db, now, id, p) == Done(b) && Waiting(b, key, trials + [t]) && b.decisions == db.decisions
    ensures t.id == id && t.partition == key && t.proposal == p && t.frozenAt == now
    ensures t.provenance in COUNTING && t.sequence > Floor(b, key) && t.sequence < |b.ledger| && KeepsLevels(db, b)
  {
    FreezeAllowed(db, key, trials, id, p);
    b, t := NewTrialWaits(db, key, trials, now, id, p);
  }

  lemma NewTrialWaits(db: Db, key: PartitionKey, trials: seq<Trial>, now: int, id: string, p: Proposal) returns (b: Db, t: Trial)
    requires Waiting(db, key, trials) && FreezeRefusal(db, id, p).None? && p.partition == key && Active(db, CONTROLLER)
    ensures Frozen(db, now, id, p) == Done(b) && Waiting(b, key, trials + [t]) && b.decisions == db.decisions
    ensures t.id == id && t.partition == key && t.proposal == p && t.frozenAt == now
    ensures t.provenance in COUNTING && t.sequence > Floor(b, key) && t.sequence < |b.ledger| && KeepsLevels(db, b)
  {
    b := Frozen(db, now, id, p).value;
    t := b.trials[|trials|];
  }

  /** A partition is registered, and two decisions are committed and frozen. */
  function JammingRun(at: Moment, key: PartitionKey, c: G.Decision, d: G.Decision): Trace {
    [(at, Operate(Refresh(key))), (at, Commit(c)), (at, Operate(Freeze(c.id, c.proposal))),
     (at, Commit(d)), (at, Operate(Freeze(d.id, d.proposal)))]
  }

  predicate TwoDecisions(key: PartitionKey, c: G.Decision, d: G.Decision) {
    && c.id != d.id && c.proposal != d.proposal && c.proposal.partition == key && d.proposal.partition == key
    && Trialable(c.route) && Trialable(d.route)
  }

  lemma StepDone(host: Host, s: System, trace: Trace, m: Moment, step: Step, before: System, db: Db)
    requires Run(host, s, trace) == before && Effect(host, before, m, step) == Done(db) && !step.ChangePolicy? && !step.ChangeRules?
    ensures Run(host, s, trace + [(m, step)]) == before.(db := db)
  {
    hide Effect;
    RunAppend(host, s, trace, m, step);
  }

  lemma JammingSteps(env: Env, keyring: set<string>, key: PartitionKey, c: G.Decision, d: G.Decision)
    returns (db1: Db, db2: Db, db3: Db, db4: Db, db5: Db, a: Trial, b: Trial)
    requires key.policyVersion == env.policy.version && TwoDecisions(key, c, d)
    ensures Operated(env, keyring, EMPTY, Refresh(key)) == Done(db1)
    ensures G.Recorded(db1, c) == Done(db2) && Frozen(db2, env.now, c.id, c.proposal) == Done(db3)
    ensures G.Recorded(db3, d) == Done(db4) && Frozen(db4, env.now, d.id, d.proposal) == Done(db5)
    ensures Waiting(db5, key, [a, b]) && a.id == c.id && b.id == d.id && a.partition == key
    ensures a.frozenAt == env.now && b.frozenAt == env.now
  {
    hide Refreshed, Expired, Adjudicated, SevereRecorded, OracleReplaced, Churned, Released, FreezeRefusal;
    db1 := FirstRefresh(env, keyring, key);
    db2 := CommitWaits(db1, key, [], c);
    db3, a := FreezeWaits(db2, key, [], env.now, c.id, c.proposal);
    assert [] + [a] == [a];
    db4 := CommitWaits(db3, key, [a], d);
    assert [a][1..] == [];
    db5, b := FreezeWaits(db4, key, [a], env.now, d.id, d.proposal);
    assert [a] + [b] == [a, b];
  }

  lemma JammingStates(host: Host, s: System, at: Moment, key: PartitionKey, c: G.Decision, d: G.Decision,
                      db1: Db, db2: Db, db3: Db, db4: Db, db5: Db)
    requires Effect(host, s, at, Operate(Refresh(key))) == Done(db1)
    requires Effect(host, s.(db := db1), at, Commit(c)) == Done(db2)
    requires Effect(host, s.(db := db2), at, Operate(Freeze(c.id, c.proposal))) == Done(db3)
    requires Effect(host, s.(db := db3), at, Commit(d)) == Done(db4)
    requires Effect(host, s.(db := db4), at, Operate(Freeze(d.id, d.proposal))) == Done(db5)
    ensures Run(host, s, JammingRun(at, key, c, d)) == s.(db := db5)
  {
    hide Operated, Redeemed, Permitted;
    var one := [(at, Operate(Refresh(key)))];
    var two := one + [(at, Commit(c))];
    var three := two + [(at, Operate(Freeze(c.id, c.proposal)))];
    var four := three + [(at, Commit(d))];
    StepDone(host, s, [], at, Operate(Refresh(key)), s, db1);
    assert [] + one == one;
    StepDone(host, s, one, at, Commit(c), s.(db := db1), db2);
    StepDone(host, s, two, at, Operate(Freeze(c.id, c.proposal)), s.(db := db2), db3);
    StepDone(host, s, three, at, Commit(d), s.(db := db3), db4);
    StepDone(host, s, four, at, Operate(Freeze(d.id, d.proposal)), s.(db := db4), db5);
    assert four + [(at, Operate(Freeze(d.id, d.proposal)))] == JammingRun(at, key, c, d);
  }

  lemma WaitingJams(db: Db, key: PartitionKey, a: Trial, b: Trial, cutoff: int, version: string)
    requires Waiting(db, key, [a, b]) && a.partition == key && key.policyVersion == version
    requires a.frozenAt < cutoff && b.frozenAt < cutoff
    ensures Jam(version, cutoff, 0, 1)(db)
  {}

  lemma JammingEffects(host: Host, s: System, at: Moment, key: PartitionKey, c: G.Decision, d: G.Decision) returns (db: Db)
    requires s.db == EMPTY && key.policyVersion == s.policy.version && TwoDecisions(key, c, d)
    ensures Run(host, s, JammingRun(at, key, c, d)) == s.(db := db)
    ensures Jam(s.policy.version, at.now + 1, 0, 1)(db) && db.trials[0].partition == key
  {
    hide G.Recorded, Frozen, Refreshed;
    var db1, db2, db3, db4, db5, a, b := JammingSteps(EnvOf(host, s, at), host.keyring, key, c, d);
    JammingStates(host, s, at, key, c, d, db1, db2, db3, db4, db5);
    WaitingJams(db5, key, a, b, at.now + 1, s.policy.version);
    db := db5;
  }

  /** From the empty database: a partition is registered, two trials of it are frozen, no label comes, and after the
      deadline no refresh of it succeeds any more. */
  lemma OverdueTrialsRaise(host: Host, policy: Policy, rules: Risk.Rules, at: Moment, key: PartitionKey, c: G.Decision, d: G.Decision, late: Moment)
    requires key.policyVersion == policy.version && TwoDecisions(key, c, d) && at.now < late.now - host.deadline
    ensures var after := Run(host, System(EMPTY, policy, rules), JammingRun(at, key, c, d));
            Jammed(at.now + 1, 0, 1)(after) && Effect(host, after, late, Operate(Refresh(key))) == Raised
  {
    hide Refreshed, Operated;
    var s := System(EMPTY, policy, rules);
    var db := JammingEffects(host, s, at, key, c, d);
    EmptyIsSound(policy, rules);
    RunSound(host, s, JammingRun(at, key, c, d));
    JammedKeyRaises(host, s.(db := db), late, key, at.now + 1);
  }

  lemma JammedKeyRaises(host: Host, s: System, late: Moment, key: PartitionKey, cutoff: int)
    requires Jammed(cutoff, 0, 1)(s) && |s.db.trials| > 0 && s.db.trials[0].partition == key && cutoff <= late.now - host.deadline
    ensures Effect(host, s, late, Operate(Refresh(key))) == Raised
  {
    hide Refreshed;
    JammedRefresh(EnvOf(host, s, late), s.db, key, cutoff, 0, 1);
  }

  // ---- a move logged twice ---------------------------------------------------------------------------------------

  /** The entry of a first trial's admission. */
  function AdmissionNote(key: PartitionKey): Body {
    Transition(key, Some(UNESTABLISHED), NewRecord(false).(state := QUALIFYING), Some(TRIAL_ADMITTED))
  }

  /** Too little evidence to be autonomous, enough to qualify. */
  ghost predicate Immature(env: Env, db: Db, key: PartitionKey) {
    var r := Read(db, key, env.policy.pending);
    r.Some? && 1 <= r.value.N() < env.policy.nMin
  }

  /** What admitting a first trial changes. */
  ghost predicate AdmitsFirst(a: Db, b: Db, key: PartitionKey) {
    && b == a.(snapshots := b.snapshots, lifecycle := a.lifecycle[key := NewRecord(false).(state := QUALIFYING)],
               ledger := a.ledger + [Entry(CONTROLLER, AdmissionNote(key))])
  }

  /** A tail that holds the record of a newcomer admits its first trial, whatever the stored state. */
  lemma TailAdmits(env: Env, db: Db, key: PartitionKey) returns (b: Db)
    requires Immature(env, db, key) && Active(db, CONTROLLER) && AlphaOf(db.alphas, key).Some?
    ensures Tail(env, db, key, NewRecord(false)) == Done(b) && AdmitsFirst(db, b, key)
  {
    hide Synced, Admitted, Gated;
    var record, reading := NewRecord(false), Read(db, key, env.policy.pending);
    SyncWorks(env, db, key, record);
    var db1 := Synced(env, db, key, record).value;
    var db2 := FirstAdmitted(db1, key, reading);
    StaysImmature(env, db2, key, record.(state := QUALIFYING), reading);
    SyncWorks(env, db2, key, record.(state := QUALIFYING));
    b := Synced(env, db2, key, record.(state := QUALIFYING)).value;
  }

  lemma SyncWorks(env: Env, db: Db, key: PartitionKey, record: Record)
    requires AlphaOf(db.alphas, key).Some?
    ensures Synced(env, db, key, record).Done?
    ensures var b := Synced(env, db, key, record).value; b == db.(snapshots := b.snapshots)
  {
    SyncedShape(env, db, key, record);
  }

  lemma FirstAdmitted(db: Db, key: PartitionKey, reading: Option<Reading>) returns (b: Db)
    requires reading.Some? && reading.value.N() >= 1 && Active(db, CONTROLLER)
    ensures Admitted(db, key, NewRecord(false), reading) == Done(Walked(b, NewRecord(false).(state := QUALIFYING)))
    ensures b == db.(lifecycle := db.lifecycle[key := NewRecord(false).(state := QUALIFYING)],
                     ledger := db.ledger + [Entry(CONTROLLER, AdmissionNote(key))])
  {
    b := Admitted(db, key, NewRecord(false), reading).value.db;
  }

  lemma StaysImmature(env: Env, db: Db, key: PartitionKey, record: Record, reading: Option<Reading>)
    requires record.state == QUALIFYING && reading.Some? && reading.value.N() < env.policy.nMin
    ensures Gated(env, db, key, record, reading) == Done(Walked(db, record))
  {
    assert EVIDENCE_IMMATURE in GateReasons(env, db, key, record, reading);
  }

  lemma OneCensored(env: Env, db: Db, key: PartitionKey, t: Trial) returns (b: Db)
    requires Waiting(db, key, [t]) && t.partition == key && t.provenance in COUNTING && t.sequence > Floor(db, key)
    requires t.frozenAt < env.now - env.deadline && env.policy.nMin >= 2
    ensures LateTrials(env, db) == [t] && CensoredAt(db, t.id, env.now) == Done(b)
    ensures b == db.(labels := map[t.id := Censored(env.now)], ledger := b.ledger)
    ensures LateTrials(env, b) == [] && Immature(env, b, key)
  {
    b := CensoredAt(db, t.id, env.now).value;
    OneOverdue(t, env.now - env.deadline, Censored(env.now));
    assert b.labels == map[t.id := Censored(env.now)];
    OneReading(t, b.labels, key, Floor(b, key), env.policy.pending);
  }

  lemma OneOverdue(t: Trial, cutoff: int, r: Resolution)
    requires t.frozenAt < cutoff
    ensures Overdue([t], map[], cutoff) == [t] && Overdue([t], map[t.id := r], cutoff) == []
  {
    assert [t][1..] == [];
  }

  lemma OneReading(t: Trial, labels: map<string, Resolution>, key: PartitionKey, floor: int, pending: PendingRule)
    requires t.id in labels && labels[t.id].Censored? && Counted(t, key, floor, COUNTING)
    ensures ReadFrom([t], labels, key, floor, pending) == Some(Reading(0, 1, labels[t.id].at))
  {
    assert [t][..0] == [];
    assert Tally([t], labels, key, floor, COUNTING) == Counts(1, 0, 0, 1, 0);
    assert EvidenceTime([t][..0], labels, key, floor) == None;
  }

  lemma OnlyKeyWalked(env: Env, db: Db, key: PartitionKey, b: Db)
    requires Walkable(db, key) && WalkDeferring(env, db, key) == Done(Deferral(b, {}))
    ensures OnLabel(env, db, key) == Done(b)
  {
    hide WalkDeferring;
    assert env.pick(db, {key}) in {key};
    var none: set<PartitionKey> := {key} - {key} + {};
    assert none == {} && Drained(env, b, none) == Done(b);
    assert Drained(env, db, {key}) == Drained(env, b, none);
  }

  lemma WalkOfNewcomer(env: Env, db: Db, key: PartitionKey, b: Db)
    requires key in db.lifecycle && db.lifecycle[key] == NewRecord(false) && Listed(db, key) && key.policyVersion == env.policy.version
    requires LateTrials(env, db) == [] && Tail(env, db, key, NewRecord(false)) == Done(b)
    ensures WalkDeferring(env, db, key) == Done(Deferral(b, {}))
  {
    assert Head(env, db, key) == Done(Walked(db, NewRecord(false)));
    assert AllCensored(db, [], env.now) == Done(db) && PartitionsOf([]) == {};
  }

  lemma RefreshOfOne(env: Env, db: Db, key: PartitionKey, t: Trial, db1: Db, db2: Db, db3: Db)
    requires Waiting(db, key, [t]) && t.partition == key && key.policyVersion == env.policy.version
    requires LateTrials(env, db) == [t] && CensoredAt(db, t.id, env.now) == Done(db1)
    requires OnLabel(env, db1, key) == Done(db2) && Tail(env, db2, key, NewRecord(false)) == Done(db3)
    ensures Refreshed(env, db, key) == Done(db3)
  {
    assert Head(env, db, key) == Done(Walked(db, NewRecord(false)));
    assert [t][1..] == [] && EachCensored(env, db2, []) == Done(db2);
  }

  /** Both the walk inside the censoring and the walk around it admit the first trial. */
  lemma AdmittedTwice(env: Env, db: Db, key: PartitionKey, t: Trial) returns (b: Db, i: nat, j: nat)
    requires Waiting(db, key, [t]) && t.partition == key && t.provenance in COUNTING && t.sequence > Floor(db, key)
    requires t.frozenAt < env.now - env.deadline && env.policy.nMin >= 2 && key.policyVersion == env.policy.version
    ensures Refreshed(env, db, key) == Done(b)
    ensures i < j < |b.ledger| && b.ledger[i].body == b.ledger[j].body == AdmissionNote(key)
  {
    hide Refreshed, OnLabel, Tail, WalkDeferring, CensoredAt;
    var db1 := OneCensored(env, db, key, t);
    var db2 := TailAdmits(env, db1, key);
    WalkOfNewcomer(env, db1, key, db2);
    OnlyKeyWalked(env, db1, key, db2);
    assert Read(db2, key, env.policy.pending) == Read(db1, key, env.policy.pending);
    b := TailAdmits(env, db2, key);
    RefreshOfOne(env, db, key, t, db1, db2, b);
    i, j := |db1.ledger|, |db2.ledger|;
  }

  /** A partition is registered and one decision is committed and frozen. */
  function OneTrialRun(at: Moment, key: PartitionKey, c: G.Decision): Trace {
    [(at, Operate(Refresh(key))), (at, Commit(c)), (at, Operate(Freeze(c.id, c.proposal)))]
  }

  ghost predicate LoggedTwice(db: Db, body: Body) {
    exists i, j :: 0 <= i < j < |db.ledger| && db.ledger[i].body == db.ledger[j].body == body
  }

  lemma OneTrialSteps(env: Env, keyring: set<string>, key: PartitionKey, c: G.Decision) returns (db1: Db, db2: Db, db3: Db, t: Trial)
    requires key.policyVersion == env.policy.version && c.proposal.partition == key && Trialable(c.route)
    ensures Operated(env, keyring, EMPTY, Refresh(key)) == Done(db1)
    ensures G.Recorded(db1, c) == Done(db2) && Frozen(db2, env.now, c.id, c.proposal) == Done(db3)
    ensures Waiting(db3, key, [t]) && t.partition == key && t.frozenAt == env.now && t.provenance in COUNTING && Floor(db3, key) < t.sequence
  {
    db1 := FirstRefresh(env, keyring, key);
    db2 := CommitWaits(db1, key, [], c);
    db3, t := FreezeWaits(db2, key, [], env.now, c.id, c.proposal);
    assert [] + [t] == [t];
  }

  lemma OneTrialState(host: Host, s: System, at: Moment, key: PartitionKey, c: G.Decision, db1: Db, db2: Db, db3: Db)
    requires Effect(host, s, at, Operate(Refresh(key))) == Done(db1)
    requires Effect(host, s.(db := db1), at, Commit(c)) == Done(db2)
    requires Effect(host, s.(db := db2), at, Operate(Freeze(c.id, c.proposal))) == Done(db3)
    ensures Run(host, s, OneTrialRun(at, key, c)) == s.(db := db3)
  {
    hide Effect;
    var one := [(at, Operate(Refresh(key)))];
    var two := one + [(at, Commit(c))];
    StepDone(host, s, [], at, Operate(Refresh(key)), s, db1);
    assert [] + one == one;
    StepDone(host, s, one, at, Commit(c), s.(db := db1), db2);
    StepDone(host, s, two, at, Operate(Freeze(c.id, c.proposal)), s.(db := db2), db3);
    assert two + [(at, Operate(Freeze(c.id, c.proposal)))] == OneTrialRun(at, key, c);
  }

  /** From the empty database: a partition is registered, one trial of it is frozen, no label comes, and the refresh
      after the deadline, which succeeds, logs the same move twice. */
  lemma MoveLoggedTwice(host: Host, policy: Policy, rules: Risk.Rules, at: Moment, key: PartitionKey, c: G.Decision, late: Moment)
    requires key.policyVersion == policy.version && c.proposal.partition == key && Trialable(c.route)
    requires at.now < late.now - host.deadline && policy.nMin >= 2
    ensures var before := Run(host, System(EMPTY, policy, rules), OneTrialRun(at, key, c));
            var effect := Effect(host, before, late, Operate(Refresh(key)));
            effect.Done? && LoggedTwice(effect.value, AdmissionNote(key))
  {
    hide Frozen, Refreshed, G.Recorded;
    var s := System(EMPTY, policy, rules);
    var db1, db2, db3, t := OneTrialSteps(EnvOf(host, s, at), host.keyring, key, c);
    OneTrialState(host, s, at, key, c, db1, db2, db3);
    var b, i, j := AdmittedTwice(EnvOf(host, s.(db := db3), late), db3, key, t);
    assert 0 <= i < j < |b.ledger| && b.ledger[i].body == b.ledger[j].body == AdmissionNote(key);
  }
}
