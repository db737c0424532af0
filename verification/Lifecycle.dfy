/** Each partition's lifecycle as functions on the database: how a walk brings a partition's state up to
    date with its evidence, how a resolved trial sets off walks of every partition it concerns, and the
    operations that suspend, release, replace and retire partitions.  */
module Lifecycle {
  import opened Tables
  import opened AlphaSpending
  import opened Shadow
  import Closure
  import Principals

  // ---- legal transitions -------------------------------------------------------------------------

  function Next(state: Option<State>, event: Event): Option<State> {
    match (state, event)
    case (None, FIRST_PROPOSAL) => Some(UNESTABLISHED)
    case (Some(UNESTABLISHED), TRIAL_ADMITTED) => Some(QUALIFYING)
    case (Some(QUALIFYING), GATE_MET) => Some(AUTONOMOUS)
    case (Some(AUTONOMOUS), GATE_LOST_OUTCOME) => Some(QUALIFYING)
    case (Some(AUTONOMOUS), EVIDENCE_EXPIRED) => Some(QUALIFYING)
    case (Some(UNESTABLISHED), SEVERE_FAILURE) => Some(SUSPENDED)
    case (Some(QUALIFYING), SEVERE_FAILURE) => Some(SUSPENDED)
    case (Some(AUTONOMOUS), SEVERE_FAILURE) => Some(SUSPENDED)
    case (Some(SUSPENDED), HUMAN_RELEASE) => Some(QUALIFYING)
    case (Some(UNESTABLISHED), ORACLE_CHANGED) => Some(UNESTABLISHED)
    case (Some(QUALIFYING), ORACLE_CHANGED) => Some(QUALIFYING)
    case (Some(AUTONOMOUS), ORACLE_CHANGED) => Some(QUALIFYING)
    case _ => None
  }

  type Pick = p: (Db, set<PartitionKey>) -> PartitionKey | forall db, s :: s != {} ==> p(db, s) in s
    ghost witness (db: Db, s: set<PartitionKey>) => if s == {} then PartitionKey([], "", "", "") else var k :| k in s; k

  /** What one transaction is run under: its instant, the policy, the label deadline, and the order in
      which a set happens to yield its members. */
  datatype Env = Env(now: int, policy: Policy, deadline: int, pick: Pick)

  predicate Awake(record: Record) {
    !record.retired && record.state != SUSPENDED
  }

  // ---- the error budget --------------------------------------------------------------------------

  /** The latest allocation of a partition: rows are only appended, one for each epoch opened. */
  function LastRow(alphas: seq<AlphaRow>, key: PartitionKey): Option<AlphaRow> {
    if alphas == [] then None
    else
      var last := alphas[|alphas| - 1];
      if last.partition == key then Some(last) else LastRow(alphas[..|alphas| - 1], key)
  }

  /** The level the gate applies. */
  function AlphaOf(alphas: seq<AlphaRow>, key: PartitionKey): Option<real> {
    var row := LastRow(alphas, key);
    if row.Some? then Some(row.value.allocation.alpha) else None
  }

  /** The registration index of a partition. */
  function IndexOf(alphas: seq<AlphaRow>, key: PartitionKey): Option<nat> {
    if alphas == [] then None
    else
      var last := alphas[|alphas| - 1];
      if last.partition == key && last.reason == REGISTERED then Some(last.allocation.index) else IndexOf(alphas[..|alphas| - 1], key)
  }

  function Registrations(alphas: seq<AlphaRow>): nat {
    if alphas == [] then 0
    else Registrations(alphas[..|alphas| - 1]) + if alphas[|alphas| - 1].reason == REGISTERED then 1 else 0
  }

  /** Every epoch opening is recorded with the level it starts with. */
  function AlphaRecorded(policy: Policy, db: Db, key: PartitionKey, epoch: nat, floor: int, reason: AlphaReason): Outcome<Db> {
    var index := if reason == REGISTERED then Some(Registrations(db.alphas) + 1) else IndexOf(db.alphas, key);
    if index.None? || index.value < 1 then Raised
    else
      var alpha := AllocatedAlpha(policy.alpha, policy.spending, policy.partitions, policy.epochs, index.value, epoch + 1);
      Done(db.(alphas := db.alphas + [AlphaRow(key, floor, reason, Allocation(index.value, epoch, alpha))]))
  }

  // ---- records -----------------------------------------------------------------------------------

  function Saved(db: Db, key: PartitionKey, record: Record): Db {
    db.(lifecycle := db.lifecycle[key := record])
  }

  function Logged(db: Db, key: PartitionKey, from: Option<State>, record: Record, event: Option<Event>): Outcome<Db> {
    Appended(db, CONTROLLER, Transition(key, from, record, event))
  }

  function OfPartitions(db: Db, keys: set<PartitionKey>): set<string> {
    set t | t in db.tokens && db.tokens[t].terms.partition in keys
  }

  /** The tokens that rest on a partition's evidence and not on an approval. */
  function OnEvidence(db: Db, key: PartitionKey): set<string> {
    set t | t in db.tokens && db.tokens[t].terms.partition == key && db.tokens[t].terms.approvalId.None?
  }

  function Descendants(db: Db, key: PartitionKey): set<PartitionKey> {
    Closure.Reach(db.lineage, {key})
  }

  predicate Suspends(record: Record) {
    record.state == SUSPENDED || record.lineageSuspended
  }

  function SuspendedPredecessors(db: Db, key: PartitionKey): set<PartitionKey> {
    set e | e in db.lineage && e.1 == key && e.0 in db.lifecycle && Suspends(db.lifecycle[e.0]) :: e.0
  }

  /** A database, and the copy of a partition's record that the running code holds. */
  datatype Walked = Walked(db: Db, record: Record)

  function LineageFlagged(db: Db, key: PartitionKey, record: Record): Outcome<Walked> {
    var flagged := record.(lineageSuspended := true);
    var db1 :- Logged(Saved(db, key, flagged), key, Some(record.state), flagged, None);
    var db2 :- TokensRevoked(db1, LineageSuspended, OfPartitions(db1, {key}), CONTROLLER);
    Done(Walked(db2, flagged))
  }

  function Invalidated(db: Db, key: PartitionKey, reason: string): Db {
    if key in db.snapshots && db.snapshots[key].valid then
      var s := db.snapshots[key];
      db.(snapshots := db.snapshots[key := s.(version := s.version + 1, valid := false, reason := Some(reason))])
    else db
  }

  function Retired(db: Db, key: PartitionKey, record: Record, churned: bool): Outcome<Walked> {
    var gone := record.(retired := true);
    var db1 :- Logged(Invalidated(Saved(db, key, gone), key, "PARTITION_RETIRED"), key, Some(record.state), gone, None);
    if churned then
      var db2 :- TokensRevoked(db1, PartitionRetired, OfPartitions(db1, {key}), CONTROLLER);
      Done(Walked(db2, gone))
    else Done(Walked(db1, gone))
  }

  function NewRecord(inherits: bool): Record {
    Record(UNESTABLISHED, 0, false, inherits, None)
  }

  function FirstAlpha(env: Env, db: Db, key: PartitionKey): Outcome<Db> {
    AlphaRecorded(env.policy, Saved(db, key, NewRecord(false)), key, 0, Floor(db, key), REGISTERED)
  }

  function Enrolled(env: Env, db: Db, key: PartitionKey): Outcome<Walked> {
    var db1 :- FirstAlpha(env, db, key);
    var db2 :- Logged(db1, key, None, NewRecord(false), Some(FIRST_PROPOSAL));
    if SuspendedPredecessors(db2, key) != {} then LineageFlagged(db2, key, NewRecord(false)) else Done(Walked(db2, NewRecord(false)))
  }

  /** The start of a walk: registration on first sight, retirement on a superseded policy version. */
  function Head(env: Env, db: Db, key: PartitionKey): Outcome<Walked> {
    var w :- if key !in db.lifecycle then Enrolled(env, db, key)
             else if IndexOf(db.alphas, key).None? then
               // a record from before registrations existed takes the next index now
               var db1 :- AlphaRecorded(env.policy, db, key, db.lifecycle[key].epoch, Floor(db, key), REGISTERED);
               Done(Walked(db1, db.lifecycle[key]))
             else Done(Walked(db, db.lifecycle[key]));
    if !w.record.retired && key.policyVersion != env.policy.version then Retired(w.db, key, w.record, false) else Done(w)
  }

  // ---- the published snapshot ----------------------------------------------------------------------

  /** What the snapshot should say, before what is carried over from the one it replaces. */
  datatype Basis = Basis(id: EvidenceId, successes: nat, failures: nat, until: int)

  function BasisOf(env: Env, db: Db, key: PartitionKey, record: Record): Option<Basis> {
    if record.state == SUSPENDED then
      if key in db.snapshots then
        var s := db.snapshots[key];
        Some(Basis(s.id, s.successes, s.failures, s.until))
      else Some(Basis(LifecycleEvidence(key), 0, 0, env.now))
    else
      match Read(db, key, env.policy.pending)
      case Some(r) => Some(Basis(ShadowEvidence(key), r.successes, r.failures, r.until))
      case None => if key in db.snapshots then Some(Basis(db.snapshots[key].id, 0, 0, env.now)) else None
  }

  /** `valid` belongs to whoever declared an invalidation and is carried forward, never reset. */
  function Desired(db: Db, key: PartitionKey, record: Record, b: Basis, alpha: real): Snapshot {
    var suspended := record.state == SUSPENDED;
    if key in db.snapshots then
      var s := db.snapshots[key];
      Snapshot(b.id, s.version + 1, b.successes, b.failures, b.until, s.valid, suspended,
               if suspended then record.suspensionReason else s.reason, Some(alpha))
    else Snapshot(b.id, 1, b.successes, b.failures, b.until, true, suspended, if suspended then record.suspensionReason else None, Some(alpha))
  }

  predicate SameEvidence(s: Snapshot, t: Snapshot) {
    (s.id, s.successes, s.failures, s.until, s.suspended, s.valid, s.alpha)
    == (t.id, t.successes, t.failures, t.until, t.suspended, t.valid, t.alpha)
  }

  function Published(db: Db, key: PartitionKey, s: Snapshot): Db {
    if key in db.snapshots && SameEvidence(db.snapshots[key], s) then db else db.(snapshots := db.snapshots[key := s])
  }

  function Synced(env: Env, db: Db, key: PartitionKey, record: Record): Outcome<Db> {
    var b := BasisOf(env, db, key, record);
    if b.None? then Done(db)
    else
      var alpha := AlphaOf(db.alphas, key);
      if alpha.None? then Raised
      else Done(Published(db, key, Desired(db, key, record, b.value, alpha.value)))
  }

  // ---- the gate ------------------------------------------------------------------------------------

  /** ALPHA_MISSING stands for the lookup error of a partition with no recorded level: it refuses too. */
  datatype GateReason = EVIDENCE_IMMATURE | EVIDENCE_INVALID | EVIDENCE_STALE | BOUND_BELOW_POLICY | LINEAGE_SUSPENDED
                      | PARTITION_RETIRED | PARTITION_SUSPENDED | ALPHA_MISSING | NOT_AUTONOMOUS

  function RecordReasons(record: Record): set<GateReason> {
    (if record.lineageSuspended then {LINEAGE_SUSPENDED} else {})
    + (if record.retired then {PARTITION_RETIRED} else {})
    + (if record.state == SUSPENDED then {PARTITION_SUSPENDED} else {})
  }

  function ReadingReasons(env: Env, db: Db, key: PartitionKey, r: Reading): set<GateReason> {
    (if env.now - r.until > env.policy.maxAge then {EVIDENCE_STALE} else {})
    + (var alpha := AlphaOf(db.alphas, key);
       if alpha.None? then {ALPHA_MISSING}
       else if env.policy.bound(r.successes, r.failures, Effective(env.policy, alpha)) < Required(env.policy, key)
       then {BOUND_BELOW_POLICY} else {})
  }

  function GateReasons(env: Env, db: Db, key: PartitionKey, record: Record, reading: Option<Reading>): set<GateReason> {
    (if reading.None? || reading.value.N() < env.policy.nMin then {EVIDENCE_IMMATURE} else {})
    + (if key in db.snapshots && !db.snapshots[key].valid then {EVIDENCE_INVALID} else {})
    + (if reading.Some? then ReadingReasons(env, db, key, reading.value) else {})
    + RecordReasons(record)
  }

  /** What an open gate means. */
  ghost predicate GateOpen(env: Env, db: Db, key: PartitionKey, record: Record) {
    var reading := Read(db, key, env.policy.pending);
    var alpha := AlphaOf(db.alphas, key);
    && reading.Some? && reading.value.N() >= env.policy.nMin
    && env.now - reading.value.until <= env.policy.maxAge
    && alpha.Some?
    && env.policy.bound(reading.value.successes, reading.value.failures, Effective(env.policy, alpha)) >= Required(env.policy, key)
    && (key in db.snapshots ==> db.snapshots[key].valid)
    && !record.lineageSuspended && Awake(record)
  }

  lemma NoReasonMeansOpen(env: Env, db: Db, key: PartitionKey, record: Record)
    ensures GateReasons(env, db, key, record, Read(db, key, env.policy.pending)) == {} <==> GateOpen(env, db, key, record)
  {
    var reading := Read(db, key, env.policy.pending);
    var all := GateReasons(env, db, key, record, reading);
    RecordReasonsEmpty(record);
    assert RecordReasons(record) <= all;
    assert EVIDENCE_IMMATURE in all <==> reading.None? || reading.value.N() < env.policy.nMin;
    assert EVIDENCE_INVALID in all <==> key in db.snapshots && !db.snapshots[key].valid;
    if reading.Some? {
      ReadingReasonsEmpty(env, db, key, reading.value);
      assert ReadingReasons(env, db, key, reading.value) <= all;
    }
  }

  lemma RecordReasonsEmpty(record: Record)
    ensures RecordReasons(record) == {} <==> !record.lineageSuspended && Awake(record)
  {
    var all := RecordReasons(record);
    assert record.lineageSuspended ==> LINEAGE_SUSPENDED in all;
    assert record.retired ==> PARTITION_RETIRED in all;
    assert record.state == SUSPENDED ==> PARTITION_SUSPENDED in all;
  }

  lemma ReadingReasonsEmpty(env: Env, db: Db, key: PartitionKey, r: Reading)
    ensures ReadingReasons(env, db, key, r) == {} <==>
            && env.now - r.until <= env.policy.maxAge && AlphaOf(db.alphas, key).Some?
            && env.policy.bound(r.successes, r.failures, Effective(env.policy, AlphaOf(db.alphas, key))) >= Required(env.policy, key)
  {
    var all := ReadingReasons(env, db, key, r);
    assert env.now - r.until > env.policy.maxAge ==> EVIDENCE_STALE in all;
    assert AlphaOf(db.alphas, key).None? ==> ALPHA_MISSING in all;
    assert AlphaOf(db.alphas, key).Some?
           && env.policy.bound(r.successes, r.failures, Effective(env.policy, AlphaOf(db.alphas, key))) < Required(env.policy, key)
           ==> BOUND_BELOW_POLICY in all;
  }

  // ---- moving --------------------------------------------------------------------------------------

  /** One legal move, recorded, with the revocation that goes with it. */
  function Moved(db: Db, key: PartitionKey, record: Record, event: Event): Outcome<Walked> {
    var target := Next(Some(record.state), event);
    if target.None? then Raised
    else
      var moved := record.(state := target.value);
      var db1 :- Logged(Saved(db, key, moved), key, Some(record.state), moved, Some(event));
      var db2 :- match event
        case SEVERE_FAILURE => TokensRevoked(db1, SevereFailure, OfPartitions(db1, Descendants(db1, key)), CONTROLLER)
        case GATE_LOST_OUTCOME => TokensRevoked(db1, GateLost, OnEvidence(db1, key), CONTROLLER)
        case ORACLE_CHANGED => TokensRevoked(db1, OracleChanged, OnEvidence(db1, key), CONTROLLER)
        case _ => Done(db1);
      Done(Walked(db2, moved))
  }

  /** Admission of a first trial, then the gate in either direction. */
  function Admitted(db: Db, key: PartitionKey, record: Record, reading: Option<Reading>): Outcome<Walked> {
    if record.state == UNESTABLISHED && reading.Some? && reading.value.N() >= 1 then Moved(db, key, record, TRIAL_ADMITTED)
    else Done(Walked(db, record))
  }

  function Gated(env: Env, db: Db, key: PartitionKey, record: Record, reading: Option<Reading>): Outcome<Walked> {
    var reasons := GateReasons(env, db, key, record, reading);
    if record.state == QUALIFYING && reasons == {} then Moved(db, key, record, GATE_MET)
    else if record.state == AUTONOMOUS && EVIDENCE_STALE in reasons then Moved(db, key, record, EVIDENCE_EXPIRED)
    else if record.state == AUTONOMOUS && reasons != {} then Moved(db, key, record, GATE_LOST_OUTCOME)
    else Done(Walked(db, record))
  }

  /** The rest of a walk, once overdue trials have been censored. */
  function Tail(env: Env, db: Db, key: PartitionKey, record: Record): Outcome<Db> {
    var reading := Read(db, key, env.policy.pending);
    var db1 :- Synced(env, db, key, record);
    var w1 :- Admitted(db1, key, record, reading);
    var w2 :- Gated(env, w1.db, key, w1.record, reading);
    Synced(env, w2.db, key, w2.record)
  }

  /** The copy of the record that a tail ends with. */
  function TailRecord(env: Env, db: Db, key: PartitionKey, record: Record): Outcome<Record> {
    var reading := Read(db, key, env.policy.pending);
    var db1 :- Synced(env, db, key, record);
    var w1 :- Admitted(db1, key, record, reading);
    var w2 :- Gated(env, w1.db, key, w1.record, reading);
    Done(w2.record)
  }

  // ---- walks inside a label: other partitions are deferred -------------------------------------------

  function LateTrials(env: Env, db: Db): seq<Trial> {
    Overdue(db.trials, db.labels, env.now - env.deadline)
  }

  function AllCensored(db: Db, late: seq<Trial>, now: int): Outcome<Db>
    decreases |late|
  {
    if late == [] then Done(db)
    else
      var db1 :- CensoredAt(db, late[0].id, now);
      AllCensored(db1, late[1..], now)
  }

  function PartitionsOf(late: seq<Trial>): set<PartitionKey> {
    set t | t in late :: t.partition
  }

  datatype Deferral = Deferral(db: Db, deferred: set<PartitionKey>)

  /** A walk while a label is being processed: the partitions of the trials it censors are left for later. */
  function WalkDeferring(env: Env, db: Db, key: PartitionKey): Outcome<Deferral> {
    var h :- Head(env, db, key);
    if !Awake(h.record) then
      var done :- Synced(env, h.db, key, h.record);
      Done(Deferral(done, {}))
    else
      var late := LateTrials(env, h.db);
      var expired :- AllCensored(h.db, late, env.now);
      var done :- Tail(env, expired, key, h.record);
      Done(Deferral(done, PartitionsOf(late)))
  }
}
