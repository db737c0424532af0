/** The operations that end, restore, move or replace a partition's authority.  */
module Operations {
  import opened Tables
  import opened Shadow
  import opened Lifecycle
  import opened Worklist
  import opened Principals

  /** A severe failure suspends at once, from any live state; later ones are only recorded. */
  function SevereRecorded(env: Env, db: Db, key: PartitionKey, reason: string): Outcome<Db> {
    var db1 :- Refreshed(env, db, key);
    SeverityMarked(env, db1, key, reason)
  }

  function SeverityMarked(env: Env, db: Db, key: PartitionKey, reason: string): Outcome<Db> {
    if key !in db.lifecycle then Raised
    else
      var record := db.lifecycle[key];
      if !Awake(record) then Logged(db, key, Some(record.state), record, None)
      else
        var w :- Moved(db, key, record.(suspensionReason := Some(reason)), SEVERE_FAILURE);
        Synced(env, w.db, key, w.record)
  }

  predicate MayRelease(db: Db, keyring: set<string>, key: PartitionKey, actor: string, reason: string, mac: Mac, oracle: Oracle) {
    && actor != "" && reason != ""
    && key in db.lifecycle && Suspends(db.lifecycle[key]) && !db.lifecycle[key].retired
    && VerifiesHuman(db, keyring, actor, ReleasePayload(key, db.lifecycle[key].epoch, reason, oracle.id, oracle.version), mac)
  }

  /** A new epoch for a partition: its floor, its one oracle, its level, and the record that counts it. */
  function EpochOpenedFor(policy: Policy, db: Db, key: PartitionKey, record: Record, oracle: Oracle, reason: AlphaReason): Outcome<Walked> {
    var db1 :- EpochStarted(db, key);
    var db2 :- OracleSet(db1, key, oracle);
    var db3 :- AlphaRecorded(policy, db2, key, record.epoch + 1, |db.ledger|, reason);
    Done(Walked(db3, record.(epoch := record.epoch + 1)))
  }

  function Released(env: Env, db: Db, keyring: set<string>, key: PartitionKey, actor: string, reason: string, mac: Mac, oracle: Oracle): Outcome<Db> {
    if !MayRelease(db, keyring, key, actor, reason, mac, oracle) then Raised else ReleaseCarriedOut(env, db, key, oracle)
  }

  function ReleaseCarriedOut(env: Env, db: Db, key: PartitionKey, oracle: Oracle): Outcome<Db>
    requires key in db.lifecycle
  {
    var begun :- EpochOpenedFor(env.policy, db, key, db.lifecycle[key], oracle, RELEASED);
    var cleared := begun.record.(lineageSuspended := false);
    var w :- if cleared.state == SUSPENDED then Moved(begun.db, key, cleared.(suspensionReason := None), HUMAN_RELEASE)
             else
               var db1 :- Logged(Saved(begun.db, key, cleared), key, Some(cleared.state), cleared, None);
               Done(Walked(db1, cleared));
    Synced(env, w.db, key, w.record)
  }

  /** A new oracle opens a new epoch, and takes an autonomous partition back to qualifying. */
  function OracleReplaced(env: Env, db: Db, key: PartitionKey, oracle: Oracle): Outcome<Db> {
    var db1 :- Refreshed(env, db, key);
    OracleMoved(env, db1, key, oracle)
  }

  function OracleMoved(env: Env, db: Db, key: PartitionKey, oracle: Oracle): Outcome<Db> {
    if !Walkable(db, key) then Raised
    else
      var begun :- EpochOpenedFor(env.policy, db, key, db.lifecycle[key], oracle, CHANGED_ORACLE);
      var w :- Moved(begun.db, key, begun.record, ORACLE_CHANGED);
      Synced(env, w.db, key, w.record)
  }

  function Linked(db: Db, old_: PartitionKey, new_: PartitionKey): Db {
    db.(lineage := db.lineage + {(old_, new_)})
  }

  /** The old partition brought up to date and retired for good, and the edge recorded, suspended or not. */
  function ChurnBegun(env: Env, db: Db, old_: PartitionKey, new_: PartitionKey): Outcome<Walked> {
    var db1 :- Refreshed(env, db, old_);
    if old_ !in db1.lifecycle then Raised
    else
      var w :- Retired(db1, old_, db1.lifecycle[old_], true);
      Done(Walked(Linked(w.db, old_, new_), w.record))
  }

  /** A successor that already existed did not inherit when it was created; it is flagged now. */
  function ChurnFinished(env: Env, db: Db, new_: PartitionKey, suspended: bool): Outcome<Db> {
    var db2 :- Refreshed(env, db, new_);
    if new_ !in db2.lifecycle then Raised
    else if suspended && !db2.lifecycle[new_].lineageSuspended then
      var flagged :- LineageFlagged(db2, new_, db2.lifecycle[new_]);
      Done(flagged.db)
    else Done(db2)
  }

  /** One key replaces another, and suspension follows it. */
  function Churned(env: Env, db: Db, old_: PartitionKey, new_: PartitionKey): Outcome<Db> {
    if old_ == new_ then Raised
    else
      var begun :- ChurnBegun(env, db, old_, new_);
      ChurnFinished(env, begun.db, new_, Suspends(begun.record))
  }

  function OnVersion(db: Db, version: string): set<PartitionKey> {
    set key | key in db.lifecycle && !db.lifecycle[key].retired && key.policyVersion == version
  }

  /** Every given partition retired, each with an edge to the key it becomes under the new version. */
  function VersionsRetired(env: Env, db: Db, keys: set<PartitionKey>, version: string): Outcome<Db>
    decreases |keys|
  {
    if keys == {} then Done(db)
    else
      var key := env.pick(db, keys);
      if key !in db.lifecycle then Raised
      else
        var w :- Retired(db, key, db.lifecycle[key], false);
        VersionsRetired(env, Linked(w.db, key, key.(policyVersion := version)), keys - {key}, version)
  }

  function OfVersion(db: Db, version: string): set<string> {
    set t | t in db.tokens && db.tokens[t].terms.policyVersion == version
  }

  function NowProhibited(db: Db, version: string, added: set<string>): set<string> {
    set t | t in db.tokens && db.tokens[t].terms.policyVersion == version && db.tokens[t].terms.effects * added != {}
  }

  /** The one way the policy changes: the event, its retirements and its revocations together. */
  function PolicyReplaced(env: Env, db: Db, old_: Policy, new_: Policy, actor: string): Outcome<Db> {
    if new_.version != old_.version then
      var db1 :- VersionsRetired(env, db, OnVersion(db, old_.version), new_.version);
      TokensRevoked(db1, PolicyChanged, OfVersion(db1, old_.version), actor)
    else if !(new_.prohibited <= old_.prohibited) then
      TokensRevoked(db, EffectProhibited, NowProhibited(db, old_.version, new_.prohibited - old_.prohibited), actor)
    else Done(db)
  }

  /** A declared invalidation, which nothing but a later publication from outside can lift. */
  function EvidenceDenied(db: Db, key: PartitionKey, reason: string): Outcome<Db> {
    if key !in db.snapshots then Raised
    else
      var s := db.snapshots[key];
      TokensRevoked(db.(snapshots := db.snapshots[key := s.(version := s.version + 1, valid := false, reason := Some(reason))]),
                    EvidenceInvalidated, OfPartitions(db, {key}), CONTROLLER)
  }

  /** What the lifecycle says of a token at the moment it is spent: the gate, read again. */
  function LifecycleBlockers(env: Env, db: Db, t: Terms): set<GateReason> {
    if t.partition !in db.lifecycle then {}
    else
      var record := db.lifecycle[t.partition];
      RecordReasons(record)
      + if t.approvalId.Some? then {}
        else if record.state != AUTONOMOUS then {NOT_AUTONOMOUS}
        else GateReasons(env, db, t.partition, record, Read(db, t.partition, env.policy.pending))
  }

  /** A token on a known partition passes only while the partition is live and not lineage-suspended, and one
      that rests on evidence only while the partition is autonomous and its gate is open now. */
  lemma PassesOnlyOpenGate(env: Env, db: Db, t: Terms)
    requires t.partition in db.lifecycle
    ensures LifecycleBlockers(env, db, t) == {} <==>
            var record := db.lifecycle[t.partition];
            && Awake(record) && !record.lineageSuspended
            && (t.approvalId.None? ==> record.state == AUTONOMOUS && GateOpen(env, db, t.partition, record))
  {
    var record, all := db.lifecycle[t.partition], LifecycleBlockers(env, db, t);
    RecordReasonsEmpty(record);
    NoReasonMeansOpen(env, db, t.partition, record);
    assert RecordReasons(record) <= all;
    if t.approvalId.None? {
      assert record.state != AUTONOMOUS ==> NOT_AUTONOMOUS in all;
      assert record.state == AUTONOMOUS ==> GateReasons(env, db, t.partition, record, Read(db, t.partition, env.policy.pending)) <= all;
    }
  }
}
