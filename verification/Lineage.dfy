/** Suspension survives renaming: whatever chain of key churn and policy changes a partition's successors go
    through, they stay suspended until a human releases them.  */
module Lineage {
  import opened Tables
  import opened Shadow
  import opened Lifecycle
  import opened Steps
  import opened Worklist
  import opened Settling
  import opened Operations
  import opened OperationSteps
  import opened Invariants
  import Closure

  type Edge = (PartitionKey, PartitionKey)

  ghost predicate EdgeHolds(db: Db, e: Edge, cleared: set<Edge>) {
    e.0 in db.lifecycle && Suspends(db.lifecycle[e.0]) && e.1 in db.lifecycle && !db.lifecycle[e.1].retired
    ==> db.lifecycle[e.1].lineageSuspended || e in cleared
  }

  /** Every registered, unretired successor of a suspended or lineage-suspended partition is lineage-suspended
      itself, except across the edges a release has cleared. */
  ghost predicate LineageInv(db: Db, cleared: set<Edge>) {
    forall e :: e in db.lineage ==> EdgeHolds(db, e, cleared)
  }

  ghost function Descending(version: string, cleared: set<Edge>): Db -> bool {
    (d: Db) => LineageInv(d, cleared) && LifecycleInv(d, version)
  }

  // ---- single writes --------------------------------------------------------------------------------

  lemma SameRecordsDescend(version: string, cleared: set<Edge>, a: Db, b: Db)
    requires Descending(version, cleared)(a) && b.lifecycle == a.lifecycle && b.lineage == a.lineage
    ensures Descending(version, cleared)(b)
  {
    forall e | e in b.lineage ensures EdgeHolds(b, e, cleared) { assert EdgeHolds(a, e, cleared); }
  }

  /** A record may change as it likes once it has no successors, as long as it keeps its flag or retires. */
  lemma RecordDescends(version: string, cleared: set<Edge>, a: Db, b: Db, key: PartitionKey)
    requires Descending(version, cleared)(a) && b.lineage == a.lineage
    requires key in a.lifecycle && key in b.lifecycle && b.lifecycle == a.lifecycle[key := b.lifecycle[key]]
    requires a.lifecycle[key].retired ==> b.lifecycle[key].retired && (Suspends(b.lifecycle[key]) ==> Suspends(a.lifecycle[key]))
    requires b.lifecycle[key].retired || b.lifecycle[key].lineageSuspended
             || (!a.lifecycle[key].lineageSuspended) || forall e :: e in a.lineage && e.1 == key ==> e in cleared
    ensures Descending(version, cleared)(b)
  {
    forall e | e in b.lineage ensures EdgeHolds(b, e, cleared) { assert EdgeHolds(a, e, cleared); }
  }

  lemma SilentDescends(env: Env, cleared: set<Edge>, a: Db, b: Db, key: PartitionKey)
    requires Descending(env.policy.version, cleared)(a) && Silent(env, a, b, key)
    ensures Descending(env.policy.version, cleared)(b)
  {
    if key in a.lifecycle {
      assert b.lifecycle == a.lifecycle[key := b.lifecycle[key]];
      RecordDescends(env.policy.version, cleared, a, b, key);
    } else {
      forall e | e in b.lineage ensures EdgeHolds(b, e, cleared) {
        assert EdgeHolds(a, e, cleared);
        if e.1 == key && e.0 in a.lifecycle && Suspends(a.lifecycle[e.0]) { assert e.0 in SuspendedPredecessors(a, key); }
      }
    }
  }

  lemma DescendingWalks(env: Env, cleared: set<Edge>)
    ensures EverStable(env, Descending(env.policy.version, cleared))
    ensures SurvivesEvidence(Descending(env.policy.version, cleared))
    ensures SurvivesRevocation(Descending(env.policy.version, cleared))
  {
    var version := env.policy.version;
    var J := Descending(version, cleared);
    forall a, b | J(a) && Wrote(a, b) ensures J(b) { SameRecordsDescend(version, cleared, a, b); }
    forall a, b | J(a) && Noted(a, b) ensures J(b) { SameRecordsDescend(version, cleared, a, b); }
    forall a, b, key | J(a) && Silent(env, a, b, key) ensures J(b) { SilentDescends(env, cleared, a, b, key); }
    WalksSurvive(env, J);
    WritesSurvive(J);
    forall a, b, cause, scope, actor | J(a) && Revokes(a, b, cause, scope, actor) ensures J(b) {
      SameRecordsDescend(version, cleared, a, b);
    }
  }

  lemma DescendingRecords(version: string, cleared: set<Edge>)
    ensures SurvivesSevere(Descending(version, cleared)) && SurvivesWithdrawal(Descending(version, cleared))
  {
    var J := Descending(version, cleared);
    forall a, b, key | J(a) && Severed(a, b, key) ensures J(b) { RecordDescends(version, cleared, a, b, key); }
    forall a, b, key | J(a) && Withdrawn(a, b, key) ensures J(b) { RecordDescends(version, cleared, a, b, key); }
  }

  lemma EpochDescends(env: Env, cleared: set<Edge>, a: Db, b: Db, key: PartitionKey, oracle: Oracle, reason: AlphaReason)
    requires Descending(env.policy.version, cleared)(a) && Reopened(env, a, b, key, oracle, reason)
    requires reason == RELEASED ==> forall e :: e in a.lineage && e.1 == key ==> e in cleared
    ensures Descending(env.policy.version, cleared)(b)
  {
    var mid, end := EpochShape(env.policy, a, key, a.lifecycle[key], oracle, reason);
    RecordDescends(env.policy.version, cleared, a, b, key);
  }

  // ---- operations -------------------------------------------------------------------------------------

  function EdgesInto(db: Db, key: PartitionKey): set<Edge> {
    set e | e in db.lineage && e.1 == key
  }

  /** What an operation clears: a release clears the edges that led to the partition it released. */
  function ClearedBy(db: Db, op: Operation, cleared: set<Edge>): set<Edge> {
    if op.Release? then cleared + EdgesInto(db, op.key) else cleared
  }

  lemma MoreCleared(version: string, db: Db, cleared: set<Edge>, more: set<Edge>)
    requires Descending(version, cleared)(db) && cleared <= more
    ensures Descending(version, more)(db)
  {
    forall e | e in db.lineage ensures EdgeHolds(db, e, more) { assert EdgeHolds(db, e, cleared); }
  }

  lemma ReleaseDescends(env: Env, keyring: set<string>, db: Db, op: Operation, cleared: set<Edge>)
    requires op.Release? && Descending(env.policy.version, cleared)(db) && Operated(env, keyring, db, op).Done?
    ensures Descending(env.policy.version, ClearedBy(db, op, cleared))(Operated(env, keyring, db, op).value)
  {
    hide Descending, Operated, Released;
    var more := ClearedBy(db, op, cleared);
    MoreCleared(env.policy.version, db, cleared, more);
    var J := (d: Db) => Descending(env.policy.version, more)(d) && d.lineage == db.lineage;
    DescendingWalks(env, more);
    LineageKept(env, db.lineage);
    assert Stable(env, Descending(env.policy.version, more), op.key) && Stable(env, SameLineage(db.lineage), op.key);
    BothQuiet(env, Descending(env.policy.version, more), SameLineage(db.lineage), J, op.key);
    forall a, b, oracle | J(a) && Reopened(env, a, b, op.key, oracle, RELEASED) ensures J(b) {
      EpochSameLineage(env, a, b, op.key, oracle);
      EpochDescends(env, more, a, b, op.key, oracle, RELEASED);
    }
    assert SurvivesEpoch(env, J, op.key, RELEASED);
    ReleaseOperation(env, J, keyring, db, op);
  }

  lemma ReleaseOperation(env: Env, J: Db -> bool, keyring: set<string>, db: Db, op: Operation)
    requires op.Release? && QuietStable(env, J, op.key) && SurvivesEpoch(env, J, op.key, RELEASED) && J(db)
    requires Operated(env, keyring, db, op).Done?
    ensures J(Operated(env, keyring, db, op).value)
  {
    hide Released;
    ReleaseKeeps(env, J, db, keyring, op.key, op.actor, op.reason, op.mac, op.oracle);
  }

  lemma EpochSameLineage(env: Env, a: Db, b: Db, key: PartitionKey, oracle: Oracle)
    requires Reopened(env, a, b, key, oracle, RELEASED)
    ensures b.lineage == a.lineage
  {
    var mid, end := EpochShape(env.policy, a, key, a.lifecycle[key], oracle, RELEASED);
  }

  ghost function SameLineage(lineage: set<Edge>): Db -> bool {
    (d: Db) => d.lineage == lineage
  }

  lemma LineageKept(env: Env, lineage: set<Edge>)
    ensures EverStable(env, SameLineage(lineage))
  {
    var J := SameLineage(lineage);
    WalksSurvive(env, J);
  }

  // ---- retirement is for good ---------------------------------------------------------------------------

  ghost function RetiredAs(key: PartitionKey, record: Record): Db -> bool {
    (d: Db) => key in d.lifecycle && d.lifecycle[key] == record && record.retired
  }

  lemma RetiredStays(env: Env, key: PartitionKey, record: Record)
    ensures EverStable(env, RetiredAs(key, record)) && SurvivesEvidence(RetiredAs(key, record))
  {
    var J := RetiredAs(key, record);
    WalksSurvive(env, J);
    WritesSurvive(J);
  }

  // ---- churn and policy changes -------------------------------------------------------------------------

  /** The new edge of a churn, until the successor has been flagged. */
  lemma LinkDescends(version: string, cleared: set<Edge>, a: Db, old_: PartitionKey, new_: PartitionKey)
    requires Descending(version, cleared)(a) && old_ in a.lifecycle && a.lifecycle[old_].retired
    ensures Descending(version, cleared + {(old_, new_)})(Linked(a, old_, new_))
  {
    var b := Linked(a, old_, new_);
    forall e | e in b.lineage ensures EdgeHolds(b, e, cleared + {(old_, new_)}) {
      if e in a.lineage { assert EdgeHolds(a, e, cleared); }
    }
  }

  lemma UnlinkException(version: string, cleared: set<Edge>, d: Db, old_: PartitionKey, new_: PartitionKey)
    requires Descending(version, cleared + {(old_, new_)})(d) && EdgeHolds(d, (old_, new_), cleared)
    ensures Descending(version, cleared)(d)
  {
    forall e | e in d.lineage ensures EdgeHolds(d, e, cleared) { assert EdgeHolds(d, e, cleared + {(old_, new_)}); }
  }

  /** What the start of a churn leaves: the old partition retired for good, and the new edge on the record. */
  lemma ChurnStart(env: Env, db: Db, old_: PartitionKey, new_: PartitionKey, cleared: set<Edge>)
    requires Descending(env.policy.version, cleared)(db) && ChurnBegun(env, db, old_, new_).Done? && old_ != new_
    requires new_ in db.lifecycle ==> !db.lifecycle[new_].retired
    ensures var w := ChurnBegun(env, db, old_, new_).value;
            && Descending(env.policy.version, cleared + {(old_, new_)})(w.db) && RetiredAs(old_, w.record)(w.db)
            && (old_, new_) in w.db.lineage
            && (new_ in w.db.lifecycle ==> new_.policyVersion == env.policy.version && !w.db.lifecycle[new_].retired)
  {
    hide Refreshed, Retired, Descending;
    ChurnRefresh(env, db, old_, new_, cleared);
    var db1 := Refreshed(env, db, old_).value;
    ChurnRetirement(env, db1, old_, cleared);
    var w := Retired(db1, old_, db1.lifecycle[old_], true).value;
    LinkDescends(env.policy.version, cleared, w.db, old_, new_);
  }

  lemma ChurnRefresh(env: Env, db: Db, old_: PartitionKey, new_: PartitionKey, cleared: set<Edge>)
    requires Descending(env.policy.version, cleared)(db) && Refreshed(env, db, old_).Done? && old_ != new_
    requires new_ in db.lifecycle ==> !db.lifecycle[new_].retired
    ensures var db1 := Refreshed(env, db, old_).value;
            && Descending(env.policy.version, cleared)(db1) && old_ in db1.lifecycle
            && (new_ in db1.lifecycle ==> new_.policyVersion == env.policy.version && !db1.lifecycle[new_].retired)
  {
    DescendingWalks(env, cleared);
    RefreshedKeeps(env, Descending(env.policy.version, cleared), db, old_);
    RefreshRegistersOne(env, db, old_);
    if new_ in db.lifecycle {
      LiveStays(env, new_);
      RefreshedKeeps(env, StillLive(new_), db, old_);
    }
  }

  lemma ChurnRetirement(env: Env, db: Db, key: PartitionKey, cleared: set<Edge>)
    requires Descending(env.policy.version, cleared)(db) && key in db.lifecycle && Retired(db, key, db.lifecycle[key], true).Done?
    ensures var w := Retired(db, key, db.lifecycle[key], true).value;
            && Descending(env.policy.version, cleared)(w.db) && RetiredAs(key, w.record)(w.db)
            && w.db.lifecycle == db.lifecycle[key := w.record]
  {
    DescendingWalks(env, cleared);
    DescendingRecords(env.policy.version, cleared);
    assert Stable(env, Descending(env.policy.version, cleared), key);
    WithdrawalKeeps(env, Descending(env.policy.version, cleared), db, key, true);
  }

  // ---- who gets registered ----------------------------------------------------------------------------

  ghost function Known(keys: set<PartitionKey>): Db -> bool {
    (d: Db) => d.lifecycle.Keys == keys
  }

  lemma KnownStable(env: Env, keys: set<PartitionKey>, key: PartitionKey)
    requires key in keys
    ensures Stable(env, Known(keys), key)
  {
    var J := Known(keys);
    forall a, b | J(a) && Silent(env, a, b, key) ensures J(b) { assert key in a.lifecycle; }
    QuietFromSilent(env, J, key);
  }

  lemma {:induction false} DrainRegistersNone(env: Env, db: Db, deferred: set<PartitionKey>)
    requires Drained(env, db, deferred).Done?
    ensures Drained(env, db, deferred).value.lifecycle.Keys == db.lifecycle.Keys
    decreases |LateTrials(env, db)|, |deferred|
  {
    if deferred != {} {
      var next := env.pick(db, deferred);
      if Walkable(db, next) {
        var s := WalkDeferring(env, db, next).value;
        KnownStable(env, db.lifecycle.Keys, next);
        WalkKeeps(env, Known(db.lifecycle.Keys), db, next);
        WalkProgress(env, db, next);
        DrainRegistersNone(env, s.db, deferred - {next} + s.deferred);
      } else {
        DrainRegistersNone(env, db, deferred - {next});
      }
    }
  }

  lemma {:induction false} CensoringRegistersNone(env: Env, db: Db, late: seq<Trial>)
    requires EachCensored(env, db, late).Done?
    ensures EachCensored(env, db, late).value.lifecycle.Keys == db.lifecycle.Keys
    decreases |late|
  {
    if late != [] {
      var db1 := CensoredAt(db, late[0].id, env.now).value;
      DrainRegistersNone(env, db1, {late[0].partition});
      CensoringRegistersNone(env, OnLabel(env, db1, late[0].partition).value, late[1..]);
    }
  }

  ghost function KnownWith(keys: set<PartitionKey>, key: PartitionKey): Db -> bool {
    (d: Db) => d.lifecycle.Keys == keys || d.lifecycle.Keys == keys + {key}
  }

  lemma KnownWithStable(env: Env, keys: set<PartitionKey>, key: PartitionKey)
    ensures QuietStable(env, KnownWith(keys, key), key)
  {
    var J := KnownWith(keys, key);
    forall a, b | J(a) && Silent(env, a, b, key) ensures J(b) {}
    QuietFromSilent(env, J, key);
  }

  /** A refresh registers the partition it was asked for and no other. */
  lemma RefreshRegistersOne(env: Env, db: Db, key: PartitionKey)
    requires Refreshed(env, db, key).Done?
    ensures Refreshed(env, db, key).value.lifecycle.Keys == db.lifecycle.Keys + {key}
  {
    var keys := db.lifecycle.Keys;
    KnownWithStable(env, keys, key);
    HeadKeeps(env, KnownWith(keys, key), db, key);
    var h := Head(env, db, key).value;
    assert h.db.lifecycle.Keys == keys + {key};
    if !Awake(h.record) {
      SyncedSame(env, h.db, key, h.record);
    } else {
      var late := LateTrials(env, h.db);
      var expired := Expired(env, h.db).value;
      CensoringRegistersNone(env, h.db, late);
      HoldingStable(env, key, h.record);
      LateAreLate(env, h.db);
      EachCensoredKeeps(env, Holding(env, key, h.record), h.db, late);
      KnownStable(env, keys + {key}, key);
      TailKeeps(env, Known(keys + {key}), expired, key, h.record);
    }
  }

  // ---- churn ----------------------------------------------------------------------------------------------

  ghost function StillLive(key: PartitionKey): Db -> bool {
    (d: Db) => key in d.lifecycle && !d.lifecycle[key].retired
  }

  lemma LiveStays(env: Env, key: PartitionKey)
    requires key.policyVersion == env.policy.version
    ensures EverStable(env, StillLive(key))
  {
    var J := StillLive(key);
    forall a, b, t | J(a) && Censors(env, a, b, t) ensures J(b) {}
    forall other ensures Stable(env, J, other) { LiveWalk(env, key, other); }
  }

  lemma LiveWalk(env: Env, key: PartitionKey, other: PartitionKey)
    requires key.policyVersion == env.policy.version
    ensures QuietStable(env, StillLive(key), other)
  {
    hide NewRow, Newcomer, GateOpen, Registrations, IndexOf, OnlyRevoked, LegalNote;
  }

  /** A newcomer with a suspended predecessor starts flagged. */
  ghost function BornFlagged(old_: PartitionKey, record: Record, new_: PartitionKey): Db -> bool {
    (d: Db) =>
      && old_ in d.lifecycle && d.lifecycle[old_] == record && record.retired && Suspends(record) && (old_, new_) in d.lineage
      && (new_ in d.lifecycle ==> d.lifecycle[new_].lineageSuspended)
  }

  lemma BornFlaggedStable(env: Env, old_: PartitionKey, record: Record, new_: PartitionKey)
    requires Suspends(record)
    ensures EverStable(env, BornFlagged(old_, record, new_))
  {
    var J := BornFlagged(old_, record, new_);
    forall a, b, key | J(a) && Silent(env, a, b, key) ensures J(b) {
      if key == new_ && key !in a.lifecycle {
        assert (old_, new_) in a.lineage && Suspends(a.lifecycle[old_]);
        assert old_ in SuspendedPredecessors(a, key);
      }
    }
    WalksSurvive(env, J);
  }

  lemma FlagDescends(version: string, db: Db, b: Db, old_: PartitionKey, new_: PartitionKey, cleared: set<Edge>)
    requires Descending(version, cleared + {(old_, new_)})(db) && new_ in db.lifecycle && !db.lifecycle[new_].retired
    requires LineageFlagged(db, new_, db.lifecycle[new_]).Done? && b == LineageFlagged(db, new_, db.lifecycle[new_]).value.db
    ensures Descending(version, cleared)(b)
  {
    var saved := Saved(db, new_, db.lifecycle[new_].(lineageSuspended := true));
    RecordDescends(version, cleared + {(old_, new_)}, db, saved, new_);
    SameRecordsDescend(version, cleared + {(old_, new_)}, saved, b);
    UnlinkException(version, cleared, b, old_, new_);
  }

  lemma ChurnEndDescends(env: Env, linked: Db, old_: PartitionKey, new_: PartitionKey, record: Record, cleared: set<Edge>)
    requires Descending(env.policy.version, cleared + {(old_, new_)})(linked) && RetiredAs(old_, record)(linked)
    requires (old_, new_) in linked.lineage
    requires new_ in linked.lifecycle ==> new_.policyVersion == env.policy.version && !linked.lifecycle[new_].retired
    requires ChurnFinished(env, linked, new_, Suspends(record)).Done?
    ensures Descending(env.policy.version, cleared)(ChurnFinished(env, linked, new_, Suspends(record)).value)
  {
    var version, wide := env.policy.version, cleared + {(old_, new_)};
    DescendingWalks(env, wide);
    RefreshedKeeps(env, Descending(version, wide), linked, new_);
    RetiredStays(env, old_, record);
    RefreshedKeeps(env, RetiredAs(old_, record), linked, new_);
    var db2 := Refreshed(env, linked, new_).value;
    if Suspends(record) && !db2.lifecycle[new_].lineageSuspended {
      SuccessorIsLive(env, linked, old_, new_, record);
      FlagDescends(version, db2, LineageFlagged(db2, new_, db2.lifecycle[new_]).value.db, old_, new_, cleared);
    } else {
      UnlinkException(version, cleared, db2, old_, new_);
    }
  }

  lemma SuccessorIsLive(env: Env, linked: Db, old_: PartitionKey, new_: PartitionKey, record: Record)
    requires RetiredAs(old_, record)(linked) && (old_, new_) in linked.lineage && Suspends(record)
    requires new_ in linked.lifecycle ==> new_.policyVersion == env.policy.version && !linked.lifecycle[new_].retired
    requires Refreshed(env, linked, new_).Done? && new_ in Refreshed(env, linked, new_).value.lifecycle
    requires !Refreshed(env, linked, new_).value.lifecycle[new_].lineageSuspended
    ensures !Refreshed(env, linked, new_).value.lifecycle[new_].retired
  {
    if new_ in linked.lifecycle {
      LiveStays(env, new_);
      RefreshedKeeps(env, StillLive(new_), linked, new_);
    } else {
      BornFlaggedStable(env, old_, record, new_);
      RefreshedKeeps(env, BornFlagged(old_, record, new_), linked, new_);
      assert false;
    }
  }

  /** A churn onto a partition that is not retired: the successor inherits when it is created, or is flagged if it
      already was. */
  lemma ChurnForward(env: Env, db: Db, old_: PartitionKey, new_: PartitionKey, cleared: set<Edge>)
    requires Descending(env.policy.version, cleared)(db) && Churned(env, db, old_, new_).Done?
    requires new_ in db.lifecycle ==> !db.lifecycle[new_].retired
    ensures Descending(env.policy.version, cleared)(Churned(env, db, old_, new_).value)
  {
    ChurnStart(env, db, old_, new_, cleared);
    var w := ChurnBegun(env, db, old_, new_).value;
    ChurnEndDescends(env, w.db, old_, new_, w.record, cleared);
  }

  // ---- what a renaming records --------------------------------------------------------------------------------

  /** A churn records its edge and no other, and leaves the partition that is replaced retired and its replacement
      registered. */
  lemma ChurnRecords(env: Env, db: Db, old_: PartitionKey, new_: PartitionKey)
    requires Churned(env, db, old_, new_).Done?
    ensures var after := Churned(env, db, old_, new_).value;
            && old_ != new_ && after.lineage == db.lineage + {(old_, new_)}
            && old_ in after.lifecycle && after.lifecycle[old_].retired && new_ in after.lifecycle
  {
    hide Refreshed, Retired, LineageFlagged;
    var db1 := Refreshed(env, db, old_).value;
    RefreshKeepsLineage(env, db, old_);
    var w := Retired(db1, old_, db1.lifecycle[old_], true).value;
    RetiringRecords(db1, old_, w);
    var linked := Linked(w.db, old_, new_);
    RefreshKeepsLineage(env, linked, new_);
    RetiredStays(env, old_, w.record);
    RefreshedKeeps(env, RetiredAs(old_, w.record), linked, new_);
    var db2 := Refreshed(env, linked, new_).value;
    if Suspends(w.record) && !db2.lifecycle[new_].lineageSuspended { FlaggingRecords(db2, new_, old_); }
  }

  lemma RefreshKeepsLineage(env: Env, db: Db, key: PartitionKey)
    requires Refreshed(env, db, key).Done?
    ensures Refreshed(env, db, key).value.lineage == db.lineage
  {
    LineageKept(env, db.lineage);
    RefreshedKeeps(env, SameLineage(db.lineage), db, key);
  }

  lemma RetiringRecords(db: Db, key: PartitionKey, w: Walked)
    requires key in db.lifecycle && Retired(db, key, db.lifecycle[key], true) == Done(w)
    ensures w.record == db.lifecycle[key].(retired := true) && w.db.lifecycle == db.lifecycle[key := w.record] && w.db.lineage == db.lineage
  {
    hide TokensRevoked;
    var gone := db.lifecycle[key].(retired := true);
    var db1 := Logged(Invalidated(Saved(db, key, gone), key, "PARTITION_RETIRED"), key, Some(db.lifecycle[key].state), gone, None).value;
    RevokingTables(db1, PartitionRetired, OfPartitions(db1, {key}), CONTROLLER);
  }

  lemma FlaggingRecords(db: Db, key: PartitionKey, other: PartitionKey)
    requires key in db.lifecycle && LineageFlagged(db, key, db.lifecycle[key]).Done? && key != other
    ensures var b := LineageFlagged(db, key, db.lifecycle[key]).value.db;
            && b.lineage == db.lineage && key in b.lifecycle
            && (other in db.lifecycle ==> other in b.lifecycle && b.lifecycle[other] == db.lifecycle[other])
  {
    hide TokensRevoked;
    var flagged := db.lifecycle[key].(lineageSuspended := true);
    var db1 := Logged(Saved(db, key, flagged), key, Some(db.lifecycle[key].state), flagged, None).value;
    RevokingTables(db1, LineageSuspended, OfPartitions(db1, {key}), CONTROLLER);
  }

  /** A change of version retires exactly the live partitions of the old version, and records an edge from each to its
      key under the new one. */
  lemma {:induction false} VersionRecords(env: Env, db: Db, keys: set<PartitionKey>, version: string)
    requires VersionsRetired(env, db, keys, version).Done?
    ensures var after := VersionsRetired(env, db, keys, version).value;
            && keys <= db.lifecycle.Keys && after.lifecycle.Keys == db.lifecycle.Keys
            && (forall k :: k in db.lifecycle ==> after.lifecycle[k] == if k in keys then db.lifecycle[k].(retired := true) else db.lifecycle[k])
            && after.lineage == db.lineage + (set k | k in keys :: (k, k.(policyVersion := version)))
    decreases |keys|
  {
    hide Retired;
    if keys != {} {
      var key := env.pick(db, keys);
      var w := Retired(db, key, db.lifecycle[key], false).value;
      RetiringQuietly(db, key, w);
      var linked := Linked(w.db, key, key.(policyVersion := version));
      VersionRecords(env, linked, keys - {key}, version);
      assert keys == (keys - {key}) + {key};
    }
  }

  lemma RetiringQuietly(db: Db, key: PartitionKey, w: Walked)
    requires key in db.lifecycle && Retired(db, key, db.lifecycle[key], false) == Done(w)
    ensures w.record == db.lifecycle[key].(retired := true) && w.db.lifecycle == db.lifecycle[key := w.record] && w.db.lineage == db.lineage
  {}

  lemma PolicyRecords(env: Env, db: Db, old_: Policy, new_: Policy, actor: string, after: Db)
    requires PolicyReplaced(env, db, old_, new_, actor) == Done(after) && new_.version != old_.version
    ensures after.lifecycle.Keys == db.lifecycle.Keys
    ensures forall k :: k in db.lifecycle ==>
              after.lifecycle[k] == if k.policyVersion == old_.version then db.lifecycle[k].(retired := true) else db.lifecycle[k]
    ensures forall e :: e in after.lineage <==>
              e in db.lineage || (e.0 in db.lifecycle && !db.lifecycle[e.0].retired && e.0.policyVersion == old_.version
                                  && e.1 == e.0.(policyVersion := new_.version))
  {
    hide VersionsRetired;
    VersionRecords(env, db, OnVersion(db, old_.version), new_.version);
    var db1 := VersionsRetired(env, db, OnVersion(db, old_.version), new_.version).value;
    assert after.lifecycle == db1.lifecycle && after.lineage == db1.lineage;
  }

  // ---- churn onto a retired partition -----------------------------------------------------------------------

  /** Whether a churn of the key passes suspension on, as the tables stand before it. */
  predicate PassesOn(db: Db, key: PartitionKey) {
    if key in db.lifecycle then Suspends(db.lifecycle[key]) else SuspendedPredecessors(db, key) != {}
  }

  ghost function SuspendsAs(key: PartitionKey, suspends: bool): Db -> bool {
    (d: Db) => key in d.lifecycle && Suspends(d.lifecycle[key]) == suspends
  }

  lemma SuspendsAsStays(env: Env, key: PartitionKey, suspends: bool)
    ensures EverStable(env, SuspendsAs(key, suspends))
  {
    WalksSurvive(env, SuspendsAs(key, suspends));
  }

  lemma HeadSuspends(env: Env, db: Db, key: PartitionKey)
    requires Head(env, db, key).Done?
    ensures SuspendsAs(key, PassesOn(db, key))(Head(env, db, key).value.db)
  {
    HeadHolds(env, db, key);
    if key !in db.lifecycle { NewHeadSuspends(env, db, key); }
  }

  lemma NewHeadSuspends(env: Env, db: Db, key: PartitionKey)
    requires Head(env, db, key).Done? && key !in db.lifecycle
    ensures Suspends(Head(env, db, key).value.record) <==> PassesOn(db, key)
  {
    hide QuietStable, Enrolled, SuspendedPredecessors, Newcomer, EvidenceOf, AlphaRecorded, IndexOf;
    EvidentlyStable(env, EvidenceOf(db), key);
    EnrolledKeeps(env, Evidently(EvidenceOf(db)), db, key);
  }

  lemma RefreshSuspends(env: Env, db: Db, key: PartitionKey)
    requires Refreshed(env, db, key).Done?
    ensures SuspendsAs(key, PassesOn(db, key))(Refreshed(env, db, key).value)
  {
    var J := SuspendsAs(key, PassesOn(db, key));
    HeadSuspends(env, db, key);
    HeadHolds(env, db, key);
    SuspendsAsStays(env, key, PassesOn(db, key));
    RefreshRest(env, J, db, key);
  }

  /** What holds once a partition is registered and survives walks holds when its refresh is done. */
  lemma RefreshRest(env: Env, J: Db -> bool, db: Db, key: PartitionKey)
    requires EverStable(env, J) && Refreshed(env, db, key).Done? && J(Head(env, db, key).value.db)
    ensures J(Refreshed(env, db, key).value)
  {
    hide Expired, Tail;
    var h := Head(env, db, key).value;
    HeadHolds(env, db, key);
    assert Stable(env, J, key);
    if !Awake(h.record) {
      SyncedKeeps(env, J, h.db, key, h.record);
    } else {
      AwakeRest(env, J, h.db, key, h.record);
    }
  }

  lemma AwakeRest(env: Env, J: Db -> bool, db: Db, key: PartitionKey, record: Record)
    requires EverStable(env, J) && J(db) && Awake(record) && key in db.lifecycle && db.lifecycle[key] == record
    requires key.policyVersion == env.policy.version && Expired(env, db).Done? && Tail(env, Expired(env, db).value, key, record).Done?
    ensures J(Tail(env, Expired(env, db).value, key, record).value)
  {
    var late := LateTrials(env, db);
    LateAreLate(env, db);
    EachCensoredKeeps(env, J, db, late);
    HoldingStable(env, key, record);
    EachCensoredKeeps(env, Holding(env, key, record), db, late);
    assert Stable(env, J, key);
    TailKeeps(env, J, Expired(env, db).value, key, record);
  }

  lemma BegunSuspends(env: Env, db: Db, old_: PartitionKey, new_: PartitionKey)
    requires ChurnBegun(env, db, old_, new_).Done?
    ensures Suspends(ChurnBegun(env, db, old_, new_).value.record) <==> PassesOn(db, old_)
  {
    hide Refreshed;
    RefreshSuspends(env, db, old_);
  }

  /** A churn onto a retired partition writes to its record exactly when it has a suspension to pass on and the
      partition is not flagged yet. */
  lemma ChurnOntoRetired(env: Env, db: Db, old_: PartitionKey, new_: PartitionKey, record: Record)
    requires RetiredAs(new_, record)(db) && Churned(env, db, old_, new_).Done?
    ensures var after := Churned(env, db, old_, new_).value;
            && new_ in after.lifecycle
            && after.lifecycle[new_] == record.(lineageSuspended := record.lineageSuspended || PassesOn(db, old_))
  {
    var J := RetiredAs(new_, record);
    RetiredStays(env, new_, record);
    RetiredRecords(new_, record);
    ChurnBeginKeeps(env, J, db, old_, new_);
    BegunSuspends(env, db, old_, new_);
    var begun := ChurnBegun(env, db, old_, new_).value;
    RefreshedKeeps(env, J, begun.db, new_);
    FinishOntoRetired(env, begun.db, new_, Suspends(begun.record), record);
  }

  lemma FinishOntoRetired(env: Env, db: Db, new_: PartitionKey, suspended: bool, record: Record)
    requires ChurnFinished(env, db, new_, suspended).Done? && RetiredAs(new_, record)(Refreshed(env, db, new_).value)
    ensures var after := ChurnFinished(env, db, new_, suspended).value;
            new_ in after.lifecycle && after.lifecycle[new_] == record.(lineageSuspended := record.lineageSuspended || suspended)
  {}

  /** A live partition that nothing suspends by lineage. */
  predicate Loose(db: Db, key: PartitionKey) {
    key in db.lifecycle && !db.lifecycle[key].retired && !db.lifecycle[key].lineageSuspended
  }

  ghost function LooseAs(key: PartitionKey, loose: bool): Db -> bool {
    (d: Db) => key in d.lifecycle && Loose(d, key) == loose
  }

  lemma LooseStays(env: Env, key: PartitionKey, loose: bool)
    requires loose ==> key.policyVersion == env.policy.version
    ensures EverStable(env, LooseAs(key, loose))
  {
    var J := LooseAs(key, loose);
    forall a, b, t | J(a) && Censors(env, a, b, t) ensures J(b) {}
    forall other ensures Stable(env, J, other) { LooseWalk(env, key, loose, other); }
  }

  lemma LooseWalk(env: Env, key: PartitionKey, loose: bool, other: PartitionKey)
    requires loose ==> key.policyVersion == env.policy.version
    ensures QuietStable(env, LooseAs(key, loose), other)
  {
    hide NewRow, Newcomer, GateOpen, Registrations, IndexOf, OnlyRevoked, LegalNote, RecordStep, AlphaOf;
  }

  /** The state in which a churn flags its successor. */
  function ReadyToFlag(env: Env, db: Db, old_: PartitionKey, new_: PartitionKey): Outcome<Db> {
    var begun :- ChurnBegun(env, db, old_, new_);
    Refreshed(env, begun.db, new_)
  }

  /** Until then nothing has become loose or stopped being so, but for the old partition, which is retired. */
  lemma LooseUntilFlagged(env: Env, db: Db, old_: PartitionKey, new_: PartitionKey, key: PartitionKey)
    requires LifecycleInv(db, env.policy.version) && ReadyToFlag(env, db, old_, new_).Done? && key in db.lifecycle && key != old_
    ensures LooseAs(key, Loose(db, key))(ReadyToFlag(env, db, old_, new_).value)
  {
    hide Refreshed, Retired;
    var J := LooseAs(key, Loose(db, key));
    LooseStays(env, key, Loose(db, key));
    RefreshedKeeps(env, J, db, old_);
    var db1 := Refreshed(env, db, old_).value;
    OldRetires(env, db1, old_);
    RefreshedKeeps(env, J, ChurnBegun(env, db, old_, new_).value.db, new_);
  }

  lemma OldRetires(env: Env, db: Db, key: PartitionKey)
    requires key in db.lifecycle && Retired(db, key, db.lifecycle[key], true).Done?
    ensures var w := Retired(db, key, db.lifecycle[key], true).value;
            w.record.retired && w.db.lifecycle == db.lifecycle[key := w.record] && w.db.lineage == db.lineage
  {
    var J := (d: Db) => true;
    WithdrawalKeeps(env, J, db, key, true);
  }

  lemma OldStaysRetired(env: Env, db: Db, old_: PartitionKey, new_: PartitionKey)
    requires ReadyToFlag(env, db, old_, new_).Done?
    ensures !Loose(ReadyToFlag(env, db, old_, new_).value, old_)
    ensures ReadyToFlag(env, db, old_, new_).value.lifecycle.Keys == db.lifecycle.Keys + {old_, new_}
  {
    hide Refreshed, Retired;
    var db1 := Refreshed(env, db, old_).value;
    RefreshRegistersOne(env, db, old_);
    OldRetires(env, db1, old_);
    var w := ChurnBegun(env, db, old_, new_).value;
    RefreshRegistersOne(env, w.db, new_);
    LooseStays(env, old_, false);
    RefreshedKeeps(env, LooseAs(old_, false), w.db, new_);
  }

  /** Some live successor of the partition would not be suspended with it. */
  ghost predicate LeavesLoose(db: Db, key: PartitionKey, except: PartitionKey, cleared: set<Edge>) {
    exists e :: e in db.lineage && e.0 == key && e.1 != except && Loose(db, e.1) && e !in cleared
  }

  lemma ReadyIsAlike(env: Env, db: Db, old_: PartitionKey, new_: PartitionKey, cleared: set<Edge>)
    requires LifecycleInv(db, env.policy.version) && ReadyToFlag(env, db, old_, new_).Done? && old_ != new_
    requires new_ in db.lifecycle && ReadyToFlag(env, db, old_, new_).value.lineage == db.lineage + {(old_, new_)}
    requires !Loose(ReadyToFlag(env, db, old_, new_).value, new_)
    ensures LeavesLoose(ReadyToFlag(env, db, old_, new_).value, new_, old_, cleared) <==> LeavesLoose(db, new_, old_, cleared)
  {
    hide ReadyToFlag;
    var ready := ReadyToFlag(env, db, old_, new_).value;
    OldStaysRetired(env, db, old_, new_);
    forall e | e in db.lineage && e.0 == new_ && e.1 != old_ ensures Loose(ready, e.1) <==> Loose(db, e.1) {
      if e.1 in db.lifecycle { LooseUntilFlagged(env, db, old_, new_, e.1); }
    }
  }

  lemma ReadyLineage(env: Env, db: Db, old_: PartitionKey, new_: PartitionKey)
    requires ReadyToFlag(env, db, old_, new_).Done?
    ensures ReadyToFlag(env, db, old_, new_).value.lineage == db.lineage + {(old_, new_)}
  {
    var db1 := Refreshed(env, db, old_).value;
    LineageKept(env, db.lineage);
    RefreshedKeeps(env, SameLineage(db.lineage), db, old_);
    OldRetires(env, db1, old_);
    LineageKept(env, db.lineage + {(old_, new_)});
    RefreshedKeeps(env, SameLineage(db.lineage + {(old_, new_)}), ChurnBegun(env, db, old_, new_).value.db, new_);
  }

  lemma ReadyDescends(env: Env, db: Db, old_: PartitionKey, new_: PartitionKey, record: Record, cleared: set<Edge>)
    requires Descending(env.policy.version, cleared)(db) && ReadyToFlag(env, db, old_, new_).Done? && RetiredAs(new_, record)(db)
    ensures Descending(env.policy.version, cleared)(ReadyToFlag(env, db, old_, new_).value)
    ensures RetiredAs(new_, record)(ReadyToFlag(env, db, old_, new_).value)
  {
    var J := Descending(env.policy.version, cleared);
    DescendingWalks(env, cleared);
    RetiredStays(env, new_, record);
    RetiredRecords(new_, record);
    ChurnBeginKeeps(env, RetiredAs(new_, record), db, old_, new_);
    RefreshedKeeps(env, J, db, old_);
    var db1 := Refreshed(env, db, old_).value;
    ChurnRetirement(env, db1, old_, cleared);
    var w := Retired(db1, old_, db1.lifecycle[old_], true).value;
    LinkDescends(env.policy.version, cleared, w.db, old_, new_);
    var linked := Linked(w.db, old_, new_);
    UnlinkException(env.policy.version, cleared, linked, old_, new_);
    RefreshedKeeps(env, J, linked, new_);
    RefreshedKeeps(env, RetiredAs(new_, record), linked, new_);
  }

  /** Flagging a retired partition keeps the invariant exactly when it leaves no successor loose. */
  lemma FlagRetired(version: string, db: Db, b: Db, key: PartitionKey, except: PartitionKey, cleared: set<Edge>)
    requires Descending(version, cleared)(db) && key in db.lifecycle && db.lifecycle[key].retired && !Loose(db, except)
    requires LineageFlagged(db, key, db.lifecycle[key]).Done? && b == LineageFlagged(db, key, db.lifecycle[key]).value.db
    ensures Descending(version, cleared)(b) <==> !LeavesLoose(db, key, except, cleared)
  {
    assert b.lifecycle == db.lifecycle[key := db.lifecycle[key].(lineageSuspended := true)] && b.lineage == db.lineage;
    if LeavesLoose(db, key, except, cleared) {
      var e :| e in db.lineage && e.0 == key && e.1 != except && Loose(db, e.1) && e !in cleared;
      assert !EdgeHolds(b, e, cleared);
    } else {
      forall e | e in b.lineage ensures EdgeHolds(b, e, cleared) { assert EdgeHolds(db, e, cleared); }
    }
  }

  /** A churn whose successor is retired and gets flagged although one of its own successors stays loose. */
  ghost predicate Strands(db: Db, old_: PartitionKey, new_: PartitionKey, cleared: set<Edge>) {
    Reflags(db, old_, new_) && LeavesLoose(db, new_, old_, cleared)
  }

  /** A churn that passes a suspension on to a partition that is retired and not flagged. */
  predicate Reflags(db: Db, old_: PartitionKey, new_: PartitionKey) {
    new_ in db.lifecycle && db.lifecycle[new_].retired && !db.lifecycle[new_].lineageSuspended && PassesOn(db, old_)
  }

  lemma ChurnBackward(env: Env, db: Db, old_: PartitionKey, new_: PartitionKey, cleared: set<Edge>)
    requires Descending(env.policy.version, cleared)(db) && Churned(env, db, old_, new_).Done?
    requires new_ in db.lifecycle && db.lifecycle[new_].retired
    ensures Descending(env.policy.version, cleared)(Churned(env, db, old_, new_).value) <==> !Strands(db, old_, new_, cleared)
  {
    var record, ready := db.lifecycle[new_], ReadyToFlag(env, db, old_, new_).value;
    ReadyDescends(env, db, old_, new_, record, cleared);
    BegunSuspends(env, db, old_, new_);
    if Reflags(db, old_, new_) {
      ReadyLineage(env, db, old_, new_);
      OldStaysRetired(env, db, old_, new_);
      ReadyIsAlike(env, db, old_, new_, cleared);
      FlagRetired(env.policy.version, ready, Churned(env, db, old_, new_).value, new_, old_, cleared);
    }
  }

  /** Churn, exactly: the invariant holds afterwards unless the churn flags a retired partition and leaves one of
      its live successors loose. */
  lemma ChurnDescends(env: Env, db: Db, old_: PartitionKey, new_: PartitionKey, cleared: set<Edge>)
    requires Descending(env.policy.version, cleared)(db) && Churned(env, db, old_, new_).Done?
    ensures Descending(env.policy.version, cleared)(Churned(env, db, old_, new_).value) <==> !Strands(db, old_, new_, cleared)
  {
    if new_ in db.lifecycle && db.lifecycle[new_].retired {
      ChurnBackward(env, db, old_, new_, cleared);
    } else {
      ChurnForward(env, db, old_, new_, cleared);
    }
  }

  // ---- policy changes ---------------------------------------------------------------------------------------

  /** Before a change of version nothing unretired is on the new one, so the new edges lead nowhere yet. */
  lemma {:induction false} VersionsDescend(env: Env, db: Db, keys: set<PartitionKey>, version: string, cleared: set<Edge>)
    requires Descending(env.policy.version, cleared)(db) && VersionsRetired(env, db, keys, version).Done?
    requires version != env.policy.version
    ensures Descending(env.policy.version, cleared)(VersionsRetired(env, db, keys, version).value)
    ensures forall key :: key in VersionsRetired(env, db, keys, version).value.lifecycle <==> key in db.lifecycle
    ensures forall key :: key in db.lifecycle && (key in keys || db.lifecycle[key].retired) ==>
              VersionsRetired(env, db, keys, version).value.lifecycle[key].retired
    decreases |keys|
  {
    if keys != {} {
      var key := env.pick(db, keys);
      ChurnlessRetirement(env, db, key, cleared);
      var w := Retired(db, key, db.lifecycle[key], false).value;
      var next := key.(policyVersion := version);
      LinkDescends(env.policy.version, cleared, w.db, key, next);
      var linked := Linked(w.db, key, next);
      assert next in linked.lifecycle ==> linked.lifecycle[next].retired;
      UnlinkException(env.policy.version, cleared, linked, key, next);
      VersionsDescend(env, linked, keys - {key}, version, cleared);
    }
  }

  lemma ChurnlessRetirement(env: Env, db: Db, key: PartitionKey, cleared: set<Edge>)
    requires Descending(env.policy.version, cleared)(db) && key in db.lifecycle && Retired(db, key, db.lifecycle[key], false).Done?
    ensures var w := Retired(db, key, db.lifecycle[key], false).value;
            && Descending(env.policy.version, cleared)(w.db) && w.record.retired
            && w.db.lifecycle == db.lifecycle[key := w.record]
  {
    DescendingWalks(env, cleared);
    DescendingRecords(env.policy.version, cleared);
    assert Stable(env, Descending(env.policy.version, cleared), key);
    WithdrawalKeeps(env, Descending(env.policy.version, cleared), db, key, false);
  }

  /** A change of policy keeps the invariant, under the new version: everything on the old one is retired. */
  lemma PolicyDescends(env: Env, db: Db, new_: Policy, actor: string, cleared: set<Edge>)
    requires Descending(env.policy.version, cleared)(db) && PolicyReplaced(env, db, env.policy, new_, actor).Done?
    ensures Descending(new_.version, cleared)(PolicyReplaced(env, db, env.policy, new_, actor).value)
  {
    hide VersionsRetired;
    DescendingWalks(env, cleared);
    var after, old_ := PolicyReplaced(env, db, env.policy, new_, actor).value, env.policy.version;
    if new_.version != old_ {
      VersionDescends(env, db, new_.version, actor, cleared, after);
    } else {
      SameRecordsDescend(old_, cleared, db, after);
    }
  }

  lemma VersionDescends(env: Env, db: Db, version: string, actor: string, cleared: set<Edge>, after: Db)
    requires Descending(env.policy.version, cleared)(db) && version != env.policy.version
    requires VersionsRetired(env, db, OnVersion(db, env.policy.version), version).Done?
    requires var db1 := VersionsRetired(env, db, OnVersion(db, env.policy.version), version).value;
             after.lifecycle == db1.lifecycle && after.lineage == db1.lineage
    ensures Descending(version, cleared)(after)
  {
    var old_ := env.policy.version;
    VersionsDescend(env, db, OnVersion(db, old_), version, cleared);
    SameRecordsDescend(old_, cleared, VersionsRetired(env, db, OnVersion(db, old_), version).value, after);
    AllRetired(env, db, after, old_, version, cleared);
  }

  lemma AllRetired(env: Env, db: Db, after: Db, old_: string, version: string, cleared: set<Edge>)
    requires Descending(old_, cleared)(db) && Descending(old_, cleared)(after)
    requires forall key :: key in after.lifecycle <==> key in db.lifecycle
    requires forall key :: key in db.lifecycle && (key in OnVersion(db, old_) || db.lifecycle[key].retired) ==> after.lifecycle[key].retired
    ensures Descending(version, cleared)(after)
  {
    forall key | key in after.lifecycle ensures after.lifecycle[key].retired {
      assert db.lifecycle[key].retired || key in OnVersion(db, old_);
    }
  }

  // ---- every operation ------------------------------------------------------------------------------------

  /** The one operation that can leave a successor of a suspended partition loose. */
  ghost predicate StrandsSuccessor(db: Db, op: Operation, cleared: set<Edge>) {
    op.Churn? && Strands(db, op.key, op.successor, cleared)
  }

  /** Every operation keeps suspension along every edge but those a release clears, except exactly such a churn. */
  lemma OperationDescends(env: Env, keyring: set<string>, db: Db, op: Operation, cleared: set<Edge>)
    requires Descending(env.policy.version, cleared)(db) && Operated(env, keyring, db, op).Done?
    ensures Descending(env.policy.version, ClearedBy(db, op, cleared))(Operated(env, keyring, db, op).value)
            <==> !StrandsSuccessor(db, op, cleared)
  {
    hide Refreshed, Expired, Adjudicated, SevereRecorded, OracleReplaced, Churned, Released, Strands;
    var J := Descending(env.policy.version, cleared);
    DescendingWalks(env, cleared);
    match op
    case Release(key, actor, reason, mac, oracle) => ReleaseDescends(env, keyring, db, op, cleared);
    case ChangeOracle(key, oracle) =>
      forall a, b, o | J(a) && Reopened(env, a, b, key, o, CHANGED_ORACLE) ensures J(b) {
        EpochDescends(env, cleared, a, b, key, o, CHANGED_ORACLE);
      }
      OracleChangeKeeps(env, J, db, key, oracle);
    case Churn(key, successor) => ChurnDescends(env, db, key, successor, cleared);
    case _ => DescendingRecords(env.policy.version, cleared); PlainKeeps(env, J, keyring, db, op);
  }

  /** A severe failure reaches no partition but its own: in every reachable state a live partition has no
      successors, so the recursive scope of the revocation holds only itself. */
  lemma SevereReachesOnlyItself(db: Db, version: string, key: PartitionKey)
    requires LifecycleInv(db, version) && Walkable(db, key)
    ensures Descendants(db, key) == {key}
  {
    Closure.ReachCloses(db.lineage, {key});
    Closure.ReachLeast(db.lineage, {key}, {key});
  }

  /** Retirement is final, exactly: the one operation that writes to a retired partition's record is a churn that
      passes a suspension on to it. */
  lemma OperationKeepsRetired(env: Env, keyring: set<string>, db: Db, op: Operation, key: PartitionKey, record: Record)
    requires RetiredAs(key, record)(db) && Operated(env, keyring, db, op).Done?
    ensures RetiredAs(key, record)(Operated(env, keyring, db, op).value) <==> !(op.Churn? && op.successor == key && Reflags(db, op.key, key))
  {
    var J := RetiredAs(key, record);
    RetiredStays(env, key, record);
    match op
    case Release(k, actor, reason, mac, oracle) =>
      RetiredEpochs(env, key, record, k);
      assert Stable(env, J, k);
      ReleaseKeeps(env, J, db, keyring, k, actor, reason, mac, oracle);
    case ChangeOracle(k, oracle) => RetiredEpochs(env, key, record, k); OracleChangeKeeps(env, J, db, k, oracle);
    case Churn(k, successor) =>
      if successor == key { ChurnOntoRetired(env, db, k, key, record); } else { RetiredChurn(env, db, k, successor, key, record); }
    case _ => RetiredRecords(key, record); PlainKeeps(env, J, keyring, db, op);
  }

  lemma RetiredChurn(env: Env, db: Db, old_: PartitionKey, new_: PartitionKey, key: PartitionKey, record: Record)
    requires RetiredAs(key, record)(db) && Churned(env, db, old_, new_).Done? && new_ != key
    ensures RetiredAs(key, record)(Churned(env, db, old_, new_).value)
  {
    var J := RetiredAs(key, record);
    RetiredStays(env, key, record);
    RetiredRecords(key, record);
    ChurnBeginKeeps(env, J, db, old_, new_);
    var begun := ChurnBegun(env, db, old_, new_).value;
    RefreshedKeeps(env, J, begun.db, new_);
    RetiredFinish(env, begun.db, new_, Suspends(begun.record), key, record);
  }

  lemma RetiredRecords(key: PartitionKey, record: Record)
    ensures SurvivesWithdrawal(RetiredAs(key, record)) && SurvivesLink(RetiredAs(key, record)) && SurvivesSevere(RetiredAs(key, record))
  {}

  lemma RetiredFinish(env: Env, db: Db, new_: PartitionKey, suspended: bool, key: PartitionKey, record: Record)
    requires ChurnFinished(env, db, new_, suspended).Done? && RetiredAs(key, record)(Refreshed(env, db, new_).value) && new_ != key
    ensures RetiredAs(key, record)(ChurnFinished(env, db, new_, suspended).value)
  {}

  lemma RetiredEpochs(env: Env, key: PartitionKey, record: Record, k: PartitionKey)
    ensures forall reason :: SurvivesEpoch(env, RetiredAs(key, record), k, reason)
  {
    var J := RetiredAs(key, record);
    forall a, b, oracle, reason | J(a) && Reopened(env, a, b, k, oracle, reason) ensures J(b) {
      var mid, end := EpochShape(env.policy, a, k, a.lifecycle[k], oracle, reason);
    }
  }
}
