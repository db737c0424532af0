/** The lifecycle manager as it runs: a flag and a set of deferred partitions around the writes, with a listener
    that every resolved trial calls back.  */
module Manager {
  import opened Tables
  import opened AlphaSpending
  import opened Shadow
  import opened Lifecycle
  import opened Worklist
  import opened Operations
  import opened Principals
  import opened ShadowLog
  import C = Controller

  /** The same for code that also returns its copy of a record. */
  ghost predicate Walks(spec: Outcome<Walked>, r: Outcome<Record>, db: Db) {
    (r.Done? <==> spec.Done?) && (spec.Done? ==> spec.value == Walked(db, r.value))
  }

  ghost predicate Defers(spec: Outcome<Deferral>, r: Status, db: Db, before: set<PartitionKey>, after: set<PartitionKey>) {
    (r.Done? <==> spec.Done?) && (spec.Done? ==> db == spec.value.db && after == before + spec.value.deferred)
  }

  ghost predicate Routes(spec: Outcome<C.Evaluation>, r: Outcome<Route>, db: Db) {
    (r.Done? <==> spec.Done?) && (spec.Done? ==> spec.value == C.Evaluation(db, r.value))
  }

  class LifecycleManager {
    const store: Store
    const shadow: ShadowEvidenceLog
    const keyring: set<string>
    const deadline: int
    const pick: Pick
    var policy: Policy
    var inLabel: bool
    var deferred: set<PartitionKey>

    constructor (shadow: ShadowEvidenceLog, policy: Policy, pick: Pick)
      ensures this.shadow == shadow && this.policy == policy && this.pick == pick && Idle()
      ensures store == shadow.store && keyring == shadow.keyring && deadline == shadow.deadline
    {
      this.shadow, this.store, this.keyring, this.deadline := shadow, shadow.store, shadow.keyring, shadow.deadline;
      this.policy, this.pick := policy, pick;
      inLabel, deferred := false, {};
    }

    /** Between operations nothing is deferred; the manager and its log share one store. */
    predicate Idle()
      reads this
    {
      !inLabel && deferred == {} && shadow.store == store
    }

    function At(now: int): Env
      reads this`policy
    {
      Env(now, policy, deadline, pick)
    }

    // ---- pieces of a walk ------------------------------------------------------------------------------

    method Log(key: PartitionKey, from: Option<State>, record: Record, event: Option<Event>) returns (r: Status)
      modifies store`db
      ensures Follows(Logged(old(store.db), key, from, record, event), r, store.db)
    {
      r := store.Append(CONTROLLER, Transition(key, from, record, event));
    }

    method RecordAlpha(key: PartitionKey, epoch: nat, floor: int, reason: AlphaReason) returns (r: Status)
      modifies store`db
      ensures Follows(AlphaRecorded(policy, old(store.db), key, epoch, floor, reason), r, store.db)
    {
      var index := if reason == REGISTERED then Some(Registrations(store.db.alphas) + 1) else IndexOf(store.db.alphas, key);
      if index.None? || index.value < 1 { return Raised; }
      var alpha := AllocatedAlpha(policy.alpha, policy.spending, policy.partitions, policy.epochs, index.value, epoch + 1);
      store.db := store.db.(alphas := store.db.alphas + [AlphaRow(key, floor, reason, Allocation(index.value, epoch, alpha))]);
      r := OK;
    }

    method SuspendLineage(key: PartitionKey, record: Record) returns (r: Outcome<Record>)
      modifies store`db
      ensures Walks(LineageFlagged(old(store.db), key, record), r, store.db)
    {
      var flagged := record.(lineageSuspended := true);
      store.db := Saved(store.db, key, flagged);
      var logged := Log(key, Some(record.state), flagged, None);
      if logged.Raised? { return Raised; }
      var revoked := store.Revoke(LineageSuspended, OfPartitions(store.db, {key}), CONTROLLER);
      if revoked.Raised? { return Raised; }
      r := Done(flagged);
    }

    method Retire(key: PartitionKey, record: Record, churned: bool) returns (r: Outcome<Record>)
      modifies store`db
      ensures Walks(Retired(old(store.db), key, record, churned), r, store.db)
    {
      var gone := record.(retired := true);
      store.db := Invalidated(Saved(store.db, key, gone), key, "PARTITION_RETIRED");
      var logged := Log(key, Some(record.state), gone, None);
      if logged.Raised? { return Raised; }
      if churned {
        var revoked := store.Revoke(PartitionRetired, OfPartitions(store.db, {key}), CONTROLLER);
        if revoked.Raised? { return Raised; }
      }
      r := Done(gone);
    }

    method Enrol(ghost now: int, key: PartitionKey) returns (r: Outcome<Record>)
      modifies store`db
      ensures Walks(Enrolled(At(now), old(store.db), key), r, store.db)
    {
      var record := NewRecord(false);
      store.db := Saved(store.db, key, record);
      var recorded := RecordAlpha(key, 0, Floor(store.db, key), REGISTERED);
      if recorded.Raised? { return Raised; }
      var logged := Log(key, None, record, Some(FIRST_PROPOSAL));
      if logged.Raised? { return Raised; }
      if SuspendedPredecessors(store.db, key) != {} {
        r := SuspendLineage(key, record);
      } else {
        r := Done(record);
      }
    }

    method Load(ghost now: int, key: PartitionKey) returns (r: Outcome<Record>)
      modifies store`db
      ensures Walks(Head(At(now), old(store.db), key), r, store.db)
    {
      if key !in store.db.lifecycle {
        r := Enrol(now, key);
        if r.Raised? { return Raised; }
      } else {
        if IndexOf(store.db.alphas, key).None? {
          var recorded := RecordAlpha(key, store.db.lifecycle[key].epoch, Floor(store.db, key), REGISTERED);
          if recorded.Raised? { return Raised; }
        }
        r := Done(store.db.lifecycle[key]);
      }
      if !r.value.retired && key.policyVersion != policy.version { r := Retire(key, r.value, false); }
    }

    method Sync(now: int, key: PartitionKey, record: Record) returns (r: Status)
      modifies store`db
      ensures Follows(Synced(At(now), old(store.db), key, record), r, store.db)
    {
      var basis := BasisOf(At(now), store.db, key, record);
      if basis.None? { return OK; }
      var alpha := AlphaOf(store.db.alphas, key);
      if alpha.None? { return Raised; }
      var desired := Desired(store.db, key, record, basis.value, alpha.value);
      if !(key in store.db.snapshots && SameEvidence(store.db.snapshots[key], desired)) {
        store.db := store.db.(snapshots := store.db.snapshots[key := desired]);
      }
      r := OK;
    }

    method Move(key: PartitionKey, record: Record, event: Event) returns (r: Outcome<Record>)
      modifies store`db
      ensures Walks(Moved(old(store.db), key, record, event), r, store.db)
    {
      var target := Next(Some(record.state), event);
      if target.None? { return Raised; }
      var moved := record.(state := target.value);
      store.db := Saved(store.db, key, moved);
      var logged := Log(key, Some(record.state), moved, Some(event));
      if logged.Raised? { return Raised; }
      var revoked := OK;
      if event == SEVERE_FAILURE {
        revoked := store.Revoke(SevereFailure, OfPartitions(store.db, Descendants(store.db, key)), CONTROLLER);
      } else if event == GATE_LOST_OUTCOME {
        revoked := store.Revoke(GateLost, OnEvidence(store.db, key), CONTROLLER);
      } else if event == ORACLE_CHANGED {
        revoked := store.Revoke(OracleChanged, OnEvidence(store.db, key), CONTROLLER);
      }
      if revoked.Raised? { return Raised; }
      r := Done(moved);
    }

    method Admit(key: PartitionKey, record: Record, reading: Option<Reading>) returns (r: Outcome<Record>)
      modifies store`db
      ensures Walks(Admitted(old(store.db), key, record, reading), r, store.db)
    {
      r := Done(record);
      if record.state == UNESTABLISHED && reading.Some? && reading.value.N() >= 1 { r := Move(key, record, TRIAL_ADMITTED); }
    }

    method Gate(now: int, key: PartitionKey, record: Record, reading: Option<Reading>) returns (r: Outcome<Record>)
      modifies store`db
      ensures Walks(Gated(At(now), old(store.db), key, record, reading), r, store.db)
    {
      r := Done(record);
      var reasons := GateReasons(At(now), store.db, key, record, reading);
      if record.state == QUALIFYING {
        if reasons == {} { r := Move(key, record, GATE_MET); }
      } else if record.state == AUTONOMOUS {
        if EVIDENCE_STALE in reasons {
          r := Move(key, record, EVIDENCE_EXPIRED);
        } else if reasons != {} {
          r := Move(key, record, GATE_LOST_OUTCOME);
        }
      }
    }

    method Finish(now: int, key: PartitionKey, record: Record) returns (r: Status, state: State)
      modifies store`db
      ensures Follows(Tail(At(now), old(store.db), key, record), r, store.db)
      ensures r.Done? ==> TailRecord(At(now), old(store.db), key, record).Done?
                          && TailRecord(At(now), old(store.db), key, record).value.state == state
    {
      state := record.state;
      var reading := Read(store.db, key, policy.pending);
      r := Sync(now, key, record);
      if r.Raised? { return; }
      var admitted := Admit(key, record, reading);
      if admitted.Raised? { return Raised, state; }
      var gated := Gate(now, key, admitted.value, reading);
      if gated.Raised? { return Raised, state; }
      state := gated.value.state;
      r := Sync(now, key, gated.value);
    }

    // ---- walks, censoring and the listener, which call each other ----------------------------------------

    /** Brings one partition up to date.  Inside a label it leaves other partitions deferred; outside, every
        trial it censors has set off a worklist of its own by the time it returns the state it ended in. */
    method Walk(now: int, key: PartitionKey) returns (r: Status, state: State)
      requires inLabel || deferred == {}
      modifies store`db, this`inLabel, this`deferred
      ensures inLabel == old(inLabel) && (!inLabel ==> deferred == {})
      ensures old(inLabel) ==> Defers(WalkDeferring(At(now), old(store.db), key), r, store.db, old(deferred), deferred)
      ensures !old(inLabel) ==> Follows(Refreshed(At(now), old(store.db), key), r, store.db)
      ensures !old(inLabel) && r.Done? ==> StateReturned(At(now), old(store.db), key) == Done(state)
      decreases if inLabel then 0 else 1, 3
    {
      state := UNESTABLISHED;
      var head := Load(now, key);
      if head.Raised? { return Raised, state; }
      state := head.value.state;
      if !Awake(head.value) {
        r := Sync(now, key, head.value);
        return;
      }
      r := ExpireUnlabeled(now);
      if r.Raised? { return; }
      r, state := Finish(now, key, head.value);
    }

    method ExpireUnlabeled(now: int) returns (r: Status)
      requires inLabel || deferred == {}
      modifies store`db, this`inLabel, this`deferred
      ensures inLabel == old(inLabel) && (!inLabel ==> deferred == {})
      ensures old(inLabel) ==>
                var late := LateTrials(At(now), old(store.db));
                && Follows(AllCensored(old(store.db), late, now), r, store.db)
                && (r.Done? ==> deferred == old(deferred) + PartitionsOf(late))
      ensures !old(inLabel) ==> Follows(Expired(At(now), old(store.db)), r, store.db)
      decreases if inLabel then 0 else 1, 2
    {
      var late := Overdue(store.db.trials, store.db.labels, now - deadline);
      r := CensorEach(now, late);
    }

    method CensorEach(now: int, late: seq<Trial>) returns (r: Status)
      requires inLabel || deferred == {}
      modifies store`db, this`inLabel, this`deferred
      ensures inLabel == old(inLabel) && (!inLabel ==> deferred == {})
      ensures old(inLabel) ==>
                && Follows(AllCensored(old(store.db), late, now), r, store.db)
                && (r.Done? ==> deferred == old(deferred) + PartitionsOf(late))
      ensures !old(inLabel) ==> Follows(EachCensored(At(now), old(store.db), late), r, store.db)
      decreases if inLabel then 0 else 1, 1, |late|
    {
      var i := 0;
      while i < |late|
        invariant 0 <= i <= |late|
        invariant inLabel == old(inLabel) && (!inLabel ==> deferred == {})
        invariant inLabel ==>
                    && AllCensored(store.db, late[i..], now) == AllCensored(old(store.db), late, now)
                    && deferred == old(deferred) + PartitionsOf(late[..i])
        invariant !inLabel ==> EachCensored(At(now), store.db, late[i..]) == EachCensored(At(now), old(store.db), late)
      {
        assert late[i..][0] == late[i] && late[i..][1..] == late[i + 1..];
        assert PartitionsOf(late[..i + 1]) == PartitionsOf(late[..i]) + {late[i].partition} by {
          assert forall t :: t in late[..i + 1] <==> t in late[..i] || t == late[i];
        }
        r := Censor(now, late[i]);
        if r.Raised? { return; }
        i := i + 1;
      }
      assert late[..|late|] == late;
      r := OK;
    }

    /** Resolves one trial as censored and tells the listener. */
    method Censor(now: int, t: Trial) returns (r: Status)
      requires inLabel || deferred == {}
      modifies store`db, this`inLabel, this`deferred
      ensures inLabel == old(inLabel) && (!inLabel ==> deferred == {})
      ensures old(inLabel) ==> Follows(CensoredAt(old(store.db), t.id, now), r, store.db)
                               && (r.Done? ==> deferred == old(deferred) + {t.partition})
      ensures !old(inLabel) ==>
                Follows(var db1 :- CensoredAt(old(store.db), t.id, now); OnLabel(At(now), db1, t.partition), r, store.db)
      decreases if inLabel then 0 else 1, 1, 0
    {
      r := store.Append(CONTROLLER, ShadowCensored(t.id, now));
      if r.Raised? { return; }
      if t.id in store.db.labels { return Raised; }
      store.db := store.db.(labels := store.db.labels[t.id := Censored(now)]);
      r := Notify(now, t.partition);
    }

    /** The listener: called with the partition of every trial that resolves, in the transaction that resolves
        it.  Calls that arrive during a walk are deferred, not dropped. */
    method Notify(now: int, key: PartitionKey) returns (r: Status)
      requires inLabel || deferred == {}
      modifies store`db, this`inLabel, this`deferred
      ensures inLabel == old(inLabel) && (!inLabel ==> deferred == {})
      ensures old(inLabel) ==> r == OK && store.db == old(store.db) && deferred == old(deferred) + {key}
      ensures !old(inLabel) ==> Follows(OnLabel(At(now), old(store.db), key), r, store.db)
      decreases if inLabel then 0 else 1, 0
    {
      deferred := deferred + {key};
      if inLabel { return OK; }
      inLabel := true;
      r := OK;
      while deferred != {} && r.Done?
        invariant inLabel
        invariant r.Done? ==> Drained(At(now), store.db, deferred) == Drained(At(now), old(store.db), {key})
        invariant r.Raised? ==> Drained(At(now), old(store.db), {key}).Raised?
        decreases r.Done?, |LateTrials(At(now), store.db)|, |deferred|
      {
        var pending := pick(store.db, deferred);
        deferred := deferred - {pending};
        if Walkable(store.db, pending) {
          if WalkDeferring(At(now), store.db, pending).Done? { WalkProgress(At(now), store.db, pending); }
          var state;
          r, state := Walk(now, pending);
        }
      }
      inLabel, deferred := false, {};
    }
 
    // ---- the operations ----------------------------------------------------------------------------------

    method Refresh(now: int, key: PartitionKey) returns (r: Status)
      requires Idle()
      modifies store, this`inLabel, this`deferred
      ensures Idle() && Transacted(store, Refreshed(At(now), old(store.db), key), r)
    {
      store.Begin();
      var state;
      r, state := Walk(now, key);
      store.End(r);
    }

    method Expire(now: int) returns (r: Status)
      requires Idle()
      modifies store, this`inLabel, this`deferred
      ensures Idle() && Transacted(store, Expired(At(now), old(store.db)), r)
    {
      store.Begin();
      r := ExpireUnlabeled(now);
      store.End(r);
    }

    method Evaluate(now: int, vetoed: bool, p: Proposal, audited: bool) returns (r: Outcome<Route>)
      requires Idle()
      modifies store, this`inLabel, this`deferred
      ensures Idle() && store.depth == old(store.depth)
      ensures Routes(C.Evaluated(At(now), old(store.db), vetoed, p, audited), r, store.db)
      ensures store.depth == 0 && r.Raised? ==> store.db == old(store.db)
    {
      store.Begin();
      r := Route(now, vetoed, p, audited);
      store.End(if r.Done? then OK else Raised);
    }

    method Route(now: int, vetoed: bool, p: Proposal, audited: bool) returns (r: Outcome<Route>)
      requires Idle()
      modifies store`db, this`inLabel, this`deferred
      ensures Idle() && Routes(C.Evaluated(At(now), old(store.db), vetoed, p, audited), r, store.db)
    {
      var walked, state := Walk(now, p.partition);
      if walked.Raised? || p.partition !in store.db.lifecycle { return Raised; }
      var record := store.db.lifecycle[p.partition];
      var route := C.RouteOf(policy, now, store.db, vetoed, p, audited);
      if (state != AUTONOMOUS || RecordReasons(record) != {}) && C.Unattended(route) { route := HumanApproval; }
      r := Done(route);
    }

    /** One signed label, admitted or refused, with everything it sets off. */
    method Adjudicate(now: int, s: SignedLabel) returns (r: Status)
      requires Idle()
      modifies store, this`inLabel, this`deferred
      ensures Idle() && Transacted(store, Adjudicated(At(now), old(store.db), keyring, s), r)
    {
      hide OnLabel, CensoredAt, LabelRecorded, Quarantined;
      store.Begin();
      var refusal := LabelRefusal(store.db, keyring, deadline, now, s);
      if refusal == Some(LateLabel) {
        r := AdjudicateLate(now, s);
      } else if refusal.Some? {
        r := shadow.Refuse(s.trialId, refusal.value);
      } else {
        r := AdmitLabel(now, s);
      }
      store.End(r);
    }

    method AdjudicateLate(now: int, s: SignedLabel) returns (r: Status)
      requires Idle() && Find(store.db.trials, s.trialId).Some? && Find(store.db.trials, s.trialId).value.partition == s.partition
      modifies store`db, this`inLabel, this`deferred
      ensures Idle()
      ensures Follows(var db1 :- CensoredAt(old(store.db), s.trialId, now);
                      var db2 :- OnLabel(At(now), db1, s.partition);
                      Quarantined(db2, s.trialId, LateLabel), r, store.db)
    {
      r := Censor(now, Find(store.db.trials, s.trialId).value);
      if r.Raised? { return; }
      r := shadow.Refuse(s.trialId, LateLabel);
    }

    method AdmitLabel(now: int, s: SignedLabel) returns (r: Status)
      requires Idle()
      modifies store`db, this`inLabel, this`deferred
      ensures Idle()
      ensures Follows(var db1 :- LabelRecorded(old(store.db), now, s); OnLabel(At(now), db1, s.partition), r, store.db)
    {
      r := store.Append(s.oracle.id, ShadowLabeled(s.trialId, s.verdict, s.oracle, s.claimedAt, now));
      if r.Raised? { return; }
      if s.trialId in store.db.labels { return Raised; }
      store.db := store.db.(labels := store.db.labels[s.trialId := Labeled(s.verdict, now, s.claimedAt)]);
      r := Notify(now, s.partition);
    }

    method RecordSevere(now: int, key: PartitionKey, reason: string) returns (r: Status)
      requires Idle()
      modifies store, this`inLabel, this`deferred
      ensures Idle() && Transacted(store, SevereRecorded(At(now), old(store.db), key, reason), r)
    {
      store.Begin();
      r := WalkAndSuspend(now, key, reason);
      store.End(r);
    }

    method WalkAndSuspend(now: int, key: PartitionKey, reason: string) returns (r: Status)
      requires Idle()
      modifies store`db, this`inLabel, this`deferred
      ensures Idle() && Follows(SevereRecorded(At(now), old(store.db), key, reason), r, store.db)
    {
      var state;
      r, state := Walk(now, key);
      if r.Done? { r := Suspend(now, key, reason); }
    }

    method Suspend(now: int, key: PartitionKey, reason: string) returns (r: Status)
      modifies store`db
      ensures Follows(SeverityMarked(At(now), old(store.db), key, reason), r, store.db)
    {
      if key !in store.db.lifecycle { return Raised; }
      var record := store.db.lifecycle[key];
      if !Awake(record) {
        r := Log(key, Some(record.state), record, None);
        return;
      }
      var moved := Move(key, record.(suspensionReason := Some(reason)), SEVERE_FAILURE);
      if moved.Raised? { return Raised; }
      r := Sync(now, key, moved.value);
    }

    /** The new epoch of a release or a change of oracle. */
    method Reopen(key: PartitionKey, record: Record, oracle: Oracle, reason: AlphaReason) returns (r: Outcome<Record>)
      requires shadow.store == store
      modifies store`db
      ensures Walks(EpochOpenedFor(policy, old(store.db), key, record, oracle, reason), r, store.db)
    {
      hide EpochStarted, OracleSet, AlphaRecorded;
      var opening, floor := shadow.OpenEpoch(key);
      if opening.Raised? { return Raised; }
      var binding := shadow.BindOracle(key, oracle);
      if binding.Raised? { return Raised; }
      var next := record.(epoch := record.epoch + 1);
      var recorded := RecordAlpha(key, next.epoch, floor, reason);
      if recorded.Raised? { return Raised; }
      r := Done(next);
    }

    method Release(now: int, key: PartitionKey, actor: string, reason: string, mac: Mac, oracle: Oracle) returns (r: Status)
      requires Idle()
      modifies store
      ensures Transacted(store, Released(At(now), old(store.db), keyring, key, actor, reason, mac, oracle), r)
    {
      store.Begin();
      r := Raised;
      if MayRelease(store.db, keyring, key, actor, reason, mac, oracle) { r := ReleaseNow(now, key, oracle); }
      store.End(r);
    }

    method ReleaseNow(now: int, key: PartitionKey, oracle: Oracle) returns (r: Status)
      requires Idle() && key in store.db.lifecycle
      modifies store`db
      ensures Follows(ReleaseCarriedOut(At(now), old(store.db), key, oracle), r, store.db)
    {
      var begun := Reopen(key, store.db.lifecycle[key], oracle, RELEASED);
      if begun.Raised? { return Raised; }
      var record := begun.value.(lineageSuspended := false);
      if record.state == SUSPENDED {
        var moved := Move(key, record.(suspensionReason := None), HUMAN_RELEASE);
        if moved.Raised? { return Raised; }
        record := moved.value;
      } else {
        store.db := Saved(store.db, key, record);
        r := Log(key, Some(record.state), record, None);
        if r.Raised? { return; }
      }
      r := Sync(now, key, record);
    }

    method ChangeOracle(now: int, key: PartitionKey, oracle: Oracle) returns (r: Status)
      requires Idle()
      modifies store, this`inLabel, this`deferred
      ensures Idle() && Transacted(store, OracleReplaced(At(now), old(store.db), key, oracle), r)
    {
      store.Begin();
      r := WalkAndMoveOracle(now, key, oracle);
      store.End(r);
    }

    method WalkAndMoveOracle(now: int, key: PartitionKey, oracle: Oracle) returns (r: Status)
      requires Idle()
      modifies store`db, this`inLabel, this`deferred
      ensures Idle() && Follows(OracleReplaced(At(now), old(store.db), key, oracle), r, store.db)
    {
      var state;
      r, state := Walk(now, key);
      if r.Done? { r := MoveOracle(now, key, oracle); }
    }

    method MoveOracle(now: int, key: PartitionKey, oracle: Oracle) returns (r: Status)
      requires Idle()
      modifies store`db
      ensures Follows(OracleMoved(At(now), old(store.db), key, oracle), r, store.db)
    {
      if !Walkable(store.db, key) { return Raised; }
      var begun := Reopen(key, store.db.lifecycle[key], oracle, CHANGED_ORACLE);
      if begun.Raised? { return Raised; }
      var moved := Move(key, begun.value, ORACLE_CHANGED);
      if moved.Raised? { return Raised; }
      r := Sync(now, key, moved.value);
    }

    method OnChurn(now: int, old_: PartitionKey, new_: PartitionKey) returns (r: Status)
      requires Idle()
      modifies store, this`inLabel, this`deferred
      ensures Idle() && Transacted(store, Churned(At(now), old(store.db), old_, new_), r)
    {
      hide ChurnBegun, ChurnFinished;
      if old_ == new_ { return Raised; }
      store.Begin();
      r := Replace(now, old_, new_);
      store.End(r);
    }

    method Replace(now: int, old_: PartitionKey, new_: PartitionKey) returns (r: Status)
      requires Idle() && old_ != new_
      modifies store`db, this`inLabel, this`deferred
      ensures Idle() && Follows(Churned(At(now), old(store.db), old_, new_), r, store.db)
    {
      var begun := BeginChurn(now, old_, new_);
      if begun.Raised? { return Raised; }
      r := FinishChurn(now, new_, Suspends(begun.value));
    }

    method BeginChurn(now: int, old_: PartitionKey, new_: PartitionKey) returns (r: Outcome<Record>)
      requires Idle()
      modifies store`db, this`inLabel, this`deferred
      ensures Idle() && Walks(ChurnBegun(At(now), old(store.db), old_, new_), r, store.db)
    {
      var walked, state := Walk(now, old_);
      if walked.Raised? || old_ !in store.db.lifecycle { return Raised; }
      r := Retire(old_, store.db.lifecycle[old_], true);
      if r.Raised? { return; }
      store.db := Linked(store.db, old_, new_);
    }

    method FinishChurn(now: int, new_: PartitionKey, suspended: bool) returns (r: Status)
      requires Idle()
      modifies store`db, this`inLabel, this`deferred
      ensures Idle() && Follows(ChurnFinished(At(now), old(store.db), new_, suspended), r, store.db)
    {
      var state;
      r, state := Walk(now, new_);
      if r.Raised? || new_ !in store.db.lifecycle { return Raised; }
      var successor := store.db.lifecycle[new_];
      if suspended && !successor.lineageSuspended {
        var flagged := SuspendLineage(new_, successor);
        if flagged.Raised? { return Raised; }
      }
      r := OK;
    }

    /** Private to a change of policy, whose one revocation covers every partition it retires. */
    method RetirePolicyVersion(now: int, keys: set<PartitionKey>, version: string) returns (r: Status)
      modifies store`db
      ensures Follows(VersionsRetired(At(now), old(store.db), keys, version), r, store.db)
    {
      var rest := keys;
      while rest != {}
        invariant VersionsRetired(At(now), store.db, rest, version) == VersionsRetired(At(now), old(store.db), keys, version)
        decreases |rest|
      {
        var key := pick(store.db, rest);
        if key !in store.db.lifecycle { return Raised; }
        var retired := Retire(key, store.db.lifecycle[key], false);
        if retired.Raised? { return Raised; }
        store.db := Linked(store.db, key, key.(policyVersion := version));
        rest := rest - {key};
      }
      r := OK;
    }
  }

  /** Where a new policy comes into force, and for everyone at once. */
  class PolicyAuthority {
    const store: Store
    const manager: LifecycleManager
    var policy: Policy

    constructor (manager: LifecycleManager)
      ensures this.manager == manager && store == manager.store && policy == manager.policy
    {
      this.manager, this.store, this.policy := manager, manager.store, manager.policy;
    }

    /** The event, its retirements and its revocations commit together, and only then is the policy in force. */
    method Change(now: int, new_: Policy, actor: string) returns (r: Status)
      requires store == manager.store && policy == manager.policy
      modifies store, this`policy, manager`policy
      ensures Transacted(store, PolicyReplaced(old(manager.At(now)), old(store.db), old(policy), new_, actor), r)
      ensures policy == manager.policy == if r.Done? then new_ else old(policy)
    {
      store.Begin();
      r := OK;
      if new_.version != policy.version {
        r := manager.RetirePolicyVersion(now, OnVersion(store.db, policy.version), new_.version);
        if r.Done? { r := store.Revoke(PolicyChanged, OfVersion(store.db, policy.version), actor); }
      } else if !(new_.prohibited <= policy.prohibited) {
        r := store.Revoke(EffectProhibited, NowProhibited(store.db, policy.version, new_.prohibited - policy.prohibited), actor);
      }
      if r.Done? { policy, manager.policy := new_, new_; }
      store.End(r);
    }
  }
}
