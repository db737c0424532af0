/** Routing one proposal: reasons only ever narrow, and the lifecycle's state is enforced on top.  */
module Controller {
  import opened Tables
  import opened Lifecycle
  import opened Worklist
  import opened Settling
  import opened Expiry
  import Risk

  datatype DecisionReason = PROPOSAL_DRAFT | PROPOSAL_NEEDS_CLARIFICATION | UNRESOLVED_QUESTIONS | POLICY_VERSION_MISMATCH
                          | PROHIBITED_EFFECT | VETOED | NO_EXACT_EVIDENCE | SNAPSHOT_INVALID | SNAPSHOT_SUSPENDED | SNAPSHOT_STALE
                          | SNAPSHOT_IMMATURE | BELOW_POLICY

  function ProposalReasons(policy: Policy, vetoed: bool, p: Proposal): set<DecisionReason> {
    (if p.readiness == Draft then {PROPOSAL_DRAFT} else {})
    + (if p.readiness == NeedsClarification then {PROPOSAL_NEEDS_CLARIFICATION} else {})
    + (if p.unresolved then {UNRESOLVED_QUESTIONS} else {})
    + (if p.partition.policyVersion != policy.version then {POLICY_VERSION_MISMATCH} else {})
    + (if p.effects * policy.prohibited != {} then {PROHIBITED_EFFECT} else {})
    + (if vetoed then {VETOED} else {})
  }

  function SnapshotReasons(policy: Policy, now: int, key: PartitionKey, s: Snapshot): set<DecisionReason> {
    (if !s.valid then {SNAPSHOT_INVALID} else {})
    + (if s.suspended then {SNAPSHOT_SUSPENDED} else {})
    + (if now - s.until > policy.maxAge then {SNAPSHOT_STALE} else {})
    + (if s.successes + s.failures < policy.nMin then {SNAPSHOT_IMMATURE} else {})
    + (if policy.bound(s.successes, s.failures, Effective(policy, s.alpha)) < Required(policy, key) then {BELOW_POLICY} else {})
  }

  function DecisionReasons(policy: Policy, now: int, db: Db, vetoed: bool, p: Proposal): set<DecisionReason> {
    ProposalReasons(policy, vetoed, p)
    + if p.partition in db.snapshots then SnapshotReasons(policy, now, p.partition, db.snapshots[p.partition]) else {NO_EXACT_EVIDENCE}
  }

  /** Where a proposal goes before evidence is asked for. */
  function FirstRoute(policy: Policy, vetoed: bool, p: Proposal): Route {
    if vetoed || p.effects * policy.prohibited != {} then Deny
    else if p.unresolved || p.readiness == NeedsClarification then Clarification
    else if p.readiness == Draft then Revision
    else HumanApproval
  }

  /** Autonomy only without a single reason; the audit draw is made before the operation runs. */
  function RouteOf(policy: Policy, now: int, db: Db, vetoed: bool, p: Proposal, audited: bool): Route {
    var first := FirstRoute(policy, vetoed, p);
    if first == HumanApproval && DecisionReasons(policy, now, db, vetoed, p) == {} then
      if audited then Audit else Autonomous
    else first
  }

  predicate Unattended(route: Route) { route == Autonomous || route == Audit }

  /** Unattended routes mean exactly that nothing at all stands against the proposal. */
  lemma UnattendedMeansSufficient(policy: Policy, now: int, db: Db, vetoed: bool, p: Proposal, audited: bool)
    ensures Unattended(RouteOf(policy, now, db, vetoed, p, audited)) <==>
            && p.readiness == Executable && !p.unresolved && p.partition.policyVersion == policy.version
            && p.effects * policy.prohibited == {} && !vetoed && p.partition in db.snapshots
            && var s := db.snapshots[p.partition];
               && s.valid && !s.suspended && now - s.until <= policy.maxAge && s.successes + s.failures >= policy.nMin
               && policy.bound(s.successes, s.failures, Effective(policy, s.alpha)) >= Required(policy, p.partition)
  {
    var all, own := DecisionReasons(policy, now, db, vetoed, p), ProposalReasons(policy, vetoed, p);
    assert own <= all;
    ProposalQuiet(policy, vetoed, p);
    if p.partition in db.snapshots {
      SnapshotQuiet(policy, now, p.partition, db.snapshots[p.partition]);
      assert SnapshotReasons(policy, now, p.partition, db.snapshots[p.partition]) <= all;
    } else {
      assert NO_EXACT_EVIDENCE in all;
    }
  }

  lemma ProposalQuiet(policy: Policy, vetoed: bool, p: Proposal)
    ensures ProposalReasons(policy, vetoed, p) == {} <==>
            p.readiness == Executable && !p.unresolved && p.partition.policyVersion == policy.version
            && p.effects * policy.prohibited == {} && !vetoed
  {
    var all := ProposalReasons(policy, vetoed, p);
    assert p.readiness == Draft ==> PROPOSAL_DRAFT in all;
    assert p.readiness == NeedsClarification ==> PROPOSAL_NEEDS_CLARIFICATION in all;
    assert p.unresolved ==> UNRESOLVED_QUESTIONS in all;
    assert p.partition.policyVersion != policy.version ==> POLICY_VERSION_MISMATCH in all;
    assert p.effects * policy.prohibited != {} ==> PROHIBITED_EFFECT in all;
    assert vetoed ==> VETOED in all;
  }

  lemma SnapshotQuiet(policy: Policy, now: int, key: PartitionKey, s: Snapshot)
    ensures SnapshotReasons(policy, now, key, s) == {} <==>
            && s.valid && !s.suspended && now - s.until <= policy.maxAge && s.successes + s.failures >= policy.nMin
            && policy.bound(s.successes, s.failures, Effective(policy, s.alpha)) >= Required(policy, key)
  {
    var all := SnapshotReasons(policy, now, key, s);
    assert !s.valid ==> SNAPSHOT_INVALID in all;
    assert s.suspended ==> SNAPSHOT_SUSPENDED in all;
    assert now - s.until > policy.maxAge ==> SNAPSHOT_STALE in all;
    assert s.successes + s.failures < policy.nMin ==> SNAPSHOT_IMMATURE in all;
    assert policy.bound(s.successes, s.failures, Effective(policy, s.alpha)) < Required(policy, key) ==> BELOW_POLICY in all;
  }

  /** Nothing at all stands against an unattended operation. */
  predicate Unopposed(policy: Policy, now: int, db: Db, vetoed: bool, p: Proposal) {
    && !vetoed && p.readiness == Executable && !p.unresolved && p.partition.policyVersion == policy.version
    && (forall e :: e in p.effects ==> e !in policy.prohibited) && p.partition in db.snapshots
    && var s := db.snapshots[p.partition];
       && s.valid && !s.suspended && now <= s.until + policy.maxAge && s.successes + s.failures >= policy.nMin
       && policy.bound(s.successes, s.failures, if s.alpha.Some? && s.alpha.value < policy.alpha then s.alpha.value else policy.alpha)
          >= if p.partition.riskClass in policy.minimum then policy.minimum[p.partition.riskClass] else 1.0
  }

  /** Which route a proposal gets, for every one of the six. */
  lemma RoutesExactly(policy: Policy, now: int, db: Db, vetoed: bool, p: Proposal, audited: bool)
    ensures var route := RouteOf(policy, now, db, vetoed, p, audited);
            var refused := vetoed || exists e :: e in p.effects && e in policy.prohibited;
            var unclear := p.unresolved || p.readiness == NeedsClarification;
            && (route == Deny <==> refused)
            && (route == Clarification <==> !refused && unclear)
            && (route == Revision <==> !refused && !unclear && p.readiness == Draft)
            && (route == Audit <==> Unopposed(policy, now, db, vetoed, p) && audited)
            && (route == Autonomous <==> Unopposed(policy, now, db, vetoed, p) && !audited)
            && (route == HumanApproval <==> !refused && !unclear && p.readiness == Executable && !Unopposed(policy, now, db, vetoed, p))
  {
    hide DecisionReasons;
    UnattendedMeansSufficient(policy, now, db, vetoed, p, audited);
    var common := p.effects * policy.prohibited;
    if common != {} {
      var e :| e in common;
      assert e in p.effects && e in policy.prohibited;
    }
    if e :| e in p.effects && e in policy.prohibited { assert e in common; }
  }

  datatype Evaluation = Evaluation(db: Db, route: Route)

  /** The lifecycle's evaluation: bring the partition up to date, decide, and let no state but a live
      autonomous one keep an unattended route. */
  function Evaluated(env: Env, db: Db, vetoed: bool, p: Proposal, audited: bool): Outcome<Evaluation> {
    var db1 :- Refreshed(env, db, p.partition);
    var state :- StateReturned(env, db, p.partition);
    if p.partition !in db1.lifecycle then Raised
    else
      var record, route := db1.lifecycle[p.partition], RouteOf(env.policy, env.now, db1, vetoed, p, audited);
      if (state != AUTONOMOUS || RecordReasons(record) != {}) && Unattended(route) then Done(Evaluation(db1, HumanApproval))
      else Done(Evaluation(db1, route))
  }

  /** The lifecycle takes nothing away but an unattended route, which becomes a request for a human. */
  lemma EvaluationNarrows(env: Env, db: Db, vetoed: bool, p: Proposal, audited: bool)
    requires Evaluated(env, db, vetoed, p, audited).Done? && Refreshed(env, db, p.partition).Done?
    ensures var after := Refreshed(env, db, p.partition).value; var e := Evaluated(env, db, vetoed, p, audited).value;
            var own := RouteOf(env.policy, env.now, after, vetoed, p, audited);
            && e.db == after && (e.route == own || (e.route == HumanApproval && (own == Autonomous || own == Audit)))
  {
    hide Refreshed, RouteOf, StateReturned;
  }

  /** An unattended route means that, at that instant and in the state the decision leaves, the partition is
      autonomous and its gate is open on its own counts, whatever snapshot was put in the store by hand. */
  lemma UnattendedMeansGateOpen(env: Env, db: Db, vetoed: bool, p: Proposal, audited: bool)
    requires Evaluated(env, db, vetoed, p, audited).Done? && Unattended(Evaluated(env, db, vetoed, p, audited).value.route)
    requires Refreshed(env, db, p.partition).Done? && DistinctIds(db.trials)
    requires Versioned(env, Head(env, db, p.partition).value.db)
    ensures var after := Evaluated(env, db, vetoed, p, audited).value.db;
            && p.partition in after.lifecycle && after.lifecycle[p.partition].state == AUTONOMOUS
            && GateOpen(env, after, p.partition, after.lifecycle[p.partition])
  {
    var after := Evaluated(env, db, vetoed, p, audited).value.db;
    RefreshSettles(env, db, p.partition);
    ReturnedIsStored(env, db, p.partition);
    RecordReasonsEmpty(after.lifecycle[p.partition]);
    NoReasonMeansOpen(env, after, p.partition, after.lifecycle[p.partition]);
  }
}
