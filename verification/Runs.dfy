/** Whole runs: the operation budgets, suspension along lineage, and requalification, over
    any sequence of transactions.  */
module Runs {
  import opened Tables
  import opened Shadow
  import opened Lifecycle
  import opened Steps
  import opened Settling
  import opened Operations
  import opened OperationSteps
  import opened Invariants
  import opened Lineage
  import opened Requalify
  import opened Systems
  import Risk
  import G = Gateway

  /** Steps that leave evidence, lifecycle and error budget alone. */
  predicate Elsewhere(a: Db, b: Db) {
    && EvidenceOf(a) == EvidenceOf(b) && a.lifecycle == b.lifecycle && a.lineage == b.lineage && a.alphas == b.alphas
    && a.snapshots == b.snapshots
  }

  lemma OtherSteps(host: Host, s: System, m: Moment, step: Step)
    requires !step.Operate? && !step.ChangePolicy? && Effect(host, s, m, step).Done?
    ensures Elsewhere(s.db, Effect(host, s, m, step).value)
  {
    match step
    case Permit(p) => PermitShape(host, m.now, s.db, p);
    case Commit(d) =>
    case Issue(r) => ConsentShape(s.db, r);
    case Spend(r) => SpendingShape(ConfigOf(host, s, m), m.now, s.db, r);
    case ChangeRules(rules) => RulesShape(s.db, s.rules, rules);
    case Note(actor, what) =>
  }

  /** A fact about evidence, lifecycle and budget that survives every write survives every step. */
  lemma StepKeeps(host: Host, s: System, m: Moment, step: Step, J: Db -> bool)
    requires Enduring(EnvOf(host, s, m), J) && J(s.db) && forall a, b :: J(a) && Elsewhere(a, b) ==> J(b)
    ensures J(After(host, s, m, step).db)
  {
    hide Operated, PolicyReplaced;
    if Effect(host, s, m, step).Done? {
      if step.Operate? {
        OperationKeeps(EnvOf(host, s, m), J, host.keyring, s.db, step.op);
      } else if step.ChangePolicy? {
        PolicyKeeps(EnvOf(host, s, m), J, s.db, s.policy, step.policy, step.actor);
      } else {
        OtherSteps(host, s, m, step);
      }
    }
  }

  lemma RunSnoc(host: Host, s: System, trace: Trace, i: nat)
    requires i < |trace|
    ensures Run(host, s, trace[..i + 1]) == After(host, Run(host, s, trace[..i]), trace[i].0, trace[i].1)
  {
    assert trace[..i + 1][..i] == trace[..i];
  }

  lemma {:induction false} Onward(p: nat -> bool, i: nat, j: nat)
    requires i <= j && p(i) && forall k: nat :: i <= k < j && p(k) ==> p(k + 1)
    ensures p(j)
    decreases j
  {
    if i < j {
      Onward(p, i, j - 1);
    }
  }

  ghost predicate Always(p: nat -> bool, n: nat) {
    forall i: nat :: i < n ==> p(i)
  }

  /** What holds at the start, and after each step exactly if the step is of a kind, holds throughout exactly if
      every step is of that kind. */
  lemma ThroughoutExactly(good: nat -> bool, kind: nat -> bool, n: nat)
    requires good(0) && forall i: nat :: i < n && good(i) ==> (good(i + 1) <==> kind(i))
    ensures Always(good, n + 1) <==> Always(kind, n)
  {
    if Always(kind, n) {
      forall j: nat | j <= n ensures good(j) { Onward(good, 0, j); }
    } else if Always(good, n + 1) {
      forall i: nat | i < n ensures kind(i) { assert good(i) && good(i + 1); }
    }
  }

  /** The state before the i-th step of a run. */
  ghost predicate HoldsAt(host: Host, s: System, trace: Trace, J: Db -> bool, i: nat) {
    i <= |trace| && J(Run(host, s, trace[..i]).db)
  }

  /** A fact about evidence, lifecycle and budget that no write ends. */
  ghost predicate Lasting(J: Db -> bool) {
    (forall env: Env :: Enduring(env, J)) && (forall a, b :: J(a) && Elsewhere(a, b) ==> J(b))
  }

  lemma LastsOneStep(host: Host, s: System, trace: Trace, J: Db -> bool, i: nat)
    requires Lasting(J) && i < |trace| && HoldsAt(host, s, trace, J, i)
    ensures HoldsAt(host, s, trace, J, i + 1)
  {
    hide Elsewhere, EverStable;
    var before := Run(host, s, trace[..i]);
    RunSnoc(host, s, trace, i);
    assert Enduring(EnvOf(host, before, trace[i].0), J);
    StepKeeps(host, before, trace[i].0, trace[i].1, J);
  }

  /** Such a fact, once true in a run, stays true in it. */
  lemma LastsAlong(host: Host, s: System, trace: Trace, J: Db -> bool, i: nat, j: nat)
    requires Lasting(J) && i <= j <= |trace| && J(Run(host, s, trace[..i]).db)
    ensures J(Run(host, s, trace[..j]).db)
  {
    hide After, Elsewhere, Enduring;
    var p := (k: nat) => HoldsAt(host, s, trace, J, k);
    forall k: nat | i <= k < j && p(k) ensures p(k + 1) { LastsOneStep(host, s, trace, J, k); }
    Onward(p, i, j);
  }

  /** A condition on every policy a run ever uses. */
  ghost predicate Policies(s: System, trace: Trace, allowed: Policy -> bool) {
    allowed(s.policy) && forall i :: 0 <= i < |trace| && trace[i].1.ChangePolicy? ==> allowed(trace[i].1.policy)
  }

  lemma {:induction false} PoliciesAlong(host: Host, s: System, trace: Trace, allowed: Policy -> bool)
    requires Policies(s, trace, allowed)
    ensures allowed(Run(host, s, trace).policy)
    decreases |trace|
  {
    if trace != [] {
      var n := |trace| - 1;
      assert Policies(s, trace[..n], allowed) by { assert forall i :: 0 <= i < n ==> trace[..n][i] == trace[i]; }
      PoliciesAlong(host, s, trace[..n], allowed);
    }
  }

  lemma PoliciesPrefix(s: System, trace: Trace, allowed: Policy -> bool, n: nat)
    requires Policies(s, trace, allowed) && n <= |trace|
    ensures Policies(s, trace[..n], allowed)
  {
    assert forall i :: 0 <= i < n ==> trace[..n][i] == trace[i];
  }

  // ---- operation budgets -------------------------------------------------------------------------------------

  ghost predicate RulesFixed(trace: Trace) {
    forall i :: 0 <= i < |trace| ==> !trace[i].1.ChangeRules?
  }

  lemma ChargesElsewhere(host: Host, s: System, m: Moment, step: Step)
    requires !step.Spend? && Effect(host, s, m, step).Done?
    ensures Effect(host, s, m, step).value.charges == s.db.charges
  {
    hide Operated, PolicyReplaced, Permitted;
    match step
    case Permit(p) => PermitShape(host, m.now, s.db, p);
    case Commit(d) =>
    case Issue(r) => ConsentShape(s.db, r);
    case Operate(op) =>
      FramedEndures(EnvOf(host, s, m), s.db);
      SameTokens(s.db.tokens);
      OperationKeeps(EnvOf(host, s, m), FramedFrom(s.db), host.keyring, s.db, op);
    case ChangePolicy(policy, actor) =>
      FramedEndures(EnvOf(host, s, m), s.db);
      SameTokens(s.db.tokens);
      PolicyKeeps(EnvOf(host, s, m), FramedFrom(s.db), s.db, s.policy, policy, actor);
    case ChangeRules(rules) => RulesShape(s.db, s.rules, rules);
    case Note(actor, what) =>
  }

  /** The proposal whose charges a redemption commits. */
  function ChargedProposal(db: Db, r: Redemption): Option<Proposal> {
    match r
    case Execute(_, p) => Some(p)
    case Redeem(id, _, _) => if id in db.tokens then Some(db.tokens[id].terms.proposal) else None
    case _ => None
  }

  /** A charge that is committed at this step has room in every budget. */
  ghost predicate StepHasRoom(host: Host, s: System, m: Moment, step: Step) {
    step.Spend? && Effect(host, s, m, step).Done? ==>
      var p := ChargedProposal(s.db, step.redemption);
      p.Some? && Risk.Chargeable(s.rules.budgets, p.value) ==> Risk.RoomForAll(s.rules, s.db.charges, p.value)
  }

  /** What spending commits, and that nothing stood against it at that moment. */
  lemma SpendingCharges(cfg: G.Config, now: int, db: Db, id: string, p: Proposal, channel: Channel, rules: Risk.Rules)
    requires cfg.risk == Some(rules) && G.Spent(cfg, now, db, id, p, channel).Done?
    requires G.Settled(cfg, G.Spent(cfg, now, db, id, p, channel).value, id, p).Done?
    ensures Risk.RiskBlockers(rules, db, p) == {} && Risk.Charged(rules, db, id, p).Done?
    ensures G.Settled(cfg, G.Spent(cfg, now, db, id, p, channel).value, id, p).value.charges == Risk.Charged(rules, db, id, p).value.charges
  {}

  lemma RedemptionCharges(cfg: G.Config, now: int, db: Db, r: Redemption, rules: Risk.Rules)
    requires cfg.risk == Some(rules) && Redeemed(cfg, now, db, r).Done?
    ensures var p := ChargedProposal(db, r); var after := Redeemed(cfg, now, db, r).value;
            if p.None? then after.charges == db.charges
            else && Risk.RiskBlockers(rules, db, p.value) == {} && Risk.Charged(rules, db, r.id, p.value).Done?
                 && after.charges == Risk.Charged(rules, db, r.id, p.value).value.charges
  {
    if r.Execute? {
      SpendingCharges(cfg, now, db, r.id, r.proposal, Local, rules);
    } else if r.Redeem? {
      SpendingCharges(cfg, now, db, r.id, db.tokens[r.id].terms.proposal, Mcp(r.audience), rules);
    }
  }

  lemma StepKeepsBudgetsExactly(host: Host, s: System, m: Moment, step: Step)
    requires host.budgeted && Risk.BudgetsKept(s.rules, s.db.charges) && !step.ChangeRules?
    ensures Risk.BudgetsKept(s.rules, After(host, s, m, step).db.charges) <==> StepHasRoom(host, s, m, step)
  {
    if Effect(host, s, m, step).Done? {
      if step.Spend? {
        RedemptionCharges(ConfigOf(host, s, m), m.now, s.db, step.redemption, s.rules);
        var p := ChargedProposal(s.db, step.redemption);
        if p.Some? { Risk.ChargingKeepsExactly(s.rules, s.db, step.redemption.id, p.value); }
      } else {
        ChargesElsewhere(host, s, m, step);
      }
    }
  }

  lemma UniqueIdsGiveRoom(host: Host, s: System, m: Moment, step: Step)
    requires host.budgeted && Risk.UniqueIds(s.rules.budgets) && Risk.BudgetsKept(s.rules, s.db.charges)
    ensures StepHasRoom(host, s, m, step)
  {
    if step.Spend? && Effect(host, s, m, step).Done? {
      RedemptionCharges(ConfigOf(host, s, m), m.now, s.db, step.redemption, s.rules);
      var p := ChargedProposal(s.db, step.redemption);
      if p.Some? { Risk.UniqueIdsHaveRoom(s.rules, s.db, step.redemption.id, p.value); }
    }
  }

  /** The charge committed at the i-th step, if any, has room. */
  ghost function Roomy(host: Host, s: System, trace: Trace): nat -> bool {
    (i: nat) => i < |trace| && StepHasRoom(host, Run(host, s, trace[..i]), trace[i].0, trace[i].1)
  }

  /** Every budget is kept in the state before the i-th step. */
  ghost function Kept(host: Host, s: System, trace: Trace): nat -> bool {
    (i: nat) => i <= |trace| && Risk.BudgetsKept(s.rules, Run(host, s, trace[..i]).db.charges)
  }

  lemma {:induction false} RulesStay(host: Host, s: System, trace: Trace)
    requires RulesFixed(trace)
    ensures Run(host, s, trace).rules == s.rules
    decreases |trace|
  {
    if trace != [] {
      var n := |trace| - 1;
      assert forall i :: 0 <= i < n ==> trace[..n][i] == trace[i];
      RulesStay(host, s, trace[..n]);
    }
  }

  lemma RulesStayAt(host: Host, s: System, trace: Trace, i: nat)
    requires RulesFixed(trace) && i <= |trace|
    ensures Run(host, s, trace[..i]).rules == s.rules
  {
    assert forall k :: 0 <= k < i ==> trace[..i][k] == trace[k];
    RulesStay(host, s, trace[..i]);
  }

  lemma RoomKeeps(host: Host, s: System, trace: Trace, i: nat)
    requires host.budgeted && RulesFixed(trace) && i < |trace| && Kept(host, s, trace)(i)
    ensures Kept(host, s, trace)(i + 1) <==> Roomy(host, s, trace)(i)
  {
    RulesStayAt(host, s, trace, i);
    RunSnoc(host, s, trace, i);
    StepKeepsBudgetsExactly(host, Run(host, s, trace[..i]), trace[i].0, trace[i].1);
  }

  lemma KeptFirst(host: Host, s: System, trace: Trace)
    requires Risk.BudgetsKept(s.rules, s.db.charges)
    ensures Kept(host, s, trace)(0)
  {
    assert trace[..0] == [];
  }

  /** Over whole runs with fixed rules and the guard on the gateway, ids shared or not: every budget is kept in
      every state exactly if every charge that was committed had room in all the budgets of its ids together. */
  lemma OperationBudgetsExactly(host: Host, s: System, trace: Trace)
    requires host.budgeted && RulesFixed(trace) && Risk.BudgetsKept(s.rules, s.db.charges)
    ensures Always(Kept(host, s, trace), |trace| + 1) <==> Always(Roomy(host, s, trace), |trace|)
  {
    var good, kind := Kept(host, s, trace), Roomy(host, s, trace);
    forall i: nat | i < |trace| && good(i) ensures good(i + 1) <==> kind(i) { RoomKeeps(host, s, trace, i); }
    KeptFirst(host, s, trace);
    ThroughoutExactly(good, kind, |trace|);
  }

  lemma UniqueIdsKeep(host: Host, s: System, trace: Trace, i: nat)
    requires host.budgeted && Risk.UniqueIds(s.rules.budgets) && RulesFixed(trace) && i < |trace| && Kept(host, s, trace)(i)
    ensures Kept(host, s, trace)(i + 1)
  {
    RulesStayAt(host, s, trace, i);
    UniqueIdsGiveRoom(host, Run(host, s, trace[..i]), trace[i].0, trace[i].1);
    RoomKeeps(host, s, trace, i);
  }

  /** With unique budget ids they always are: every budget is kept in every scope in every state of every run,
      however many affordable tokens are outstanding at once. */
  lemma OperationBudgetsKept(host: Host, s: System, trace: Trace)
    requires host.budgeted && Risk.UniqueIds(s.rules.budgets) && RulesFixed(trace) && Risk.BudgetsKept(s.rules, s.db.charges)
    ensures Always(Kept(host, s, trace), |trace| + 1)
  {
    var good := Kept(host, s, trace);
    KeptFirst(host, s, trace);
    forall i: nat | i < |trace| && good(i) ensures good(i + 1) { UniqueIdsKeep(host, s, trace, i); }
    forall j: nat | j <= |trace| ensures good(j) { Onward(good, 0, j); }
  }

  // ---- lineage -----------------------------------------------------------------------------------------------

  /** The edges that signed releases have cleared, along a run. */
  function ClearedAlong(host: Host, s: System, trace: Trace): set<Edge> {
    if trace == [] then {}
    else
      var n := |trace| - 1;
      ClearedNow(host, Run(host, s, trace[..n]), trace[n].0, trace[n].1, ClearedAlong(host, s, trace[..n]))
  }

  function ClearedNow(host: Host, s: System, m: Moment, step: Step, cleared: set<Edge>): set<Edge> {
    if step.Operate? && Effect(host, s, m, step).Done? then ClearedBy(s.db, step.op, cleared) else cleared
  }

  /** The i-th step is a churn that leaves a successor of a suspended partition loose. */
  ghost predicate StrandsAt(host: Host, s: System, trace: Trace, i: nat) {
    && i < |trace| && trace[i].1.Operate? && Effect(host, Run(host, s, trace[..i]), trace[i].0, trace[i].1).Done?
    && StrandsSuccessor(Run(host, s, trace[..i]).db, trace[i].1.op, ClearedAlong(host, s, trace[..i]))
  }

  /** No step strands: the i-th does not. */
  ghost function Strandless(host: Host, s: System, trace: Trace): nat -> bool {
    (i: nat) => !StrandsAt(host, s, trace, i)
  }

  /** Suspension descends along every edge in the state before the i-th step. */
  ghost function Descends(host: Host, s: System, trace: Trace): nat -> bool {
    (i: nat) => i <= |trace|
      && Descending(Run(host, s, trace[..i]).policy.version, ClearedAlong(host, s, trace[..i]))(Run(host, s, trace[..i]).db)
  }

  lemma StepDescends(host: Host, s: System, m: Moment, step: Step, cleared: set<Edge>)
    requires Descending(s.policy.version, cleared)(s.db)
    ensures var after := After(host, s, m, step);
            Descending(after.policy.version, ClearedNow(host, s, m, step, cleared))(after.db)
            <==> !(step.Operate? && Effect(host, s, m, step).Done? && StrandsSuccessor(s.db, step.op, cleared))
  {
    hide Operated, PolicyReplaced, Descending;
    if Effect(host, s, m, step).Done? {
      if step.Operate? {
        OperationDescends(EnvOf(host, s, m), host.keyring, s.db, step.op, cleared);
      } else if step.ChangePolicy? {
        PolicyDescends(EnvOf(host, s, m), s.db, step.policy, step.actor, cleared);
      } else {
        OtherSteps(host, s, m, step);
        SameRecordsDescend(s.policy.version, cleared, s.db, Effect(host, s, m, step).value);
      }
    }
  }

  lemma ClearedSnoc(host: Host, s: System, trace: Trace, i: nat)
    requires i < |trace|
    ensures ClearedAlong(host, s, trace[..i + 1])
         == ClearedNow(host, Run(host, s, trace[..i]), trace[i].0, trace[i].1, ClearedAlong(host, s, trace[..i]))
  {
    assert trace[..i + 1][..i] == trace[..i];
  }

  lemma DescendsOn(host: Host, s: System, trace: Trace, i: nat)
    requires i < |trace| && Descends(host, s, trace)(i)
    ensures Descends(host, s, trace)(i + 1) <==> Strandless(host, s, trace)(i)
  {
    RunSnoc(host, s, trace, i);
    ClearedSnoc(host, s, trace, i);
    StepDescends(host, Run(host, s, trace[..i]), trace[i].0, trace[i].1, ClearedAlong(host, s, trace[..i]));
  }

  lemma DescendsFirst(host: Host, s: System, trace: Trace)
    requires Descending(s.policy.version, {})(s.db)
    ensures Descends(host, s, trace)(0)
  {
    assert trace[..0] == [];
    assert Run(host, s, trace[..0]) == s && ClearedAlong(host, s, trace[..0]) == {};
  }

  /** Suspension survives renaming, exactly.  In every state of a run, every registered, unretired successor of a
      suspended or lineage-suspended partition is lineage-suspended, unless a signed release of it came after the
      edge: this holds if and only if no churn of the run passed a suspension on to a retired, unflagged partition
      with a live successor that was neither flagged nor cleared. */
  lemma SuspensionSurvivesRenaming(host: Host, s: System, trace: Trace)
    requires Descending(s.policy.version, {})(s.db)
    ensures Always(Descends(host, s, trace), |trace| + 1) <==> Always(Strandless(host, s, trace), |trace|)
  {
    var good, kind := Descends(host, s, trace), Strandless(host, s, trace);
    forall i: nat | i < |trace| && good(i) ensures good(i + 1) <==> kind(i) { DescendsOn(host, s, trace, i); }
    DescendsFirst(host, s, trace);
    ThroughoutExactly(good, kind, |trace|);
  }

  lemma EmptyDescends(version: string)
    ensures Descending(version, {})(EMPTY)
  {}

  // ---- retirement ----------------------------------------------------------------------------------------------

  /** The i-th step is a churn that passes a suspension on to the partition, which is retired. */
  ghost predicate ReflagsAt(host: Host, s: System, trace: Trace, key: PartitionKey, i: nat) {
    && i < |trace| && trace[i].1.Operate? && Effect(host, Run(host, s, trace[..i]), trace[i].0, trace[i].1).Done?
    && trace[i].1.op.Churn? && trace[i].1.op.successor == key && Reflags(Run(host, s, trace[..i]).db, trace[i].1.op.key, key)
  }

  ghost function Unflagging(host: Host, s: System, trace: Trace, key: PartitionKey): nat -> bool {
    (i: nat) => !ReflagsAt(host, s, trace, key, i)
  }

  ghost function StaysRetired(host: Host, s: System, trace: Trace, key: PartitionKey, record: Record): nat -> bool {
    (i: nat) => i <= |trace| && RetiredAs(key, record)(Run(host, s, trace[..i]).db)
  }

  lemma StepKeepsRetired(host: Host, s: System, m: Moment, step: Step, key: PartitionKey, record: Record)
    requires RetiredAs(key, record)(s.db)
    ensures RetiredAs(key, record)(After(host, s, m, step).db)
            <==> !(step.Operate? && Effect(host, s, m, step).Done? && step.op.Churn? && step.op.successor == key && Reflags(s.db, step.op.key, key))
  {
    hide Operated, PolicyReplaced;
    if Effect(host, s, m, step).Done? {
      if step.Operate? {
        OperationKeepsRetired(EnvOf(host, s, m), host.keyring, s.db, step.op, key, record);
      } else if step.ChangePolicy? {
        RetiredPolicy(EnvOf(host, s, m), s.db, s.policy, step.policy, step.actor, key, record);
      } else {
        OtherSteps(host, s, m, step);
      }
    }
  }

  lemma RetiredOn(host: Host, s: System, trace: Trace, key: PartitionKey, record: Record, i: nat)
    requires i < |trace| && StaysRetired(host, s, trace, key, record)(i)
    ensures StaysRetired(host, s, trace, key, record)(i + 1) <==> Unflagging(host, s, trace, key)(i)
  {
    RunSnoc(host, s, trace, i);
    StepKeepsRetired(host, Run(host, s, trace[..i]), trace[i].0, trace[i].1, key, record);
  }

  lemma RetiredFirst(host: Host, s: System, trace: Trace, key: PartitionKey, record: Record)
    requires RetiredAs(key, record)(s.db)
    ensures StaysRetired(host, s, trace, key, record)(0)
  {
    assert trace[..0] == [];
    assert Run(host, s, trace[..0]) == s;
  }

  /** Retirement is for good, exactly: a retired partition's record, and with it whether it suspends its
      successors, stays the same throughout a run if and only if no churn of the run passes a suspension on to it
      while it is not flagged. */
  lemma RetirementIsFinal(host: Host, s: System, trace: Trace, key: PartitionKey, record: Record)
    requires RetiredAs(key, record)(s.db)
    ensures Always(StaysRetired(host, s, trace, key, record), |trace| + 1) <==> Always(Unflagging(host, s, trace, key), |trace|)
  {
    var good, kind := StaysRetired(host, s, trace, key, record), Unflagging(host, s, trace, key);
    forall i: nat | i < |trace| && good(i) ensures good(i + 1) <==> kind(i) { RetiredOn(host, s, trace, key, record, i); }
    RetiredFirst(host, s, trace, key, record);
    ThroughoutExactly(good, kind, |trace|);
  }

  lemma RetiredPolicy(env: Env, db: Db, old_: Policy, new_: Policy, actor: string, key: PartitionKey, record: Record)
    requires RetiredAs(key, record)(db) && PolicyReplaced(env, db, old_, new_, actor).Done?
    ensures RetiredAs(key, record)(PolicyReplaced(env, db, old_, new_, actor).value)
  {
    RetiredStays(env, key, record);
    RetiredRecords(key, record);
    PolicyKeeps(env, RetiredAs(key, record), db, old_, new_, actor);
  }

  // ---- requalification ---------------------------------------------------------------------------------------

  ghost function AsksFor(least: nat): Policy -> bool {
    (p: Policy) => p.nMin >= least
  }

  /** The n-th step of a run is a release of the partition that succeeded. */
  ghost predicate ReleasedAt(host: Host, s: System, trace: Trace, key: PartitionKey, n: nat) {
    && n < |trace| && trace[n].1.Operate? && trace[n].1.op.Release? && trace[n].1.op.key == key
    && Effect(host, Run(host, s, trace[..n]), trace[n].0, trace[n].1).Done?
  }

  function LedgerAt(host: Host, s: System, trace: Trace, n: nat): nat
    requires n <= |trace|
  {
    |Run(host, s, trace[..n]).db.ledger|
  }

  /** Released at the n-th step, and autonomous since only on what was frozen after it. */
  ghost predicate RequalifiedSince(host: Host, s: System, trace: Trace, key: PartitionKey, least: nat, n: nat) {
    ReleasedAt(host, s, trace, key, n) && Requalified(key, LedgerAt(host, s, trace, n), least)(Run(host, s, trace).db)
  }

  ghost predicate HeldOrRequalified(host: Host, s: System, trace: Trace, key: PartitionKey, least: nat) {
    Suspended(key)(Run(host, s, trace).db) || exists n :: RequalifiedSince(host, s, trace, key, least, n)
  }

  lemma StaysSuspended(host: Host, s: System, m: Moment, step: Step, key: PartitionKey)
    requires Suspended(key)(s.db) && !(step.Operate? && step.op.Release? && step.op.key == key)
    ensures Suspended(key)(After(host, s, m, step).db)
  {
    hide Operated, PolicyReplaced;
    if Effect(host, s, m, step).Done? {
      if step.Operate? {
        SuspensionHolds(EnvOf(host, s, m), host.keyring, s.db, step.op, key);
      } else if step.ChangePolicy? {
        PolicyKeepsSuspended(EnvOf(host, s, m), s.db, s.policy, step.policy, step.actor, key);
      } else {
        OtherSteps(host, s, m, step);
      }
    }
  }

  lemma PolicyKeepsSuspended(env: Env, db: Db, old_: Policy, new_: Policy, actor: string, key: PartitionKey)
    requires Suspended(key)(db) && PolicyReplaced(env, db, old_, new_, actor).Done?
    ensures Suspended(key)(PolicyReplaced(env, db, old_, new_, actor).value)
  {
    hide PolicyReplaced;
    SuspensionWalks(env, key);
    SuspensionRecords(key);
    PolicyKeeps(env, Suspended(key), db, old_, new_, actor);
  }

  lemma StaysRequalified(host: Host, s: System, m: Moment, step: Step, key: PartitionKey, floor: int, least: nat)
    requires Requalified(key, floor, least)(s.db) && s.policy.nMin >= least
    ensures Requalified(key, floor, least)(After(host, s, m, step).db)
  {
    hide Effect;
    RequalifiedEndures(EnvOf(host, s, m), key, floor, least);
    forall a, b | Requalified(key, floor, least)(a) && Elsewhere(a, b) ensures Requalified(key, floor, least)(b) {
      RequalifiedStep(key, floor, least, a, b);
    }
    StepKeeps(host, s, m, step, Requalified(key, floor, least));
  }

  lemma ReleaseRequalifies(host: Host, s: System, m: Moment, step: Step, key: PartitionKey, least: nat)
    requires Suspended(key)(s.db) && step.Operate? && step.op.Release? && step.op.key == key && Effect(host, s, m, step).Done?
    ensures Requalified(key, |s.db.ledger|, least)(After(host, s, m, step).db)
  {
    ReleaseIsSigned(EnvOf(host, s, m), host.keyring, s.db, step.op, Effect(host, s, m, step).value);
  }

  lemma HeldStep(host: Host, s: System, trace: Trace, key: PartitionKey, least: nat, n: nat)
    requires trace != [] && n == |trace| - 1 && Suspended(key)(Run(host, s, trace[..n]).db)
    ensures HeldOrRequalified(host, s, trace, key, least)
  {
    hide Effect, Suspended, Requalified;
    var before, m, step := Run(host, s, trace[..n]), trace[n].0, trace[n].1;
    if step.Operate? && step.op.Release? && step.op.key == key && Effect(host, before, m, step).Done? {
      ReleaseRequalifies(host, before, m, step, key, least);
      assert RequalifiedSince(host, s, trace, key, least, n);
    } else if Effect(host, before, m, step).Done? {
      StaysSuspended(host, before, m, step, key);
    }
  }

  lemma ReleasedOn(host: Host, s: System, trace: Trace, key: PartitionKey, n: nat, k: nat)
    requires n <= |trace| && ReleasedAt(host, s, trace[..n], key, k)
    ensures ReleasedAt(host, s, trace, key, k) && LedgerAt(host, s, trace, k) == LedgerAt(host, s, trace[..n], k)
  {
    assert trace[..n][..k] == trace[..k] && trace[..n][k] == trace[k];
  }

  lemma RequalifiedOn(host: Host, s: System, trace: Trace, key: PartitionKey, least: nat, n: nat, k: nat)
    requires trace != [] && n == |trace| - 1 && Run(host, s, trace[..n]).policy.nMin >= least
    requires RequalifiedSince(host, s, trace[..n], key, least, k)
    ensures RequalifiedSince(host, s, trace, key, least, k)
  {
    ReleasedOn(host, s, trace, key, n, k);
    RequalifiedNext(host, s, trace, key, LedgerAt(host, s, trace[..n], k), least, n);
  }

  lemma RequalifiedNext(host: Host, s: System, trace: Trace, key: PartitionKey, floor: int, least: nat, n: nat)
    requires trace != [] && n == |trace| - 1 && Run(host, s, trace[..n]).policy.nMin >= least
    requires Requalified(key, floor, least)(Run(host, s, trace[..n]).db)
    ensures Requalified(key, floor, least)(Run(host, s, trace).db)
  {
    StaysRequalified(host, Run(host, s, trace[..n]), trace[n].0, trace[n].1, key, floor, least);
  }

  lemma ReleasedIsSigned(host: Host, s: System, trace: Trace, key: PartitionKey, n: nat)
    requires ReleasedAt(host, s, trace, key, n)
    ensures var op := trace[n].1.op; MayRelease(Run(host, s, trace[..n]).db, host.keyring, key, op.actor, op.reason, op.mac, op.oracle)
  {
    var before := Run(host, s, trace[..n]);
    ReleaseIsSigned(EnvOf(host, before, trace[n].0), host.keyring, before.db, trace[n].1.op,
                    Effect(host, before, trace[n].0, trace[n].1).value);
  }

  lemma AutonomousOnFrozen(host: Host, s: System, trace: Trace, key: PartitionKey, least: nat, n: nat)
    requires RequalifiedSince(host, s, trace, key, least, n)
    requires key in Run(host, s, trace).db.lifecycle && Run(host, s, trace).db.lifecycle[key].state == AUTONOMOUS
    ensures FrozenSince(Run(host, s, trace).db.trials, key, LedgerAt(host, s, trace, n)) >= least
  {}

  lemma {:induction false} HeldAlong(host: Host, s: System, trace: Trace, key: PartitionKey, least: nat)
    requires Suspended(key)(s.db) && Policies(s, trace, AsksFor(least))
    ensures HeldOrRequalified(host, s, trace, key, least)
    decreases |trace|
  {
    hide Requalified;
    if trace != [] {
      var n := |trace| - 1;
      PoliciesPrefix(s, trace, AsksFor(least), n);
      HeldAlong(host, s, trace[..n], key, least);
      PoliciesAlong(host, s, trace[..n], AsksFor(least));
      if Suspended(key)(Run(host, s, trace[..n]).db) {
        HeldStep(host, s, trace, key, least, n);
      } else {
        var k :| RequalifiedSince(host, s, trace[..n], key, least, k);
        RequalifiedOn(host, s, trace, key, least, n, k);
      }
    }
  }

  /** A suspended partition that is autonomous at the end of a run was released in it, by the signature of an
      active human over its epoch at that moment, and at least n_min counting trials of it were frozen after
      that release. */
  lemma AutonomyAfterSuspension(host: Host, s: System, trace: Trace, key: PartitionKey, least: nat) returns (n: nat)
    requires Suspended(key)(s.db) && Policies(s, trace, AsksFor(least))
    requires key in Run(host, s, trace).db.lifecycle && Run(host, s, trace).db.lifecycle[key].state == AUTONOMOUS
    ensures ReleasedAt(host, s, trace, key, n)
    ensures var op := trace[n].1.op; MayRelease(Run(host, s, trace[..n]).db, host.keyring, key, op.actor, op.reason, op.mac, op.oracle)
    ensures FrozenSince(Run(host, s, trace).db.trials, key, LedgerAt(host, s, trace, n)) >= least
  {
    HeldAlong(host, s, trace, key, least);
    n :| RequalifiedSince(host, s, trace, key, least, n);
    ReleasedIsSigned(host, s, trace, key, n);
    AutonomousOnFrozen(host, s, trace, key, least, n);
  }

  // ---- one signature, one release ------------------------------------------------------------------------------

  lemma EpochLasts(key: PartitionKey, epoch: nat)
    ensures Lasting(EpochAtLeast(key, epoch))
  {
    forall env: Env ensures Enduring(env, EpochAtLeast(key, epoch)) { EpochsOnlyRise(env, key, epoch); }
  }

  lemma ReleaseTurnsEpoch(host: Host, s: System, m: Moment, step: Step)
    requires step.Operate? && step.op.Release? && Effect(host, s, m, step).Done?
    ensures step.op.key in s.db.lifecycle && EpochAtLeast(step.op.key, s.db.lifecycle[step.op.key].epoch + 1)(After(host, s, m, step).db)
    ensures var payload := step.op.mac.payload;
            payload.ReleasePayload? && payload.partition == step.op.key && payload.epoch == s.db.lifecycle[step.op.key].epoch
  {
    ReleaseSpendsSignature(EnvOf(host, s, m), host.keyring, s.db, step.op, Effect(host, s, m, step).value);
  }

  lemma SpentStaysSpent(host: Host, s: System, m: Moment, step: Step, epoch: nat)
    requires step.Operate? && step.op.Release? && EpochAtLeast(step.op.key, epoch)(s.db)
    requires step.op.mac.payload.ReleasePayload? && step.op.mac.payload.partition == step.op.key && step.op.mac.payload.epoch < epoch
    ensures Effect(host, s, m, step) == Raised
  {
    var op := step.op;
    SpentSignature(s.db, host.keyring, op.key, epoch, op.actor, op.reason, op.mac, op.oracle);
  }

  /** A release signature works at most once: after it has, no later release presented with it succeeds. */
  lemma SignatureReleasesOnce(host: Host, s: System, trace: Trace, key: PartitionKey, i: nat, j: nat)
    requires ReleasedAt(host, s, trace, key, i) && i < j < |trace|
    requires trace[j].1.Operate? && trace[j].1.op.Release? && trace[j].1.op.key == key && trace[j].1.op.mac == trace[i].1.op.mac
    ensures Effect(host, Run(host, s, trace[..j]), trace[j].0, trace[j].1) == Raised
  {
    hide Operated, Redeemed, Permitted;
    var before := Run(host, s, trace[..i]);
    ReleaseTurnsEpoch(host, before, trace[i].0, trace[i].1);
    var epoch := before.db.lifecycle[key].epoch + 1;
    RunSnoc(host, s, trace, i);
    EpochLasts(key, epoch);
    LastsAlong(host, s, trace, EpochAtLeast(key, epoch), i + 1, j);
    SpentStaysSpent(host, Run(host, s, trace[..j]), trace[j].0, trace[j].1, epoch);
  }
}
