/** Exactly when a token is issued, spent or accepted and a permission given, said of the tables' own rows; and what
    that makes of every token of a run.  */
module Authorizations {
  import opened Tables
  import opened Closure
  import opened Lifecycle
  import opened Principals
  import opened Operations
  import opened Systems
  import opened Runs
  import Scopes
  import Readings
  import Risk
  import G = Gateway
  import E = Effects

  // ---- grants ----------------------------------------------------------------------------------------------------

  predicate ActiveNow(db: Db, id: string) {
    id in db.principals && db.principals[id].active
  }

  /** A grant's scope lets the proposal through: each dimension it limits, and every ceiling it sets. */
  predicate ScopeAllows(s: GrantScope, p: Proposal) {
    && (s.tools.None? || p.tool in s.tools.value)
    && (s.effects.None? || forall e :: e in p.effects ==> e in s.effects.value)
    && (s.riskClasses.None? || p.partition.riskClass in s.riskClasses.value)
    && (s.taskCategories.None? || p.partition.taskCategory in s.taskCategories.value)
    && forall name :: name in s.ceilings ==>
         name in p.parameters && p.parameters[name].Number? && p.parameters[name].n <= s.ceilings[name]
  }

  /** The principal is active and holds the grant, and it and every grant above it is unrevoked, unexpired, between
      active parties, and wide enough. */
  ghost predicate ChainAllows(db: Db, now: int, g: string, principal: string, p: Option<Proposal>) {
    && ActiveNow(db, principal) && g in db.grants && db.grants[g].grantee == principal
    && forall a :: a in Ancestors(db.grants, g) ==>
         && a in db.grants && !db.grants[a].revoked && now < db.grants[a].expiresAt
         && ActiveNow(db, db.grants[a].grantor) && ActiveNow(db, db.grants[a].grantee)
         && (p.Some? ==> ScopeAllows(db.grants[a].scope, p.value))
  }

  lemma ScopeMeans(s: GrantScope, p: Proposal)
    ensures Scopes.Admits(s, p) <==> ScopeAllows(s, p)
  {}

  lemma ChainMeans(db: Db, now: int, g: string, principal: string, p: Option<Proposal>)
    ensures GrantBlockers(db, now, g, principal, p) == {} <==> ChainAllows(db, now, g, principal, p)
  {
    hide GrantBlockers, Scopes.Admits, ScopeAllows, Ancestors;
    NoBlockersMeansInForce(db, now, g, principal, p);
    if p.Some? { forall s ensures Scopes.Admits(s, p.value) <==> ScopeAllows(s, p.value) { ScopeMeans(s, p.value); } }
  }

  // ---- signatures ------------------------------------------------------------------------------------------------

  /** An active human signed exactly this with a key the host knows. */
  predicate SignedByHuman(db: Db, keyring: set<string>, human: string, payload: Payload, mac: Mac) {
    && ActiveNow(db, human) && db.principals[human].kind == Human
    && db.principals[human].keyId == Some(mac.keyId) && mac.keyId in keyring && mac.payload == payload
  }

  lemma SignatureMeans(db: Db, keyring: set<string>, human: string, payload: Payload, mac: Mac)
    ensures VerifiesHuman(db, keyring, human, payload, mac) <==> SignedByHuman(db, keyring, human, payload, mac)
  {}

  // ---- issuing ---------------------------------------------------------------------------------------------------

  /** An unattended route, or one that asked for a human and has one. */
  predicate Issuable(route: Route, approved: bool) {
    match route
    case Autonomous => true
    case Audit => true
    case HumanApproval => approved
    case Clarification => false
    case Revision => false
    case Deny => false
  }

  /** The approval is the human's own signature on just this proposal, unexpired, unrescinded and unused. */
  predicate ApprovalAllows(db: Db, keyring: set<string>, now: int, consent: Consent, p: Proposal) {
    var a := consent.approval;
    && SignedByHuman(db, keyring, a.principalId, ApprovePayload(consent.id, a.principalId, a.proposal, a.partition, a.expiresAt), consent.mac)
    && a.proposal == p && a.partition == p.partition && now < a.expiresAt && consent.id !in db.approvals
    && forall t :: t in db.tokens ==> db.tokens[t].terms.approvalId != Some(consent.id)
  }

  /** Everything a new token needs: its decision is committed, executable and without a token, its effects are allowed
      by the policy in force, its grant admits it, and its approval, if it has one, stands. */
  ghost predicate MayIssue(cfg: G.Config, now: int, db: Db, r: G.Request) {
    && Issuable(r.decision.route, r.consent.Some?) && r.decision.proposal == r.proposal
    && (forall e :: e in r.proposal.effects ==> e !in r.policy.prohibited)
    && (cfg.policy.Some? ==> r.policy.version == cfg.policy.value.version)
    && r.decision.id in db.decisions
    && db.decisions[r.decision.id].proposal == r.proposal && db.decisions[r.decision.id].route == r.decision.route
    && (forall t :: t in db.tokens ==> db.tokens[t].terms.decisionId != r.decision.id) && r.tokenId !in db.tokens
    && ChainAllows(db, now, r.grantId, r.principalId, Some(r.proposal))
    && (r.consent.Some? ==> ApprovalAllows(db, cfg.keyring, now, r.consent.value, r.proposal))
    && (r.audience.Some? ==> ActiveNow(db, r.audience.value) && db.principals[r.audience.value].kind == Service)
  }

  /** What the token says: the decision's proposal, tool and effects, for the policy's lifetime from now. */
  function TermsFor(now: int, r: G.Request): Terms {
    var p := r.proposal;
    Terms(decisionId := r.decision.id, proposal := p, partition := p.partition, tool := p.tool, effects := p.effects,
          policyVersion := r.policy.version, evidenceId := r.decision.evidenceId, evidenceVersion := r.decision.evidenceVersion,
          expiresAt := now + r.policy.ttl, grantId := r.grantId, principalId := r.principalId,
          approvalId := if r.consent.None? then None else Some(r.consent.value.id),
          channel := if r.audience.None? then Local else Mcp(r.audience.value))
  }

  lemma ConsentMeans(db: Db, keyring: set<string>, now: int, consent: Consent, p: Proposal)
    ensures ApprovalUsable(db, keyring, now, consent, p) && ApprovalRecorded(db, consent).Done?
            && !(exists t :: t in db.tokens && db.tokens[t].terms.approvalId == Some(consent.id))
       <==> ApprovalAllows(db, keyring, now, consent, p)
  {
    hide VerifiesHuman, SignedByHuman;
    var a := consent.approval;
    SignatureMeans(db, keyring, a.principalId, ApprovePayload(consent.id, a.principalId, a.proposal, a.partition, a.expiresAt), consent.mac);
    if SignedByHuman(db, keyring, a.principalId, ConsentPayload(consent), consent.mac) { SignersExist(db, keyring, consent); }
  }

  lemma SignersExist(db: Db, keyring: set<string>, consent: Consent)
    requires SignedByHuman(db, keyring, consent.approval.principalId, ConsentPayload(consent), consent.mac)
    ensures Active(db, consent.approval.principalId)
  {}

  /** A token is issued exactly when all of that holds; it is the one with those terms, unspent, and no other changes. */
  lemma IssuesExactly(cfg: G.Config, now: int, db: Db, r: G.Request)
    ensures G.Minted(cfg, now, db, r).Done? <==> MayIssue(cfg, now, db, r)
    ensures G.Minted(cfg, now, db, r).Done? ==>
              var after := G.Minted(cfg, now, db, r).value;
              && after.tokens == db.tokens[r.tokenId := Token(TermsFor(now, r), Issued, None)]
              && after.approvals == if r.consent.None? then db.approvals
                                    else db.approvals[r.consent.value.id := r.consent.value.approval.(rescinded := false)]
  {
    hide GrantBlockers, ChainAllows, ApprovalUsable, ApprovalAllows, ApprovalRecorded;
    ChainMeans(db, now, r.grantId, r.principalId, Some(r.proposal));
    if r.consent.Some? {
      ConsentMeans(db, cfg.keyring, now, r.consent.value, r.proposal);
      if ApprovalRecorded(db, r.consent.value).Done? { ConsentWrites(db, r.consent.value); }
    }
  }

  lemma ConsentWrites(db: Db, consent: Consent)
    requires ApprovalRecorded(db, consent).Done?
    ensures var b := ApprovalRecorded(db, consent).value;
            b.tokens == db.tokens && b.approvals == db.approvals[consent.id := consent.approval.(rescinded := false)]
  {}

  // ---- risk ------------------------------------------------------------------------------------------------------

  /** One rule of an envelope: a number within bounds, from zero if no minimum is given, or a text among those listed. */
  predicate RuleAllows(rule: Risk.Rule, parameters: map<string, Value>) {
    match rule
    case Bound(field, maximum, minimum) =>
      && field in parameters && parameters[field].Number?
      && (if minimum.None? then 0.0 else minimum.value) <= parameters[field].n
      && (maximum.None? || parameters[field].n <= maximum.value)
    case OneOf(field, values) => field in parameters && parameters[field].Text? && parameters[field].t in values
  }

  predicate EnvelopeAllows(e: Risk.Envelope, p: Proposal) {
    e.tool == p.tool && forall i :: 0 <= i < |e.rules| ==> RuleAllows(e.rules[i], p.parameters)
  }

  /** The n-th envelope is the one that applies: it lets the call through, and none that does ranks lower, or equal and
      earlier. */
  predicate Applies(es: seq<Risk.Envelope>, p: Proposal, n: nat) {
    && n < |es| && EnvelopeAllows(es[n], p)
    && (forall m :: 0 <= m < |es| && EnvelopeAllows(es[m], p) ==> es[n].rank <= es[m].rank)
    && (forall m :: 0 <= m < n && EnvelopeAllows(es[m], p) ==> es[n].rank < es[m].rank)
  }

  predicate ScopeIs(b: Risk.Budget, p: Proposal, scope: ScopeKey) {
    match b.scope
    case Global => scope == OfValue(Text("*"))
    case PerPartition => scope == OfPartition(p.partition)
    case PerParameter(name) => name in p.parameters && p.parameters[name] != Other("null") && scope == OfValue(p.parameters[name])
  }

  predicate AmountIs(b: Risk.Budget, p: Proposal, amount: real) {
    if b.metric.None? then amount == 0.0
    else b.metric.value in p.parameters && p.parameters[b.metric.value] == Number(amount) && amount >= 0.0
  }

  /** The budget leaves room for one more operation of this amount, or does not concern the tool. */
  ghost predicate BudgetAllows(b: Risk.Budget, charges: seq<Charge>, p: Proposal) {
    (b.tools == {} || p.tool in b.tools) ==>
      exists scope, amount :: ScopeIs(b, p, scope) && AmountIs(b, p, amount)
        && (b.limit.Some? ==> Risk.Total(charges, b.id, scope) + amount <= b.limit.value)
        && (b.maxOperations.Some? ==> Risk.Count(charges, b.id, scope) + 1 <= b.maxOperations.value)
  }

  ghost predicate RiskAllows(rules: Risk.Rules, db: Db, p: Proposal) {
    && (exists n: nat :: Applies(rules.envelopes, p, n) && rules.envelopes[n].riskClass == p.partition.riskClass
                    && forall e :: e in p.effects ==> e in rules.envelopes[n].effects)
    && (forall i :: 0 <= i < |rules.budgets| ==> BudgetAllows(rules.budgets[i], db.charges, p))
    && (forall i :: 0 <= i < |db.performed| && db.performed[i].partition == p.partition ==> (db.performed[i].tool, p.tool) !in rules.conflicts)
  }

  lemma EnvelopeMeans(e: Risk.Envelope, p: Proposal)
    ensures Risk.Candidate(e, p.tool, p.parameters) <==> EnvelopeAllows(e, p)
  {
    forall i | 0 <= i < |e.rules| ensures e.rules[i].Admits(p.parameters) <==> RuleAllows(e.rules[i], p.parameters) {}
  }

  lemma {:induction false} BestApplies(es: seq<Risk.Envelope>, p: Proposal)
    ensures var best := Risk.Best(es, p.tool, p.parameters);
            && (best.Some? ==> exists n: nat :: Applies(es, p, n) && es[n] == best.value)
            && (best.None? ==> forall m :: 0 <= m < |es| ==> !EnvelopeAllows(es[m], p))
  {
    hide EnvelopeAllows, Risk.Candidate;
    if es != [] {
      BestApplies(es[1..], p);
      EnvelopeMeans(es[0], p);
      var later, best := Risk.Best(es[1..], p.tool, p.parameters), Risk.Best(es, p.tool, p.parameters);
      assert forall m :: 1 <= m < |es| ==> es[1..][m - 1] == es[m];
      if later.Some? {
        var n: nat :| Applies(es[1..], p, n) && es[1..][n] == later.value;
        assert es[n + 1] == later.value;
        if EnvelopeAllows(es[0], p) && es[0].rank <= es[n + 1].rank { assert Applies(es, p, 0); } else { assert Applies(es, p, n + 1); }
      } else if best.Some? {
        assert Applies(es, p, 0);
      }
    }
  }

  lemma OneApplies(es: seq<Risk.Envelope>, p: Proposal, n: nat, m: nat)
    requires Applies(es, p, n) && Applies(es, p, m)
    ensures n == m
  {}

  lemma BudgetMeans(b: Risk.Budget, charges: seq<Charge>, p: Proposal)
    ensures Risk.BudgetReasons(b, charges, p) == {} <==> BudgetAllows(b, charges, p)
  {
    hide Risk.Total, Risk.Count;
    if b.Covers(p.tool) && b.ScopeOf(p).Some? && b.Amount(p).Some? {
      var scope, amount := b.ScopeOf(p).value, b.Amount(p).value;
      assert ScopeIs(b, p, scope) && AmountIs(b, p, amount);
      assert b.limit.Some? && Risk.Total(charges, b.id, scope) + amount > b.limit.value
             ==> Risk.BUDGET_EXCEEDED(b.id) in Risk.BudgetReasons(b, charges, p);
      assert b.maxOperations.Some? && Risk.Count(charges, b.id, scope) + 1 > b.maxOperations.value
             ==> Risk.OPERATION_LIMIT(b.id) in Risk.BudgetReasons(b, charges, p);
    }
    assert Risk.BUDGET_SCOPE_ERROR(b.id) in {Risk.BUDGET_SCOPE_ERROR(b.id)} && Risk.BUDGET_METRIC_ERROR(b.id) in {Risk.BUDGET_METRIC_ERROR(b.id)};
  }

  lemma {:induction false} ConflictMeans(rules: Risk.Rules, performed: seq<Performed>, p: Proposal)
    ensures Risk.FirstConflict(rules, performed, p) == {} <==>
            forall i :: 0 <= i < |performed| && performed[i].partition == p.partition ==> (performed[i].tool, p.tool) !in rules.conflicts
  {
    if performed != [] {
      ConflictMeans(rules, performed[1..], p);
      assert forall i :: 1 <= i < |performed| ==> performed[1..][i - 1] == performed[i];
      assert Risk.CONFLICTING_ACTION(performed[0].tool) in {Risk.CONFLICTING_ACTION(performed[0].tool)};
    }
  }

  lemma EnvelopesMean(rules: Risk.Rules, p: Proposal)
    ensures Risk.EnvelopeReasons(rules, p) == {} <==>
            exists n: nat :: Applies(rules.envelopes, p, n) && rules.envelopes[n].riskClass == p.partition.riskClass
                        && forall e :: e in p.effects ==> e in rules.envelopes[n].effects
  {
    hide Risk.Best, Applies;
    BestApplies(rules.envelopes, p);
    var best := Risk.Best(rules.envelopes, p.tool, p.parameters);
    forall n: nat, m: nat | Applies(rules.envelopes, p, n) && Applies(rules.envelopes, p, m) ensures n == m { OneApplies(rules.envelopes, p, n, m); }
    if best.None? {
      forall n: nat ensures !Applies(rules.envelopes, p, n) { NotApplies(rules.envelopes, p, n); }
      assert Risk.NO_RISK_ENVELOPE in Risk.EnvelopeReasons(rules, p);
    } else {
      assert best.value.riskClass != p.partition.riskClass ==> Risk.RISK_CLASS_MISMATCH in Risk.EnvelopeReasons(rules, p);
      assert !(p.effects <= best.value.effects) ==> Risk.EFFECT_OUTSIDE_ENVELOPE in Risk.EnvelopeReasons(rules, p);
    }
  }

  lemma NotApplies(es: seq<Risk.Envelope>, p: Proposal, n: nat)
    requires forall m :: 0 <= m < |es| ==> !EnvelopeAllows(es[m], p)
    ensures !Applies(es, p, n)
  {}

  /** No reason against an operation means exactly that one envelope applies, of its risk class and with all its
      effects, that every budget has room for it, and that nothing done in its partition conflicts with it. */
  lemma RiskMeans(rules: Risk.Rules, db: Db, p: Proposal)
    ensures Risk.RiskBlockers(rules, db, p) == {} <==> RiskAllows(rules, db, p)
  {
    hide Risk.EnvelopeReasons, Risk.BudgetReasons, Risk.BudgetsReasons, Risk.FirstConflict, BudgetAllows, Applies;
    EnvelopesMean(rules, p);
    ConflictMeans(rules, db.performed, p);
    Risk.NoReasonFromAny(rules.budgets, db.charges, p);
    forall i | 0 <= i < |rules.budgets| ensures Risk.BudgetReasons(rules.budgets[i], db.charges, p) == {} <==> BudgetAllows(rules.budgets[i], db.charges, p) {
      BudgetMeans(rules.budgets[i], db.charges, p);
    }
    assert Risk.EnvelopeReasons(rules, p) <= Risk.RiskBlockers(rules, db, p);
    assert Risk.BudgetsReasons(rules.budgets, db.charges, p) <= Risk.RiskBlockers(rules, db, p);
    assert Risk.FirstConflict(rules, db.performed, p) <= Risk.RiskBlockers(rules, db, p);
  }

  // ---- spending --------------------------------------------------------------------------------------------------

  /** The proposal presented is the one the token was issued for, on time, and no wider than the token. */
  predicate TermsCover(now: int, t: Terms, p: Proposal) {
    now < t.expiresAt && p == t.proposal && p.tool == t.tool && forall e :: e in p.effects ==> e in t.effects
  }

  /** Suspended or invalid evidence stops a token that no human approved in view of that very version, and a token on
      evidence needs the record it names. */
  predicate EvidenceCovers(db: Db, t: Terms) {
    var stored := t.partition in db.snapshots;
    && (stored && (db.snapshots[t.partition].suspended || !db.snapshots[t.partition].valid) ==>
          t.approvalId.Some? && t.evidenceVersion == Some(db.snapshots[t.partition].version))
    && (t.approvalId.None? && t.evidenceId.Some? ==> stored && t.evidenceId == Some(db.snapshots[t.partition].id))
  }

  /** A known partition is live and not lineage-suspended, and without an approval also autonomous, its gate open now. */
  ghost predicate LifecycleCovers(env: Env, db: Db, t: Terms) {
    t.partition in db.lifecycle ==>
      var record := db.lifecycle[t.partition];
      && !record.retired && record.state != SUSPENDED && !record.lineageSuspended
      && (t.approvalId.None? ==> record.state == AUTONOMOUS && Readings.Opens(env, db, t.partition, record))
  }

  /** Everything an unspent token needs at the instant it is spent or accepted. */
  ghost predicate Covers(cfg: G.Config, now: int, db: Db, t: Terms, p: Proposal) {
    && TermsCover(now, t, p)
    && (cfg.policy.Some? ==> t.policyVersion == cfg.policy.value.version && forall e :: e in p.effects ==> e !in cfg.policy.value.prohibited)
    && (cfg.evidence ==> EvidenceCovers(db, t))
    && ChainAllows(db, now, t.grantId, t.principalId, Some(p))
    && (t.approvalId.Some? && t.approvalId.value in db.approvals ==> !db.approvals[t.approvalId.value].rescinded)
    && (cfg.lifecycle.Some? ==> LifecycleCovers(cfg.lifecycle.value.(now := now), db, t))
    && (cfg.risk.Some? ==> RiskAllows(cfg.risk.value, db, p))
  }

  ghost predicate MaySpend(cfg: G.Config, now: int, db: Db, id: string, p: Proposal, channel: Channel) {
    && id in db.tokens && db.tokens[id].state == Issued && db.tokens[id].terms.channel == channel
    && Covers(cfg, now, db, db.tokens[id].terms, p)
  }

  lemma LifecycleMeans(env: Env, db: Db, t: Terms)
    ensures LifecycleBlockers(env, db, t) == {} <==> LifecycleCovers(env, db, t)
  {
    hide GateOpen, Readings.Opens, GateReasons;
    if t.partition in db.lifecycle {
      PassesOnlyOpenGate(env, db, t);
      NoReasonMeansOpen(env, db, t.partition, db.lifecycle[t.partition]);
      Readings.GateOpensExactly(env, db, t.partition, db.lifecycle[t.partition]);
    }
  }

  lemma PassesMeans(cfg: G.Config, now: int, db: Db, t: Terms, p: Proposal)
    ensures G.Passes(cfg, now, db, t, p) <==> Covers(cfg, now, db, t, p)
  {
    hide GrantBlockers, ChainAllows, LifecycleBlockers, LifecycleCovers, Risk.RiskBlockers, RiskAllows;
    ChainMeans(db, now, t.grantId, t.principalId, Some(p));
    if cfg.lifecycle.Some? { LifecycleMeans(cfg.lifecycle.value.(now := now), db, t); }
    if cfg.risk.Some? { RiskMeans(cfg.risk.value, db, p); }
  }

  /** A token is spent on a channel exactly then, and nothing else changes with it. */
  lemma SpendsExactly(cfg: G.Config, now: int, db: Db, id: string, p: Proposal, channel: Channel)
    ensures G.Spent(cfg, now, db, id, p, channel).Done? <==> MaySpend(cfg, now, db, id, p, channel)
    ensures G.Spent(cfg, now, db, id, p, channel).Done? ==>
              G.Spent(cfg, now, db, id, p, channel).value == db.(tokens := db.tokens[id := Token(db.tokens[id].terms, Consumed, db.tokens[id].reason)])
  {
    hide G.Passes, Covers;
    if id in db.tokens { PassesMeans(cfg, now, db, db.tokens[id].terms, p); }
  }

  /** What an operation leaves that was redeemed: its token consumed, and with a risk policy its charges and one line of
      history. */
  ghost predicate SpentAndCharged(cfg: G.Config, db: Db, after: Db, id: string, p: Proposal)
    requires id in db.tokens
  {
    && after == db.(tokens := after.tokens, charges := after.charges, performed := after.performed)
    && after.tokens == db.tokens[id := Token(db.tokens[id].terms, Consumed, db.tokens[id].reason)]
    && (cfg.risk.None? ==> after == db.(tokens := after.tokens))
    && (cfg.risk.Some? ==> after.performed == db.performed + [Performed(p.partition, p.tool, id)])
  }

  lemma SettlesAfterSpending(cfg: G.Config, now: int, db: Db, id: string, p: Proposal, channel: Channel)
    requires G.Spent(cfg, now, db, id, p, channel).Done?
    ensures G.Settled(cfg, G.Spent(cfg, now, db, id, p, channel).value, id, p).Done?
    ensures SpentAndCharged(cfg, db, G.Settled(cfg, G.Spent(cfg, now, db, id, p, channel).value, id, p).value, id, p)
  {
    hide G.TermsAllow, G.PolicyAllows, G.EvidenceAllows, G.AuthorityStands, LifecycleBlockers, Risk.RiskBlockers;
    if cfg.risk.Some? { Risk.BlockersMeanChargeable(cfg.risk.value, db, p); }
  }

  /** An operation is executed exactly if its token may be spent on it and its tool is known. */
  lemma ExecutesExactly(cfg: G.Config, now: int, db: Db, id: string, p: Proposal)
    ensures G.Executed(cfg, now, db, id, p).Done? <==> MaySpend(cfg, now, db, id, p, Local) && cfg.resolves(p)
    ensures G.Executed(cfg, now, db, id, p).Done? ==> SpentAndCharged(cfg, db, G.Executed(cfg, now, db, id, p).value, id, p)
  {
    hide G.Spent, G.Settled, MaySpend, SpentAndCharged;
    SpendsExactly(cfg, now, db, id, p, Local);
    if G.Spent(cfg, now, db, id, p, Local).Done? { SettlesAfterSpending(cfg, now, db, id, p, Local); }
  }

  /** A remote redemption succeeds exactly if the call received is the one the token was issued for, and it may be spent
      on that channel. */
  lemma RedeemsExactly(cfg: G.Config, now: int, db: Db, id: string, audience: string, call: G.Call)
    ensures G.RedeemedRemotely(cfg, now, db, id, audience, call).Done? <==>
            id in db.tokens && call.tool == db.tokens[id].terms.proposal.tool && call.parameters == db.tokens[id].terms.proposal.parameters
            && MaySpend(cfg, now, db, id, db.tokens[id].terms.proposal, Mcp(audience))
    ensures G.RedeemedRemotely(cfg, now, db, id, audience, call).Done? ==>
              SpentAndCharged(cfg, db, G.RedeemedRemotely(cfg, now, db, id, audience, call).value, id, db.tokens[id].terms.proposal)
  {
    hide G.Spent, G.Settled, MaySpend, SpentAndCharged;
    if id in db.tokens {
      var p := db.tokens[id].terms.proposal;
      SpendsExactly(cfg, now, db, id, p, Mcp(audience));
      if G.Spent(cfg, now, db, id, p, Mcp(audience)).Done? { SettlesAfterSpending(cfg, now, db, id, p, Mcp(audience)); }
    }
  }

  /** A call without effects is accepted exactly if it could be redeemed and its token was never accepted before; only
      the nonce is written. */
  lemma AcceptsExactly(cfg: G.Config, now: int, db: Db, id: string, audience: string, call: G.Call)
    ensures G.NonceAccepted(cfg, now, db, id, audience, call).Done? <==>
            id in db.tokens && call.tool == db.tokens[id].terms.proposal.tool && call.parameters == db.tokens[id].terms.proposal.parameters
            && MaySpend(cfg, now, db, id, db.tokens[id].terms.proposal, Mcp(audience))
            && db.tokens[id].terms.effects == {} && id !in db.nonces
    ensures G.NonceAccepted(cfg, now, db, id, audience, call).Done? ==>
              G.NonceAccepted(cfg, now, db, id, audience, call).value == db.(nonces := db.nonces[id := audience])
  {
    hide G.Passes, Covers;
    if id in db.tokens { PassesMeans(cfg, now, db, db.tokens[id].terms, db.tokens[id].terms.proposal); }
  }

  predicate InState(db: Db, id: string, state: TokenState) {
    id in db.tokens && db.tokens[id].state == state
  }

  function WithState(db: Db, id: string, state: TokenState): Db
    requires id in db.tokens
  {
    db.(tokens := db.tokens[id := Token(db.tokens[id].terms, state, db.tokens[id].reason)])
  }

  /** A handler starts on a consumed token only and ends only once it has started, failed or not; nothing but the state
      of its token changes. */
  lemma HandlersAdvanceExactly(cfg: G.Config, now: int, db: Db, id: string, failed: bool)
    ensures Redeemed(cfg, now, db, Start(id)).Done? <==> InState(db, id, Consumed)
    ensures InState(db, id, Consumed) ==> Redeemed(cfg, now, db, Start(id)) == Done(WithState(db, id, HandlerStarted))
    ensures Redeemed(cfg, now, db, Finish(id, failed)).Done? <==> InState(db, id, HandlerStarted)
    ensures InState(db, id, HandlerStarted) ==>
              Redeemed(cfg, now, db, Finish(id, failed)) == Done(WithState(db, id, if failed then HandlerFailed else HandlerCompleted))
  {}

  // ---- permissions -----------------------------------------------------------------------------------------------

  /** A principal that may act on its own: an active service or human. */
  predicate Runner(db: Db, id: string) {
    ActiveNow(db, id) && (db.principals[id].kind == Service || db.principals[id].kind == Human)
  }

  /** Humans and oracles are registered with a key the host knows, by an active service or human, once. */
  lemma RegistersExactly(db: Db, keyring: set<string>, id: string, kind: PrincipalKind, actor: string, keyId: Option<string>)
    ensures Registered(db, keyring, id, kind, actor, keyId).Done? <==>
            id != "" && id !in db.principals && Runner(db, actor)
            && (kind == Human || kind == OracleKind ==> keyId.Some? && keyId.value in keyring)
    ensures Registered(db, keyring, id, kind, actor, keyId).Done? ==>
              Registered(db, keyring, id, kind, actor, keyId).value.principals == db.principals[id := Principal(kind, keyId, true)]
  {}

  /** An active principal is deactivated by an active service or human, other than itself. */
  lemma DeactivatesExactly(db: Db, id: string, actor: string)
    ensures Deactivated(db, id, actor).Done? <==> Runner(db, actor) && ActiveNow(db, id) && actor != id
    ensures Deactivated(db, id, actor).Done? ==>
              Deactivated(db, id, actor).value.principals == db.principals[id := db.principals[id].(active := false)]
  {
    hide DeactivationScope;
  }

  /** A grant that is added: unrevoked, of these parties, this scope and this lifetime. */
  predicate Adds(db: Db, after: Db, id: string, parent: Option<string>, grantor: string, grantee: string, scope: GrantScope, expiresAt: int) {
    && id !in db.grants && id in after.grants && after.grants == db.grants[id := after.grants[id]]
    && after.grants[id] == Grant(parent, grantor, grantee, scope, expiresAt, false, after.grants[id].row) && after.tokens == db.tokens
  }

  /** A root grant is given exactly on the active human grantor's own signature over all of it, to an active party. */
  lemma RootGrantsExactly(db: Db, keyring: set<string>, id: string, grantor: string, grantee: string, scope: GrantScope, expiresAt: int, mac: Mac)
    ensures RootGranted(db, keyring, id, grantor, grantee, scope, expiresAt, mac).Done? <==>
            SignedByHuman(db, keyring, grantor, RootGrantPayload(id, grantor, grantee, scope, expiresAt), mac)
            && ActiveNow(db, grantee) && id !in db.grants
    ensures RootGranted(db, keyring, id, grantor, grantee, scope, expiresAt, mac).Done? ==>
              Adds(db, RootGranted(db, keyring, id, grantor, grantee, scope, expiresAt, mac).value, id, None, grantor, grantee, scope, expiresAt)
  {
    hide VerifiesHuman;
    SignatureMeans(db, keyring, grantor, RootGrantPayload(id, grantor, grantee, scope, expiresAt), mac);
  }

  /** A delegation is made exactly by the holder of a grant that is in force up to its root, within its scope and its
      lifetime, to an active party. */
  lemma DelegatesExactly(db: Db, now: int, parentId: string, grantee: string, scope: GrantScope, expiresAt: int, id: string)
    ensures Delegated(db, now, parentId, grantee, scope, expiresAt, id).Done? <==>
            parentId in db.grants && ChainAllows(db, now, parentId, db.grants[parentId].grantee, None)
            && Scopes.Within(scope, db.grants[parentId].scope) && expiresAt <= db.grants[parentId].expiresAt
            && ActiveNow(db, grantee) && id !in db.grants
    ensures Delegated(db, now, parentId, grantee, scope, expiresAt, id).Done? ==>
              Adds(db, Delegated(db, now, parentId, grantee, scope, expiresAt, id).value, id, Some(parentId), db.grants[parentId].grantee,
                   grantee, scope, expiresAt)
  {
    hide GrantBlockers, Scopes.Within;
    if parentId in db.grants { ChainMeans(db, now, parentId, db.grants[parentId].grantee, None); }
  }

  /** A grant is revoked exactly by an active grantor of it or of a grant above it, while it is unrevoked. */
  lemma RevokesGrantExactly(db: Db, id: string, actor: string)
    ensures GrantWithdrawn(db, id, actor).Done? <==>
            id in db.grants && !db.grants[id].revoked && ActiveNow(db, actor)
            && (forall a :: a in Ancestors(db.grants, id) ==> a in db.grants)
            && exists a :: a in Ancestors(db.grants, id) && db.grants[a].grantor == actor
    ensures GrantWithdrawn(db, id, actor).Done? ==>
              GrantWithdrawn(db, id, actor).value.grants == db.grants[id := db.grants[id].(revoked := true)]
  {
    hide TokensUnder, Ancestors;
  }

  /** An approval is rescinded exactly on the signature of the human who gave it, once. */
  lemma RescindsExactly(db: Db, keyring: set<string>, id: string, approval: Approval, mac: Mac)
    ensures ApprovalWithdrawn(db, keyring, id, approval, mac).Done? <==>
            SignedByHuman(db, keyring, approval.principalId, RescindPayload(id), mac) && (id in db.approvals ==> !db.approvals[id].rescinded)
    ensures ApprovalWithdrawn(db, keyring, id, approval, mac).Done? ==>
              var after := ApprovalWithdrawn(db, keyring, id, approval, mac).value;
              id in after.approvals && after.approvals == db.approvals[id := after.approvals[id]] && after.approvals[id].rescinded
  {
    hide VerifiesHuman, TokensOn;
    SignatureMeans(db, keyring, approval.principalId, RescindPayload(id), mac);
    if SignedByHuman(db, keyring, approval.principalId, RescindPayload(id), mac) { assert Active(db, approval.principalId); }
  }

  /** A decision is committed once, with its event at the place it records. */
  lemma DecidesExactly(db: Db, d: G.Decision)
    ensures G.Recorded(db, d).Done? <==> ActiveNow(db, CONTROLLER) && d.id !in db.decisions
    ensures G.Recorded(db, d).Done? ==>
              var after := G.Recorded(db, d).value;
              && after.ledger == db.ledger + [Entry(CONTROLLER, DecisionCommitted(d.id, d.proposal, d.route))]
              && after.decisions == db.decisions[d.id := Committed(d.proposal, d.route, |db.ledger|)]
  {}

  // ---- every token of a run --------------------------------------------------------------------------------------

  /** The i-th step of the run issued the token with these terms, when all that a token needs held. */
  ghost predicate IssuedAt(host: Host, s: System, trace: Trace, i: nat, t: string, terms: Terms) {
    && i < |trace| && trace[i].1.Issue? && trace[i].1.request.tokenId == t && terms == TermsFor(trace[i].0.now, trace[i].1.request)
    && var before := Run(host, s, trace[..i]);
       MayIssue(ConfigOf(host, before, trace[i].0), trace[i].0.now, before.db, trace[i].1.request)
  }

  lemma IssuedEarlier(host: Host, s: System, trace: Trace, n: nat, i: nat, t: string, terms: Terms)
    requires n <= |trace| && IssuedAt(host, s, trace[..n], i, t, terms)
    ensures IssuedAt(host, s, trace, i, t, terms)
  {
    hide MayIssue;
    assert trace[..n][..i] == trace[..i] && trace[..n][i] == trace[i];
  }

  /** Only issuing makes a token, and nothing changes its terms. */
  ghost predicate SameTerms(a: Db, b: Db) {
    forall t :: t in b.tokens ==> t in a.tokens && a.tokens[t].terms == b.tokens[t].terms
  }

  lemma RevokingKeepsTerms(a: Db, b: Db)
    requires OnlyRevoked(a.tokens, b.tokens)
    ensures SameTerms(a, b)
  {
    forall t | t in b.tokens ensures t in a.tokens && a.tokens[t].terms == b.tokens[t].terms { assert OnlyRevokedToken(a.tokens[t], b.tokens[t]); }
  }

  lemma StepKeepsTerms(host: Host, s: System, m: Moment, step: Step)
    requires !step.Issue? && Effect(host, s, m, step).Done?
    ensures SameTerms(s.db, Effect(host, s, m, step).value)
  {
    hide Permitted, Redeemed;
    var after := Effect(host, s, m, step).value;
    if step.Permit? {
      PermitShape(host, m.now, s.db, step.permission);
      RevokingKeepsTerms(s.db, after);
    } else if step.Spend? {
      SpendingShape(ConfigOf(host, s, m), m.now, s.db, step.redemption);
    } else if step.Operate? || step.ChangePolicy? || step.ChangeRules? {
      E.FramedSteps(host, s, m, step);
      RevokingKeepsTerms(s.db, after);
    }
  }

  lemma LastStepIssues(host: Host, s: System, trace: Trace, t: string)
    requires trace != [] && t in Run(host, s, trace).db.tokens
    ensures var before := Run(host, s, trace[..|trace| - 1]).db.tokens; var terms := Run(host, s, trace).db.tokens[t].terms;
            (t in before && before[t].terms == terms) || IssuedAt(host, s, trace, |trace| - 1, t, terms)
  {
    hide MayIssue, G.Minted;
    var n := |trace| - 1;
    var before, m, step := Run(host, s, trace[..n]), trace[n].0, trace[n].1;
    if Effect(host, before, m, step).Done? {
      if step.Issue? {
        IssuesExactly(ConfigOf(host, before, m), m.now, before.db, step.request);
      } else {
        StepKeepsTerms(host, before, m, step);
      }
    }
  }

  /** In every state of every run, every token was issued at some step of it, on a committed executable decision, a
      grant in force and, where a human was asked, that human's unexpired signature; and it says what it said then. */
  lemma {:induction false} EveryTokenWasIssued(host: Host, s: System, trace: Trace, t: string)
    requires s.db.tokens == map[] && t in Run(host, s, trace).db.tokens
    ensures exists i: nat :: IssuedAt(host, s, trace, i, t, Run(host, s, trace).db.tokens[t].terms)
    decreases |trace|
  {
    hide After, IssuedAt;
    if trace != [] {
      var n := |trace| - 1;
      var terms := Run(host, s, trace).db.tokens[t].terms;
      LastStepIssues(host, s, trace, t);
      if !IssuedAt(host, s, trace, n, t, terms) {
        EveryTokenWasIssued(host, s, trace[..n], t);
        var i: nat :| IssuedAt(host, s, trace[..n], i, t, terms);
        IssuedEarlier(host, s, trace, n, i, t, terms);
      }
    }
  }

  /** In every state of every run, the decision behind a token is committed on an unattended route, or on a request for
      a human with an approval of just that proposal on the record; never on clarification, revision or denial. */
  lemma TokensAreRouted(host: Host, s: System, trace: Trace, t: string)
    requires Sound(s) && t in Run(host, s, trace).db.tokens
    ensures var db := Run(host, s, trace).db; var terms := db.tokens[t].terms;
            && terms.decisionId in db.decisions && db.decisions[terms.decisionId].proposal == terms.proposal
            && match db.decisions[terms.decisionId].route
               case Autonomous => true
               case Audit => true
               case HumanApproval => terms.approvalId.Some? && terms.approvalId.value in db.approvals
                                     && db.approvals[terms.approvalId.value].proposal == terms.proposal
               case _ => false
  {
    RunSound(host, s, trace);
    assert G.TokenHolds(Run(host, s, trace).db, Run(host, s, trace).db.tokens[t].terms);
  }

  /** The instant of a redemption and the token's lifetime. */
  ghost predicate SpentInTime(host: Host, s: System, trace: Trace, now: int, t: string) {
    exists i: nat :: && i < |trace| && trace[i].1.Issue? && trace[i].1.request.tokenId == t
                     && now < trace[i].0.now + trace[i].1.request.policy.ttl
  }

  /** In every run, a token that is executed, redeemed or accepted was issued under a policy whose lifetime has not run
      out since. */
  lemma SpentBeforeExpiry(host: Host, s: System, trace: Trace, m: Moment, r: Redemption)
    requires s.db.tokens == map[] && (r.Execute? || r.Redeem? || r.Accept?)
    requires Effect(host, Run(host, s, trace), m, Spend(r)).Done?
    ensures SpentInTime(host, s, trace, m.now, r.id)
  {
    hide Run, G.Executed, G.RedeemedRemotely, G.NonceAccepted, MayIssue;
    var before := Run(host, s, trace);
    var cfg := ConfigOf(host, before, m);
    if r.Execute? {
      ExecutesExactly(cfg, m.now, before.db, r.id, r.proposal);
    } else if r.Redeem? {
      RedeemsExactly(cfg, m.now, before.db, r.id, r.audience, r.call);
    } else {
      AcceptsExactly(cfg, m.now, before.db, r.id, r.audience, r.call);
    }
    EveryTokenWasIssued(host, s, trace, r.id);
    var i: nat :| IssuedAt(host, s, trace, i, r.id, before.db.tokens[r.id].terms);
  }
}
