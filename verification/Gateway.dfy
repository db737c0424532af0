/** Tokens: issued against a committed decision, a live grant and, if needed, an approval; spent once, and
    judged again on the state of the moment they are spent in.  */
module Gateway {
  import opened Tables
  import opened Scopes
  import opened Principals
  import opened Risk
  import opened Lifecycle
  import opened Operations
  import Closure

  datatype Decision = Decision(id: string, proposal: Proposal, evidenceId: Option<EvidenceId>, evidenceVersion: Option<nat>, route: Route)

  /** What a gateway is attached to; each part is optional but the keyring and the tool table. */
  datatype Config = Config(keyring: set<string>, evidence: bool, policy: Option<Policy>, lifecycle: Option<Env>, risk: Option<Rules>,
                           resolves: Proposal -> bool)

  // ---- decisions ---------------------------------------------------------------------------------

  /** A decision is on the record, once, before anything acts on it. */
  function Recorded(db: Db, d: Decision): Outcome<Db> {
    var db1 :- Appended(db, CONTROLLER, DecisionCommitted(d.id, d.proposal, d.route));
    if d.id in db.decisions then Raised
    else Done(db1.(decisions := db.decisions[d.id := Committed(d.proposal, d.route, |db.ledger|)]))
  }

  // ---- issuing -----------------------------------------------------------------------------------

  datatype Request = Request(decision: Decision, proposal: Proposal, policy: Policy, principalId: string, grantId: string,
                             consent: Option<Consent>, audience: Option<string>, tokenId: string)

  predicate DecisionAllows(cfg: Config, db: Db, r: Request) {
    && ExecutableRoute(r.decision.route, r.consent.Some?)
    && r.decision.proposal == r.proposal
    && r.proposal.effects !! r.policy.prohibited
    && (cfg.policy.Some? ==> cfg.policy.value.version == r.policy.version)
    && r.decision.id in db.decisions
    && db.decisions[r.decision.id].proposal == r.decision.proposal && db.decisions[r.decision.id].route == r.decision.route
    && !(exists t :: t in db.tokens && db.tokens[t].terms.decisionId == r.decision.id)
  }

  predicate AuthorityAllows(cfg: Config, now: int, db: Db, r: Request) {
    && GrantBlockers(db, now, r.grantId, r.principalId, Some(r.proposal)) == {}
    && (r.consent.Some? ==>
          && ApprovalUsable(db, cfg.keyring, now, r.consent.value, r.proposal)
          && !(exists t :: t in db.tokens && db.tokens[t].terms.approvalId == Some(r.consent.value.id)))
    && (r.audience.Some? ==> ActiveOf(db, r.audience.value, {Service}))
  }

  function TermsOf(now: int, r: Request): Terms {
    Terms(r.decision.id, r.proposal, r.proposal.partition, r.proposal.tool, r.proposal.effects, r.policy.version,
          r.decision.evidenceId, r.decision.evidenceVersion, now + r.policy.ttl, r.grantId, r.principalId,
          if r.consent.Some? then Some(r.consent.value.id) else None,
          if r.audience.Some? then Mcp(r.audience.value) else Local)
  }

  function Consented(db: Db, r: Request): Outcome<Db> {
    if r.consent.Some? then ApprovalRecorded(db, r.consent.value) else Done(db)
  }

  function Minted(cfg: Config, now: int, db: Db, r: Request): Outcome<Db> {
    if !DecisionAllows(cfg, db, r) || !AuthorityAllows(cfg, now, db, r) || r.tokenId in db.tokens then Raised
    else
      var db1 :- Consented(db, r);
      Done(db1.(tokens := db.tokens[r.tokenId := Token(TermsOf(now, r), Issued, None)]))
  }

  // ---- spending ----------------------------------------------------------------------------------

  /** What the token itself says. */
  predicate TermsAllow(now: int, t: Terms, p: Proposal) {
    now < t.expiresAt && t.proposal == p && t.tool == p.tool && p.effects <= t.effects
  }

  predicate PolicyAllows(cfg: Config, t: Terms, p: Proposal) {
    cfg.policy.Some? ==> cfg.policy.value.version == t.policyVersion && p.effects !! cfg.policy.value.prohibited
  }

  /** Suspended or invalid evidence stops a token unless a human approved in view of that very version; and
      a token that rests on evidence needs the record it was judged on. */
  predicate EvidenceAllows(cfg: Config, db: Db, t: Terms) {
    cfg.evidence ==>
      && (t.partition in db.snapshots && (db.snapshots[t.partition].suspended || !db.snapshots[t.partition].valid)
          ==> t.approvalId.Some? && t.evidenceVersion == Some(db.snapshots[t.partition].version))
      && (t.evidenceId.Some? && t.approvalId.None?
          ==> t.partition in db.snapshots && db.snapshots[t.partition].id == t.evidenceId.value)
  }

  predicate AuthorityStands(db: Db, now: int, t: Terms, p: Proposal) {
    && GrantBlockers(db, now, t.grantId, t.principalId, Some(p)) == {}
    && (t.approvalId.Some? ==> !RescindedNow(db, t.approvalId.value))
  }

  predicate GuardsAllow(cfg: Config, now: int, db: Db, t: Terms, p: Proposal) {
    && (cfg.lifecycle.Some? ==> LifecycleBlockers(cfg.lifecycle.value.(now := now), db, t) == {})
    && (cfg.risk.Some? ==> RiskBlockers(cfg.risk.value, db, p) == {})
  }

  predicate Passes(cfg: Config, now: int, db: Db, t: Terms, p: Proposal) {
    TermsAllow(now, t, p) && PolicyAllows(cfg, t, p) && EvidenceAllows(cfg, db, t) && AuthorityStands(db, now, t, p)
    && GuardsAllow(cfg, now, db, t, p)
  }

  function StateSet(db: Db, id: string, state: TokenState): Db
    requires id in db.tokens
  {
    db.(tokens := db.tokens[id := db.tokens[id].(state := state)])
  }

  /** From issued to consumed, once, if everything still allows it: all paths to an effect go through here. */
  function Spent(cfg: Config, now: int, db: Db, id: string, p: Proposal, channel: Channel): Outcome<Db> {
    if id !in db.tokens || db.tokens[id].terms.channel != channel || db.tokens[id].state != Issued
       || !Passes(cfg, now, db, db.tokens[id].terms, p) then Raised
    else Done(StateSet(db, id, Consumed))
  }

  function Settled(cfg: Config, db: Db, id: string, p: Proposal): Outcome<Db> {
    if cfg.risk.Some? then Charged(cfg.risk.value, db, id, p) else Done(db)
  }

  function Executed(cfg: Config, now: int, db: Db, id: string, p: Proposal): Outcome<Db> {
    var db1 :- Spent(cfg, now, db, id, p, Local);
    if !cfg.resolves(p) then Raised else Settled(cfg, db1, id, p)
  }

  /** The call an MCP server received, as its digest names it. */
  datatype Call = Call(tool: string, parameters: map<string, Value>)

  function RedeemedRemotely(cfg: Config, now: int, db: Db, id: string, audience: string, call: Call): Outcome<Db> {
    if id !in db.tokens then Raised
    else
      var p := db.tokens[id].terms.proposal;
      if call != Call(p.tool, p.parameters) then Raised
      else
        var db1 :- Spent(cfg, now, db, id, p, Mcp(audience));
        Settled(cfg, db1, id, p)
  }

  /** An effect-free call is accepted once, and the token is not spent. */
  function NonceAccepted(cfg: Config, now: int, db: Db, id: string, audience: string, call: Call): Outcome<Db> {
    if id !in db.tokens then Raised
    else
      var t := db.tokens[id].terms;
      if call != Call(t.proposal.tool, t.proposal.parameters) || db.tokens[id].state != Issued || t.channel != Mcp(audience)
         || !Passes(cfg, now, db, t, t.proposal) || t.effects != {} || id in db.nonces then Raised
      else Done(db.(nonces := db.nonces[id := audience]))
  }

  function Dropped(db: Db, id: string, why: string): Outcome<Db> {
    if id !in db.tokens then Raised else Done(db.(tokens := db.tokens[id := RevokeOne(db.tokens[id], ByRequest(why))]))
  }

  /** A handler-state transition; finding another state is an error, never a silent no-op. */
  function Advanced(db: Db, id: string, from: TokenState, target: TokenState): Outcome<Db> {
    if id !in db.tokens || db.tokens[id].state != from then Raised else Done(StateSet(db, id, target))
  }

  // ---- redemption is judged on the current state ----------------------------------------------------

  /** With the evidence store, the policy and the lifecycle attached, an evidence-based token of a known
      partition is spent only in a state where the partition is autonomous, unretired, not suspended and not
      lineage-suspended, its stored evidence, if any, is valid and unsuspended and is the record the token names,
      if it names one, and the counts, their age and the bound at the epoch's level meet the policy at that
      instant. */
  lemma SpentOnlyOnCurrentEvidence(cfg: Config, now: int, db: Db, id: string, p: Proposal, channel: Channel)
    requires Spent(cfg, now, db, id, p, channel).Done?
    requires cfg.evidence && cfg.policy.Some? && cfg.lifecycle.Some?
    requires var t := db.tokens[id].terms; t.approvalId.None? && t.partition in db.lifecycle
    ensures var t := db.tokens[id].terms; var env := cfg.lifecycle.value.(now := now);
            && GateOpen(env, db, t.partition, db.lifecycle[t.partition])
            && db.lifecycle[t.partition].state == AUTONOMOUS
            && (t.partition in db.snapshots ==> db.snapshots[t.partition].valid && !db.snapshots[t.partition].suspended)
            && (t.evidenceId.Some? ==> t.partition in db.snapshots && db.snapshots[t.partition].id == t.evidenceId.value)
            && t.policyVersion == cfg.policy.value.version && t.proposal.effects !! cfg.policy.value.prohibited
            && now < t.expiresAt && p == t.proposal && p.tool == t.tool && p.effects <= t.effects
            && GrantInForce(db, now, t.grantId, t.principalId, Some(t.proposal))
  {
    var t := db.tokens[id].terms;
    PassesOnlyOpenGate(cfg.lifecycle.value.(now := now), db, t);
    NoBlockersMeansInForce(db, now, t.grantId, t.principalId, Some(p));
  }

  // ---- what every token is ----------------------------------------------------------------------------

  /** The decision behind a token is on the ledger, at its recorded place. */
  ghost predicate DecisionOnRecord(db: Db, id: string) {
    id in db.decisions && db.decisions[id].sequence < |db.ledger|
    && db.ledger[db.decisions[id].sequence].body == DecisionCommitted(id, db.decisions[id].proposal, db.decisions[id].route)
  }

  ghost predicate TokenHolds(db: Db, t: Terms) {
    && t.decisionId in db.decisions
    && db.decisions[t.decisionId].proposal == t.proposal
    && (var route := db.decisions[t.decisionId].route; route == Autonomous || route == Audit || (route == HumanApproval && t.approvalId.Some?))
    && t.tool == t.proposal.tool && t.effects == t.proposal.effects && t.partition == t.proposal.partition
    && t.grantId in db.grants && db.grants[t.grantId].grantee == t.principalId
    && (forall a :: a in Ancestors(db.grants, t.grantId) ==> a in db.grants && Admits(db.grants[a].scope, t.proposal))
    && (t.approvalId.Some? ==> t.approvalId.value in db.approvals && db.approvals[t.approvalId.value].proposal == t.proposal)
  }

  /** One decision, one token; one approval, one token. */
  ghost predicate Apart(t: Terms, u: Terms) {
    t.decisionId != u.decisionId && (t.approvalId.Some? ==> t.approvalId != u.approvalId)
  }

  ghost predicate TokensApart(db: Db) {
    forall t, u :: t in db.tokens && u in db.tokens && t != u ==> Apart(db.tokens[t].terms, db.tokens[u].terms)
  }

  ghost predicate TokensInv(db: Db) {
    && (forall id :: id in db.decisions ==> DecisionOnRecord(db, id))
    && (forall t :: t in db.tokens ==> TokenHolds(db, db.tokens[t].terms))
    && TokensApart(db)
  }

  lemma MintedKeepsPermissions(cfg: Config, now: int, db: Db, r: Request)
    requires PermissionInv(db) && Minted(cfg, now, db, r).Done?
    ensures PermissionInv(Minted(cfg, now, db, r).value)
  {
    var after := Minted(cfg, now, db, r).value;
    if r.consent.Some? { RecordApprovalKeeps(db, r.consent.value); }
    NoBlockersMeansInForce(db, now, r.grantId, r.principalId, Some(r.proposal));
    forall t | t in after.tokens && after.tokens[t].state == Issued ensures Backed(after, after.tokens[t].terms) {
      if t != r.tokenId { assert Backed(db, db.tokens[t].terms); }
    }
  }

  lemma UsableNames(db: Db, keyring: set<string>, now: int, consent: Consent, p: Proposal)
    requires ApprovalUsable(db, keyring, now, consent, p)
    ensures consent.approval.proposal == p
  {}

  lemma ConsentedTables(db: Db, r: Request)
    requires Consented(db, r).Done?
    ensures var b := Consented(db, r).value;
            && b.grants == db.grants && b.decisions == db.decisions
            && (r.consent.Some? ==> r.consent.value.id in b.approvals
                                    && b.approvals[r.consent.value.id].proposal == r.consent.value.approval.proposal)
  {}

  lemma MintedHolds(cfg: Config, now: int, db: Db, r: Request)
    requires Minted(cfg, now, db, r).Done?
    ensures TokenHolds(Minted(cfg, now, db, r).value, TermsOf(now, r))
  {
    hide GrantBlockers, ApprovalUsable, Consented, Admits, Ancestors;
    NoBlockersMeansInForce(db, now, r.grantId, r.principalId, Some(r.proposal));
    ConsentedTables(db, r);
    if r.consent.Some? { UsableNames(db, cfg.keyring, now, r.consent.value, r.proposal); }
  }

  lemma MintedApart(cfg: Config, now: int, db: Db, r: Request)
    requires TokensApart(db) && Minted(cfg, now, db, r).Done?
    ensures TokensApart(Minted(cfg, now, db, r).value)
  {
    var after := Minted(cfg, now, db, r).value;
    forall t, u | t in after.tokens && u in after.tokens && t != u ensures Apart(after.tokens[t].terms, after.tokens[u].terms) {
      if t in db.tokens && u in db.tokens { assert Apart(db.tokens[t].terms, db.tokens[u].terms); }
    }
  }

  lemma ConsentedShape(db: Db, r: Request)
    requires Consented(db, r).Done?
    ensures TermsKept(db, Consented(db, r).value) && Consented(db, r).value.tokens == db.tokens
  {}

  lemma MintedShape(cfg: Config, now: int, db: Db, r: Request)
    requires Minted(cfg, now, db, r).Done?
    ensures var after := Minted(cfg, now, db, r).value;
            && r.tokenId !in db.tokens && after.tokens == db.tokens[r.tokenId := Token(TermsOf(now, r), Issued, None)]
            && TermsKept(db, after.(tokens := db.tokens))
  {
    ConsentedShape(db, r);
    assert Minted(cfg, now, db, r).value.(tokens := db.tokens) == Consented(db, r).value;
  }

  lemma MintedKeepsTokens(cfg: Config, now: int, db: Db, r: Request)
    requires TokensInv(db) && Minted(cfg, now, db, r).Done?
    ensures TokensInv(Minted(cfg, now, db, r).value)
  {
    var after := Minted(cfg, now, db, r).value;
    MintedShape(cfg, now, db, r);
    TermsKeptKeeps(db, after.(tokens := db.tokens));
    MintedHolds(cfg, now, db, r);
    MintedApart(cfg, now, db, r);
    forall id | id in after.decisions ensures DecisionOnRecord(after, id) { assert DecisionOnRecord(after.(tokens := db.tokens), id); }
    forall t | t in after.tokens ensures TokenHolds(after, after.tokens[t].terms) {
      if t != r.tokenId { assert TokenHolds(after.(tokens := db.tokens), db.tokens[t].terms); }
    }
  }

  lemma RecordedKeepsTokens(db: Db, d: Decision)
    requires TokensInv(db) && Recorded(db, d).Done?
    ensures TokensInv(Recorded(db, d).value)
  {
    var after := Recorded(db, d).value;
    forall id | id in after.decisions ensures DecisionOnRecord(after, id) {
      if id != d.id { assert DecisionOnRecord(db, id); }
    }
    forall t | t in after.tokens ensures TokenHolds(after, after.tokens[t].terms) { assert TokenHolds(db, db.tokens[t].terms); }
  }

  /** Steps that change no terms, keep decisions and scopes, and only append to the ledger. */
  ghost predicate TermsKept(a: Db, b: Db) {
    && a.decisions == b.decisions && a.ledger <= b.ledger && a.tokens.Keys == b.tokens.Keys
    && (forall t :: t in a.tokens ==> a.tokens[t].terms == b.tokens[t].terms)
    && (forall g :: g in a.grants ==> g in b.grants && b.grants[g] == a.grants[g].(revoked := b.grants[g].revoked))
    && (forall x :: x in a.approvals ==> x in b.approvals && b.approvals[x].proposal == a.approvals[x].proposal)
  }

  lemma ChainKept(a: Db, b: Db, g: string)
    requires TermsKept(a, b) && forall x :: x in Ancestors(a.grants, g) ==> x in a.grants
    ensures Ancestors(b.grants, g) == Ancestors(a.grants, g)
  {
    var edges, more := ParentEdges(a.grants), ParentEdges(b.grants);
    forall e | e in edges ensures e in more { assert b.grants[e.0].parent == a.grants[e.0].parent; }
    forall e | e in more && e !in edges ensures e.0 !in Closure.Reach(edges, {g}) { assert e.0 !in a.grants; }
    Closure.ReachUnaffected(edges, more, {g});
  }

  lemma TermsKeptKeeps(a: Db, b: Db)
    requires TokensInv(a) && TermsKept(a, b)
    ensures TokensInv(b)
  {
    forall id | id in b.decisions ensures DecisionOnRecord(b, id) {
      assert DecisionOnRecord(a, id);
    }
    forall t | t in b.tokens ensures TokenHolds(b, b.tokens[t].terms) {
      assert TokenHolds(a, a.tokens[t].terms);
      ChainKept(a, b, a.tokens[t].terms.grantId);
    }
  }

  ghost predicate RootsActive(db: Db, g: string) {
    forall a :: a in Ancestors(db.grants, g) && a in db.grants && db.grants[a].parent.None? ==> Active(db, db.grants[a].grantor)
  }

  /** In every reachable state the grant of an unspent token can fail it in exactly two ways: the grant itself
      has expired, or the human at the root of its chain was deactivated.  Everything else that takes a grant's
      authority away has already revoked the token. */
  lemma UnspentTokensGrant(db: Db, now: int, id: string)
    requires PermissionInv(db) && TokensInv(db) && id in db.tokens && db.tokens[id].state == Issued
    ensures var t := db.tokens[id].terms;
            t.grantId in db.grants &&
            (GrantBlockers(db, now, t.grantId, t.principalId, Some(t.proposal)) == {}
             <==> now < db.grants[t.grantId].expiresAt && RootsActive(db, t.grantId))
  {
    var t := db.tokens[id].terms;
    assert Backed(db, t) && TokenHolds(db, t);
    NoBlockersMeansInForce(db, now, t.grantId, t.principalId, Some(t.proposal));
    InForceByLinks(db, now, t.grantId, t.principalId, t.proposal);
    ChainStands(db, now, t.grantId, t.proposal);
  }

  lemma InForceByLinks(db: Db, now: int, g: string, principal: string, p: Proposal)
    requires Live(db, g) && g in db.grants && db.grants[g].grantee == principal
    ensures GrantInForce(db, now, g, principal, Some(p))
            <==> forall a :: a in Ancestors(db.grants, g) ==> LinkHolds(db, now, a, Some(p))
  {
    Closure.ReachCloses(ParentEdges(db.grants), {g});
    assert g in Ancestors(db.grants, g);
    if forall a :: a in Ancestors(db.grants, g) ==> LinkHolds(db, now, a, Some(p)) {
      assert GrantInForce(db, now, g, principal, Some(p));
    } else {
      var a :| a in Ancestors(db.grants, g) && !LinkHolds(db, now, a, Some(p));
      assert !GrantInForce(db, now, g, principal, Some(p));
    }
  }

  /** A live chain that admits the proposal holds link by link exactly while its lowest grant is unexpired and
      its root's grantor is active: expiries only shorten downwards, and every other grantor is a holder. */
  lemma ChainStands(db: Db, now: int, g: string, p: Proposal)
    requires GrantsInv(db.grants) && g in db.grants && Live(db, g)
    requires forall a :: a in Ancestors(db.grants, g) ==> a in db.grants && Admits(db.grants[a].scope, p)
    ensures (forall a :: a in Ancestors(db.grants, g) ==> LinkHolds(db, now, a, Some(p)))
            <==> now < db.grants[g].expiresAt && RootsActive(db, g)
  {
    DelegationAttenuates(db.grants, g);
    Closure.ReachCloses(ParentEdges(db.grants), {g});
    if now < db.grants[g].expiresAt && RootsActive(db, g) {
      forall a | a in Ancestors(db.grants, g) ensures LinkHolds(db, now, a, Some(p)) { GrantorActive(db, g, a); }
    }
  }

  lemma GrantorActive(db: Db, g: string, a: string)
    requires GrantsInv(db.grants) && Live(db, g) && RootsActive(db, g) && a in Ancestors(db.grants, g)
    ensures a in db.grants && Active(db, db.grants[a].grantor)
  {
    assert GrantHolds(db.grants, a);
    Closure.ReachCloses(ParentEdges(db.grants), {g});
    if db.grants[a].parent.Some? {
      assert (a, db.grants[a].parent.value) in ParentEdges(db.grants);
      assert db.grants[a].parent.value in Ancestors(db.grants, g);
    }
  }
}
