/** A run from the empty database in which the human at the root of a grant is deactivated: the token under the grant
    stays issued, and no redemption of it succeeds.  */
module RootGrantors {
  import opened Tables
  import opened Scopes
  import opened Closure
  import opened Principals
  import opened Lifecycle
  import Operations
  import Invariants
  import opened Systems
  import opened Scenarios
  import G = Gateway
  import Risk

  const AGENT := "execution-gateway"

  /** What the run fixes: a human and the key it signs with, and one root grant. */
  datatype Cast = Cast(human: string, keyId: string, grant: string, scope: GrantScope, expiresAt: int)

  predicate Fits(host: Host, policy: Policy, at: Moment, cast: Cast, d: G.Decision) {
    && cast.human != "" && cast.human !in HOST_PRINCIPALS && cast.keyId in host.keyring
    && at.now < cast.expiresAt && Admits(cast.scope, d.proposal)
    && ExecutableRoute(d.route, false) && d.proposal.effects !! policy.prohibited
  }

  function GrantStep(cast: Cast): Step {
    Permit(GrantRoot(cast.grant, cast.human, AGENT, cast.scope, cast.expiresAt,
                     Mac(cast.keyId, RootGrantPayload(cast.grant, cast.human, AGENT, cast.scope, cast.expiresAt))))
  }

  function RequestFor(policy: Policy, cast: Cast, d: G.Decision, token: string): G.Request {
    G.Request(d, d.proposal, policy, AGENT, cast.grant, None, None, token)
  }

  /** A human is registered and grants, a decision is committed, a token is issued on it, the human is deactivated. */
  function RootRun(policy: Policy, at: Moment, cast: Cast, d: G.Decision, token: string): Trace {
    [(at, Permit(Register(cast.human, Human, CONTROLLER, Some(cast.keyId)))), (at, GrantStep(cast)), (at, Commit(d)),
     (at, Issue(RequestFor(policy, cast, d, token))), (at, Permit(Deactivate(cast.human, CONTROLLER)))]
  }

  lemma RegisteredStep(keyring: set<string>, cast: Cast) returns (b: Db)
    requires cast.human != "" && cast.human !in HOST_PRINCIPALS && cast.keyId in keyring
    ensures Registered(EMPTY, keyring, cast.human, Human, CONTROLLER, Some(cast.keyId)) == Done(b)
    ensures b == EMPTY.(principals := HOST_PRINCIPALS[cast.human := Principal(Human, Some(cast.keyId), true)], ledger := b.ledger)
  {
    b := Registered(EMPTY, keyring, cast.human, Human, CONTROLLER, Some(cast.keyId)).value;
  }

  function RootGrant(cast: Cast): Grant {
    Grant(None, cast.human, AGENT, cast.scope, cast.expiresAt, false, 0)
  }

  lemma GrantedStep(host: Host, now: int, db: Db, cast: Cast) returns (b: Db)
    requires cast.keyId in host.keyring && db.grants == map[] && cast.human !in HOST_PRINCIPALS
    requires db.principals == HOST_PRINCIPALS[cast.human := Principal(Human, Some(cast.keyId), true)]
    ensures Permitted(host, now, db, GrantStep(cast).permission) == Done(b)
    ensures b == db.(grants := map[cast.grant := RootGrant(cast)], ledger := b.ledger)
  {
    b := Permitted(host, now, db, GrantStep(cast).permission).value;
    assert b.grants == map[cast.grant := RootGrant(cast)];
  }

  lemma RootAlone(grants: map<string, Grant>, cast: Cast)
    requires grants == map[cast.grant := RootGrant(cast)]
    ensures Ancestors(grants, cast.grant) == {cast.grant}
  {
    assert ParentEdges(grants) == {};
    ReachLeast({}, {cast.grant}, {cast.grant});
    ReachCloses({}, {cast.grant});
  }

  lemma InForce(db: Db, now: int, cast: Cast, p: Proposal)
    requires db.grants == map[cast.grant := RootGrant(cast)] && Active(db, cast.human) && Active(db, AGENT)
    requires now < cast.expiresAt && Admits(cast.scope, p)
    ensures GrantBlockers(db, now, cast.grant, AGENT, Some(p)) == {}
  {
    RootAlone(db.grants, cast);
    NoBlockersMeansInForce(db, now, cast.grant, AGENT, Some(p));
  }

  lemma IssuedStep(cfg: G.Config, now: int, db: Db, policy: Policy, cast: Cast, d: G.Decision, token: string) returns (b: Db)
    requires db.grants == map[cast.grant := RootGrant(cast)] && Active(db, cast.human) && Active(db, AGENT) && db.tokens == map[]
    requires now < cast.expiresAt && Admits(cast.scope, d.proposal) && ExecutableRoute(d.route, false)
    requires d.proposal.effects !! policy.prohibited && (cfg.policy.Some? ==> cfg.policy.value.version == policy.version)
    requires d.id in db.decisions && db.decisions[d.id].proposal == d.proposal && db.decisions[d.id].route == d.route
    ensures G.Minted(cfg, now, db, RequestFor(policy, cast, d, token)) == Done(b)
    ensures b == db.(tokens := map[token := Token(G.TermsOf(now, RequestFor(policy, cast, d, token)), Issued, None)])
  {
    InForce(db, now, cast, d.proposal);
    b := G.Minted(cfg, now, db, RequestFor(policy, cast, d, token)).value;
    assert b.tokens == map[token := Token(G.TermsOf(now, RequestFor(policy, cast, d, token)), Issued, None)];
  }

  /** Before the deactivation: one token on the grant, which is in force. */
  ghost predicate Standing(db: Db, cast: Cast, token: string, terms: Terms) {
    && db.grants == map[cast.grant := RootGrant(cast)] && Active(db, cast.human) && ActiveOf(db, CONTROLLER, RUNNERS)
    && db.tokens == map[token := Token(terms, Issued, None)] && terms.grantId == cast.grant && terms.approvalId.None?
    && db.principals == HOST_PRINCIPALS[cast.human := Principal(Human, Some(cast.keyId), true)]
  }

  lemma Stands(host: Host, s: System, at: Moment, cast: Cast, d: G.Decision, token: string) returns (db: Db)
    requires s.db == EMPTY && Fits(host, s.policy, at, cast, d)
    ensures Run(host, s, RootRun(s.policy, at, cast, d, token)[..4]) == s.(db := db)
    ensures Standing(db, cast, token, G.TermsOf(at.now, RequestFor(s.policy, cast, d, token)))
  {
    hide Run, Registered, RootGranted, G.Recorded, G.Minted, Invariants.Operated, Redeemed, Operations.PolicyReplaced, Admits;
    var run := RootRun(s.policy, at, cast, d, token);
    var db1 := RegisteredStep(host.keyring, cast);
    var db2 := GrantedStep(host, at.now, db1, cast);
    var db3 := CommittedStep(db2, d);
    db := IssuedStep(ConfigOf(host, s.(db := db3), at), at.now, db3, s.policy, cast, d, token);
    FourSteps(host, s, at, run, db1, db2, db3, db);
  }

  lemma CommittedStep(db: Db, d: G.Decision) returns (b: Db)
    requires Active(db, CONTROLLER) && d.id !in db.decisions
    ensures G.Recorded(db, d) == Done(b)
    ensures b == db.(decisions := db.decisions[d.id := Committed(d.proposal, d.route, |db.ledger|)], ledger := b.ledger)
  {
    b := G.Recorded(db, d).value;
  }

  lemma FourSteps(host: Host, s: System, at: Moment, run: Trace, db1: Db, db2: Db, db3: Db, db4: Db)
    requires |run| >= 4 && forall i :: 0 <= i < 4 ==> run[i].0 == at && !run[i].1.ChangePolicy? && !run[i].1.ChangeRules?
    requires Effect(host, s, at, run[0].1) == Done(db1) && Effect(host, s.(db := db1), at, run[1].1) == Done(db2)
    requires Effect(host, s.(db := db2), at, run[2].1) == Done(db3) && Effect(host, s.(db := db3), at, run[3].1) == Done(db4)
    ensures Run(host, s, run[..4]) == s.(db := db4)
  {
    hide Effect;
    assert run[..1] == [] + [(at, run[0].1)] && run[..2] == run[..1] + [(at, run[1].1)];
    assert run[..3] == run[..2] + [(at, run[2].1)] && run[..4] == run[..3] + [(at, run[3].1)];
    StepDone(host, s, [], at, run[0].1, s, db1);
    StepDone(host, s, run[..1], at, run[1].1, s.(db := db1), db2);
    StepDone(host, s, run[..2], at, run[2].1, s.(db := db2), db3);
    StepDone(host, s, run[..3], at, run[3].1, s.(db := db3), db4);
  }

  lemma DeactivationMissesRoot(db: Db, cast: Cast, token: string, terms: Terms) returns (b: Db)
    requires Standing(db, cast, token, terms) && cast.human !in HOST_PRINCIPALS
    ensures Deactivated(db, cast.human, CONTROLLER) == Done(b)
    ensures token in b.tokens && b.tokens[token] == Token(terms, Issued, None)
    ensures b.grants == db.grants && !Active(b, cast.human)
  {
    b := Deactivated(db, cast.human, CONTROLLER).value;
    RootAlone(db.grants, cast);
    DeactivationMisses(db, token, cast.human, CONTROLLER, b);
  }

  /** An inactive grantor stops every redemption. */
  lemma Unredeemable(cfg: G.Config, now: int, db: Db, cast: Cast, token: string, terms: Terms, p: Proposal)
    requires db.grants == map[cast.grant := RootGrant(cast)] && !Active(db, cast.human)
    requires token in db.tokens && db.tokens[token] == Token(terms, Issued, None) && terms.grantId == cast.grant
    ensures G.Executed(cfg, now, db, token, p) == Raised
  {
    RootAlone(db.grants, cast);
    NoBlockersMeansInForce(db, now, cast.grant, terms.principalId, Some(p));
    assert !G.AuthorityStands(db, now, terms, p);
  }

  /** From the empty database: a human grants, an agent gets a token under the grant, and the human is deactivated.
      The token stays issued, and every attempt to execute it, whenever it is made, is refused. */
  lemma RootDeactivated(host: Host, policy: Policy, rules: Risk.Rules, at: Moment, cast: Cast, d: G.Decision, token: string,
                        later: Moment, p: Proposal)
    requires Fits(host, policy, at, cast, d)
    ensures var after := Run(host, System(EMPTY, policy, rules), RootRun(policy, at, cast, d, token));
            && token in after.db.tokens && after.db.tokens[token].state == Issued && !Active(after.db, cast.human)
            && Effect(host, after, later, Spend(Execute(token, p))) == Raised
  {
    hide Run, G.Executed, Deactivated, Registered, RootGranted, G.Recorded, G.Minted, Invariants.Operated, Operations.PolicyReplaced, Admits;
    var s, run := System(EMPTY, policy, rules), RootRun(policy, at, cast, d, token);
    var terms := G.TermsOf(at.now, RequestFor(policy, cast, d, token));
    var db := Stands(host, s, at, cast, d, token);
    var b := DeactivationMissesRoot(db, cast, token, terms);
    StepDone(host, s, run[..4], at, run[4].1, s.(db := db), b);
    assert run == run[..4] + [(at, run[4].1)];
    Unredeemable(ConfigOf(host, s.(db := b), later), later.now, b, cast, token, terms, p);
  }
}
