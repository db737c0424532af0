/** The whole program as transactions on one database, and what holds after any number of them, in any order,
    by any number of threads or processes.  */
module Systems {
  import opened Tables
  import opened Shadow
  import opened Lifecycle
  import opened Steps
  import opened Operations
  import opened OperationSteps
  import opened Invariants
  import opened Principals
  import Scopes
  import Risk
  import G = Gateway

  /** What the host fixes: its keys, the label deadline, the tool table, and what its gateway is attached to. */
  datatype Host = Host(keyring: set<string>, deadline: int, resolves: Proposal -> bool, evidence: bool, provider: bool,
                       guarded: bool, budgeted: bool)

  /** The database, and the policy and rules the host's objects hold. */
  datatype System = System(db: Db, policy: Policy, rules: Risk.Rules)

  /** The instant of a transaction, and the order in which sets yield their members in it. */
  datatype Moment = Moment(now: int, pick: Pick)

  datatype Permission =
    | Register(id: string, kind: PrincipalKind, actor: string, keyId: Option<string>)
    | Deactivate(id: string, actor: string)
    | GrantRoot(id: string, grantor: string, grantee: string, scope: GrantScope, expiresAt: int, mac: Mac)
    | Delegate(parent: string, grantee: string, scope: GrantScope, expiresAt: int, id: string)
    | RevokeGrant(id: string, actor: string)
    | RescindApproval(id: string, approval: Approval, mac: Mac)

  datatype Redemption =
    | Execute(id: string, proposal: Proposal)
    | Redeem(id: string, audience: string, call: G.Call)
    | Accept(id: string, audience: string, call: G.Call)
    | Drop(id: string, why: string)
    | Start(id: string)
    | Finish(id: string, failed: bool)

  datatype Step =
    | Permit(permission: Permission)
    | Commit(decision: G.Decision)
    | Issue(request: G.Request)
    | Spend(redemption: Redemption)
    | Operate(op: Operation)
    | ChangePolicy(policy: Policy, actor: string)
    | ChangeRules(rules: Risk.Rules)
    | Note(actor: string, what: string)

  function EnvOf(host: Host, s: System, m: Moment): Env {
    Env(m.now, s.policy, host.deadline, m.pick)
  }

  function ConfigOf(host: Host, s: System, m: Moment): G.Config {
    G.Config(host.keyring, host.evidence, if host.provider then Some(s.policy) else None,
             if host.guarded then Some(EnvOf(host, s, m)) else None, if host.budgeted then Some(s.rules) else None, host.resolves)
  }

  function Permitted(host: Host, now: int, db: Db, p: Permission): Outcome<Db> {
    match p
    case Register(id, kind, actor, keyId) => Registered(db, host.keyring, id, kind, actor, keyId)
    case Deactivate(id, actor) => Deactivated(db, id, actor)
    case GrantRoot(id, grantor, grantee, scope, expiresAt, mac) => RootGranted(db, host.keyring, id, grantor, grantee, scope, expiresAt, mac)
    case Delegate(parent, grantee, scope, expiresAt, id) => Delegated(db, now, parent, grantee, scope, expiresAt, id)
    case RevokeGrant(id, actor) => GrantWithdrawn(db, id, actor)
    case RescindApproval(id, approval, mac) => ApprovalWithdrawn(db, host.keyring, id, approval, mac)
  }

  function Redeemed(cfg: G.Config, now: int, db: Db, r: Redemption): Outcome<Db> {
    match r
    case Execute(id, p) => G.Executed(cfg, now, db, id, p)
    case Redeem(id, audience, call) => G.RedeemedRemotely(cfg, now, db, id, audience, call)
    case Accept(id, audience, call) => G.NonceAccepted(cfg, now, db, id, audience, call)
    case Drop(id, why) => G.Dropped(db, id, why)
    case Start(id) => G.Advanced(db, id, Consumed, HandlerStarted)
    case Finish(id, failed) => G.Advanced(db, id, HandlerStarted, if failed then HandlerFailed else HandlerCompleted)
  }

  /** What one transaction does to the database. */
  function Effect(host: Host, s: System, m: Moment, step: Step): Outcome<Db> {
    match step
    case Permit(p) => Permitted(host, m.now, s.db, p)
    case Commit(d) => G.Recorded(s.db, d)
    case Issue(r) => G.Minted(ConfigOf(host, s, m), m.now, s.db, r)
    case Spend(r) => Redeemed(ConfigOf(host, s, m), m.now, s.db, r)
    case Operate(op) => Operated(EnvOf(host, s, m), host.keyring, s.db, op)
    case ChangePolicy(policy, actor) => PolicyReplaced(EnvOf(host, s, m), s.db, s.policy, policy, actor)
    case ChangeRules(rules) => Risk.RulesChanged(s.db, s.rules, rules)
    case Note(actor, what) => Appended(s.db, actor, Happened(what))
  }

  /** A transaction commits whole or leaves the database as it was.  The policy changes with its event; the
      rules object takes its new value even if the event could not be recorded. */
  function After(host: Host, s: System, m: Moment, step: Step): System {
    var effect := Effect(host, s, m, step);
    var db := Settle(s.db, effect);
    match step
    case ChangePolicy(policy, _) => System(db, if effect.Done? then policy else s.policy, s.rules)
    case ChangeRules(rules) => System(db, s.policy, rules)
    case _ => s.(db := db)
  }

  type Trace = seq<(Moment, Step)>

  function Run(host: Host, s: System, trace: Trace): System {
    if trace == [] then s
    else
      var n := |trace| - 1;
      After(host, Run(host, s, trace[..n]), trace[n].0, trace[n].1)
  }

  // ---- the invariant -------------------------------------------------------------------------------------

  ghost predicate SoundDb(db: Db, version: string) {
    PermissionInv(db) && G.TokensInv(db) && EvidenceInv(db) && Orderly(version)(db)
  }

  ghost predicate Sound(s: System) {
    SoundDb(s.db, s.policy.version)
  }

  lemma EmptyIsSound(policy: Policy, rules: Risk.Rules)
    ensures Sound(System(EMPTY, policy, rules))
  {}

  // ---- permission changes ---------------------------------------------------------------------------------

  predicate PermissionNote(body: Body) {
    body.PermissionChanged? || body.AuthorityRevoked? || body.Happened?
  }

  /** Permission changes touch no evidence or lifecycle table, change no grant but to revoke it and no
      approval's proposal, and only take authority from tokens. */
  ghost predicate PermissionShape(a: Db, b: Db) {
    && b == a.(principals := b.principals, grants := b.grants, approvals := b.approvals, tokens := b.tokens, ledger := b.ledger)
    && a.ledger <= b.ledger && (forall i :: |a.ledger| <= i < |b.ledger| ==> PermissionNote(b.ledger[i].body))
    && OnlyRevoked(a.tokens, b.tokens)
    && (forall g :: g in a.grants ==> g in b.grants && b.grants[g] == a.grants[g].(revoked := b.grants[g].revoked))
    && (forall x :: x in a.approvals ==> x in b.approvals && b.approvals[x].proposal == a.approvals[x].proposal)
  }

  lemma AppendShape(db: Db, changed: Db, actor: string, body: Body)
    requires PermissionShape(db, changed) && Appended(changed, actor, body).Done? && PermissionNote(body)
    ensures PermissionShape(db, Appended(changed, actor, body).value)
  {}

  lemma RevokeShape(db: Db, changed: Db, cause: Cause, scope: set<string>, actor: string)
    requires PermissionShape(db, changed) && TokensRevoked(changed, cause, scope, actor).Done?
    ensures PermissionShape(db, TokensRevoked(changed, cause, scope, actor).value)
  {
    RevokeInSpec(changed.tokens, cause, scope);
    OnlyRevokedChain(db.tokens, changed.tokens, RevokeIn(changed.tokens, cause, scope));
    var between := changed.(tokens := RevokeIn(changed.tokens, cause, scope));
    AppendShape(db, between, actor, AuthorityRevoked(cause, InState(changed.tokens, scope, Issued), InState(changed.tokens, scope, HandlerStarted)));
  }

  lemma DeactivateShape(db: Db, id: string, actor: string)
    requires Deactivated(db, id, actor).Done?
    ensures PermissionShape(db, Deactivated(db, id, actor).value)
  {
    SameTokens(db.tokens);
    var changed := db.(principals := db.principals[id := db.principals[id].(active := false)]);
    AppendShape(db, changed, actor, PermissionChanged("deactivated", id));
    var db1 := Appended(changed, actor, PermissionChanged("deactivated", id)).value;
    RevokeShape(db, db1, PrincipalDeactivated, DeactivationScope(db1, id), actor);
  }

  lemma WithdrawnShape(db: Db, id: string, actor: string)
    requires GrantWithdrawn(db, id, actor).Done?
    ensures PermissionShape(db, GrantWithdrawn(db, id, actor).value)
  {
    SameTokens(db.tokens);
    var changed := db.(grants := db.grants[id := db.grants[id].(revoked := true)]);
    AppendShape(db, changed, actor, PermissionChanged("grant.revoked", id));
    var db1 := Appended(changed, actor, PermissionChanged("grant.revoked", id)).value;
    RevokeShape(db, db1, Cause.GrantRevoked, TokensUnder(db1, {id}), actor);
  }

  lemma RescindShape(db: Db, keyring: set<string>, id: string, approval: Approval, mac: Mac)
    requires ApprovalWithdrawn(db, keyring, id, approval, mac).Done?
    ensures PermissionShape(db, ApprovalWithdrawn(db, keyring, id, approval, mac).value)
  {
    SameTokens(db.tokens);
    var row := if id in db.approvals then db.approvals[id] else approval;
    var changed := db.(approvals := db.approvals[id := row.(rescinded := true)]);
    AppendShape(db, changed, approval.principalId, PermissionChanged("approval.rescinded", id));
    var db1 := Appended(changed, approval.principalId, PermissionChanged("approval.rescinded", id)).value;
    RevokeShape(db, db1, ApprovalRescinded, TokensOn(db1, id), approval.principalId);
  }

  lemma CreateShape(db: Db, id: string, grant: Grant)
    requires Created(db, id, grant).Done?
    ensures PermissionShape(db, Created(db, id, grant).value)
  {
    SameTokens(db.tokens);
    AppendShape(db, db.(grants := db.grants[id := grant.(row := |db.grants|, revoked := false)]), grant.grantor, PermissionChanged("grant.created", id));
  }

  lemma PermitShape(host: Host, now: int, db: Db, p: Permission)
    requires Permitted(host, now, db, p).Done?
    ensures PermissionShape(db, Permitted(host, now, db, p).value)
  {
    match p
    case Register(id, kind, actor, keyId) =>
      SameTokens(db.tokens);
      AppendShape(db, db.(principals := db.principals[id := Principal(kind, keyId, true)]), actor, PermissionChanged("registered", id));
    case Deactivate(id, actor) => DeactivateShape(db, id, actor);
    case GrantRoot(id, grantor, grantee, scope, expiresAt, mac) =>
      CreateShape(db, id, Grant(None, grantor, grantee, scope, expiresAt, false, 0));
    case Delegate(parent, grantee, scope, expiresAt, id) =>
      CreateShape(db, id, Grant(Some(parent), db.grants[parent].grantee, grantee, scope, expiresAt, false, 0));
    case RevokeGrant(id, actor) => WithdrawnShape(db, id, actor);
    case RescindApproval(id, approval, mac) => RescindShape(db, host.keyring, id, approval, mac);
  }

  lemma PermitKeepsPermissions(host: Host, now: int, db: Db, p: Permission)
    requires PermissionInv(db) && Permitted(host, now, db, p).Done?
    ensures PermissionInv(Permitted(host, now, db, p).value)
  {
    match p
    case Register(id, kind, actor, keyId) => RegisterKeeps(db, host.keyring, id, kind, actor, keyId);
    case Deactivate(id, actor) => DeactivateKeeps(db, id, actor);
    case GrantRoot(id, grantor, grantee, scope, expiresAt, mac) =>
      RootGrantKeeps(db, host.keyring, id, grantor, grantee, scope, expiresAt, mac);
    case Delegate(parent, grantee, scope, expiresAt, id) => DelegateKeeps(db, now, parent, grantee, scope, expiresAt, id);
    case RevokeGrant(id, actor) => RevokeGrantKeeps(db, id, actor);
    case RescindApproval(id, approval, mac) => WithdrawApprovalKeeps(db, host.keyring, id, approval, mac);
  }

  lemma RevokedTerms(a: map<string, Token>, b: map<string, Token>)
    requires OnlyRevoked(a, b)
    ensures forall t :: t in a ==> t in b && a[t].terms == b[t].terms
  {
    forall t | t in a ensures t in b && a[t].terms == b[t].terms { assert OnlyRevokedToken(a[t], b[t]); }
  }

  /** Everything but permissions themselves survives a permission change. */
  lemma ShapeKeepsTheRest(a: Db, b: Db, version: string)
    requires PermissionShape(a, b) && G.TokensInv(a) && EvidenceInv(a) && Orderly(version)(a)
    ensures G.TokensInv(b) && EvidenceInv(b) && Orderly(version)(b)
  {
    RevokedTerms(a.tokens, b.tokens);
    G.TermsKeptKeeps(a, b);
    NoteKeeps(a, b);
  }

  // ---- gateway steps ----------------------------------------------------------------------------------------

  /** Spending changes token states, nonces and charges, and appends nothing. */
  predicate SpendShape(a: Db, b: Db) {
    && b == a.(tokens := b.tokens, nonces := b.nonces, charges := b.charges, performed := b.performed)
    && a.tokens.Keys == b.tokens.Keys
    && forall t :: t in a.tokens ==> a.tokens[t].terms == b.tokens[t].terms && (b.tokens[t].state == Issued ==> a.tokens[t].state == Issued)
  }

  lemma SpentShape(cfg: G.Config, now: int, db: Db, id: string, p: Proposal, channel: Channel)
    requires G.Spent(cfg, now, db, id, p, channel).Done?
    ensures SpendShape(db, G.Spent(cfg, now, db, id, p, channel).value)
  {}

  lemma SettledShape(cfg: G.Config, db: Db, mid: Db, id: string, p: Proposal)
    requires SpendShape(db, mid) && G.Settled(cfg, mid, id, p).Done?
    ensures SpendShape(db, G.Settled(cfg, mid, id, p).value)
  {}

  lemma SpendingShape(cfg: G.Config, now: int, db: Db, r: Redemption)
    requires Redeemed(cfg, now, db, r).Done?
    ensures SpendShape(db, Redeemed(cfg, now, db, r).value)
  {
    match r
    case Execute(id, p) =>
      SpentShape(cfg, now, db, id, p, Local);
      SettledShape(cfg, db, G.Spent(cfg, now, db, id, p, Local).value, id, p);
    case Redeem(id, audience, call) =>
      var p := db.tokens[id].terms.proposal;
      SpentShape(cfg, now, db, id, p, Mcp(audience));
      SettledShape(cfg, db, G.Spent(cfg, now, db, id, p, Mcp(audience)).value, id, p);
    case Accept(id, audience, call) => AcceptShape(cfg, now, db, id, audience, call);
    case Drop(id, why) =>
    case Start(id) =>
    case Finish(id, failed) =>
  }

  lemma AcceptShape(cfg: G.Config, now: int, db: Db, id: string, audience: string, call: G.Call)
    requires G.NonceAccepted(cfg, now, db, id, audience, call).Done?
    ensures SpendShape(db, G.NonceAccepted(cfg, now, db, id, audience, call).value)
  {}

  lemma SpendKeeps(a: Db, b: Db, version: string)
    requires SpendShape(a, b) && PermissionInv(a) && G.TokensInv(a) && EvidenceInv(a) && Orderly(version)(a)
    ensures PermissionInv(b) && G.TokensInv(b) && EvidenceInv(b) && Orderly(version)(b)
  {
    G.TermsKeptKeeps(a, b);
    NoteKeeps(a, b);
    forall t | t in b.tokens && b.tokens[t].state == Issued ensures Backed(b, b.tokens[t].terms) { assert Backed(a, a.tokens[t].terms); }
  }

  lemma ConsentShape(db: Db, r: G.Request)
    requires G.Consented(db, r).Done?
    ensures PermissionShape(db, G.Consented(db, r).value)
  {
    SameTokens(db.tokens);
    if r.consent.Some? {
      var c := r.consent.value;
      AppendShape(db, db.(approvals := db.approvals[c.id := c.approval.(rescinded := false)]), c.approval.principalId,
                  PermissionChanged("approval.recorded", c.id));
    }
  }

  lemma IssueLeaves(cfg: G.Config, now: int, db: Db, r: G.Request, after: Db)
    requires G.Minted(cfg, now, db, r) == Done(after)
    ensures EvidenceOf(after) == EvidenceOf(db) && after.lifecycle == db.lifecycle && after.lineage == db.lineage
    ensures db.ledger <= after.ledger && forall i :: |db.ledger| <= i < |after.ledger| ==> PermissionNote(after.ledger[i].body)
  {
    hide G.DecisionAllows, G.AuthorityAllows, G.Consented;
    var mid := G.Consented(db, r).value;
    ConsentShape(db, r);
    assert after == mid.(tokens := after.tokens);
  }

  lemma IssueKeepsEvidence(cfg: G.Config, now: int, db: Db, r: G.Request, version: string, after: Db)
    requires EvidenceInv(db) && Orderly(version)(db) && G.Minted(cfg, now, db, r) == Done(after)
    ensures EvidenceInv(after) && Orderly(version)(after)
  {
    hide G.Minted, EvidenceInv;
    IssueLeaves(cfg, now, db, r, after);
    NoteKeeps(db, after);
  }

  lemma CommitKeeps(db: Db, d: G.Decision, version: string)
    requires PermissionInv(db) && EvidenceInv(db) && Orderly(version)(db) && G.Recorded(db, d).Done?
    ensures var after := G.Recorded(db, d).value; PermissionInv(after) && EvidenceInv(after) && Orderly(version)(after)
  {
    NoteKeeps(db, G.Recorded(db, d).value);
    SameTokens(db.tokens);
    SyncFramed(db, G.Recorded(db, d).value);
  }

  // ---- evidence and lifecycle steps ---------------------------------------------------------------------------

  lemma FramedKeeps(a: Db, b: Db)
    requires Framed(a, b) && PermissionInv(a) && G.TokensInv(a)
    ensures PermissionInv(b) && G.TokensInv(b)
  {
    SyncFramed(a, b);
    RevokedTerms(a.tokens, b.tokens);
    G.TermsKeptKeeps(a, b);
  }

  lemma OperateKeeps(env: Env, keyring: set<string>, db: Db, op: Operation)
    requires SoundDb(db, env.policy.version) && Operated(env, keyring, db, op).Done?
    ensures SoundDb(Operated(env, keyring, db, op).value, env.policy.version)
  {
    var after := Operated(env, keyring, db, op).value;
    FramedEndures(env, db);
    SameTokens(db.tokens);
    OperationKeeps(env, FramedFrom(db), keyring, db, op);
    FramedKeeps(db, after);
    EvidenceEndures(env);
    OperationKeeps(env, Evidential(), keyring, db, op);
    OrderlyEndures(env);
    OperationKeeps(env, Orderly(env.policy.version), keyring, db, op);
  }

  // ---- changes of policy and rules -------------------------------------------------------------------------

  lemma PolicySound(env: Env, db: Db, new_: Policy, actor: string)
    requires SoundDb(db, env.policy.version) && PolicyReplaced(env, db, env.policy, new_, actor).Done?
    ensures SoundDb(PolicyReplaced(env, db, env.policy, new_, actor).value, new_.version)
  {
    hide VersionsRetired, PermissionInv, EvidenceInv;
    var after := PolicyReplaced(env, db, env.policy, new_, actor).value;
    FramedEndures(env, db);
    SameTokens(db.tokens);
    PolicyKeeps(env, FramedFrom(db), db, env.policy, new_, actor);
    FramedKeeps(db, after);
    EvidenceEndures(env);
    PolicyKeeps(env, Evidential(), db, env.policy, new_, actor);
    OrderlyEndures(env);
    PolicyKeeps(env, Orderly(env.policy.version), db, env.policy, new_, actor);
    if new_.version != env.policy.version {
      VersionsRetire(env, db, OnVersion(db, env.policy.version), new_.version);
      var db1 := VersionsRetired(env, db, OnVersion(db, env.policy.version), new_.version).value;
      assert after.lifecycle == db1.lifecycle;
      NoneLeft(db, after, env.policy.version, new_.version);
    }
  }

  lemma NoneLeft(db: Db, after: Db, old_: string, version: string)
    requires Orderly(old_)(after) && after.lifecycle.Keys == db.lifecycle.Keys && LifecycleInv(db, old_)
    requires forall key :: key in db.lifecycle && (key in OnVersion(db, old_) || db.lifecycle[key].retired) ==> after.lifecycle[key].retired
    ensures Orderly(version)(after)
  {
    forall key | key in after.lifecycle ensures after.lifecycle[key].retired {
      assert db.lifecycle[key].retired || key in OnVersion(db, old_);
    }
  }

  lemma RulesShape(db: Db, old_: Risk.Rules, rules: Risk.Rules)
    requires Risk.RulesChanged(db, old_, rules).Done?
    ensures PermissionShape(db, Risk.RulesChanged(db, old_, rules).value) && Framed(db, Risk.RulesChanged(db, old_, rules).value)
  {
    SameTokens(db.tokens);
    var after := Risk.RulesChanged(db, old_, rules).value;
    if after != db {
      var cause := if rules.envelopes != old_.envelopes then EnvelopeChanged else BudgetTightened;
      assert TokensRevoked(db, cause, Risk.Refused(db, old_, rules), CONTROLLER) == Done(after);
      RevokeShape(db, db, cause, Risk.Refused(db, old_, rules), CONTROLLER);
    }
  }

  // ---- every run ---------------------------------------------------------------------------------------------

  lemma StepSound(host: Host, s: System, m: Moment, step: Step)
    requires Sound(s)
    ensures Sound(After(host, s, m, step))
  {
    hide Operated, PolicyReplaced, Redeemed, Permitted;
    var effect := Effect(host, s, m, step);
    var cfg := ConfigOf(host, s, m);
    if effect.Done? {
      match step
      case Permit(p) =>
        PermitKeepsPermissions(host, m.now, s.db, p);
        PermitShape(host, m.now, s.db, p);
        ShapeKeepsTheRest(s.db, effect.value, s.policy.version);
      case Commit(d) => G.RecordedKeepsTokens(s.db, d); CommitKeeps(s.db, d, s.policy.version);
      case Issue(r) =>
        G.MintedKeepsPermissions(cfg, m.now, s.db, r);
        G.MintedKeepsTokens(cfg, m.now, s.db, r);
        IssueKeepsEvidence(cfg, m.now, s.db, r, s.policy.version, effect.value);
      case Spend(r) => SpendingShape(cfg, m.now, s.db, r); SpendKeeps(s.db, effect.value, s.policy.version);
      case Operate(op) => OperateKeeps(EnvOf(host, s, m), host.keyring, s.db, op);
      case ChangePolicy(policy, actor) => PolicySound(EnvOf(host, s, m), s.db, policy, actor);
      case ChangeRules(rules) =>
        RulesShape(s.db, s.rules, rules);
        SyncFramed(s.db, effect.value);
        ShapeKeepsTheRest(s.db, effect.value, s.policy.version);
      case Note(actor, what) => NoteSound(s.db, actor, what, s.policy.version);
    }
  }

  lemma NoteSound(db: Db, actor: string, what: string, version: string)
    requires SoundDb(db, version) && Appended(db, actor, Happened(what)).Done?
    ensures SoundDb(Appended(db, actor, Happened(what)).value, version)
  {
    SameTokens(db.tokens);
    AppendShape(db, db, actor, Happened(what));
    SyncFramed(db, Appended(db, actor, Happened(what)).value);
    ShapeKeepsTheRest(db, Appended(db, actor, Happened(what)).value, version);
  }

  /** In every state that any run reaches: every unspent token stands on a live chain and approval, every token
      on a committed decision, the evidence tables are what the ledger replays to and count nothing twice, and
      only retired partitions have successors. */
  lemma {:induction false} RunSound(host: Host, s: System, trace: Trace)
    requires Sound(s)
    ensures Sound(Run(host, s, trace))
    decreases |trace|
  {
    hide After, SoundDb;
    if trace != [] {
      var n := |trace| - 1;
      RunSound(host, s, trace[..n]);
      StepSound(host, Run(host, s, trace[..n]), trace[n].0, trace[n].1);
    }
  }
}
