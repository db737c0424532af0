/** The authority database: every table as a value, the ledger, and the transaction discipline.

    A digest is modelled as an injective function, so a proposal stands for its own digest; a keyed
    signature is the pair of key and payload it was made from.  What a transaction does to the database
    is a function to an `Outcome`: the new database, or an exception, which rolls the transaction back.  */
module Tables {
  import opened AlphaSpending

  datatype Option<+T> = None | Some(value: T)

  /** The result of code that may raise; `:-` passes an exception on to the caller. */
  datatype Outcome<+T> = Done(value: T) | Raised {
    predicate IsFailure() { Raised? }

    function PropagateFailure<U>(): Outcome<U>
      requires Raised?
    {
      Raised
    }

    function Extract(): T
      requires Done?
    {
      value
    }
  }

  type Status = Outcome<()>
  const OK: Status := Done(())

  /** The twelve fields of a partition key; the nine the model does not look at are in `configuration`. */
  datatype PartitionKey = PartitionKey(configuration: seq<string>, policyVersion: string, taskCategory: string,
                                       riskClass: string)

  datatype Value = Number(n: real) | Text(t: string) | Other(repr: string)
  datatype Readiness = Draft | NeedsClarification | Executable
  datatype Proposal = Proposal(id: string, tool: string, parameters: map<string, Value>, effects: set<string>,
                               partition: PartitionKey, readiness: Readiness, unresolved: bool, rest: string)

  datatype Route = Autonomous | Audit | HumanApproval | Clarification | Revision | Deny

  /** Which routes may become a token: unattended ones, and a request for approval with an approval. */
  predicate ExecutableRoute(route: Route, humanApproved: bool) {
    route == Autonomous || route == Audit || (humanApproved && route == HumanApproval)
  }

  // ---- signatures ---------------------------------------------------------------------------

  datatype Payload =
    | ApprovePayload(approvalId: string, principalId: string, proposal: Proposal, partition: PartitionKey, expiresAt: int)
    | RootGrantPayload(grantId: string, grantor: string, grantee: string, scope: GrantScope, expiresAt: int)
    | ReleasePayload(partition: PartitionKey, epoch: nat, reason: string, oracleId: string, oracleVersion: string)
    | RescindPayload(approvalId: string)
    | LabelPayload(trialId: string, partition: PartitionKey, proposal: Proposal, verdict: TrialLabel, oracle: Oracle, claimedAt: int)

  datatype Mac = Mac(keyId: string, payload: Payload)

  predicate Verifies(keyring: set<string>, keyId: string, payload: Payload, mac: Mac) {
    keyId in keyring && mac == Mac(keyId, payload)
  }

  // ---- principals, grants, approvals ---------------------------------------------------------

  datatype PrincipalKind = Human | Service | Model | OracleKind
  datatype Principal = Principal(kind: PrincipalKind, keyId: Option<string>, active: bool)

  datatype GrantScope = GrantScope(tools: Option<set<string>>, effects: Option<set<string>>,
                                   riskClasses: Option<set<string>>, taskCategories: Option<set<string>>,
                                   ceilings: map<string, real>)

  /** `row` is the table's implicit insertion number. */
  datatype Grant = Grant(parent: Option<string>, grantor: string, grantee: string, scope: GrantScope, expiresAt: int,
                         revoked: bool, row: nat)

  datatype Approval = Approval(principalId: string, proposal: Proposal, partition: PartitionKey, expiresAt: int, rescinded: bool)

  // ---- decisions and tokens ------------------------------------------------------------------

  datatype Committed = Committed(proposal: Proposal, route: Route, sequence: nat)

  datatype TokenState = Issued | Revoked | Consumed | HandlerStarted | HandlerCompleted | HandlerFailed
  datatype Channel = Local | Mcp(audience: string)

  /** What a token is issued for; no update changes it. */
  datatype Terms = Terms(decisionId: string, proposal: Proposal, partition: PartitionKey, tool: string, effects: set<string>,
                         policyVersion: string, evidenceId: Option<EvidenceId>, evidenceVersion: Option<nat>,
                         expiresAt: int, grantId: string, principalId: string, approvalId: Option<string>, channel: Channel)

  datatype Token = Token(terms: Terms, state: TokenState, reason: Option<Cause>)

  /** The event a revocation names. */
  datatype Cause = SevereFailure | EvidenceInvalidated | GateLost | OracleChanged | PartitionRetired | LineageSuspended
                 | PolicyChanged | EffectProhibited | BudgetTightened | EnvelopeChanged | ApprovalRescinded | GrantRevoked
                 | PrincipalDeactivated | ByRequest(why: string)

  // ---- evidence --------------------------------------------------------------------------------

  datatype Provenance = ShadowTrial | AutonomousTrial | AuditTrial | HumanApprovedTrial
  datatype TrialLabel = Positive | Negative | Inconclusive
  datatype Oracle = Oracle(id: string, version: string, kind: string, scope: string)

  datatype Trial = Trial(id: string, provenance: Provenance, partition: PartitionKey, proposal: Proposal, frozenAt: int,
                         sequence: nat)
  datatype Resolution = Labeled(verdict: TrialLabel, at: int, claimedAt: int) | Censored(at: int)
  datatype BoundOracle = BoundOracle(oracle: Oracle, sequence: nat)

  datatype QuarantineReason = DuplicateTrial | UnknownTrial | WrongPartition | DigestMismatch | AlreadyAdjudicated
                            | LabelBeforeFreeze | LateLabel | NotCommitted | NotTrialable | DuplicateProposal
                            | OracleNotRegistered | BadSignature | WrongOracle | ReviewerIsOracle | OracleNotBound
  datatype Quarantine = Quarantine(sequence: nat, trialId: string, reason: QuarantineReason)

  datatype EvidenceId = ShadowEvidence(partition: PartitionKey) | LifecycleEvidence(partition: PartitionKey)
                      | ExternalEvidence(name: string)
  datatype Snapshot = Snapshot(id: EvidenceId, version: nat, successes: nat, failures: nat, until: int, valid: bool,
                               suspended: bool, reason: Option<string>, alpha: Option<real>)

  // ---- lifecycle -------------------------------------------------------------------------------

  datatype State = UNESTABLISHED | QUALIFYING | AUTONOMOUS | SUSPENDED
  datatype Event = FIRST_PROPOSAL | TRIAL_ADMITTED | GATE_MET | GATE_LOST_OUTCOME | EVIDENCE_EXPIRED | SEVERE_FAILURE
                 | HUMAN_RELEASE | ORACLE_CHANGED

  datatype Record = Record(state: State, epoch: nat, retired: bool, lineageSuspended: bool, suspensionReason: Option<string>)

  datatype AlphaReason = REGISTERED | RELEASED | CHANGED_ORACLE
  datatype AlphaRow = AlphaRow(partition: PartitionKey, floor: int, reason: AlphaReason, allocation: Allocation)

  // ---- risk ------------------------------------------------------------------------------------

  datatype ScopeKey = OfPartition(partition: PartitionKey) | OfValue(value: Value)
  datatype Charge = Charge(budgetId: string, scope: ScopeKey, amount: real, tokenId: string)
  datatype Performed = Performed(partition: PartitionKey, tool: string, tokenId: string)

  // ---- ledger ----------------------------------------------------------------------------------

  datatype Body =
    | ShadowFrozen(trialId: string, provenance: Provenance, partition: PartitionKey, proposal: Proposal, frozenAt: int)
    | ShadowLabeled(trialId: string, verdict: TrialLabel, oracle: Oracle, claimedAt: int, receivedAt: int)
    | ShadowCensored(trialId: string, at: int)
    | EpochOpened(partition: PartitionKey)
    | OracleBound(partition: PartitionKey, floor: int, oracle: Oracle)
    | ShadowQuarantined(trialId: string, reason: QuarantineReason)
    | HumanReview(trialId: string)
    | DecisionCommitted(decisionId: string, proposal: Proposal, route: Route)
    | Transition(partition: PartitionKey, from: Option<State>, record: Record, event: Option<Event>)
    | AuthorityRevoked(cause: Cause, tokens: set<string>, started: set<string>)
    | PermissionChanged(what: string, id: string)
    | Happened(what: string)

  datatype Entry = Entry(actor: string, body: Body)

  const CONTROLLER := "controller"

  datatype Db = Db(
    principals: map<string, Principal>,
    grants: map<string, Grant>,
    approvals: map<string, Approval>,
    decisions: map<string, Committed>,
    tokens: map<string, Token>,
    nonces: map<string, string>,
    trials: seq<Trial>,
    labels: map<string, Resolution>,
    epochs: map<PartitionKey, seq<nat>>,
    oracles: map<(PartitionKey, int), BoundOracle>,
    quarantines: seq<Quarantine>,
    snapshots: map<PartitionKey, Snapshot>,
    lifecycle: map<PartitionKey, Record>,
    lineage: set<(PartitionKey, PartitionKey)>,
    alphas: seq<AlphaRow>,
    charges: seq<Charge>,
    performed: seq<Performed>,
    ledger: seq<Entry>)

  const HOST_PRINCIPALS: map<string, Principal> :=
    map[CONTROLLER := Principal(Service, None, true),
        "execution-gateway" := Principal(Service, None, true),
        "claude-execution-loop" := Principal(Service, None, true)]

  const EMPTY := Db(HOST_PRINCIPALS, map[], map[], map[], map[], map[], [], map[], map[], map[], [], map[], map[], {}, [],
                    [], [], [])

  // ---- writes every module shares ---------------------------------------------------------------

  predicate Active(db: Db, principal: string) {
    principal in db.principals && db.principals[principal].active
  }

  /** One ledger record; only an active registered principal may write one. */
  function Appended(db: Db, actor: string, body: Body): Outcome<Db> {
    if Active(db, actor) then Done(db.(ledger := db.ledger + [Entry(actor, body)])) else Raised
  }

  function RevokeOne(token: Token, cause: Cause): Token {
    if token.state == Issued then token.(state := Revoked, reason := Some(cause)) else token
  }

  function RevokeIn(tokens: map<string, Token>, cause: Cause, scope: set<string>): map<string, Token> {
    map id | id in tokens :: if id in scope then RevokeOne(tokens[id], cause) else tokens[id]
  }

  function InState(tokens: map<string, Token>, scope: set<string>, state: TokenState): set<string> {
    set id | id in tokens && id in scope && tokens[id].state == state
  }

  /** Revokes every issued token in scope and records the ones it could not reach. */
  function TokensRevoked(db: Db, cause: Cause, scope: set<string>, actor: string): Outcome<Db> {
    Appended(db.(tokens := RevokeIn(db.tokens, cause, scope)), actor,
           AuthorityRevoked(cause, InState(db.tokens, scope, Issued), InState(db.tokens, scope, HandlerStarted)))
  }

  lemma RevokingTables(db: Db, cause: Cause, scope: set<string>, actor: string)
    requires TokensRevoked(db, cause, scope, actor).Done?
    ensures var after := TokensRevoked(db, cause, scope, actor).value; after == db.(tokens := after.tokens, ledger := after.ledger)
  {}

  /** How tokens may differ after steps that only take authority away. */
  ghost predicate OnlyRevoked(before: map<string, Token>, after: map<string, Token>) {
    && after.Keys == before.Keys
    && forall id :: id in before ==> OnlyRevokedToken(before[id], after[id])
  }

  ghost predicate OnlyRevokedToken(before: Token, after: Token) {
    after == before || (before.state == Issued && after.state == Revoked && after.terms == before.terms)
  }

  lemma RevokeInSpec(tokens: map<string, Token>, cause: Cause, scope: set<string>)
    ensures OnlyRevoked(tokens, RevokeIn(tokens, cause, scope))
    ensures forall id :: id in tokens && id in scope ==> RevokeIn(tokens, cause, scope)[id].state != Issued
    ensures forall id :: id in tokens && id !in scope ==> RevokeIn(tokens, cause, scope)[id] == tokens[id]
  {
    var after := RevokeIn(tokens, cause, scope);
    assert after.Keys == tokens.Keys;
    forall id | id in tokens ensures OnlyRevokedToken(tokens[id], after[id]) {}
  }

  lemma RevokeStep(tokens: map<string, Token>, cause: Cause, seen: set<string>, id: string)
    requires id in tokens && id !in seen
    ensures RevokeIn(tokens, cause, seen)[id] == tokens[id]
    ensures RevokeIn(tokens, cause, seen + {id}) == RevokeIn(tokens, cause, seen)[id := RevokeOne(tokens[id], cause)]
  {
    assert RevokeIn(tokens, cause, seen + {id}) == RevokeIn(tokens, cause, seen)[id := RevokeOne(tokens[id], cause)];
  }

  lemma MoveOne(seen: set<string>, rest: set<string>, id: string)
    requires id in rest
    ensures (seen + {id}) + (rest - {id}) == seen + rest
  {}

  lemma RevokeNone(tokens: map<string, Token>, cause: Cause)
    ensures RevokeIn(tokens, cause, {}) == tokens
  {}

  /** Only issued tokens change, so revoking those in scope is revoking the scope. */
  lemma RevokeAll(tokens: map<string, Token>, cause: Cause, scope: set<string>)
    ensures RevokeIn(tokens, cause, InState(tokens, scope, Issued)) == RevokeIn(tokens, cause, scope)
  {
    assert RevokeIn(tokens, cause, InState(tokens, scope, Issued)) == RevokeIn(tokens, cause, scope);
  }

  lemma OnlyRevokedChain(a: map<string, Token>, b: map<string, Token>, c: map<string, Token>)
    requires OnlyRevoked(a, b) && OnlyRevoked(b, c)
    ensures OnlyRevoked(a, c)
  {
    forall id | id in a ensures OnlyRevokedToken(a[id], c[id]) {
      assert OnlyRevokedToken(a[id], b[id]) && OnlyRevokedToken(b[id], c[id]);
    }
  }

  // ---- policy -----------------------------------------------------------------------------------

  datatype PendingRule = Pessimistic | Deadline

  /** `bound` is the estimator, a function of successes, failures and the level. */
  datatype Policy = Policy(version: string, minimum: map<string, real>, nMin: nat, maxAge: int, prohibited: set<string>,
                           ttl: int, alpha: real, spending: real, partitions: PartitionRule, epochs: EpochRule,
                           pending: PendingRule, bound: (nat, nat, real) -> real)

  function Required(policy: Policy, key: PartitionKey): real {
    if key.riskClass in policy.minimum then policy.minimum[key.riskClass] else 1.0
  }

  /** An epoch's own level can only tighten the gate. */
  function Effective(policy: Policy, alpha: Option<real>): real {
    if alpha.Some? && alpha.value < policy.alpha then alpha.value else policy.alpha
  }

  // ---- transactions -----------------------------------------------------------------------------

  /** The state after code that may raise: what its specification says, or nothing promised. */
  ghost predicate Follows(spec: Outcome<Db>, r: Status, db: Db) {
    (r.Done? <==> spec.Done?) && (spec.Done? ==> db == spec.value)
  }

  function Settle(before: Db, spec: Outcome<Db>): Db {
    if spec.Done? then spec.value else before
  }

  /** A whole transaction, possibly inside another: it does what its specification says, or raises, and
      an exception of an outermost transaction leaves the database untouched. */
  twostate predicate Transacted(store: Store, new spec: Outcome<Db>, new r: Status)
    reads store
  {
    && Follows(spec, r, store.db)
    && store.depth == old(store.depth)
    && (store.depth == 0 ==> store.db == Settle(old(store.db), spec))
    && (store.depth > 0 ==> store.saved == old(store.saved))
  }

  /** The database and its re-entrant, all-or-nothing transactions. */
  class Store {
    var db: Db
    var saved: Db
    var depth: nat

    constructor ()
      ensures db == saved == EMPTY && depth == 0
    {
      db, saved, depth := EMPTY, EMPTY, 0;
    }

    method Begin()
      modifies this`saved, this`depth
      ensures depth == old(depth) + 1
      ensures saved == if old(depth) == 0 then db else old(saved)
    {
      if depth == 0 { saved := db; }
      depth := depth + 1;
    }

    /** Leaves a transaction.  A nested one only joins its caller's, and an exception passes through it;
        the outermost commits everything or, after an exception anywhere inside, nothing. */
    method End(r: Status)
      requires depth > 0
      modifies this`db, this`depth
      ensures depth == old(depth) - 1
      ensures old(depth) > 1 ==> db == old(db)
      ensures old(depth) == 1 ==> db == if r.Raised? then saved else old(db)
    {
      if depth == 1 && r.Raised? { db := saved; }
      depth := depth - 1;
    }

    method Append(actor: string, body: Body) returns (r: Status)
      modifies this`db
      ensures Follows(Appended(old(db), actor, body), r, db)
      ensures r.Raised? ==> db == old(db)
    {
      if !Active(db, actor) { return Raised; }
      db := db.(ledger := db.ledger + [Entry(actor, body)]);
      return OK;
    }

    /** Revokes the issued tokens in scope and records what it did and what it could not do. */
    method Revoke(cause: Cause, scope: set<string>, actor: string) returns (r: Status)
      modifies this`db
      ensures Follows(TokensRevoked(old(db), cause, scope, actor), r, db)
    {
      var revoked, started := InState(db.tokens, scope, Issued), InState(db.tokens, scope, HandlerStarted);
      RevokeAll(db.tokens, cause, scope);
      var tokens := RevokeEach(db.tokens, cause, revoked);
      db := db.(tokens := tokens);
      r := Append(actor, AuthorityRevoked(cause, revoked, started));
    }
  }

  /** The updates of a revocation, row by row. */
  method RevokeEach(before: map<string, Token>, cause: Cause, revoked: set<string>) returns (tokens: map<string, Token>)
    requires revoked <= before.Keys
    ensures tokens == RevokeIn(before, cause, revoked)
  {
    tokens := before;
    var rest := revoked;
    ghost var seen := {};
    RevokeNone(before, cause);
    while rest != {}
      invariant seen !! rest && seen + rest == revoked
      invariant tokens == RevokeIn(before, cause, seen)
      decreases |rest|
    {
      var id :| id in rest;
      RevokeStep(before, cause, seen, id);
      MoveOne(seen, rest, id);
      tokens := tokens[id := RevokeOne(tokens[id], cause)];
      rest, seen := rest - {id}, seen + {id};
    }
  }
}
