/** Principals, delegated grants and approvals, and the synchronous revocation that goes with every change
    that takes authority away.  */
module Principals {
  import opened Tables
  import opened Scopes
  import opened Closure

  // ---- the grant forest ---------------------------------------------------------------------

  function ParentEdges(grants: map<string, Grant>): set<(string, string)> {
    set g | g in grants && grants[g].parent.Some? :: (g, grants[g].parent.value)
  }

  function ChildEdges(grants: map<string, Grant>): set<(string, string)> {
    set g | g in grants && grants[g].parent.Some? :: (grants[g].parent.value, g)
  }

  /** The grant and everything above it. */
  function Ancestors(grants: map<string, Grant>, g: string): set<string> {
    Reach(ParentEdges(grants), {g})
  }

  /** The grants delegated, directly or not, from any of these: the scope of a revoking event. */
  function Subtrees(grants: map<string, Grant>, roots: set<string>): set<string> {
    Reach(ChildEdges(grants), roots)
  }

  function Held(grants: map<string, Grant>, principal: string): set<string> {
    set g | g in grants && grants[g].grantee == principal
  }

  lemma ChildEdgesInvert(grants: map<string, Grant>)
    ensures ChildEdges(grants) == Inverse(ParentEdges(grants))
  {
    forall e | e in ChildEdges(grants) ensures e in Inverse(ParentEdges(grants)) {
      assert (e.1, e.0) in ParentEdges(grants);
    }
  }

  /** The downward scope of a revocation is the upward chain walk read backwards: a grant is in the
      subtrees of `roots` exactly when its chain holds one of them. */
  lemma SubtreesAreChains(grants: map<string, Grant>, roots: set<string>, g: string)
    ensures g in Subtrees(grants, roots) <==> exists r :: r in roots && r in Ancestors(grants, g)
  {
    ChildEdgesInvert(grants);
    ReachOfSet(ChildEdges(grants), roots, g);
    forall r | r in roots ensures g in Reach(ChildEdges(grants), {r}) <==> r in Ancestors(grants, g) {
      DownIsUp(ParentEdges(grants), g, r);
    }
  }

  ghost predicate GrantHolds(grants: map<string, Grant>, g: string)
    requires g in grants
  {
    grants[g].row < |grants| && (grants[g].parent.Some? ==>
      var p := grants[g].parent.value;
      && p in grants
      && grants[p].row < grants[g].row
      && Within(grants[g].scope, grants[p].scope)
      && grants[g].expiresAt <= grants[p].expiresAt
      && grants[g].grantor == grants[p].grantee)
  }

  /** Every grant is a root or a narrower, no longer lived, later grant made by its parent's holder. */
  ghost predicate GrantsInv(grants: map<string, Grant>) {
    forall g :: g in grants ==> GrantHolds(grants, g)
  }

  /** In every such table delegation only narrows: whatever a grant admits, every grant above it admits,
      and no grant outlives one above it.  Everything above a grant is in the table and older, so chains
      end. */
  lemma DelegationAttenuates(grants: map<string, Grant>, g: string)
    requires GrantsInv(grants) && g in grants
    ensures forall a :: a in Ancestors(grants, g) ==>
              && a in grants
              && (a == g || grants[a].row < grants[g].row)
              && Within(grants[g].scope, grants[a].scope)
              && grants[g].expiresAt <= grants[a].expiresAt
    ensures forall a, p :: a in Ancestors(grants, g) && Admits(grants[g].scope, p) ==> Admits(grants[a].scope, p)
  {
    var above := set a | a in grants && (a == g || grants[a].row < grants[g].row)
      && Within(grants[g].scope, grants[a].scope) && grants[g].expiresAt <= grants[a].expiresAt;
    forall e | e in ParentEdges(grants) && e.0 in above ensures e.1 in above {
      assert GrantHolds(grants, e.0);
      WithinTransitive(grants[g].scope, grants[e.0].scope, grants[e.1].scope);
    }
    ReachLeast(ParentEdges(grants), {g}, above);
    forall a, p | a in Ancestors(grants, g) && Admits(grants[g].scope, p) ensures Admits(grants[a].scope, p) {
      WithinSound(grants[g].scope, grants[a].scope, p);
    }
  }

  // ---- checks -------------------------------------------------------------------------------

  predicate ActiveOf(db: Db, principal: string, kinds: set<PrincipalKind>) {
    Active(db, principal) && db.principals[principal].kind in kinds
  }

  predicate VerifiesHuman(db: Db, keyring: set<string>, human: string, payload: Payload, mac: Mac) {
    ActiveOf(db, human, {Human}) && db.principals[human].keyId.Some?
    && Verifies(keyring, db.principals[human].keyId.value, payload, mac)
  }

  predicate KnownChain(grants: map<string, Grant>, g: string) {
    forall a :: a in Ancestors(grants, g) ==> a in grants
  }

  /** Every reason one grant of a chain stops the principal now. */
  function LinkReasons(db: Db, now: int, a: string, p: Option<Proposal>): set<GrantReason>
    requires a in db.grants
  {
    var grant := db.grants[a];
    (if grant.revoked then {GRANT_REVOKED} else {})
    + (if grant.expiresAt <= now then {GRANT_EXPIRED} else {})
    + (if !Active(db, grant.grantor) || !Active(db, grant.grantee) then {GRANT_PARTY_INACTIVE} else {})
    + (if p.Some? then ScopeBlockers(grant.scope, p.value) else {})
  }

  /** The reasons given by the chain. */
  function ChainReasons(db: Db, now: int, g: string, p: Option<Proposal>): set<GrantReason>
    requires KnownChain(db.grants, g)
  {
    set a, r | a in Ancestors(db.grants, g) && r in LinkReasons(db, now, a, p) :: r
  }

  function GrantBlockers(db: Db, now: int, g: string, principal: string, p: Option<Proposal>): set<GrantReason> {
    (if Active(db, principal) then {} else {PRINCIPAL_INACTIVE})
    + if !KnownChain(db.grants, g) then {GRANT_UNKNOWN}
      else
        ReachCloses(ParentEdges(db.grants), {g});
        (if db.grants[g].grantee != principal then {GRANT_NOT_HELD} else {})
        + ChainReasons(db, now, g, p)
  }

  /** What an empty answer means: the requester holds the grant and is active, and every grant up to the
      root is in force, between active parties, and admits the proposal. */
  ghost predicate GrantInForce(db: Db, now: int, g: string, principal: string, p: Option<Proposal>) {
    && Active(db, principal) && g in db.grants && db.grants[g].grantee == principal
    && forall a :: a in Ancestors(db.grants, g) ==>
         && a in db.grants && !db.grants[a].revoked && now < db.grants[a].expiresAt
         && Active(db, db.grants[a].grantor) && Active(db, db.grants[a].grantee)
         && (p.Some? ==> Admits(db.grants[a].scope, p.value))
  }

  lemma NoBlockersMeansInForce(db: Db, now: int, g: string, principal: string, p: Option<Proposal>)
    ensures GrantBlockers(db, now, g, principal, p) == {} <==> GrantInForce(db, now, g, principal, p)
  {
    ReachCloses(ParentEdges(db.grants), {g});
    var all := GrantBlockers(db, now, g, principal, p);
    assert !Active(db, principal) ==> PRINCIPAL_INACTIVE in all;
    assert !KnownChain(db.grants, g) ==> GRANT_UNKNOWN in all;
    if KnownChain(db.grants, g) {
      assert db.grants[g].grantee != principal ==> GRANT_NOT_HELD in all;
      QuietChain(db, now, g, p);
      assert ChainReasons(db, now, g, p) <= all;
    }
  }

  lemma QuietChain(db: Db, now: int, g: string, p: Option<Proposal>)
    requires KnownChain(db.grants, g)
    ensures ChainReasons(db, now, g, p) == {} <==>
            forall a :: a in Ancestors(db.grants, g) ==> LinkHolds(db, now, a, p)
  {
    forall a | a in Ancestors(db.grants, g) ensures LinkReasons(db, now, a, p) == {} <==> LinkHolds(db, now, a, p) {
      LinkMeaning(db, now, a, p);
    }
    assert forall a, r :: a in Ancestors(db.grants, g) && r in LinkReasons(db, now, a, p) ==> r in ChainReasons(db, now, g, p);
  }

  predicate LinkHolds(db: Db, now: int, a: string, p: Option<Proposal>) {
    && a in db.grants && !db.grants[a].revoked && now < db.grants[a].expiresAt
    && Active(db, db.grants[a].grantor) && Active(db, db.grants[a].grantee)
    && (p.Some? ==> Admits(db.grants[a].scope, p.value))
  }

  lemma LinkMeaning(db: Db, now: int, a: string, p: Option<Proposal>)
    requires a in db.grants
    ensures LinkReasons(db, now, a, p) == {} <==> LinkHolds(db, now, a, p)
  {
    var all := LinkReasons(db, now, a, p);
    if p.Some? {
      NoBlockersMeansAdmits(db.grants[a].scope, p.value);
      assert ScopeBlockers(db.grants[a].scope, p.value) <= all;
    }
    assert all == {} ==> GRANT_REVOKED !in all && GRANT_EXPIRED !in all && GRANT_PARTY_INACTIVE !in all;
  }

  datatype Consent = Consent(id: string, approval: Approval, mac: Mac)

  /** Whether an approval may be used for this proposal now. */
  predicate ApprovalUsable(db: Db, keyring: set<string>, now: int, consent: Consent, p: Proposal) {
    && VerifiesHuman(db, keyring, consent.approval.principalId, ConsentPayload(consent), consent.mac)
    && consent.approval.proposal == p && consent.approval.partition == p.partition
    && now < consent.approval.expiresAt
    && !RescindedNow(db, consent.id)
  }

  function ConsentPayload(consent: Consent): Payload {
    var a := consent.approval;
    ApprovePayload(consent.id, a.principalId, a.proposal, a.partition, a.expiresAt)
  }

  predicate RescindedNow(db: Db, approvalId: string) {
    approvalId in db.approvals && db.approvals[approvalId].rescinded
  }

  // ---- the permission changes ------------------------------------------------------------------

  const RUNNERS: set<PrincipalKind> := {Service, Human}
  const SIGNERS: set<PrincipalKind> := {Human, OracleKind}

  function Registered(db: Db, keyring: set<string>, id: string, kind: PrincipalKind, actor: string, keyId: Option<string>): Outcome<Db> {
    if id == "" || (kind in SIGNERS && (keyId.None? || keyId.value !in keyring)) then Raised
    else if !ActiveOf(db, actor, RUNNERS) || id in db.principals then Raised
    else Appended(db.(principals := db.principals[id := Principal(kind, keyId, true)]), actor, PermissionChanged("registered", id))
  }

  /** The tokens a principal's deactivation reaches: those under a grant it holds, and those on its approvals. */
  function DeactivationScope(db: Db, id: string): set<string> {
    set t | t in db.tokens
      && (db.tokens[t].terms.grantId in Subtrees(db.grants, Held(db.grants, id)) || OnApprovalBy(db, db.tokens[t].terms, id))
  }

  predicate OnApprovalBy(db: Db, t: Terms, principal: string) {
    t.approvalId.Some? && t.approvalId.value in db.approvals && db.approvals[t.approvalId.value].principalId == principal
  }

  function Deactivated(db: Db, id: string, actor: string): Outcome<Db> {
    if !ActiveOf(db, actor, RUNNERS) || !Active(db, id) then Raised
    else
      var db1 :- Appended(db.(principals := db.principals[id := db.principals[id].(active := false)]), actor,
                          PermissionChanged("deactivated", id));
      TokensRevoked(db1, PrincipalDeactivated, DeactivationScope(db1, id), actor)
  }

  function Created(db: Db, id: string, grant: Grant): Outcome<Db> {
    if !Active(db, grant.grantor) || !Active(db, grant.grantee) || id in db.grants
       || (grant.parent.Some? && grant.parent.value !in db.grants) then Raised
    else Appended(db.(grants := db.grants[id := grant.(row := |db.grants|, revoked := false)]), grant.grantor,
                  PermissionChanged("grant.created", id))
  }

  function RootGranted(db: Db, keyring: set<string>, id: string, grantor: string, grantee: string, scope: GrantScope,
                       expiresAt: int, mac: Mac): Outcome<Db> {
    if !VerifiesHuman(db, keyring, grantor, RootGrantPayload(id, grantor, grantee, scope, expiresAt), mac) then Raised
    else Created(db, id, Grant(None, grantor, grantee, scope, expiresAt, false, 0))
  }

  function Delegated(db: Db, now: int, parentId: string, grantee: string, scope: GrantScope, expiresAt: int, id: string): Outcome<Db> {
    if parentId !in db.grants then Raised
    else
      var parent := db.grants[parentId];
      if GrantBlockers(db, now, parentId, parent.grantee, None) != {} || !Within(scope, parent.scope)
         || expiresAt > parent.expiresAt then Raised
      else Created(db, id, Grant(Some(parentId), parent.grantee, grantee, scope, expiresAt, false, 0))
  }

  function TokensUnder(db: Db, roots: set<string>): set<string> {
    set t | t in db.tokens && db.tokens[t].terms.grantId in Subtrees(db.grants, roots)
  }

  /** A grantor at the grant or anywhere above it, while it is unrevoked. */
  predicate MayRevoke(db: Db, id: string, actor: string) {
    && KnownChain(db.grants, id)
    && (exists a :: a in Ancestors(db.grants, id) && db.grants[a].grantor == actor)
    && Active(db, actor) && id in db.grants && !db.grants[id].revoked
  }

  function GrantWithdrawn(db: Db, id: string, actor: string): Outcome<Db> {
    if !MayRevoke(db, id, actor) then Raised
    else
      var db1 :- Appended(db.(grants := db.grants[id := db.grants[id].(revoked := true)]), actor, PermissionChanged("grant.revoked", id));
      TokensRevoked(db1, GrantRevoked, TokensUnder(db1, {id}), actor)
  }

  /** Part of issuing a token on an approval. */
  function ApprovalRecorded(db: Db, consent: Consent): Outcome<Db> {
    if consent.id in db.approvals || consent.approval.principalId !in db.principals then Raised
    else Appended(db.(approvals := db.approvals[consent.id := consent.approval.(rescinded := false)]), consent.approval.principalId,
                  PermissionChanged("approval.recorded", consent.id))
  }

  function TokensOn(db: Db, approvalId: string): set<string> {
    set t | t in db.tokens && db.tokens[t].terms.approvalId == Some(approvalId)
  }

  /** A rescission marks the approval, recording it as rescinded if it was never used. */
  function ApprovalWithdrawn(db: Db, keyring: set<string>, id: string, approval: Approval, mac: Mac): Outcome<Db> {
    if !VerifiesHuman(db, keyring, approval.principalId, RescindPayload(id), mac) || RescindedNow(db, id) then Raised
    else
      var row := if id in db.approvals then db.approvals[id] else approval;
      var db1 :- Appended(db.(approvals := db.approvals[id := row.(rescinded := true)]), approval.principalId,
                          PermissionChanged("approval.rescinded", id));
      TokensRevoked(db1, ApprovalRescinded, TokensOn(db1, id), approval.principalId)
  }

  // ---- revocation is synchronous -----------------------------------------------------------------

  /** No grant above is revoked and none of their holders is inactive. */
  ghost predicate Live(db: Db, g: string) {
    forall a :: a in Ancestors(db.grants, g) ==> a in db.grants && !db.grants[a].revoked && Active(db, db.grants[a].grantee)
  }

  ghost predicate ApprovalStands(db: Db, a: Option<string>) {
    a.Some? ==> a.value in db.approvals && !db.approvals[a.value].rescinded && Active(db, db.approvals[a.value].principalId)
  }

  ghost predicate Backed(db: Db, t: Terms) {
    Live(db, t.grantId) && ApprovalStands(db, t.approvalId)
  }

  /** No unspent token has outlived the authority it was issued under. */
  ghost predicate SyncInv(db: Db) {
    forall id :: id in db.tokens && db.tokens[id].state == Issued ==> Backed(db, db.tokens[id].terms)
  }

  ghost predicate PermissionInv(db: Db) {
    GrantsInv(db.grants) && SyncInv(db)
  }

  /** Steps that leave principals, grants and approvals alone and only take authority from tokens. */
  ghost predicate PermissionsKept(a: Db, b: Db) {
    a.principals == b.principals && a.grants == b.grants && a.approvals == b.approvals && OnlyRevoked(a.tokens, b.tokens)
  }

  lemma SyncFramed(a: Db, b: Db)
    requires SyncInv(a) && PermissionsKept(a, b)
    ensures SyncInv(b)
  {
    forall id | id in b.tokens && b.tokens[id].state == Issued ensures Backed(b, b.tokens[id].terms) {
      assert OnlyRevokedToken(a.tokens[id], b.tokens[id]);
      assert Backed(a, a.tokens[id].terms);
    }
  }

  /** A revocation restores the invariant if every issued token outside its scope is still backed. */
  lemma RevokingRestores(db: Db, cause: Cause, scope: set<string>, actor: string)
    requires forall id :: id in db.tokens && id !in scope && db.tokens[id].state == Issued ==> Backed(db, db.tokens[id].terms)
    requires TokensRevoked(db, cause, scope, actor).Done?
    ensures SyncInv(TokensRevoked(db, cause, scope, actor).value)
  {
    RevokeInSpec(db.tokens, cause, scope);
    var after := TokensRevoked(db, cause, scope, actor).value;
    forall id | id in after.tokens && after.tokens[id].state == Issued ensures Backed(after, after.tokens[id].terms) {
      assert id !in scope && after.tokens[id] == db.tokens[id];
      assert Backed(db, db.tokens[id].terms);
    }
  }

  lemma RegisterKeeps(db: Db, keyring: set<string>, id: string, kind: PrincipalKind, actor: string, keyId: Option<string>)
    requires PermissionInv(db) && Registered(db, keyring, id, kind, actor, keyId).Done?
    ensures PermissionInv(Registered(db, keyring, id, kind, actor, keyId).value)
  {
    var after := Registered(db, keyring, id, kind, actor, keyId).value;
    forall t | t in after.tokens && after.tokens[t].state == Issued ensures Backed(after, after.tokens[t].terms) {
      assert Backed(db, db.tokens[t].terms);
    }
  }

  /** Deactivation revokes every token that stood on the principal, as holder anywhere in a chain or as
      approver: downward closure from its grants, upward closure from the token. */
  lemma DeactivateKeeps(db: Db, id: string, actor: string)
    requires PermissionInv(db) && Deactivated(db, id, actor).Done?
    ensures PermissionInv(Deactivated(db, id, actor).value)
  {
    var db1 := Appended(db.(principals := db.principals[id := db.principals[id].(active := false)]), actor,
                        PermissionChanged("deactivated", id)).value;
    forall t | t in db1.tokens && t !in DeactivationScope(db1, id) && db1.tokens[t].state == Issued
      ensures Backed(db1, db1.tokens[t].terms)
    {
      var g := db1.tokens[t].terms.grantId;
      assert Backed(db, db.tokens[t].terms);
      SubtreesAreChains(db.grants, Held(db.grants, id), g);
      forall a | a in Ancestors(db.grants, g) ensures Active(db1, db.grants[a].grantee) {
        assert a !in Held(db.grants, id);
      }
    }
    RevokingRestores(db1, PrincipalDeactivated, DeactivationScope(db1, id), actor);
  }

  /** A new grant lies below nothing that exists. */
  lemma ChainUnaffected(grants: map<string, Grant>, id: string, grant: Grant, g: string)
    requires id !in grants && forall a :: a in Ancestors(grants, g) ==> a in grants
    ensures Ancestors(grants[id := grant], g) == Ancestors(grants, g)
  {
    var edges, more := ParentEdges(grants), ParentEdges(grants[id := grant]);
    forall e | e in edges ensures e in more { assert grants[id := grant][e.0] == grants[e.0]; }
    forall e | e in more && e !in edges ensures e.0 !in Reach(edges, {g}) { assert e.0 == id; }
    ReachUnaffected(edges, more, {g});
  }

  lemma CreateKeeps(db: Db, id: string, grant: Grant)
    requires PermissionInv(db) && Created(db, id, grant).Done?
    requires grant.parent.Some? ==>
               var p := grant.parent.value;
               && p in db.grants && Within(grant.scope, db.grants[p].scope) && grant.expiresAt <= db.grants[p].expiresAt
               && grant.grantor == db.grants[p].grantee
    ensures PermissionInv(Created(db, id, grant).value)
  {
    var after := Created(db, id, grant).value;
    forall g | g in after.grants ensures GrantHolds(after.grants, g) {
      if g != id { assert GrantHolds(db.grants, g); }
      if grant.parent.Some? { assert GrantHolds(db.grants, grant.parent.value); }
    }
    forall t | t in after.tokens && after.tokens[t].state == Issued ensures Backed(after, after.tokens[t].terms) {
      assert Backed(db, db.tokens[t].terms);
      ChainUnaffected(db.grants, id, after.grants[id], db.tokens[t].terms.grantId);
    }
  }

  lemma RootGrantKeeps(db: Db, keyring: set<string>, id: string, grantor: string, grantee: string, scope: GrantScope,
                       expiresAt: int, mac: Mac)
    requires PermissionInv(db) && RootGranted(db, keyring, id, grantor, grantee, scope, expiresAt, mac).Done?
    ensures PermissionInv(RootGranted(db, keyring, id, grantor, grantee, scope, expiresAt, mac).value)
  {
    CreateKeeps(db, id, Grant(None, grantor, grantee, scope, expiresAt, false, 0));
  }

  lemma DelegateKeeps(db: Db, now: int, parentId: string, grantee: string, scope: GrantScope, expiresAt: int, id: string)
    requires PermissionInv(db) && Delegated(db, now, parentId, grantee, scope, expiresAt, id).Done?
    ensures PermissionInv(Delegated(db, now, parentId, grantee, scope, expiresAt, id).value)
  {
    CreateKeeps(db, id, Grant(Some(parentId), db.grants[parentId].grantee, grantee, scope, expiresAt, false, 0));
  }

  lemma RevokingKeepsEdges(grants: map<string, Grant>, id: string)
    requires id in grants
    ensures ParentEdges(grants[id := grants[id].(revoked := true)]) == ParentEdges(grants)
    ensures ChildEdges(grants[id := grants[id].(revoked := true)]) == ChildEdges(grants)
  {
    var after := grants[id := grants[id].(revoked := true)];
    forall g | g in grants ensures after[g].parent == grants[g].parent {}
    assert after.Keys == grants.Keys;
    ChildEdgesInvert(grants);
    ChildEdgesInvert(after);
  }

  lemma RevokeGrantKeeps(db: Db, id: string, actor: string)
    requires PermissionInv(db) && GrantWithdrawn(db, id, actor).Done?
    ensures PermissionInv(GrantWithdrawn(db, id, actor).value)
  {
    RevokingKeepsEdges(db.grants, id);
    var grants := db.grants[id := db.grants[id].(revoked := true)];
    forall g | g in grants ensures GrantHolds(grants, g) { assert GrantHolds(db.grants, g); }
    var db1 := Appended(db.(grants := grants), actor, PermissionChanged("grant.revoked", id)).value;
    forall t | t in db1.tokens && t !in TokensUnder(db1, {id}) && db1.tokens[t].state == Issued
      ensures Backed(db1, db1.tokens[t].terms)
    {
      assert Backed(db, db.tokens[t].terms);
      SubtreesAreChains(db.grants, {id}, db.tokens[t].terms.grantId);
    }
    RevokingRestores(db1, GrantRevoked, TokensUnder(db1, {id}), actor);
  }

  lemma RecordApprovalKeeps(db: Db, consent: Consent)
    requires PermissionInv(db) && ApprovalRecorded(db, consent).Done?
    ensures PermissionInv(ApprovalRecorded(db, consent).value)
  {
    var after := ApprovalRecorded(db, consent).value;
    forall t | t in after.tokens && after.tokens[t].state == Issued ensures Backed(after, after.tokens[t].terms) {
      assert Backed(db, db.tokens[t].terms);
    }
  }

  lemma WithdrawApprovalKeeps(db: Db, keyring: set<string>, id: string, approval: Approval, mac: Mac)
    requires PermissionInv(db) && ApprovalWithdrawn(db, keyring, id, approval, mac).Done?
    ensures PermissionInv(ApprovalWithdrawn(db, keyring, id, approval, mac).value)
  {
    var row := if id in db.approvals then db.approvals[id] else approval;
    var db1 := Appended(db.(approvals := db.approvals[id := row.(rescinded := true)]), approval.principalId,
                        PermissionChanged("approval.rescinded", id)).value;
    forall t | t in db1.tokens && t !in TokensOn(db1, id) && db1.tokens[t].state == Issued ensures Backed(db1, db1.tokens[t].terms) {
      assert Backed(db, db.tokens[t].terms);
    }
    RevokingRestores(db1, ApprovalRescinded, TokensOn(db1, id), approval.principalId);
  }

  /** What synchronous revocation does not reach.  The human at the root of a chain is nobody's grantee, so
      deactivating that human leaves the token issued; only the check at redemption refuses it. */
  lemma RootGrantorIsCaughtAtRedemption(db: Db, now: int, t: string, root: string, human: string, actor: string, p: Option<Proposal>,
                                        after: Db)
    requires SyncInv(db) && t in db.tokens && db.tokens[t].state == Issued
    requires root in Ancestors(db.grants, db.tokens[t].terms.grantId)
    requires root in db.grants && db.grants[root].grantor == human
    requires human !in ChainHolders(db, db.tokens[t].terms.grantId)
    requires !OnApprovalBy(db, db.tokens[t].terms, human) && Deactivated(db, human, actor) == Done(after)
    ensures t in after.tokens && after.tokens[t] == db.tokens[t]
    ensures GRANT_PARTY_INACTIVE in GrantBlockers(after, now, db.tokens[t].terms.grantId, db.tokens[t].terms.principalId, p)
  {
    assert Backed(db, db.tokens[t].terms);
    DeactivationMisses(db, t, human, actor, after);
    PartyIsNoticed(after, now, db.tokens[t].terms.grantId, root, db.tokens[t].terms.principalId, p);
  }

  function ChainHolders(db: Db, g: string): set<string> {
    set a | a in Ancestors(db.grants, g) && a in db.grants :: db.grants[a].grantee
  }

  lemma DeactivationMisses(db: Db, t: string, human: string, actor: string, after: Db)
    requires t in db.tokens && Deactivated(db, human, actor) == Done(after)
    requires human !in ChainHolders(db, db.tokens[t].terms.grantId) && !OnApprovalBy(db, db.tokens[t].terms, human)
    ensures t in after.tokens && after.tokens[t] == db.tokens[t]
    ensures after.grants == db.grants && !Active(after, human)
  {
    var db1 := Appended(db.(principals := db.principals[human := db.principals[human].(active := false)]), actor,
                        PermissionChanged("deactivated", human)).value;
    SubtreesAreChains(db.grants, Held(db.grants, human), db.tokens[t].terms.grantId);
    RevokeInSpec(db1.tokens, PrincipalDeactivated, DeactivationScope(db1, human));
  }

  /** Exactly which unspent tokens a deactivation revokes: those with a grant of the human's anywhere on their chain,
      and those on an approval of the human's. */
  lemma DeactivationReachesExactly(db: Db, t: string, human: string, actor: string, after: Db)
    requires t in db.tokens && db.tokens[t].state == Issued && Deactivated(db, human, actor) == Done(after)
    ensures t in after.tokens
    ensures after.tokens[t].state == Issued <==>
            human !in ChainHolders(db, db.tokens[t].terms.grantId) && !OnApprovalBy(db, db.tokens[t].terms, human)
  {
    if human !in ChainHolders(db, db.tokens[t].terms.grantId) && !OnApprovalBy(db, db.tokens[t].terms, human) {
      DeactivationMisses(db, t, human, actor, after);
    } else {
      var db1 := Appended(db.(principals := db.principals[human := db.principals[human].(active := false)]), actor,
                          PermissionChanged("deactivated", human)).value;
      SubtreesAreChains(db.grants, Held(db.grants, human), db.tokens[t].terms.grantId);
      assert t in DeactivationScope(db1, human);
      RevokeInSpec(db1.tokens, PrincipalDeactivated, DeactivationScope(db1, human));
    }
  }

  lemma PartyIsNoticed(db: Db, now: int, g: string, root: string, principal: string, p: Option<Proposal>)
    requires KnownChain(db.grants, g) && root in Ancestors(db.grants, g) && !Active(db, db.grants[root].grantor)
    ensures GRANT_PARTY_INACTIVE in GrantBlockers(db, now, g, principal, p)
  {
    assert GRANT_PARTY_INACTIVE in LinkReasons(db, now, root, p);
    assert GRANT_PARTY_INACTIVE in ChainReasons(db, now, g, p);
  }

  // ---- the program ---------------------------------------------------------------------------

  /** Upwards from the grant, one parent at a time. */
  ghost predicate IsPath(grants: map<string, Grant>, g: string, path: seq<string>) {
    && path != [] && path[0] == g && g in grants
    && (forall i :: 0 <= i < |path| ==> path[i] in grants)
    && (forall i :: 0 <= i < |path| - 1 ==> grants[path[i]].parent == Some(path[i + 1]))
  }

  lemma PathSnoc(grants: map<string, Grant>, g: string, path: seq<string>, a: string)
    requires IsPath(grants, g, path) && a in grants && grants[path[|path| - 1]].parent == Some(a)
    ensures IsPath(grants, g, path + [a]) && Elements(path + [a]) == Elements(path) + {a}
  {}

  /** A path that ends at a root. */
  ghost predicate IsChain(grants: map<string, Grant>, g: string, chain: seq<string>) {
    IsPath(grants, g, chain) && grants[chain[|chain| - 1]].parent == None
  }

  lemma AncestorsOfParent(grants: map<string, Grant>, g: string)
    requires g in grants
    ensures Ancestors(grants, g) == {g} + if grants[g].parent.Some? then Ancestors(grants, grants[g].parent.value) else {}
  {
    var edges := ParentEdges(grants);
    ReachCloses(edges, {g});
    if grants[g].parent.Some? {
      var parent := grants[g].parent.value;
      ReachCloses(edges, {parent});
      assert (g, parent) in edges;
      ReachMonotone(edges, {parent}, {g});
      ReachLeast(edges, {g}, {g} + Ancestors(grants, parent));
    } else {
      ReachLeast(edges, {g}, {g});
    }
  }

  lemma UnknownIsAlone(grants: map<string, Grant>, g: string)
    requires g !in grants
    ensures Ancestors(grants, g) == {g}
  {
    ReachCloses(ParentEdges(grants), {g});
    ReachLeast(ParentEdges(grants), {g}, {g});
  }

  lemma KnownIsWhole(grants: map<string, Grant>, g: string)
    requires GrantsInv(grants)
    ensures KnownChain(grants, g) <==> g in grants
  {
    if g in grants { DelegationAttenuates(grants, g); } else { UnknownIsAlone(grants, g); }
  }

  function Elements(chain: seq<string>): set<string> {
    set a | a in chain
  }

  function Gathered(db: Db, now: int, chain: seq<string>, p: Option<Proposal>): set<GrantReason>
    requires forall i :: 0 <= i < |chain| ==> chain[i] in db.grants
  {
    if chain == [] then {}
    else Gathered(db, now, chain[..|chain| - 1], p) + LinkReasons(db, now, chain[|chain| - 1], p)
  }

  lemma {:induction false} GatheredMembers(db: Db, now: int, chain: seq<string>, p: Option<Proposal>, r: GrantReason)
    requires forall i :: 0 <= i < |chain| ==> chain[i] in db.grants
    ensures r in Gathered(db, now, chain, p) <==> exists a :: a in chain && r in LinkReasons(db, now, a, p)
  {
    if chain != [] {
      GatheredMembers(db, now, chain[..|chain| - 1], p, r);
      assert forall a :: a in chain <==> a in chain[..|chain| - 1] || a == chain[|chain| - 1];
    }
  }

  lemma GatheredIsChain(db: Db, now: int, g: string, chain: seq<string>, p: Option<Proposal>)
    requires KnownChain(db.grants, g) && Elements(chain) == Ancestors(db.grants, g)
    requires forall i :: 0 <= i < |chain| ==> chain[i] in db.grants
    ensures Gathered(db, now, chain, p) == ChainReasons(db, now, g, p)
  {
    forall r ensures r in Gathered(db, now, chain, p) <==> r in ChainReasons(db, now, g, p) {
      GatheredMembers(db, now, chain, p, r);
      assert forall a :: a in chain <==> a in Elements(chain);
    }
  }

  class Principals {
    const store: Store
    const keyring: set<string>

    constructor (store: Store, keyring: set<string>)
      ensures this.store == store && this.keyring == keyring
    {
      this.store, this.keyring := store, keyring;
    }

    /** The walk up the parents.  It ends, at a root, because parents are older than their children. */
    method Chain(g: string) returns (r: Outcome<seq<string>>)
      requires GrantsInv(store.db.grants)
      ensures r.Done? <==> KnownChain(store.db.grants, g)
      ensures r.Done? ==> IsChain(store.db.grants, g, r.value) && Elements(r.value) == Ancestors(store.db.grants, g)
    {
      var grants := store.db.grants;
      KnownIsWhole(grants, g);
      if g !in grants { return Raised; }
      var chain, current := [g], g;
      AncestorsOfParent(grants, g);
      while grants[current].parent.Some?
        invariant IsPath(grants, g, chain) && chain[|chain| - 1] == current
        invariant Ancestors(grants, g) == Elements(chain) + Ancestors(grants, current)
        decreases grants[current].row
      {
        assert GrantHolds(grants, current);
        var parent := grants[current].parent.value;
        AncestorsOfParent(grants, current);
        AncestorsOfParent(grants, parent);
        PathSnoc(grants, g, chain, parent);
        chain, current := chain + [parent], parent;
      }
      AncestorsOfParent(grants, current);
      r := Done(chain);
    }

    method Blockers(now: int, g: string, principal: string, p: Option<Proposal>) returns (reasons: set<GrantReason>)
      requires GrantsInv(store.db.grants)
      ensures reasons == GrantBlockers(store.db, now, g, principal, p)
    {
      reasons := if Active(store.db, principal) then {} else {PRINCIPAL_INACTIVE};
      var walked := Chain(g);
      if walked.Raised? { return reasons + {GRANT_UNKNOWN}; }
      var found := KnownBlockers(store.db, now, g, principal, walked.value, p);
      reasons := reasons + found;
    }

    static method KnownBlockers(db: Db, now: int, g: string, principal: string, chain: seq<string>, p: Option<Proposal>)
      returns (reasons: set<GrantReason>)
      requires IsChain(db.grants, g, chain) && Elements(chain) == Ancestors(db.grants, g) && KnownChain(db.grants, g)
      ensures reasons == (if db.grants[g].grantee != principal then {GRANT_NOT_HELD} else {}) + ChainReasons(db, now, g, p)
    {
      reasons := if db.grants[chain[0]].grantee != principal then {GRANT_NOT_HELD} else {};
      var found := ChainBlockers(db, now, chain, p);
      GatheredIsChain(db, now, g, chain, p);
      reasons := reasons + found;
    }

    static method ChainBlockers(db: Db, now: int, chain: seq<string>, p: Option<Proposal>) returns (reasons: set<GrantReason>)
      requires forall i :: 0 <= i < |chain| ==> chain[i] in db.grants
      ensures reasons == Gathered(db, now, chain, p)
    {
      hide LinkReasons;
      reasons := {};
      var i := 0;
      while i < |chain|
        invariant 0 <= i <= |chain|
        invariant reasons == Gathered(db, now, chain[..i], p)
      {
        assert chain[..i + 1][..i] == chain[..i];
        var found := LinkBlockers(db, now, chain[i], p);
        reasons := reasons + found;
        i := i + 1;
      }
      assert chain[..|chain|] == chain;
    }

    static method LinkBlockers(db: Db, now: int, a: string, p: Option<Proposal>) returns (reasons: set<GrantReason>)
      requires a in db.grants
      ensures reasons == LinkReasons(db, now, a, p)
    {
      var grant := db.grants[a];
      reasons := {};
      if grant.revoked { reasons := reasons + {GRANT_REVOKED}; }
      if grant.expiresAt <= now { reasons := reasons + {GRANT_EXPIRED}; }
      if !Active(db, grant.grantor) || !Active(db, grant.grantee) { reasons := reasons + {GRANT_PARTY_INACTIVE}; }
      if p.Some? { reasons := reasons + ScopeBlockers(grant.scope, p.value); }
    }

    method Register(id: string, kind: PrincipalKind, actor: string, keyId: Option<string>) returns (r: Status)
      modifies store
      ensures Transacted(store, Registered(old(store.db), keyring, id, kind, actor, keyId), r)
    {
      if id == "" || (kind in SIGNERS && (keyId.None? || keyId.value !in keyring)) { return Raised; }
      store.Begin();
      r := Raised;
      if ActiveOf(store.db, actor, RUNNERS) && id !in store.db.principals {
        store.db := store.db.(principals := store.db.principals[id := Principal(kind, keyId, true)]);
        r := store.Append(actor, PermissionChanged("registered", id));
      }
      store.End(r);
    }

    method Deactivate(id: string, actor: string) returns (r: Status)
      modifies store
      ensures Transacted(store, Deactivated(old(store.db), id, actor), r)
    {
      store.Begin();
      r := Raised;
      if ActiveOf(store.db, actor, RUNNERS) && Active(store.db, id) {
        store.db := store.db.(principals := store.db.principals[id := store.db.principals[id].(active := false)]);
        r := store.Append(actor, PermissionChanged("deactivated", id));
        if r.Done? {
          r := store.Revoke(PrincipalDeactivated, DeactivationScope(store.db, id), actor);
        }
      }
      store.End(r);
    }

    method GrantRoot(id: string, grantor: string, grantee: string, scope: GrantScope, expiresAt: int, mac: Mac) returns (r: Status)
      modifies store
      ensures Transacted(store, RootGranted(old(store.db), keyring, id, grantor, grantee, scope, expiresAt, mac), r)
    {
      if !VerifiesHuman(store.db, keyring, grantor, RootGrantPayload(id, grantor, grantee, scope, expiresAt), mac) {
        return Raised;
      }
      r := Create(id, Grant(None, grantor, grantee, scope, expiresAt, false, 0));
    }

    method Delegate(now: int, parentId: string, grantee: string, scope: GrantScope, expiresAt: int, id: string) returns (r: Status)
      requires GrantsInv(store.db.grants)
      modifies store
      ensures Transacted(store, Delegated(old(store.db), now, parentId, grantee, scope, expiresAt, id), r)
    {
      store.Begin();
      r := Raised;
      if parentId in store.db.grants {
        var parent := store.db.grants[parentId];
        var live := Blockers(now, parentId, parent.grantee, None);
        if live == {} && Within(scope, parent.scope) && expiresAt <= parent.expiresAt {
          r := Create(id, Grant(Some(parentId), parent.grantee, grantee, scope, expiresAt, false, 0));
        }
      }
      store.End(r);
    }

    method Create(id: string, grant: Grant) returns (r: Status)
      modifies store
      ensures Transacted(store, Created(old(store.db), id, grant), r)
    {
      store.Begin();
      r := Raised;
      if Active(store.db, grant.grantor) && Active(store.db, grant.grantee) && id !in store.db.grants
         && (grant.parent.Some? ==> grant.parent.value in store.db.grants) {
        var row := grant.(row := |store.db.grants|, revoked := false);
        store.db := store.db.(grants := store.db.grants[id := row]);
        r := store.Append(grant.grantor, PermissionChanged("grant.created", id));
      }
      store.End(r);
    }

    method RevokeGrant(id: string, actor: string) returns (r: Status)
      requires GrantsInv(store.db.grants)
      modifies store
      ensures Transacted(store, GrantWithdrawn(old(store.db), id, actor), r)
    {
      store.Begin();
      r := Raised;
      var allowed := RevocableBy(id, actor);
      if allowed {
        store.db := store.db.(grants := store.db.grants[id := store.db.grants[id].(revoked := true)]);
        r := store.Append(actor, PermissionChanged("grant.revoked", id));
        if r.Done? {
          r := store.Revoke(GrantRevoked, TokensUnder(store.db, {id}), actor);
        }
      }
      store.End(r);
    }

    method RevocableBy(id: string, actor: string) returns (allowed: bool)
      requires GrantsInv(store.db.grants)
      ensures allowed <==> MayRevoke(store.db, id, actor)
    {
      var walked := Chain(id);
      if walked.Raised? { return false; }
      var chain := walked.value;
      assert forall a :: a in chain <==> a in Elements(chain);
      allowed := (exists a | a in chain :: store.db.grants[a].grantor == actor)
        && Active(store.db, actor) && !store.db.grants[chain[0]].revoked;
    }

    method RecordApproval(consent: Consent) returns (r: Status)
      modifies store
      ensures Transacted(store, ApprovalRecorded(old(store.db), consent), r)
    {
      store.Begin();
      r := Raised;
      if consent.id !in store.db.approvals && consent.approval.principalId in store.db.principals {
        store.db := store.db.(approvals := store.db.approvals[consent.id := consent.approval.(rescinded := false)]);
        r := store.Append(consent.approval.principalId, PermissionChanged("approval.recorded", consent.id));
      }
      store.End(r);
    }

    method RescindApproval(id: string, approval: Approval, mac: Mac) returns (r: Status)
      modifies store
      ensures Transacted(store, ApprovalWithdrawn(old(store.db), keyring, id, approval, mac), r)
    {
      if !VerifiesHuman(store.db, keyring, approval.principalId, RescindPayload(id), mac) { return Raised; }
      store.Begin();
      r := Raised;
      if !RescindedNow(store.db, id) {
        var row := if id in store.db.approvals then store.db.approvals[id] else approval;
        store.db := store.db.(approvals := store.db.approvals[id := row.(rescinded := true)]);
        r := store.Append(approval.principalId, PermissionChanged("approval.rescinded", id));
        if r.Done? {
          r := store.Revoke(ApprovalRescinded, TokensOn(store.db, id), approval.principalId);
        }
      }
      store.End(r);
    }
  }
}
