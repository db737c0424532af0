/** The execution gateway as it runs: each step one transaction, with the consuming update first and every
    refusal rolling it back.  */
module Redemption {
  import opened Tables
  import opened Principals
  import opened Gateway
  import Risk
  import Lifecycle
  import Operations

  /** What is checked at redemption does not look at tokens, so consuming first changes no answer. */
  lemma PassesIgnoresTokens(cfg: Config, now: int, db: Db, tokens: map<string, Token>, t: Terms, p: Proposal)
    ensures Passes(cfg, now, db.(tokens := tokens), t, p) == Passes(cfg, now, db, t, p)
  {
    hide GuardsAllow, GrantBlockers;
    var other := db.(tokens := tokens);
    GuardsIgnoreTokens(cfg, now, db, tokens, t, p);
    assert GrantBlockers(other, now, t.grantId, t.principalId, Some(p)) == GrantBlockers(db, now, t.grantId, t.principalId, Some(p)) by {
      NoBlockersIgnoreTokens(db, tokens, now, t.grantId, t.principalId, Some(p));
    }
  }

  lemma GuardsIgnoreTokens(cfg: Config, now: int, db: Db, tokens: map<string, Token>, t: Terms, p: Proposal)
    ensures GuardsAllow(cfg, now, db.(tokens := tokens), t, p) == GuardsAllow(cfg, now, db, t, p)
  {
    hide Operations.LifecycleBlockers, Risk.RiskBlockers;
    if cfg.lifecycle.Some? { LifecycleIgnoresTokens(cfg.lifecycle.value.(now := now), db, tokens, t); }
    if cfg.risk.Some? { RiskIgnoresTokens(cfg.risk.value, db, tokens, p); }
  }

  lemma LifecycleIgnoresTokens(env: Lifecycle.Env, db: Db, tokens: map<string, Token>, t: Terms)
    ensures Operations.LifecycleBlockers(env, db.(tokens := tokens), t) == Operations.LifecycleBlockers(env, db, t)
  {}

  lemma RiskIgnoresTokens(rules: Risk.Rules, db: Db, tokens: map<string, Token>, p: Proposal)
    ensures Risk.RiskBlockers(rules, db.(tokens := tokens), p) == Risk.RiskBlockers(rules, db, p)
  {}

  lemma NoBlockersIgnoreTokens(db: Db, tokens: map<string, Token>, now: int, g: string, principal: string, p: Option<Proposal>)
    ensures GrantBlockers(db.(tokens := tokens), now, g, principal, p) == GrantBlockers(db, now, g, principal, p)
  {
    var other := db.(tokens := tokens);
    if KnownChain(db.grants, g) {
      forall a | a in Ancestors(db.grants, g) ensures LinkReasons(other, now, a, p) == LinkReasons(db, now, a, p) {}
      assert ChainReasons(other, now, g, p) == ChainReasons(db, now, g, p);
    }
  }

  class ExecutionGateway {
    const store: Store

    constructor (store: Store)
      ensures this.store == store
    {
      this.store := store;
    }

    method CommitDecision(d: Decision) returns (r: Status)
      modifies store
      ensures Transacted(store, Recorded(old(store.db), d), r)
    {
      store.Begin();
      var sequence := |store.db.ledger|;
      r := store.Append(CONTROLLER, DecisionCommitted(d.id, d.proposal, d.route));
      if r.Done? {
        if d.id in store.db.decisions {
          r := Raised;
        } else {
          store.db := store.db.(decisions := store.db.decisions[d.id := Committed(d.proposal, d.route, sequence)]);
        }
      }
      store.End(r);
    }

    method Issue(cfg: Config, now: int, request: Request) returns (r: Status)
      modifies store
      ensures Transacted(store, Minted(cfg, now, old(store.db), request), r)
    {
      store.Begin();
      r := Raised;
      if DecisionAllows(cfg, store.db, request) && AuthorityAllows(cfg, now, store.db, request) && request.tokenId !in store.db.tokens {
        r := Mint(now, request);
      }
      store.End(r);
    }

    method Mint(now: int, request: Request) returns (r: Status)
      modifies store`db
      ensures Follows(var db1 :- Consented(old(store.db), request);
                      Done(db1.(tokens := old(store.db).tokens[request.tokenId := Token(TermsOf(now, request), Issued, None)])), r, store.db)
    {
      r := OK;
      if request.consent.Some? {
        var c := request.consent.value;
        if c.id in store.db.approvals || c.approval.principalId !in store.db.principals { return Raised; }
        store.db := store.db.(approvals := store.db.approvals[c.id := c.approval.(rescinded := false)]);
        r := store.Append(c.approval.principalId, PermissionChanged("approval.recorded", c.id));
        if r.Raised? { return; }
      }
      store.db := store.db.(tokens := store.db.tokens[request.tokenId := Token(TermsOf(now, request), Issued, None)]);
    }

    /** Channel first, then the conditional update, then every check; the caller's transaction undoes it all. */
    method Consume(cfg: Config, now: int, id: string, p: Proposal, channel: Channel) returns (r: Status)
      modifies store`db
      ensures Follows(Spent(cfg, now, old(store.db), id, p, channel), r, store.db)
    {
      if id !in store.db.tokens { return Raised; }
      var token := store.db.tokens[id];
      if token.terms.channel != channel || token.state != Issued { return Raised; }
      ghost var before := store.db;
      store.db := StateSet(store.db, id, Consumed);
      PassesIgnoresTokens(cfg, now, before, store.db.tokens, token.terms, p);
      r := if Passes(cfg, now, store.db, token.terms, p) then OK else Raised;
    }

    method Settle(cfg: Config, id: string, p: Proposal) returns (r: Status)
      modifies store`db
      ensures Follows(Settled(cfg, old(store.db), id, p), r, store.db)
    {
      if cfg.risk.None? { return OK; }
      var charged := Risk.Charged(cfg.risk.value, store.db, id, p);
      if charged.Raised? { return Raised; }
      store.db := charged.value;
      r := OK;
    }

    method Execute(cfg: Config, now: int, id: string, p: Proposal) returns (r: Status)
      modifies store
      ensures Transacted(store, Executed(cfg, now, old(store.db), id, p), r)
    {
      store.Begin();
      r := Consume(cfg, now, id, p, Local);
      if r.Done? && !cfg.resolves(p) { r := Raised; }
      if r.Done? { r := Settle(cfg, id, p); }
      store.End(r);
    }

    method RedeemRemote(cfg: Config, now: int, id: string, audience: string, call: Call) returns (r: Status)
      modifies store
      ensures Transacted(store, RedeemedRemotely(cfg, now, old(store.db), id, audience, call), r)
    {
      hide Passes, Spent, Settled;
      store.Begin();
      r := Raised;
      if id in store.db.tokens {
        var p := store.db.tokens[id].terms.proposal;
        if call == Call(p.tool, p.parameters) {
          r := Consume(cfg, now, id, p, Mcp(audience));
          if r.Done? { r := Settle(cfg, id, p); }
        }
      }
      store.End(r);
    }

    method AcceptNonce(cfg: Config, now: int, id: string, audience: string, call: Call) returns (r: Status)
      modifies store
      ensures Transacted(store, NonceAccepted(cfg, now, old(store.db), id, audience, call), r)
    {
      store.Begin();
      r := Raised;
      if id in store.db.tokens {
        var token := store.db.tokens[id];
        var p := token.terms.proposal;
        if call == Call(p.tool, p.parameters) && token.state == Issued && token.terms.channel == Mcp(audience)
           && Passes(cfg, now, store.db, token.terms, p) && token.terms.effects == {} && id !in store.db.nonces {
          store.db := store.db.(nonces := store.db.nonces[id := audience]);
          r := OK;
        }
      }
      store.End(r);
    }

    method Revoke(id: string, why: string) returns (r: Status)
      modifies store
      ensures Transacted(store, Dropped(old(store.db), id, why), r)
    {
      store.Begin();
      r := Raised;
      if id in store.db.tokens {
        var token := store.db.tokens[id];
        if token.state == Issued {
          store.db := store.db.(tokens := store.db.tokens[id := token.(state := Revoked, reason := Some(ByRequest(why)))]);
        } else {
          assert store.db.tokens[id := token] == store.db.tokens;
        }
        r := OK;
      }
      store.End(r);
    }

    method Advance(id: string, from: TokenState, target: TokenState) returns (r: Status)
      modifies store
      ensures Transacted(store, Advanced(old(store.db), id, from, target), r)
    {
      store.Begin();
      r := Raised;
      if id in store.db.tokens && store.db.tokens[id].state == from {
        store.db := StateSet(store.db, id, target);
        r := OK;
      }
      store.End(r);
    }
  }
}
