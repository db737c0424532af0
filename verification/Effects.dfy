/** Side effects: threads that spend tokens and enter handlers, interleaved with every other transaction and
    with crashes.  Each token, each decision and each approval leads to at most one handler entry.  */
module Effects {
  import opened Tables
  import opened Shadow
  import opened Lifecycle
  import opened Operations
  import opened OperationSteps
  import opened Invariants
  import opened Systems
  import opened Principals
  import Risk
  import G = Gateway

  /** Where a thread is between spending a token and reporting back. */
  datatype Phase = Holding(id: string) | Starting(id: string) | Running(id: string)

  /** A handler entry, with the length the ledger had. */
  datatype HandlerCall = HandlerCall(id: string, at: nat)

  datatype World = World(s: System, threads: map<nat, Phase>, entered: seq<HandlerCall>)

  datatype Move =
    | Transact(m: Moment, step: Step)
    | SpendBy(thread: nat, m: Moment, redemption: Redemption)
    | Begin(thread: nat)
    | Enter(thread: nat)
    | End(thread: nat, failed: bool)
    | Crash(lost: set<nat>)

  predicate Spends(r: Redemption) { r.Execute? || r.Redeem? }
  predicate Advances(r: Redemption) { r.Start? || r.Finish? }

  /** Only the code that spends a token runs its handler, and only that code advances its state. */
  predicate Allowed(w: World, move: Move) {
    match move
    case Transact(m, step) => step.Spend? ==> !Spends(step.redemption) && !Advances(step.redemption)
    case SpendBy(t, m, r) => Spends(r) && t !in w.threads
    case Begin(t) => t in w.threads && w.threads[t].Holding?
    case Enter(t) => t in w.threads && w.threads[t].Starting?
    case End(t, failed) => t in w.threads && w.threads[t].Running?
    case Crash(lost) => true
  }

  function Next(host: Host, w: World, move: Move): World
    requires Allowed(w, move)
  {
    match move
    case Transact(m, step) => w.(s := After(host, w.s, m, step))
    case SpendBy(t, m, r) =>
      if Effect(host, w.s, m, Spend(r)).Done?
      then w.(s := After(host, w.s, m, Spend(r)), threads := w.threads[t := Holding(r.id)]) else w
    case Begin(t) =>
      var db := G.Advanced(w.s.db, w.threads[t].id, Consumed, HandlerStarted);
      if db.Done? then w.(s := w.s.(db := db.value), threads := w.threads[t := Starting(w.threads[t].id)])
      else w.(threads := w.threads - {t})
    case Enter(t) =>
      w.(threads := w.threads[t := Running(w.threads[t].id)], entered := w.entered + [HandlerCall(w.threads[t].id, |w.s.db.ledger|)])
    case End(t, failed) =>
      var db := G.Advanced(w.s.db, w.threads[t].id, HandlerStarted, if failed then HandlerFailed else HandlerCompleted);
      w.(s := w.s.(db := Settle(w.s.db, db)), threads := w.threads - {t})
    case Crash(lost) => w.(threads := w.threads - lost)
  }

  // ---- what other transactions do to tokens -----------------------------------------------------------------

  /** Tokens are never deleted or changed but to be revoked, new ones are unspent, and decisions stay. */
  ghost predicate TokensKept(a: Db, b: Db) {
    && (forall t :: t in a.tokens ==> t in b.tokens && OnlyRevokedToken(a.tokens[t], b.tokens[t]))
    && (forall t :: t in b.tokens && t !in a.tokens ==> b.tokens[t].state == Issued)
    && (forall d :: d in a.decisions ==> d in b.decisions && b.decisions[d] == a.decisions[d])
  }

  lemma RevokedKept(a: Db, b: Db)
    requires OnlyRevoked(a.tokens, b.tokens) && a.decisions == b.decisions
    ensures TokensKept(a, b)
  {}

  lemma FramedSteps(host: Host, s: System, m: Moment, step: Step)
    requires step.Operate? || step.ChangePolicy? || step.ChangeRules?
    requires Effect(host, s, m, step).Done?
    ensures Framed(s.db, Effect(host, s, m, step).value)
  {
    hide Operated, PolicyReplaced;
    var env := EnvOf(host, s, m);
    SameTokens(s.db.tokens);
    FramedEndures(env, s.db);
    match step
    case Operate(op) => OperationKeeps(env, FramedFrom(s.db), host.keyring, s.db, op);
    case ChangePolicy(policy, actor) => PolicyKeeps(env, FramedFrom(s.db), s.db, s.policy, policy, actor);
    case ChangeRules(rules) => RulesShape(s.db, s.rules, rules);
  }

  lemma IssueKeepsTokens(cfg: G.Config, now: int, db: Db, r: G.Request)
    requires G.Minted(cfg, now, db, r).Done?
    ensures TokensKept(db, G.Minted(cfg, now, db, r).value)
  {
    G.MintedShape(cfg, now, db, r);
  }

  lemma TransactionKeepsTokens(host: Host, s: System, m: Moment, step: Step)
    requires step.Spend? ==> !Spends(step.redemption) && !Advances(step.redemption)
    requires Effect(host, s, m, step).Done?
    ensures TokensKept(s.db, Effect(host, s, m, step).value)
  {
    match step
    case Permit(p) => PermitShape(host, m.now, s.db, p); RevokedKept(s.db, Effect(host, s, m, step).value);
    case Commit(d) =>
    case Issue(r) => IssueKeepsTokens(ConfigOf(host, s, m), m.now, s.db, r);
    case Spend(r) => OtherRedemptions(ConfigOf(host, s, m), m.now, s.db, r);
    case Note(actor, what) =>
    case _ => FramedSteps(host, s, m, step); RevokedKept(s.db, Effect(host, s, m, step).value);
  }

  lemma OtherRedemptions(cfg: G.Config, now: int, db: Db, r: Redemption)
    requires !Spends(r) && !Advances(r) && Redeemed(cfg, now, db, r).Done?
    ensures TokensKept(db, Redeemed(cfg, now, db, r).value)
  {}

  /** Spending moves exactly one token, from issued to consumed. */
  ghost predicate OneConsumed(a: Db, b: Db, id: string) {
    && id in a.tokens && a.tokens[id].state == Issued && a.decisions == b.decisions
    && b.tokens == a.tokens[id := a.tokens[id].(state := Consumed)]
  }

  lemma SpendConsumesOne(host: Host, s: System, m: Moment, r: Redemption)
    requires Spends(r) && Effect(host, s, m, Spend(r)).Done?
    ensures OneConsumed(s.db, Effect(host, s, m, Spend(r)).value, r.id)
  {
    hide G.Passes;
  }

  // ---- the invariant -------------------------------------------------------------------------------------------

  function Entries(entered: seq<HandlerCall>, id: string): nat {
    if entered == [] then 0
    else Entries(entered[..|entered| - 1], id) + if entered[|entered| - 1].id == id then 1 else 0
  }

  /** How often a token's handler has been entered, by the state the token is in. */
  predicate EntriesFit(state: TokenState, entries: nat) {
    match state
    case HandlerStarted => entries <= 1
    case HandlerCompleted => entries == 1
    case HandlerFailed => entries == 1
    case _ => entries == 0
  }

  predicate PhaseFits(phase: Phase, db: Db, entered: seq<HandlerCall>) {
    && phase.id in db.tokens
    && match phase
       case Holding(id) => db.tokens[id].state == Consumed
       case Starting(id) => db.tokens[id].state == HandlerStarted && Entries(entered, id) == 0
       case Running(id) => db.tokens[id].state == HandlerStarted && Entries(entered, id) == 1
  }

  /** The decision behind an entry was on the ledger before it. */
  predicate CallFits(c: HandlerCall, db: Db) {
    && c.id in db.tokens && db.tokens[c.id].terms.decisionId in db.decisions
    && db.decisions[db.tokens[c.id].terms.decisionId].sequence < c.at
  }

  ghost predicate EffectInv(w: World) {
    && (forall t :: t in w.s.db.tokens ==> EntriesFit(w.s.db.tokens[t].state, Entries(w.entered, t)))
    && (forall id :: id !in w.s.db.tokens ==> Entries(w.entered, id) == 0)
    && (forall t :: t in w.threads ==> PhaseFits(w.threads[t], w.s.db, w.entered))
    && (forall t, u :: t in w.threads && u in w.threads && t != u ==> w.threads[t].id != w.threads[u].id)
    && (forall i :: 0 <= i < |w.entered| ==> CallFits(w.entered[i], w.s.db))
  }

  lemma TransactKeeps(host: Host, w: World, m: Moment, step: Step)
    requires EffectInv(w) && Allowed(w, Transact(m, step))
    ensures EffectInv(Next(host, w, Transact(m, step)))
  {
    hide Effect;
    if Effect(host, w.s, m, step).Done? {
      TransactionKeepsTokens(host, w.s, m, step);
      KeptKeeps(w, Effect(host, w.s, m, step).value);
    }
  }

  lemma KeptKeeps(w: World, db: Db)
    requires EffectInv(w) && TokensKept(w.s.db, db)
    ensures EffectInv(w.(s := w.s.(db := db)))
  {
    var a := w.s.db;
    forall t | t in db.tokens ensures EntriesFit(db.tokens[t].state, Entries(w.entered, t)) {
      if t in a.tokens { assert OnlyRevokedToken(a.tokens[t], db.tokens[t]); }
    }
    forall t | t in w.threads ensures PhaseFits(w.threads[t], db, w.entered) {
      assert PhaseFits(w.threads[t], a, w.entered);
      assert OnlyRevokedToken(a.tokens[w.threads[t].id], db.tokens[w.threads[t].id]);
    }
    forall i | 0 <= i < |w.entered| ensures CallFits(w.entered[i], db) {
      assert CallFits(w.entered[i], a);
      assert OnlyRevokedToken(a.tokens[w.entered[i].id], db.tokens[w.entered[i].id]);
    }
  }

  lemma SpendByKeeps(host: Host, w: World, thread: nat, m: Moment, r: Redemption)
    requires EffectInv(w) && Allowed(w, SpendBy(thread, m, r))
    ensures EffectInv(Next(host, w, SpendBy(thread, m, r)))
  {
    hide Effect;
    if Effect(host, w.s, m, Spend(r)).Done? {
      SpendConsumesOne(host, w.s, m, r);
      ConsumedKeeps(w, thread, r.id, Effect(host, w.s, m, Spend(r)).value);
    }
  }

  lemma ConsumedKeeps(w: World, thread: nat, id: string, db: Db)
    requires EffectInv(w) && thread !in w.threads && OneConsumed(w.s.db, db, id)
    ensures EffectInv(w.(s := w.s.(db := db), threads := w.threads[thread := Holding(id)]))
  {
    forall t | t in w.threads ensures PhaseFits(w.threads[t], db, w.entered) && w.threads[t].id != id {
      assert PhaseFits(w.threads[t], w.s.db, w.entered);
    }
    forall i | 0 <= i < |w.entered| ensures CallFits(w.entered[i], db) { assert CallFits(w.entered[i], w.s.db); }
  }

  lemma AdvanceKeeps(w: World, thread: nat, target: TokenState, next: map<nat, Phase>)
    requires EffectInv(w) && thread in w.threads
    requires target in {HandlerStarted, HandlerCompleted, HandlerFailed}
    requires if target == HandlerStarted then w.threads[thread].Holding? && next == w.threads[thread := Starting(w.threads[thread].id)]
             else w.threads[thread].Running? && next == w.threads - {thread}
    ensures EffectInv(w.(s := w.s.(db := G.StateSet(w.s.db, w.threads[thread].id, target)), threads := next))
  {
    var id := w.threads[thread].id;
    assert PhaseFits(w.threads[thread], w.s.db, w.entered);
    var db := G.StateSet(w.s.db, id, target);
    forall t | t in next ensures PhaseFits(next[t], db, w.entered) {
      if t != thread { assert PhaseFits(w.threads[t], w.s.db, w.entered); }
    }
    forall i | 0 <= i < |w.entered| ensures CallFits(w.entered[i], db) { assert CallFits(w.entered[i], w.s.db); }
  }

  lemma EntriesSnoc(entered: seq<HandlerCall>, call: HandlerCall, id: string)
    ensures Entries(entered + [call], id) == Entries(entered, id) + if id == call.id then 1 else 0
  {
    assert (entered + [call])[..|entered|] == entered;
  }

  lemma CallRecorded(db: Db, id: string)
    requires G.TokensInv(db) && id in db.tokens
    ensures CallFits(HandlerCall(id, |db.ledger|), db)
  {
    assert G.TokenHolds(db, db.tokens[id].terms);
    assert G.DecisionOnRecord(db, db.tokens[id].terms.decisionId);
  }

  lemma EnterKeeps(host: Host, w: World, thread: nat)
    requires EffectInv(w) && G.TokensInv(w.s.db) && Allowed(w, Enter(thread))
    ensures EffectInv(Next(host, w, Enter(thread)))
  {
    hide Advances, After, CallFits, Effect, Entries, EntriesFit, Settle, Spends;
    assert PhaseFits(w.threads[thread], w.s.db, w.entered);
    var id := w.threads[thread].id;
    CallRecorded(w.s.db, id);
    EnteredKeeps(w, thread, id, HandlerCall(id, |w.s.db.ledger|));
  }

  lemma EnteredKeeps(w: World, thread: nat, id: string, call: HandlerCall)
    requires EffectInv(w) && thread in w.threads && w.threads[thread] == Starting(id) && call.id == id && CallFits(call, w.s.db)
    ensures EffectInv(w.(threads := w.threads[thread := Running(id)], entered := w.entered + [call]))
  {
    var entered, threads := w.entered + [call], w.threads[thread := Running(id)];
    assert PhaseFits(w.threads[thread], w.s.db, w.entered);
    forall t ensures Entries(entered, t) == Entries(w.entered, t) + if t == id then 1 else 0 { EntriesSnoc(w.entered, call, t); }
    forall t | t in threads ensures PhaseFits(threads[t], w.s.db, entered) {
      if t != thread { assert PhaseFits(w.threads[t], w.s.db, w.entered); }
    }
    forall i | 0 <= i < |entered| ensures CallFits(entered[i], w.s.db) {
      if i < |w.entered| { assert CallFits(w.entered[i], w.s.db); }
    }
  }

  lemma CrashKeeps(host: Host, w: World, lost: set<nat>)
    requires EffectInv(w)
    ensures EffectInv(Next(host, w, Crash(lost)))
  {
    hide CallFits, EntriesFit, PhaseFits, Effect;
  }

  /** The states between a thread's own writes are ordinary states of the system. */
  lemma AdvanceSound(db: Db, id: string, target: TokenState, version: string)
    requires SoundDb(db, version) && id in db.tokens && target != Issued
    ensures SoundDb(G.StateSet(db, id, target), version)
  {
    AdvanceShape(db, id, target);
    SpendKeeps(db, G.StateSet(db, id, target), version);
  }

  lemma AdvanceShape(db: Db, id: string, target: TokenState)
    requires id in db.tokens && target != Issued
    ensures SpendShape(db, G.StateSet(db, id, target))
  {}

  lemma BeginKeeps(host: Host, w: World, t: nat)
    requires EffectInv(w) && Sound(w.s) && Allowed(w, Begin(t))
    ensures EffectInv(Next(host, w, Begin(t))) && Sound(Next(host, w, Begin(t)).s)
  {
    hide SoundDb, EffectInv;
    PhaseHolds(w, t);
    AdvanceKeeps(w, t, HandlerStarted, w.threads[t := Starting(w.threads[t].id)]);
    AdvanceSound(w.s.db, w.threads[t].id, HandlerStarted, w.s.policy.version);
  }

  lemma PhaseHolds(w: World, t: nat)
    requires EffectInv(w) && t in w.threads
    ensures PhaseFits(w.threads[t], w.s.db, w.entered)
  {}

  lemma EndKeeps(host: Host, w: World, t: nat, failed: bool)
    requires EffectInv(w) && Sound(w.s) && Allowed(w, End(t, failed))
    ensures EffectInv(Next(host, w, End(t, failed))) && Sound(Next(host, w, End(t, failed)).s)
  {
    hide SoundDb, EffectInv;
    PhaseHolds(w, t);
    AdvanceKeeps(w, t, if failed then HandlerFailed else HandlerCompleted, w.threads - {t});
    AdvanceSound(w.s.db, w.threads[t].id, if failed then HandlerFailed else HandlerCompleted, w.s.policy.version);
  }

  lemma TransactSound(host: Host, w: World, m: Moment, step: Step)
    requires EffectInv(w) && Sound(w.s) && Allowed(w, Transact(m, step))
    ensures EffectInv(Next(host, w, Transact(m, step))) && Sound(Next(host, w, Transact(m, step)).s)
  {
    hide Sound, EffectInv, Systems.After;
    TransactKeeps(host, w, m, step);
    StepSound(host, w.s, m, step);
  }

  lemma SpendBySound(host: Host, w: World, thread: nat, m: Moment, r: Redemption)
    requires EffectInv(w) && Sound(w.s) && Allowed(w, SpendBy(thread, m, r))
    ensures EffectInv(Next(host, w, SpendBy(thread, m, r))) && Sound(Next(host, w, SpendBy(thread, m, r)).s)
  {
    hide Sound, EffectInv, Effect, Systems.After;
    SpendByKeeps(host, w, thread, m, r);
    StepSound(host, w.s, m, Spend(r));
  }

  lemma EnterSound(host: Host, w: World, thread: nat)
    requires EffectInv(w) && Sound(w.s) && Allowed(w, Enter(thread))
    ensures EffectInv(Next(host, w, Enter(thread))) && Sound(Next(host, w, Enter(thread)).s)
  {
    hide EffectInv;
    EnterKeeps(host, w, thread);
  }

  lemma MoveKeeps(host: Host, w: World, move: Move)
    requires EffectInv(w) && Sound(w.s) && Allowed(w, move)
    ensures EffectInv(Next(host, w, move)) && Sound(Next(host, w, move).s)
  {
    hide EffectInv, Sound, Effect;
    match move
    case Transact(m, step) => TransactSound(host, w, m, step);
    case SpendBy(t, m, r) => SpendBySound(host, w, t, m, r);
    case Begin(t) => BeginKeeps(host, w, t);
    case Enter(t) => EnterSound(host, w, t);
    case End(t, failed) => EndKeeps(host, w, t, failed);
    case Crash(lost) => CrashKeeps(host, w, lost);
  }

  // ---- every run -----------------------------------------------------------------------------------------------

  /** Where a sequence of moves leads; a move that is not allowed when its turn comes does not happen. */
  function Play(host: Host, w: World, moves: seq<Move>): World {
    if moves == [] then w
    else
      var n := |moves| - 1;
      var before := Play(host, w, moves[..n]);
      if Allowed(before, moves[n]) then Next(host, before, moves[n]) else before
  }

  lemma {:induction false} PlayKeeps(host: Host, w: World, moves: seq<Move>)
    requires EffectInv(w) && Sound(w.s)
    ensures EffectInv(Play(host, w, moves)) && Sound(Play(host, w, moves).s)
    decreases |moves|
  {
    hide EffectInv, SoundDb, Next;
    if moves != [] {
      var n := |moves| - 1;
      PlayKeeps(host, w, moves[..n]);
      if Allowed(Play(host, w, moves[..n]), moves[n]) { MoveKeeps(host, Play(host, w, moves[..n]), moves[n]); }
    }
  }

  lemma {:induction false} EntriesAtMost(entered: seq<HandlerCall>, i: nat, j: nat)
    requires i < j < |entered| && entered[i].id == entered[j].id
    ensures Entries(entered, entered[i].id) >= 2
    decreases |entered|
  {
    var n := |entered| - 1;
    if j == n {
      EntriesAtLeastOne(entered[..n], i);
    } else {
      EntriesAtMost(entered[..n], i, j);
    }
  }

  lemma {:induction false} EntriesAtLeastOne(entered: seq<HandlerCall>, i: nat)
    requires i < |entered|
    ensures Entries(entered, entered[i].id) >= 1
    decreases |entered|
  {
    var n := |entered| - 1;
    if i < n { EntriesAtLeastOne(entered[..n], i); }
  }

  /** At most one effect, and never off the record.  Over every interleaving of issuing, executing, remote
      redemption, revocation and crashes: no two handler entries share a token, a decision or an approval; a
      revoked token is never entered; `consumed` means never entered, `completed` and `failed` mean entered
      once; and every entry was preceded on the ledger by a committed decision for the same proposal on an
      executable route. */
  lemma AtMostOneEffect(host: Host, start: World, moves: seq<Move>)
    requires EffectInv(start) && Sound(start.s)
    ensures var w := Play(host, start, moves);
            && (forall i, j :: 0 <= i < j < |w.entered| ==> OneEffect(w, w.entered[i], w.entered[j]))
            && (forall t :: t in w.s.db.tokens ==> EntriesFit(w.s.db.tokens[t].state, Entries(w.entered, t)))
            && (forall i :: 0 <= i < |w.entered| ==> OnTheRecord(w, w.entered[i]))
  {
    PlayKeeps(host, start, moves);
    var w := Play(host, start, moves);
    forall i, j | 0 <= i < j < |w.entered| ensures OneEffect(w, w.entered[i], w.entered[j]) { DistinctEntries(w, i, j); }
    forall i | 0 <= i < |w.entered| ensures OnTheRecord(w, w.entered[i]) { EntryRecorded(w, i); }
  }

  lemma DistinctEntries(w: World, i: nat, j: nat)
    requires EffectInv(w) && G.TokensInv(w.s.db) && i < j < |w.entered|
    ensures OneEffect(w, w.entered[i], w.entered[j])
  {
    var c, d := w.entered[i], w.entered[j];
    assert CallFits(c, w.s.db) && CallFits(d, w.s.db);
    assert EntriesFit(w.s.db.tokens[c.id].state, Entries(w.entered, c.id));
    if c.id == d.id {
      EntriesAtMost(w.entered, i, j);
      assert false;
    }
    assert G.Apart(w.s.db.tokens[c.id].terms, w.s.db.tokens[d.id].terms);
  }

  lemma EntryRecorded(w: World, i: nat)
    requires EffectInv(w) && G.TokensInv(w.s.db) && i < |w.entered|
    ensures OnTheRecord(w, w.entered[i])
  {
    assert CallFits(w.entered[i], w.s.db);
    var t := w.s.db.tokens[w.entered[i].id].terms;
    assert G.TokenHolds(w.s.db, t) && G.DecisionOnRecord(w.s.db, t.decisionId);
  }

  /** Before anything has happened nothing has been entered. */
  lemma NothingEntered(policy: Policy, rules: Risk.Rules)
    ensures var w := World(System(EMPTY, policy, rules), map[], []); EffectInv(w) && Sound(w.s)
  {
    EmptyIsSound(policy, rules);
  }

  ghost predicate OneEffect(w: World, c: HandlerCall, d: HandlerCall) {
    && c.id in w.s.db.tokens && d.id in w.s.db.tokens && c.id != d.id
    && G.Apart(w.s.db.tokens[c.id].terms, w.s.db.tokens[d.id].terms)
  }

  ghost predicate OnTheRecord(w: World, c: HandlerCall) {
    && c.id in w.s.db.tokens
    && var t := w.s.db.tokens[c.id].terms;
       exists n, route :: 0 <= n < c.at && n < |w.s.db.ledger|
                          && (route == Autonomous || route == Audit || (route == HumanApproval && t.approvalId.Some?))
                          && w.s.db.ledger[n].body == DecisionCommitted(t.decisionId, t.proposal, route)
  }
}
