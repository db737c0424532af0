/** What an operation is and how much of it may happen: envelopes, budgets and conflicts, judged when a
    decision is made and again when its token is spent.  */
module Risk {
  import opened Tables

  // ---- envelopes -------------------------------------------------------------------------------

  datatype Rule = Bound(field: string, maximum: Option<real>, minimum: Option<real>)
                | OneOf(field: string, values: set<string>)
  {
    predicate Admits(parameters: map<string, Value>) {
      field in parameters &&
      match this
      case Bound(_, maximum, _) =>
        var value := parameters[field];
        value.Number? && Floor() <= value.n && (maximum.Some? ==> value.n <= maximum.value)
      case OneOf(_, values) =>
        parameters[field].Text? && parameters[field].t in values
    }

    /** An omitted minimum is zero, not unbounded. */
    function Floor(): real
      requires Bound?
    {
      if minimum.Some? then minimum.value else 0.0
    }
  }

  datatype Envelope = Envelope(tool: string, riskClass: string, rank: int, effects: set<string>, rules: seq<Rule>) {
    predicate Admits(parameters: map<string, Value>) {
      forall i :: 0 <= i < |rules| ==> rules[i].Admits(parameters)
    }
  }

  predicate Candidate(e: Envelope, tool: string, parameters: map<string, Value>) {
    e.tool == tool && e.Admits(parameters)
  }

  /** The first of the lowest ranked envelopes that admit the arguments. */
  function Best(es: seq<Envelope>, tool: string, parameters: map<string, Value>): Option<Envelope> {
    if es == [] then None
    else
      var later := Best(es[1..], tool, parameters);
      if Candidate(es[0], tool, parameters) && (later.Some? ==> es[0].rank <= later.value.rank) then Some(es[0]) else later
  }

  /** No envelope is found only if none admits the arguments; the one found is for the tool, admits them,
      and no other that does ranks below it.  The order of declaration matters only between equals. */
  lemma {:induction false} BestIsLowest(es: seq<Envelope>, tool: string, parameters: map<string, Value>)
    ensures var best := Best(es, tool, parameters);
            && (best.None? <==> forall e :: e in es ==> !Candidate(e, tool, parameters))
            && (best.Some? ==> best.value in es && Candidate(best.value, tool, parameters))
            && (best.Some? ==> forall e :: e in es && Candidate(e, tool, parameters) ==> best.value.rank <= e.rank)
  {
    if es != [] {
      BestIsLowest(es[1..], tool, parameters);
      assert forall e :: e in es <==> e == es[0] || e in es[1..];
    }
  }

  function Inserted(e: Envelope, sorted: seq<Envelope>): seq<Envelope> {
    if sorted == [] || e.rank <= sorted[0].rank then [e] + sorted
    else [sorted[0]] + Inserted(e, sorted[1..])
  }

  /** Stable sorting by rank. */
  function Sorted(es: seq<Envelope>): seq<Envelope> {
    if es == [] then [] else Inserted(es[0], Sorted(es[1..]))
  }

  function ForTool(es: seq<Envelope>, tool: string): seq<Envelope> {
    if es == [] then []
    else (if es[0].tool == tool then [es[0]] else []) + ForTool(es[1..], tool)
  }

  function FirstAdmitting(es: seq<Envelope>, parameters: map<string, Value>): Option<Envelope> {
    if es == [] then None else if es[0].Admits(parameters) then Some(es[0]) else FirstAdmitting(es[1..], parameters)
  }

  ghost predicate Ascending(es: seq<Envelope>) {
    forall i, j :: 0 <= i < j < |es| ==> es[i].rank <= es[j].rank
  }

  lemma {:induction false} InsertedAscends(e: Envelope, sorted: seq<Envelope>)
    requires Ascending(sorted)
    ensures Ascending(Inserted(e, sorted))
    ensures forall x :: x in Inserted(e, sorted) <==> x == e || x in sorted
  {
    if sorted != [] && e.rank > sorted[0].rank {
      InsertedAscends(e, sorted[1..]);
      var rest := Inserted(e, sorted[1..]);
      forall j | 0 <= j < |rest| ensures sorted[0].rank <= rest[j].rank { assert rest[j] in rest; }
    }
  }

  lemma {:induction false} SortedAscends(es: seq<Envelope>)
    ensures Ascending(Sorted(es))
  {
    if es != [] {
      SortedAscends(es[1..]);
      InsertedAscends(es[0], Sorted(es[1..]));
    }
  }

  lemma {:induction false} FirstOfInserted(e: Envelope, sorted: seq<Envelope>, parameters: map<string, Value>)
    requires Ascending(sorted)
    ensures var rest := FirstAdmitting(sorted, parameters);
            FirstAdmitting(Inserted(e, sorted), parameters)
            == if e.Admits(parameters) && (rest.Some? ==> e.rank <= rest.value.rank) then Some(e) else rest
  {
    if sorted != [] {
      if e.rank <= sorted[0].rank {
        FirstIsLater(sorted, parameters);
      } else {
        FirstOfInserted(e, sorted[1..], parameters);
      }
    }
  }

  lemma {:induction false} FirstIsLater(sorted: seq<Envelope>, parameters: map<string, Value>)
    requires Ascending(sorted) && sorted != []
    ensures FirstAdmitting(sorted, parameters).Some? ==> sorted[0].rank <= FirstAdmitting(sorted, parameters).value.rank
  {
    if |sorted| > 1 { FirstIsLater(sorted[1..], parameters); }
  }

  /** Sorting the tool's envelopes and taking the first that admits is choosing the best. */
  lemma {:induction false} SortedFirstIsBest(es: seq<Envelope>, tool: string, parameters: map<string, Value>)
    ensures FirstAdmitting(Sorted(ForTool(es, tool)), parameters) == Best(es, tool, parameters)
  {
    if es != [] {
      SortedFirstIsBest(es[1..], tool, parameters);
      if es[0].tool == tool {
        var rest := ForTool(es[1..], tool);
        assert ForTool(es, tool) == [es[0]] + rest;
        assert ([es[0]] + rest)[0] == es[0] && ([es[0]] + rest)[1..] == rest;
        assert Sorted(ForTool(es, tool)) == Inserted(es[0], Sorted(rest));
        SortedAscends(rest);
        FirstOfInserted(es[0], Sorted(rest), parameters);
        assert Candidate(es[0], tool, parameters) <==> es[0].Admits(parameters);
        assert FirstAdmitting(Sorted(rest), parameters) == Best(es[1..], tool, parameters);
      } else {
        assert ForTool(es, tool) == ForTool(es[1..], tool);
      }
    }
  }

  method Classify(es: seq<Envelope>, tool: string, parameters: map<string, Value>) returns (r: Option<Envelope>)
    ensures r == Best(es, tool, parameters)
  {
    SortedFirstIsBest(es, tool, parameters);
    var candidates := Sorted(ForTool(es, tool));
    var i := 0;
    while i < |candidates|
      invariant 0 <= i <= |candidates|
      invariant FirstAdmitting(candidates[i..], parameters) == FirstAdmitting(candidates, parameters)
    {
      if candidates[i].Admits(parameters) { return Some(candidates[i]); }
      i := i + 1;
    }
    r := None;
  }

  // ---- budgets ---------------------------------------------------------------------------------

  /** An argument given as null reads like one that is missing. */
  const NULL := Other("null")

  datatype BudgetScope = Global | PerPartition | PerParameter(name: string)
  datatype Budget = Budget(id: string, tools: set<string>, scope: BudgetScope, metric: Option<string>,
                           limit: Option<real>, maxOperations: Option<int>)
  {
    predicate Covers(tool: string) { tools == {} || tool in tools }

    function ScopeOf(p: Proposal): Option<ScopeKey> {
      match scope
      case Global => Some(OfValue(Text("*")))
      case PerPartition => Some(OfPartition(p.partition))
      case PerParameter(name) => if name in p.parameters && p.parameters[name] != NULL then Some(OfValue(p.parameters[name])) else None
    }

    /** Where a charge is filed; a scope that cannot be read is stored as null. */
    function FiledUnder(p: Proposal): ScopeKey {
      if ScopeOf(p).Some? then ScopeOf(p).value else OfValue(NULL)
    }

    /** A charge is a non-negative number; anything else is refused. */
    function Amount(p: Proposal): Option<real> {
      if metric.None? then Some(0.0)
      else if metric.value in p.parameters && p.parameters[metric.value].Number? && p.parameters[metric.value].n >= 0.0
      then Some(p.parameters[metric.value].n)
      else None
    }
  }

  datatype Rules = Rules(version: string, envelopes: seq<Envelope>, budgets: seq<Budget>, conflicts: set<(string, string)>)

  predicate Hits(c: Charge, id: string, scope: ScopeKey) {
    c.budgetId == id && c.scope == scope
  }

  function Total(charges: seq<Charge>, id: string, scope: ScopeKey): real {
    if charges == [] then 0.0
    else
      var last := charges[|charges| - 1];
      Total(charges[..|charges| - 1], id, scope) + if Hits(last, id, scope) then last.amount else 0.0
  }

  function Count(charges: seq<Charge>, id: string, scope: ScopeKey): nat {
    if charges == [] then 0
    else Count(charges[..|charges| - 1], id, scope) + if Hits(charges[|charges| - 1], id, scope) then 1 else 0
  }

  method Totals(charges: seq<Charge>, id: string, scope: ScopeKey) returns (total: real, count: nat)
    ensures total == Total(charges, id, scope) && count == Count(charges, id, scope)
  {
    total, count := 0.0, 0;
    var i := 0;
    while i < |charges|
      invariant 0 <= i <= |charges|
      invariant total == Total(charges[..i], id, scope) && count == Count(charges[..i], id, scope)
    {
      assert charges[..i + 1][..i] == charges[..i];
      if Hits(charges[i], id, scope) { total, count := total + charges[i].amount, count + 1; }
      i := i + 1;
    }
    assert charges[..|charges|] == charges;
  }

  datatype RiskReason = NO_RISK_ENVELOPE | RISK_CLASS_MISMATCH | EFFECT_OUTSIDE_ENVELOPE | BUDGET_SCOPE_ERROR(id: string)
                      | BUDGET_METRIC_ERROR(id: string) | BUDGET_EXCEEDED(id: string) | OPERATION_LIMIT(id: string)
                      | CONFLICTING_ACTION(tool: string)

  function EnvelopeReasons(rules: Rules, p: Proposal): set<RiskReason> {
    var envelope := Best(rules.envelopes, p.tool, p.parameters);
    if envelope.None? then {NO_RISK_ENVELOPE}
    else (if envelope.value.riskClass != p.partition.riskClass then {RISK_CLASS_MISMATCH} else {})
         + (if !(p.effects <= envelope.value.effects) then {EFFECT_OUTSIDE_ENVELOPE} else {})
  }

  function BudgetReasons(b: Budget, charges: seq<Charge>, p: Proposal): set<RiskReason> {
    if !b.Covers(p.tool) then {}
    else if b.ScopeOf(p).None? then {BUDGET_SCOPE_ERROR(b.id)}
    else if b.Amount(p).None? then {BUDGET_METRIC_ERROR(b.id)}
    else
      var scope := b.ScopeOf(p).value;
      (if b.limit.Some? && Total(charges, b.id, scope) + b.Amount(p).value > b.limit.value then {BUDGET_EXCEEDED(b.id)} else {})
      + (if b.maxOperations.Some? && Count(charges, b.id, scope) + 1 > b.maxOperations.value then {OPERATION_LIMIT(b.id)} else {})
  }

  function BudgetsReasons(budgets: seq<Budget>, charges: seq<Charge>, p: Proposal): set<RiskReason> {
    if budgets == [] then {}
    else BudgetsReasons(budgets[..|budgets| - 1], charges, p) + BudgetReasons(budgets[|budgets| - 1], charges, p)
  }

  /** The first earlier operation in the partition that conflicts with this tool. */
  function FirstConflict(rules: Rules, performed: seq<Performed>, p: Proposal): set<RiskReason> {
    if performed == [] then {}
    else
      var row := performed[0];
      if row.partition == p.partition && (row.tool, p.tool) in rules.conflicts then {CONFLICTING_ACTION(row.tool)}
      else FirstConflict(rules, performed[1..], p)
  }

  /** Every reason an operation is outside policy now. */
  function RiskBlockers(rules: Rules, db: Db, p: Proposal): set<RiskReason> {
    EnvelopeReasons(rules, p) + BudgetsReasons(rules.budgets, db.charges, p) + FirstConflict(rules, db.performed, p)
  }

  lemma {:induction false} NoReasonFromAny(budgets: seq<Budget>, charges: seq<Charge>, p: Proposal)
    ensures BudgetsReasons(budgets, charges, p) == {} <==>
            forall i :: 0 <= i < |budgets| ==> BudgetReasons(budgets[i], charges, p) == {}
  {
    if budgets != [] {
      NoReasonFromAny(budgets[..|budgets| - 1], charges, p);
      assert forall i :: 0 <= i < |budgets| - 1 ==> budgets[..|budgets| - 1][i] == budgets[i];
    }
  }

  // ---- charging --------------------------------------------------------------------------------

  function ChargeOf(b: Budget, tokenId: string, p: Proposal): seq<Charge>
    requires b.Covers(p.tool) ==> b.Amount(p).Some?
  {
    if b.Covers(p.tool) then [Charge(b.id, b.FiledUnder(p), b.Amount(p).value, tokenId)] else []
  }

  predicate Chargeable(budgets: seq<Budget>, p: Proposal) {
    forall i :: 0 <= i < |budgets| && budgets[i].Covers(p.tool) ==> budgets[i].Amount(p).Some?
  }

  function ChargesFor(budgets: seq<Budget>, tokenId: string, p: Proposal): seq<Charge>
    requires Chargeable(budgets, p)
  {
    if budgets == [] then []
    else ChargesFor(budgets[..|budgets| - 1], tokenId, p) + ChargeOf(budgets[|budgets| - 1], tokenId, p)
  }

  /** One charge for every budget that covers the tool, and one line of history. */
  function Charged(rules: Rules, db: Db, tokenId: string, p: Proposal): Outcome<Db> {
    if !Chargeable(rules.budgets, p) then Raised
    else Done(db.(charges := db.charges + ChargesFor(rules.budgets, tokenId, p),
                  performed := db.performed + [Performed(p.partition, p.tool, tokenId)]))
  }

  lemma BlockersMeanChargeable(rules: Rules, db: Db, p: Proposal)
    requires RiskBlockers(rules, db, p) == {}
    ensures Chargeable(rules.budgets, p)
    ensures forall i :: 0 <= i < |rules.budgets| ==> BudgetReasons(rules.budgets[i], db.charges, p) == {}
  {
    assert BudgetsReasons(rules.budgets, db.charges, p) <= RiskBlockers(rules, db, p);
    NoReasonFromAny(rules.budgets, db.charges, p);
    forall i | 0 <= i < |rules.budgets| && rules.budgets[i].Covers(p.tool)
      ensures rules.budgets[i].Amount(p).Some?
    {
      assert BudgetReasons(rules.budgets[i], db.charges, p) == {};
      assert BUDGET_METRIC_ERROR(rules.budgets[i].id) in {BUDGET_METRIC_ERROR(rules.budgets[i].id)};
    }
  }

  ghost predicate UniqueIds(budgets: seq<Budget>) {
    forall i, j :: 0 <= i < j < |budgets| ==> budgets[i].id != budgets[j].id
  }

  lemma {:induction false} TotalAppends(a: seq<Charge>, b: seq<Charge>, id: string, scope: ScopeKey)
    ensures Total(a + b, id, scope) == Total(a, id, scope) + Total(b, id, scope)
    ensures Count(a + b, id, scope) == Count(a, id, scope) + Count(b, id, scope)
    decreases |b|
  {
    if b == [] {
      assert a + b == a;
    } else {
      var n := |b| - 1;
      assert (a + b)[..|a + b| - 1] == a + b[..n];
      TotalAppends(a, b[..n], id, scope);
    }
  }

  lemma LastCharge(b: Budget, tokenId: string, p: Proposal, id: string, scope: ScopeKey)
    requires b.Covers(p.tool) ==> b.Amount(p).Some?
    ensures var hit := b.id == id && b.Covers(p.tool) && b.FiledUnder(p) == scope;
            && Total(ChargeOf(b, tokenId, p), id, scope) == (if hit then b.Amount(p).value else 0.0)
            && Count(ChargeOf(b, tokenId, p), id, scope) == if hit then 1 else 0
  {
    if b.Covers(p.tool) {
      assert ChargeOf(b, tokenId, p)[..0] == [];
    }
  }

  ghost predicate WithinBudget(b: Budget, charges: seq<Charge>, scope: ScopeKey) {
    && (b.limit.Some? ==> Total(charges, b.id, scope) <= b.limit.value)
    && (b.maxOperations.Some? ==> Count(charges, b.id, scope) <= b.maxOperations.value)
  }

  /** Every budget is kept in every scope. */
  ghost predicate BudgetsKept(rules: Rules, charges: seq<Charge>) {
    forall i, scope :: 0 <= i < |rules.budgets| ==> WithinBudget(rules.budgets[i], charges, scope)
  }

  /** What one operation charges to an id and scope: the amounts of all the covering budgets with them. */
  function OwnTotal(budgets: seq<Budget>, p: Proposal, id: string, scope: ScopeKey): real
    requires Chargeable(budgets, p)
  {
    if budgets == [] then 0.0
    else
      var last := budgets[|budgets| - 1];
      OwnTotal(budgets[..|budgets| - 1], p, id, scope) + if Charges(last, p, id, scope) then last.Amount(p).value else 0.0
  }

  function OwnCount(budgets: seq<Budget>, p: Proposal, id: string, scope: ScopeKey): nat {
    if budgets == [] then 0
    else OwnCount(budgets[..|budgets| - 1], p, id, scope) + if Charges(budgets[|budgets| - 1], p, id, scope) then 1 else 0
  }

  predicate Charges(b: Budget, p: Proposal, id: string, scope: ScopeKey) {
    b.id == id && b.Covers(p.tool) && b.FiledUnder(p) == scope
  }

  lemma {:induction false} ChargesAddUp(budgets: seq<Budget>, tokenId: string, p: Proposal, id: string, scope: ScopeKey)
    requires Chargeable(budgets, p)
    ensures Total(ChargesFor(budgets, tokenId, p), id, scope) == OwnTotal(budgets, p, id, scope)
    ensures Count(ChargesFor(budgets, tokenId, p), id, scope) == OwnCount(budgets, p, id, scope)
  {
    if budgets != [] {
      var n := |budgets| - 1;
      var front, last := budgets[..n], budgets[n];
      ChargesAddUp(front, tokenId, p, id, scope);
      TotalAppends(ChargesFor(front, tokenId, p), ChargeOf(last, tokenId, p), id, scope);
      LastCharge(last, tokenId, p, id, scope);
    }
  }

  lemma {:induction false} OwnOnce(budgets: seq<Budget>, p: Proposal, id: string, scope: ScopeKey)
    requires UniqueIds(budgets) && Chargeable(budgets, p)
    ensures forall i :: 0 <= i < |budgets| && budgets[i].id == id ==>
              var hit := Charges(budgets[i], p, id, scope);
              && OwnTotal(budgets, p, id, scope) == (if hit then budgets[i].Amount(p).value else 0.0)
              && OwnCount(budgets, p, id, scope) == if hit then 1 else 0
    ensures (forall i :: 0 <= i < |budgets| ==> budgets[i].id != id) ==>
              OwnTotal(budgets, p, id, scope) == 0.0 && OwnCount(budgets, p, id, scope) == 0
  {
    if budgets != [] {
      var front := budgets[..|budgets| - 1];
      OwnOnce(front, p, id, scope);
      assert forall i :: 0 <= i < |front| ==> front[i] == budgets[i];
    }
  }

  /** With unique ids, an operation charges each budget that covers it exactly once, and nothing else. */
  lemma OneChargeEach(budgets: seq<Budget>, tokenId: string, p: Proposal, id: string, scope: ScopeKey)
    requires UniqueIds(budgets) && Chargeable(budgets, p)
    ensures forall i :: 0 <= i < |budgets| && budgets[i].id == id ==>
              var hit := budgets[i].Covers(p.tool) && budgets[i].FiledUnder(p) == scope;
              && Total(ChargesFor(budgets, tokenId, p), id, scope) == (if hit then budgets[i].Amount(p).value else 0.0)
              && Count(ChargesFor(budgets, tokenId, p), id, scope) == if hit then 1 else 0
    ensures (forall i :: 0 <= i < |budgets| ==> budgets[i].id != id) ==>
              Total(ChargesFor(budgets, tokenId, p), id, scope) == 0.0 && Count(ChargesFor(budgets, tokenId, p), id, scope) == 0
  {
    hide Total, Count, ChargesFor, OwnTotal, OwnCount;
    ChargesAddUp(budgets, tokenId, p, id, scope);
    OwnOnce(budgets, p, id, scope);
  }

  /** There is room for everything the operation charges to a budget's id, read before it is charged. */
  predicate HasRoom(b: Budget, budgets: seq<Budget>, charges: seq<Charge>, p: Proposal, scope: ScopeKey)
    requires Chargeable(budgets, p)
  {
    && (b.limit.Some? ==> Total(charges, b.id, scope) + OwnTotal(budgets, p, b.id, scope) <= b.limit.value)
    && (b.maxOperations.Some? ==> Count(charges, b.id, scope) + OwnCount(budgets, p, b.id, scope) <= b.maxOperations.value)
  }

  lemma RoomIsKept(b: Budget, budgets: seq<Budget>, charges: seq<Charge>, tokenId: string, p: Proposal, scope: ScopeKey)
    requires Chargeable(budgets, p)
    ensures WithinBudget(b, charges + ChargesFor(budgets, tokenId, p), scope) <==> HasRoom(b, budgets, charges, p, scope)
  {
    ChargesAddUp(budgets, tokenId, p, b.id, scope);
    TotalAppends(charges, ChargesFor(budgets, tokenId, p), b.id, scope);
  }

  /** Every budget has room for the operation in every scope. */
  ghost predicate RoomForAll(rules: Rules, charges: seq<Charge>, p: Proposal)
    requires Chargeable(rules.budgets, p)
  {
    forall i, scope :: 0 <= i < |rules.budgets| ==> HasRoom(rules.budgets[i], rules.budgets, charges, p, scope)
  }

  /** Exactly when an operation that is not refused keeps every budget, ids shared or not: when the budgets of
      each id together have room for it. */
  lemma ChargingKeepsExactly(rules: Rules, db: Db, tokenId: string, p: Proposal)
    requires RiskBlockers(rules, db, p) == {}
    ensures Chargeable(rules.budgets, p) && Charged(rules, db, tokenId, p).Done?
    ensures BudgetsKept(rules, Charged(rules, db, tokenId, p).value.charges) <==> RoomForAll(rules, db.charges, p)
  {
    BlockersMeanChargeable(rules, db, p);
    var after := Charged(rules, db, tokenId, p).value;
    forall i, scope | 0 <= i < |rules.budgets|
      ensures WithinBudget(rules.budgets[i], after.charges, scope) <==> HasRoom(rules.budgets[i], rules.budgets, db.charges, p, scope)
    {
      RoomIsKept(rules.budgets[i], rules.budgets, db.charges, tokenId, p, scope);
    }
  }

  /** With unique ids the room that a refusal looks for is all the room there needs to be. */
  lemma UniqueIdsHaveRoom(rules: Rules, db: Db, tokenId: string, p: Proposal)
    requires UniqueIds(rules.budgets) && BudgetsKept(rules, db.charges) && RiskBlockers(rules, db, p) == {}
    ensures Chargeable(rules.budgets, p) && RoomForAll(rules, db.charges, p)
  {
    BlockersMeanChargeable(rules, db, p);
    forall i, scope | 0 <= i < |rules.budgets| ensures HasRoom(rules.budgets[i], rules.budgets, db.charges, p, scope) {
      assert WithinBudget(rules.budgets[i], db.charges, scope);
      OneChargeEach(rules.budgets, tokenId, p, rules.budgets[i].id, scope);
      ChargesAddUp(rules.budgets, tokenId, p, rules.budgets[i].id, scope);
      if rules.budgets[i].Covers(p.tool) { NotExceeded(rules.budgets[i], db.charges, p); }
    }
  }

  lemma NotExceeded(b: Budget, charges: seq<Charge>, p: Proposal)
    requires BudgetReasons(b, charges, p) == {} && b.Covers(p.tool)
    ensures b.ScopeOf(p).Some? && b.Amount(p).Some?
    ensures b.limit.Some? ==> Total(charges, b.id, b.ScopeOf(p).value) + b.Amount(p).value <= b.limit.value
    ensures b.maxOperations.Some? ==> Count(charges, b.id, b.ScopeOf(p).value) + 1 <= b.maxOperations.value
  {
    var all := BudgetReasons(b, charges, p);
    assert BUDGET_SCOPE_ERROR(b.id) !in all && BUDGET_METRIC_ERROR(b.id) !in all;
    assert BUDGET_EXCEEDED(b.id) !in all && OPERATION_LIMIT(b.id) !in all;
  }

  /** So an operation that was not refused in the state it is charged in keeps every budget, whatever was
      affordable when its token was issued. */
  lemma ChargingKeepsBudgets(rules: Rules, db: Db, tokenId: string, p: Proposal)
    requires UniqueIds(rules.budgets) && BudgetsKept(rules, db.charges) && RiskBlockers(rules, db, p) == {}
    ensures Charged(rules, db, tokenId, p).Done?
    ensures BudgetsKept(rules, Charged(rules, db, tokenId, p).value.charges)
  {
    ChargingKeepsExactly(rules, db, tokenId, p);
    UniqueIdsHaveRoom(rules, db, tokenId, p);
  }

  /** Whatever has been charged before, and under whatever earlier rules, an operation that is charged
      leaves every budget that covers it within its present limits: a tightened limit binds at once. */
  lemma LaterChargesRespectNewLimits(rules: Rules, db: Db, tokenId: string, p: Proposal, i: nat)
    requires UniqueIds(rules.budgets) && RiskBlockers(rules, db, p) == {}
    requires i < |rules.budgets| && rules.budgets[i].Covers(p.tool)
    ensures Charged(rules, db, tokenId, p).Done? && rules.budgets[i].ScopeOf(p).Some?
    ensures WithinBudget(rules.budgets[i], Charged(rules, db, tokenId, p).value.charges, rules.budgets[i].ScopeOf(p).value)
  {
    BlockersMeanChargeable(rules, db, p);
    NotExceeded(rules.budgets[i], db.charges, p);
    var scope := rules.budgets[i].ScopeOf(p).value;
    OneChargeEach(rules.budgets, tokenId, p, rules.budgets[i].id, scope);
    TotalAppends(db.charges, ChargesFor(rules.budgets, tokenId, p), rules.budgets[i].id, scope);
  }

  /** Two budgets under one id are charged twice by an operation that neither refuses. */
  lemma SharedIdsOverdraw(b: Budget, tokenId: string, p: Proposal)
    requires b.maxOperations == Some(1) && b.Covers(p.tool) && b.ScopeOf(p).Some? && b.Amount(p).Some?
    requires BudgetReasons(b, [], p) == {}
    ensures BudgetsReasons([b, b], [], p) == {} && Chargeable([b, b], p)
    ensures !WithinBudget(b, ChargesFor([b, b], tokenId, p), b.ScopeOf(p).value)
  {
    NoReasonFromAny([b, b], [], p);
    ChargesAddUp([b, b], tokenId, p, b.id, b.ScopeOf(p).value);
    CountedTwice(b, p);
  }

  lemma CountedTwice(b: Budget, p: Proposal)
    requires b.Covers(p.tool)
    ensures OwnCount([b, b], p, b.id, b.FiledUnder(p)) == 2
  {
    var scope := b.FiledUnder(p);
    assert [b, b][..1] == [b] && [b][..0] == [];
    assert OwnCount([], p, b.id, scope) == 0;
    assert OwnCount([b], p, b.id, scope) == 1;
  }

  // ---- changing the rules ------------------------------------------------------------------------

  predicate Governs(rules: Rules, tool: string) {
    (exists i :: 0 <= i < |rules.envelopes| && rules.envelopes[i].tool == tool)
    || (exists i :: 0 <= i < |rules.budgets| && rules.budgets[i].Covers(tool))
  }

  /** Whether the rules govern any tool at all. */
  predicate Governing(rules: Rules) {
    rules.envelopes != [] || rules.budgets != []
  }

  function Refused(db: Db, old_: Rules, rules: Rules): set<string> {
    set t | t in db.tokens && (Governs(old_, db.tokens[t].terms.tool) || Governs(rules, db.tokens[t].terms.tool))
      && RiskBlockers(rules, db, db.tokens[t].terms.proposal) != {}
  }

  /** New rules revoke, in one event, every issued token they refuse. */
  function RulesChanged(db: Db, old_: Rules, rules: Rules): Outcome<Db> {
    var envelopes := rules.envelopes != old_.envelopes;
    var budgets := rules.budgets != old_.budgets || rules.conflicts != old_.conflicts;
    if (!envelopes && !budgets) || (!Governing(old_) && !Governing(rules)) then Done(db)
    else TokensRevoked(db, if envelopes then EnvelopeChanged else BudgetTightened, Refused(db, old_, rules), CONTROLLER)
  }

  /** After a change of rules no governed token that they refuse is left to spend. */
  lemma ChangedRulesAreEnforced(db: Db, old_: Rules, rules: Rules, t: string)
    requires RulesChanged(db, old_, rules).Done? && (rules.envelopes, rules.budgets, rules.conflicts)
                                                   != (old_.envelopes, old_.budgets, old_.conflicts)
    requires t in db.tokens && (Governs(old_, db.tokens[t].terms.tool) || Governs(rules, db.tokens[t].terms.tool))
    ensures var after := RulesChanged(db, old_, rules).value;
            && after.tokens.Keys == db.tokens.Keys
            && (after.tokens[t].state == Issued ==> RiskBlockers(rules, after, after.tokens[t].terms.proposal) == {})
  {
    RevokeInSpec(db.tokens, EnvelopeChanged, Refused(db, old_, rules));
    RevokeInSpec(db.tokens, BudgetTightened, Refused(db, old_, rules));
  }

  class RiskPolicy {
    const store: Store
    var rules: Rules

    constructor (store: Store, rules: Rules)
      ensures this.store == store && this.rules == rules
    {
      this.store, this.rules := store, rules;
    }

    method ProposalBlockers(p: Proposal) returns (reasons: set<RiskReason>)
      ensures reasons == RiskBlockers(rules, store.db, p)
    {
      var envelope := Classify(rules.envelopes, p.tool, p.parameters);
      var own := {};
      if envelope.None? {
        own := {NO_RISK_ENVELOPE};
      } else {
        if envelope.value.riskClass != p.partition.riskClass { own := own + {RISK_CLASS_MISMATCH}; }
        if !(p.effects <= envelope.value.effects) { own := own + {EFFECT_OUTSIDE_ENVELOPE}; }
      }
      var budgets := BudgetBlockers(rules.budgets, store.db.charges, p);
      var conflict := ConflictBlockers(p);
      reasons := own + budgets + conflict;
    }

    static method BudgetBlockers(budgets: seq<Budget>, charges: seq<Charge>, p: Proposal) returns (reasons: set<RiskReason>)
      ensures reasons == BudgetsReasons(budgets, charges, p)
    {
      reasons := {};
      var i := 0;
      while i < |budgets|
        invariant 0 <= i <= |budgets|
        invariant reasons == BudgetsReasons(budgets[..i], charges, p)
      {
        assert budgets[..i + 1][..i] == budgets[..i];
        var found := OneBudget(budgets[i], charges, p);
        reasons := reasons + found;
        i := i + 1;
      }
      assert budgets[..|budgets|] == budgets;
    }

    static method OneBudget(b: Budget, charges: seq<Charge>, p: Proposal) returns (reasons: set<RiskReason>)
      ensures reasons == BudgetReasons(b, charges, p)
    {
      reasons := {};
      if !b.Covers(p.tool) { return; }
      if b.ScopeOf(p).None? { return {BUDGET_SCOPE_ERROR(b.id)}; }
      var total, count := Totals(charges, b.id, b.ScopeOf(p).value);
      if b.Amount(p).None? { return {BUDGET_METRIC_ERROR(b.id)}; }
      if b.limit.Some? && total + b.Amount(p).value > b.limit.value { reasons := reasons + {BUDGET_EXCEEDED(b.id)}; }
      if b.maxOperations.Some? && count + 1 > b.maxOperations.value { reasons := reasons + {OPERATION_LIMIT(b.id)}; }
    }

    method ConflictBlockers(p: Proposal) returns (reasons: set<RiskReason>)
      ensures reasons == FirstConflict(rules, store.db.performed, p)
    {
      var performed := store.db.performed;
      var i := 0;
      while i < |performed|
        invariant 0 <= i <= |performed|
        invariant FirstConflict(rules, performed[i..], p) == FirstConflict(rules, performed, p)
      {
        if performed[i].partition == p.partition && (performed[i].tool, p.tool) in rules.conflicts {
          return {CONFLICTING_ACTION(performed[i].tool)};
        }
        i := i + 1;
      }
      reasons := {};
    }

    method ChargeOne(b: Budget, tokenId: string, p: Proposal) returns (r: Status)
      modifies store`db
      ensures r.Raised? <==> b.Covers(p.tool) && b.Amount(p).None?
      ensures r.Done? ==> store.db == old(store.db).(charges := old(store.db).charges + ChargeOf(b, tokenId, p))
    {
      if b.Covers(p.tool) {
        if b.Amount(p).None? { return Raised; }
        store.db := store.db.(charges := store.db.charges + [Charge(b.id, b.FiledUnder(p), b.Amount(p).value, tokenId)]);
      }
      r := OK;
    }

    /** Called in the transaction that spends the token. */
    method Commit(tokenId: string, p: Proposal) returns (r: Status)
      requires store.depth > 0
      modifies store`db
      ensures Follows(Charged(rules, old(store.db), tokenId, p), r, store.db)
    {
      ghost var before := store.db;
      var i := 0;
      while i < |rules.budgets|
        invariant 0 <= i <= |rules.budgets|
        invariant Chargeable(rules.budgets[..i], p)
        invariant store.db == before.(charges := before.charges + ChargesFor(rules.budgets[..i], tokenId, p))
      {
        assert rules.budgets[..i + 1][..i] == rules.budgets[..i];
        r := ChargeOne(rules.budgets[i], tokenId, p);
        if r.Raised? { return; }
        i := i + 1;
      }
      assert rules.budgets[..|rules.budgets|] == rules.budgets;
      store.db := store.db.(performed := store.db.performed + [Performed(p.partition, p.tool, tokenId)]);
      r := OK;
    }

    method Update(new_: Rules) returns (r: Status)
      modifies this`rules, store
      ensures Transacted(store, RulesChanged(old(store.db), old(rules), new_), r)
      ensures rules == new_
    {
      var old_ := rules;
      var envelopes := new_.envelopes != old_.envelopes;
      var budgets := new_.budgets != old_.budgets || new_.conflicts != old_.conflicts;
      rules := new_;
      if (!envelopes && !budgets) || (!Governing(old_) && !Governing(new_)) { return OK; }
      store.Begin();
      r := store.Revoke(if envelopes then EnvelopeChanged else BudgetTightened, Refused(store.db, old_, new_), CONTROLLER);
      store.End(r);
    }
  }
}
