/** The estimator driver: a binary-searched success threshold for each n and an incremental event queue
    stand in for evaluating the bound on a full recount at every step.  */
module Statistics {
  import opened Martingale
  import opened LikelihoodFacts
  import opened Sequential
  import opened Anytime
  import opened Delay

  // ---- success thresholds ---------------------------------------------------------------------

  predicate Meets(s: nat, n: nat, r: real, alpha: real)
    requires s <= n
  {
    JeffreysBound(s, n - s, alpha) >= r
  }

  /** What the binary search alone establishes. */
  predicate Boundary(s: nat, n: nat, r: real, alpha: real) {
    s <= n + 1 && (s <= n ==> Meets(s, n, r, alpha)) && (s > 0 ==> !Meets(s - 1, n, r, alpha))
  }

  method SuccessThreshold(alpha: real, r: real, nMax: nat) returns (table: Result<seq<nat>>)
    ensures table.Err? <==> alpha <= 0.0 || alpha >= 1.0
    ensures table.Ok? ==> |table.value| == nMax + 1 && forall n :: 0 <= n <= nMax ==> Boundary(table.value[n], n, r, alpha)
  {
    var out: seq<nat> := [];
    var n := 0;
    while n <= nMax
      invariant n <= nMax + 1 && |out| == n
      invariant n > 0 ==> 0.0 < alpha < 1.0
      invariant forall m :: 0 <= m < n ==> Boundary(out[m], m, r, alpha)
    {
      var lo, hi := 0, n + 1;
      while lo < hi
        invariant 0 <= lo <= hi <= n + 1
        invariant lo < hi || 0.0 < alpha < 1.0
        invariant hi <= n ==> Meets(hi, n, r, alpha)
        invariant lo > 0 ==> !Meets(lo - 1, n, r, alpha)
      {
        var mid := (lo + hi) / 2;
        assert mid <= n;
        var bound := BetaMixtureLowerBound(mid, n - mid, alpha, JEFFREYS, JEFFREYS);
        if bound.Err? { return Err(bound.error); }
        assert bound.value == JeffreysBound(mid, n - mid, alpha);
        if bound.value >= r { hi := mid; } else { lo := mid + 1; }
      }
      out := out + [lo];
      n := n + 1;
    }
    table := Ok(out);
  }

  lemma GridFineBelow(r: real, n: nat, h: nat)
    requires n <= h && GridFine(r, h)
    ensures GridFine(r, n)
  {
    MulMonotone(n as real, h as real, n as real, h as real);
  }

  lemma BoundNotNegative(s: nat, f: nat, alpha: real)
    requires 0.0 < alpha < 1.0
    ensures JeffreysBound(s, f, alpha) >= 0.0
  {
    if s > 0 { BoundBracket(s, f, alpha, JeffreysBound(s, f, alpha), Halved(Rate(s, f), BISECTION_STEPS)); }
  }

  lemma {:induction false} MeetsUpwards(s: nat, s': nat, n: nat, r: real, alpha: real)
    requires 0.0 < alpha < 1.0 && s <= s' <= n && Meets(s, n, r, alpha)
    requires GridFine(r, n)
    ensures Meets(s', n, r, alpha)
    decreases s' - s
  {
    if r <= 0.0 {
      BoundNotNegative(s', n - s', alpha);
    } else if s < s' {
      assert n - s == (n - s - 1) + 1 && s + (n - s - 1) + 1 == n;
      SuccessKeepsBound(s, n - s - 1, r, alpha);
      MeetsUpwards(s + 1, s', n, r, alpha);
    }
  }

  /** The table is exact: a success count meets the gate exactly when it is at least the entry, for every
      n with n^2 <= 2^63 r (and for a requirement of 0 or less at every n).  */
  lemma ThresholdExact(entry: nat, s: nat, n: nat, r: real, alpha: real)
    requires 0.0 < alpha < 1.0 && Boundary(entry, n, r, alpha) && s <= n
    requires GridFine(r, n)
    ensures Meets(s, n, r, alpha) <==> s >= entry
  {
    if s >= entry {
      MeetsUpwards(entry, s, n, r, alpha);
    } else if Meets(s, n, r, alpha) {
      MeetsUpwards(s, entry - 1, n, r, alpha);
    }
  }

  /** At every n whatsoever the entry is within one grid step of exact: at or above it the martingale has
      excluded the requirement, and below it the bound falls short of the requirement plus 2^-64. */
  lemma ThresholdWithinGrid(entry: nat, s: nat, n: nat, r: real, alpha: real)
    requires 0.0 < alpha < 1.0 && 0.0 < r && Boundary(entry, n, r, alpha) && s <= n
    ensures s >= entry ==> Crossed(s, n - s, r, alpha, JEFFREYS, JEFFREYS)
    ensures s < entry ==> JeffreysBound(s, n - s, alpha) < r + Halved(1.0, BISECTION_STEPS)
  {
    if s >= entry {
      BoundImpliesCrossed(entry, n - entry, r, alpha, JEFFREYS, JEFFREYS);
      MoreSuccessesKeepCrossing(entry, n - entry, s, n - s, r, alpha, JEFFREYS, JEFFREYS);
    } else {
      var up, last := r + Halved(1.0, BISECTION_STEPS), entry - 1;
      HalvedTimesPower(1.0, BISECTION_STEPS);
      PowRange(2.0, BISECTION_STEPS);
      if JeffreysBound(s, n - s, alpha) >= up {
        assert up > 0.0 by { HalvedPositive(1.0); }
        BoundImpliesCrossed(s, n - s, up, alpha, JEFFREYS, JEFFREYS);
        MoreSuccessesKeepCrossing(s, n - s, last, n - last, up, alpha, JEFFREYS, JEFFREYS);
        assert last > 0;
        CrossedImpliesNearBound(last, n - last, up, alpha);
        RateRange(last, n - last);
        HalvedMonotone(Rate(last, n - last), 1.0, BISECTION_STEPS);
        assert false;
      }
    }
  }

  lemma HalvedPositive(w: real)
    requires w > 0.0
    ensures Halved(w, BISECTION_STEPS) > 0.0
  {
    HalvedTimesPower(w, BISECTION_STEPS);
    PowRange(2.0, BISECTION_STEPS);
    Cancel(0.0, Halved(w, BISECTION_STEPS), Pow(2.0, BISECTION_STEPS));
  }

  lemma {:induction false} HalvedMonotone(w: real, v: real, n: nat)
    requires w <= v
    ensures Halved(w, n) <= Halved(v, n)
    decreases n
  {
    if n > 0 { HalvedMonotone(w / 2.0, v / 2.0, n - 1); }
  }

  // ---- the event queue --------------------------------------------------------------------------

  /** Frozen at a step, visible from a step, counted as a success or not. */
  datatype Trial = Trial(frozen: int, visible: int, value: bool)
  datatype PendingRule = Deadline | Pessimistic
  datatype Crossing = DuplicateStep | BadLevel | Never | At(step: nat)

  ghost function Count(ts: seq<Trial>, p: Trial -> bool): nat {
    if ts == [] then 0 else (if p(ts[0]) then 1 else 0) + Count(ts[1..], p)
  }

  // The recount: what has been frozen, resolved and counted as a success at step t.
  ghost function Frozen(t: int): Trial -> bool { (x: Trial) => 0 <= x.frozen < t }
  ghost function Resolved(t: int): Trial -> bool { (x: Trial) => 0 <= x.frozen < x.visible <= t }
  ghost function Succeeded(t: int): Trial -> bool { (x: Trial) => 0 <= x.frozen < x.visible <= t && x.value }
  // What the queue holds for step k after the trials before step t.
  ghost function Due(t: int, k: int): Trial -> bool { (x: Trial) => 0 <= x.frozen < t && x.visible == k }
  ghost function DueSuccess(t: int, k: int): Trial -> bool { (x: Trial) => 0 <= x.frozen < t && x.visible == k && x.value }

  ghost function InCount(rule: PendingRule, ts: seq<Trial>, t: int): nat {
    if rule == Pessimistic then Count(ts, Frozen(t)) else Count(ts, Resolved(t))
  }

  /** The gate by a full recount at step t. */
  ghost predicate GateMet(rule: PendingRule, nMin: int, r: real, alpha: real, ts: seq<Trial>, t: int) {
    var n, s := InCount(rule, ts, t), Count(ts, Succeeded(t));
    n >= nMin && s <= n && Meets(s, n, r, alpha)
  }

  lemma {:induction false} CountAdds(ts: seq<Trial>, p: Trial -> bool, q: Trial -> bool, u: Trial -> bool)
    requires forall x :: x in ts ==> (u(x) <==> p(x) || q(x)) && !(p(x) && q(x))
    ensures Count(ts, u) == Count(ts, p) + Count(ts, q)
  {
    if ts != [] { CountAdds(ts[1..], p, q, u); }
  }

  lemma {:induction false} CountMonotone(ts: seq<Trial>, p: Trial -> bool, q: Trial -> bool)
    requires forall x :: x in ts && p(x) ==> q(x)
    ensures Count(ts, p) <= Count(ts, q)
  {
    if ts != [] { CountMonotone(ts[1..], p, q); }
  }

  lemma {:induction false} CountNone(ts: seq<Trial>, p: Trial -> bool)
    requires forall x :: x in ts ==> !p(x)
    ensures Count(ts, p) == 0
  {
    if ts != [] { CountNone(ts[1..], p); }
  }

  ghost predicate DistinctSteps(ts: seq<Trial>) {
    forall i, j :: 0 <= i < j < |ts| ==> ts[i].frozen != ts[j].frozen
  }

  /** With distinct steps, a property that only one trial can have is counted once or not at all. */
  lemma {:induction false} CountOne(ts: seq<Trial>, p: Trial -> bool, t: int)
    requires DistinctSteps(ts) && forall x :: x in ts && p(x) ==> x.frozen == t
    ensures Count(ts, p) == if exists x :: x in ts && p(x) then 1 else 0
  {
    if ts != [] {
      if p(ts[0]) {
        forall x | x in ts[1..] ensures !p(x) {
          var i :| 0 <= i < |ts[1..]| && ts[1..][i] == x;
          assert ts[i + 1] == x;
        }
        CountNone(ts[1..], p);
      } else {
        CountOne(ts[1..], p, t);
        assert forall x :: x in ts && p(x) ==> x in ts[1..];
      }
    }
  }

  method ByStep(ts: seq<Trial>) returns (byStep: map<int, Trial>, distinct: bool)
    ensures distinct <==> DistinctSteps(ts)
    ensures forall x :: x in ts ==> x.frozen in byStep
    ensures forall k :: k in byStep ==> byStep[k] in ts && byStep[k].frozen == k
  {
    byStep, distinct := map[], true;
    for i := 0 to |ts|
      invariant distinct <==> forall a, b :: 0 <= a < b < i ==> ts[a].frozen != ts[b].frozen
      invariant forall a :: 0 <= a < i ==> ts[a].frozen in byStep
      invariant forall k :: k in byStep ==> byStep[k] in ts[..i] && byStep[k].frozen == k
    {
      if ts[i].frozen in byStep {
        var earlier := byStep[ts[i].frozen];
        var a :| 0 <= a < i && ts[a] == earlier;
        assert ts[a].frozen == ts[i].frozen;
        distinct := false;
      }
      byStep := byStep[ts[i].frozen := ts[i]];
    }
    assert ts[..|ts|] == ts;
  }

  function Trues(values: seq<bool>): nat {
    if values == [] then 0 else (if values[0] then 1 else 0) + Trues(values[1..])
  }

  lemma {:induction false} TruesSnoc(values: seq<bool>, v: bool)
    ensures Trues(values + [v]) == Trues(values) + if v then 1 else 0
  {
    if values != [] {
      TruesSnoc(values[1..], v);
      assert (values + [v])[1..] == values[1..] + [v];
    }
  }

  function Waiting(due: map<int, seq<bool>>, k: int): seq<bool> {
    if k in due then due[k] else []
  }

  /** The queue agrees with the trials: for every later step it holds one value per trial due then. */
  ghost predicate QueueAgrees(ts: seq<Trial>, due: map<int, seq<bool>>, t: int, from: int) {
    forall k :: k >= from ==> |Waiting(due, k)| == Count(ts, Due(t, k)) && Trues(Waiting(due, k)) == Count(ts, DueSuccess(t, k))
  }

  lemma QueueStep(ts: seq<Trial>, t: nat, x: Trial, k: int)
    requires DistinctSteps(ts) && x in ts && x.frozen == t
    ensures Count(ts, Due(t + 1, k)) == Count(ts, Due(t, k)) + if x.visible == k then 1 else 0
    ensures Count(ts, DueSuccess(t + 1, k)) == Count(ts, DueSuccess(t, k)) + if x.visible == k && x.value then 1 else 0
  {
    var now := (y: Trial) => y.frozen == t && y.visible == k;
    var nowTrue := (y: Trial) => y.frozen == t && y.visible == k && y.value;
    CountAdds(ts, Due(t, k), now, Due(t + 1, k));
    CountAdds(ts, DueSuccess(t, k), nowTrue, DueSuccess(t + 1, k));
    CountOne(ts, now, t);
    CountOne(ts, nowTrue, t);
    OnlyOne(ts, x);
  }

  lemma OnlyOne(ts: seq<Trial>, x: Trial)
    requires DistinctSteps(ts) && x in ts
    ensures forall y :: y in ts && y.frozen == x.frozen ==> y == x
  {
    var i :| 0 <= i < |ts| && ts[i] == x;
    forall y | y in ts && y.frozen == x.frozen ensures y == x {
      var j :| 0 <= j < |ts| && ts[j] == y;
    }
  }

  lemma QueueIdle(ts: seq<Trial>, t: nat, k: int)
    requires forall x :: x in ts ==> x.frozen != t
    ensures Count(ts, Due(t + 1, k)) == Count(ts, Due(t, k))
    ensures Count(ts, DueSuccess(t + 1, k)) == Count(ts, DueSuccess(t, k))
  {
    CountMonotone(ts, Due(t + 1, k), Due(t, k));
    CountMonotone(ts, Due(t, k), Due(t + 1, k));
    CountMonotone(ts, DueSuccess(t + 1, k), DueSuccess(t, k));
    CountMonotone(ts, DueSuccess(t, k), DueSuccess(t + 1, k));
  }

  lemma FrozenStep(ts: seq<Trial>, t: nat)
    requires DistinctSteps(ts)
    ensures Count(ts, Frozen(t + 1)) == Count(ts, Frozen(t)) + if exists x :: x in ts && x.frozen == t then 1 else 0
  {
    var now := (y: Trial) => y.frozen == t;
    CountAdds(ts, Frozen(t), now, Frozen(t + 1));
    CountOne(ts, now, t);
  }

  lemma ResolvedStep(ts: seq<Trial>, t: nat)
    ensures Count(ts, Resolved(t)) == Count(ts, Resolved(t - 1)) + Count(ts, Due(t, t))
    ensures Count(ts, Succeeded(t)) == Count(ts, Succeeded(t - 1)) + Count(ts, DueSuccess(t, t))
  {
    CountAdds(ts, Resolved(t - 1), Due(t, t), Resolved(t));
    CountAdds(ts, Succeeded(t - 1), DueSuccess(t, t), Succeeded(t));
  }

  lemma StartOfQueue(ts: seq<Trial>, k: int)
    ensures Count(ts, Due(0, k)) == Count(ts, DueSuccess(0, k)) == 0
    ensures Count(ts, Frozen(0)) == Count(ts, Resolved(-1)) == Count(ts, Succeeded(-1)) == 0
  {
    CountNone(ts, Due(0, k));
    CountNone(ts, DueSuccess(0, k));
    CountNone(ts, Frozen(0));
    CountNone(ts, Resolved(-1));
    CountNone(ts, Succeeded(-1));
  }

  lemma CountsNested(ts: seq<Trial>, t: nat)
    requires DistinctSteps(ts)
    ensures Count(ts, Succeeded(t)) <= Count(ts, Resolved(t)) <= Count(ts, Frozen(t)) <= t
  {
    CountMonotone(ts, Succeeded(t), Resolved(t));
    CountMonotone(ts, Resolved(t), Frozen(t));
    FrozenAtMost(ts, t);
  }

  lemma {:induction false} FrozenAtMost(ts: seq<Trial>, t: nat)
    requires DistinctSteps(ts)
    ensures Count(ts, Frozen(t)) <= t
    decreases t
  {
    if t == 0 { StartOfQueue(ts, 0); } else { FrozenAtMost(ts, t - 1); FrozenStep(ts, t - 1); }
  }

  ghost predicate Tabulated(rule: PendingRule, nMin: int, threshold: seq<nat>, ts: seq<Trial>, t: int) {
    var n := InCount(rule, ts, t);
    n >= nMin && n < |threshold| && Count(ts, Succeeded(t)) >= threshold[n]
  }

  method Drain(now: seq<bool>, resolved: nat, successes: nat) returns (resolved': nat, successes': nat)
    ensures resolved' == resolved + |now| && successes' == successes + Trues(now)
  {
    resolved', successes' := resolved, successes;
    for i := 0 to |now|
      invariant resolved' == resolved + i && successes' + Trues(now[i..]) == successes + Trues(now)
    {
      assert now[i..][1..] == now[i + 1..];
      resolved' := resolved' + 1;
      successes' := successes' + if now[i] then 1 else 0;
    }
  }

  lemma QueueAfterDrain(ts: seq<Trial>, due: map<int, seq<bool>>, t: nat)
    requires QueueAgrees(ts, due, t, t)
    ensures QueueAgrees(ts, due - {t}, t, t + 1)
    ensures Count(ts, Resolved(t)) == Count(ts, Resolved(t - 1)) + |Waiting(due, t)|
    ensures Count(ts, Succeeded(t)) == Count(ts, Succeeded(t - 1)) + Trues(Waiting(due, t))
  {
    ResolvedStep(ts, t);
  }

  lemma QueueAfterFreeze(ts: seq<Trial>, due: map<int, seq<bool>>, t: nat, x: Trial)
    requires DistinctSteps(ts) && x in ts && x.frozen == t && QueueAgrees(ts, due, t, t + 1)
    ensures QueueAgrees(ts, due[x.visible := Waiting(due, x.visible) + [x.value]], t + 1, t + 1)
  {
    var due' := due[x.visible := Waiting(due, x.visible) + [x.value]];
    TruesSnoc(Waiting(due, x.visible), x.value);
    forall k | k >= t + 1
      ensures |Waiting(due', k)| == Count(ts, Due(t + 1, k)) && Trues(Waiting(due', k)) == Count(ts, DueSuccess(t + 1, k))
    {
      QueueStep(ts, t, x, k);
    }
  }

  lemma QueueAfterIdle(ts: seq<Trial>, due: map<int, seq<bool>>, t: nat)
    requires (forall x :: x in ts ==> x.frozen != t) && QueueAgrees(ts, due, t, t + 1)
    ensures QueueAgrees(ts, due, t + 1, t + 1)
  {
    forall k | k >= t + 1
      ensures |Waiting(due, k)| == Count(ts, Due(t + 1, k)) && Trues(Waiting(due, k)) == Count(ts, DueSuccess(t + 1, k))
    {
      QueueIdle(ts, t, k);
    }
  }

  lemma QueueAtStart(ts: seq<Trial>)
    ensures QueueAgrees(ts, map[], 0, 0)
    ensures Count(ts, Frozen(0)) == Count(ts, Resolved(-1)) == Count(ts, Succeeded(-1)) == 0
  {
    forall k ensures Count(ts, Due(0, k)) == Count(ts, DueSuccess(0, k)) == 0 { StartOfQueue(ts, k); }
    StartOfQueue(ts, 0);
  }

  /** The incremental queue finds the least step at which a full recount meets the table. */
  method RunQueue(rule: PendingRule, nMin: int, horizon: nat, threshold: seq<nat>, byStep: map<int, Trial>,
                  ghost counted: seq<Trial>)
    returns (found: bool, step: nat)
    requires |threshold| == horizon + 1 && DistinctSteps(counted)
    requires forall x :: x in counted ==> x.frozen in byStep
    requires forall k :: k in byStep ==> byStep[k] in counted && byStep[k].frozen == k
    ensures found ==> step < horizon && Tabulated(rule, nMin, threshold, counted, step)
    ensures forall t :: 0 <= t < (if found then step else horizon) ==> !Tabulated(rule, nMin, threshold, counted, t)
  {
    var due: map<int, seq<bool>> := map[];
    var frozen, resolved, successes := 0, 0, 0;
    QueueAtStart(counted);
    var t := 0;
    while t < horizon
      invariant 0 <= t <= horizon
      invariant QueueAgrees(counted, due, t, t)
      invariant frozen == Count(counted, Frozen(t))
      invariant resolved == Count(counted, Resolved(t - 1)) && successes == Count(counted, Succeeded(t - 1))
      invariant forall u :: 0 <= u < t ==> !Tabulated(rule, nMin, threshold, counted, u)
    {
      resolved, successes := Drain(Waiting(due, t), resolved, successes);
      QueueAfterDrain(counted, due, t);
      due := due - {t};
      CountsNested(counted, t);
      var n := if rule == Pessimistic then frozen else resolved;
      if n >= nMin && successes >= threshold[n] { return true, t; }
      FrozenStep(counted, t);
      if t in byStep {
        var x := byStep[t];
        QueueAfterFreeze(counted, due, t, x);
        frozen := frozen + 1;
        due := due[x.visible := Waiting(due, x.visible) + [x.value]];
      } else {
        QueueAfterIdle(counted, due, t);
      }
      t := t + 1;
    }
    return false, 0;
  }

  /** At step t the martingale of the recounted trials has excluded the requirement. */
  ghost predicate Excluded(rule: PendingRule, nMin: int, r: real, alpha: real, ts: seq<Trial>, t: int) {
    var n, s := InCount(rule, ts, t), Count(ts, Succeeded(t));
    n >= nMin && s <= n && Crossed(s, n - s, r, alpha, JEFFREYS, JEFFREYS)
  }

  /** At step t the recount falls short of the requirement plus one step of the bisection grid. */
  ghost predicate ShortOf(rule: PendingRule, nMin: int, r: real, alpha: real, ts: seq<Trial>, t: int) {
    !GateMet(rule, nMin, r + Halved(1.0, BISECTION_STEPS), alpha, ts, t)
  }

  /** The first step at which the gate opens.  With an exact table it is the least step at which the
      full recount meets the gate, under either counting rule; with any table, a step it returns is one
      where the martingale has excluded the requirement, and every step it passes over falls short of
      the requirement plus 2^-64. */
  method FirstCrossing(rule: PendingRule, nMin: int, r: real, horizon: nat, alpha: real, counted: seq<Trial>)
    returns (first: Crossing)
    ensures first == BadLevel <==> alpha <= 0.0 || alpha >= 1.0
    ensures first == DuplicateStep <==> 0.0 < alpha < 1.0 && !DistinctSteps(counted)
    ensures first.At? ==> first.step < horizon && (r > 0.0 ==> Excluded(rule, nMin, r, alpha, counted, first.step))
    ensures GridFine(r, horizon) && first.At? ==> GateMet(rule, nMin, r, alpha, counted, first.step)
    ensures GridFine(r, horizon) && (first.At? || first.Never?) ==>
              forall t :: 0 <= t < (if first.At? then first.step else horizon) ==> !GateMet(rule, nMin, r, alpha, counted, t)
    ensures r > 0.0 && (first.At? || first.Never?) ==>
              forall t :: 0 <= t < (if first.At? then first.step else horizon) ==> ShortOf(rule, nMin, r, alpha, counted, t)
  {
    var table := SuccessThreshold(alpha, r, horizon);
    if table.Err? { return BadLevel; }
    var byStep, distinct := ByStep(counted);
    if !distinct { return DuplicateStep; }
    var found, step := RunQueue(rule, nMin, horizon, table.value, byStep, counted);
    forall t | 0 <= t <= horizon
      ensures GridFine(r, horizon) ==>
                (GateMet(rule, nMin, r, alpha, counted, t) <==> Tabulated(rule, nMin, table.value, counted, t))
      ensures r > 0.0 && Tabulated(rule, nMin, table.value, counted, t) ==> Excluded(rule, nMin, r, alpha, counted, t)
      ensures r > 0.0 && !Tabulated(rule, nMin, table.value, counted, t) ==> ShortOf(rule, nMin, r, alpha, counted, t)
    {
      GateByTable(table.value, rule, nMin, r, horizon, alpha, counted, t);
    }
    first := if found then At(step) else Never;
  }

  lemma GateByTable(table: seq<nat>, rule: PendingRule, nMin: int, r: real, horizon: nat, alpha: real, ts: seq<Trial>, t: nat)
    requires 0.0 < alpha < 1.0 && DistinctSteps(ts) && t <= horizon && |table| == horizon + 1
    requires forall n :: 0 <= n <= horizon ==> Boundary(table[n], n, r, alpha)
    ensures GridFine(r, horizon) ==> (GateMet(rule, nMin, r, alpha, ts, t) <==> Tabulated(rule, nMin, table, ts, t))
    ensures r > 0.0 && Tabulated(rule, nMin, table, ts, t) ==> Excluded(rule, nMin, r, alpha, ts, t)
    ensures r > 0.0 && !Tabulated(rule, nMin, table, ts, t) ==> ShortOf(rule, nMin, r, alpha, ts, t)
  {
    CountsNested(ts, t);
    EntryDecides(table[InCount(rule, ts, t)], Count(ts, Succeeded(t)), InCount(rule, ts, t), r, horizon, alpha);
  }

  lemma EntryDecides(entry: nat, s: nat, n: nat, r: real, horizon: nat, alpha: real)
    requires 0.0 < alpha < 1.0 && s <= n <= horizon && Boundary(entry, n, r, alpha)
    ensures GridFine(r, horizon) ==> (Meets(s, n, r, alpha) <==> s >= entry)
    ensures r > 0.0 && s >= entry ==> Crossed(s, n - s, r, alpha, JEFFREYS, JEFFREYS)
    ensures r > 0.0 && s < entry ==> !Meets(s, n, r + Halved(1.0, BISECTION_STEPS), alpha)
  {
    if GridFine(r, horizon) {
      GridFineBelow(r, n, horizon);
      ThresholdExact(entry, s, n, r, alpha);
    }
    if r > 0.0 { ThresholdWithinGrid(entry, s, n, r, alpha); }
  }

  // ---- scenario cells ---------------------------------------------------------------------------

  datatype Target = NoTarget | Negatives | Positives | Random
  datatype Action = NoAction | Inconclusive | Withhold
  datatype Cell = Cell(blockCounting: bool, blockSize: nat, deadline: nat, negativeDelay: nat, positiveDelay: nat,
                       target: Target, action: Action)

  function Targeted(cell: Cell, verdict: bool, draw: bool): bool {
    (cell.target == Negatives && !verdict) || (cell.target == Positives && verdict) || (cell.target == Random && draw)
  }

  predicate CountingStep(cell: Cell, step: nat)
    requires cell.blockSize > 0
  {
    !cell.blockCounting || step % cell.blockSize == 0
  }

  /** What a trial frozen at `step` with this verdict must look like, whatever the scenario does to its
      label: it resolves later than it is frozen and no later than just past the deadline (or one step),
      and counts as a success only for a true verdict that was sent in time and not made inconclusive. */
  ghost predicate Resolves(cell: Cell, x: Trial, step: nat, verdict: bool, draw: bool) {
    var delay := if verdict then cell.positiveDelay else cell.negativeDelay;
    var hit := match cell.target case NoTarget => false case Negatives => !verdict case Positives => verdict case Random => draw;
    var sent := !(hit && cell.action == Withhold) && delay <= cell.deadline;
    && x.frozen == step < x.visible
    && (sent ==> x.visible == step + (if delay >= 1 then delay else 1))
    && (!sent ==> x.visible == step + cell.deadline + 1)
    && (x.value <==> verdict && sent && !(hit && cell.action == Inconclusive))
  }

  ghost predicate TrialsOf(cell: Cell, verdicts: seq<bool>, draws: seq<bool>, out: seq<Trial>)
    requires cell.blockSize > 0 && |draws| == |verdicts|
  {
    && (forall i, j :: 0 <= i < j < |out| ==> out[i].frozen < out[j].frozen)
    && (forall x :: x in out ==> 0 <= x.frozen < |verdicts| && CountingStep(cell, x.frozen)
                                 && Resolves(cell, x, x.frozen, verdicts[x.frozen], draws[x.frozen]))
    && (forall step :: 0 <= step < |verdicts| && CountingStep(cell, step) ==> exists x :: x in out && x.frozen == step)
  }

  /** The trials of the steps before `n`. */
  ghost predicate TrialsUpTo(cell: Cell, verdicts: seq<bool>, draws: seq<bool>, out: seq<Trial>, n: nat)
    requires cell.blockSize > 0 && |draws| == |verdicts| && n <= |verdicts|
  {
    && (forall i, j :: 0 <= i < j < |out| ==> out[i].frozen < out[j].frozen)
    && (forall x :: x in out ==> 0 <= x.frozen < n && CountingStep(cell, x.frozen)
                                 && Resolves(cell, x, x.frozen, verdicts[x.frozen], draws[x.frozen]))
    && (forall step :: 0 <= step < n && CountingStep(cell, step) ==> exists x :: x in out && x.frozen == step)
  }

  lemma OneMoreTrial(cell: Cell, verdicts: seq<bool>, draws: seq<bool>, out: seq<Trial>, n: nat, x: Trial)
    requires cell.blockSize > 0 && |draws| == |verdicts| && n < |verdicts| && TrialsUpTo(cell, verdicts, draws, out, n)
    requires CountingStep(cell, n) && x.frozen == n && Resolves(cell, x, n, verdicts[n], draws[n])
    ensures TrialsUpTo(cell, verdicts, draws, out + [x], n + 1)
  {
    var longer := out + [x];
    assert longer[|out|] in longer;
    forall step | 0 <= step < n + 1 && CountingStep(cell, step) ensures exists y :: y in longer && y.frozen == step {
      if step < n {
        var y :| y in out && y.frozen == step;
        assert y in longer;
      }
    }
    forall i, j | 0 <= i < j < |longer| ensures longer[i].frozen < longer[j].frozen {
      assert longer[i] in out;
    }
  }

  method Trials(cell: Cell, verdicts: seq<bool>, draws: seq<bool>) returns (out: seq<Trial>)
    requires cell.blockSize > 0 && |draws| == |verdicts|
    ensures TrialsOf(cell, verdicts, draws, out)
  {
    out := [];
    for step := 0 to |verdicts|
      invariant TrialsUpTo(cell, verdicts, draws, out, step)
    {
      if cell.blockCounting && step % cell.blockSize != 0 { continue; }
      var verdict := verdicts[step];
      var delay := if !verdict then cell.negativeDelay else cell.positiveDelay;
      var value := verdict;
      var targeted := Targeted(cell, verdict, draws[step]);
      if targeted && cell.action == Inconclusive { value := false; }
      var x := Trial(step, step + (if delay > 1 then delay else 1), value);
      if (targeted && cell.action == Withhold) || delay > cell.deadline {
        x := Trial(step, step + cell.deadline + 1, false);
      }
      OneMoreTrial(cell, verdicts, draws, out, step, x);
      out := out + [x];
    }
  }

  lemma TrialsAreDistinct(cell: Cell, verdicts: seq<bool>, draws: seq<bool>, ts: seq<Trial>)
    requires cell.blockSize > 0 && |draws| == |verdicts| && TrialsOf(cell, verdicts, draws, ts)
    ensures DistinctSteps(ts)
  {}

  /** The verdicts on the counting trials among the first t steps: all of them, or one for each block. */
  function CountingVerdicts(cell: Cell, verdicts: seq<bool>, t: nat): Labels
    requires cell.blockSize > 0 && t <= |verdicts|
  {
    if t == 0 then []
    else CountingVerdicts(cell, verdicts, t - 1) + if CountingStep(cell, t - 1) then [verdicts[t - 1]] else []
  }

  lemma {:induction false} CountingExtends(cell: Cell, verdicts: seq<bool>, t: nat, u: nat)
    requires cell.blockSize > 0 && t <= u <= |verdicts|
    ensures CountingVerdicts(cell, verdicts, t) <= CountingVerdicts(cell, verdicts, u)
    decreases u
  {
    if t < u { CountingExtends(cell, verdicts, t, u - 1); }
  }

  /** Without blocks every verdict is on a counting trial. */
  lemma {:induction false} AllCount(cell: Cell, verdicts: seq<bool>, t: nat)
    requires cell.blockSize > 0 && !cell.blockCounting && t <= |verdicts|
    ensures CountingVerdicts(cell, verdicts, t) == verdicts[..t]
  {
    if t > 0 {
      AllCount(cell, verdicts, t - 1);
      assert verdicts[..t] == verdicts[..t - 1] + [verdicts[t - 1]];
    }
  }

  /** Counted as a success among the trials frozen before step t, as of step u. */
  ghost function SucceededUpTo(t: nat, u: nat): Trial -> bool {
    (x: Trial) => 0 <= x.frozen < t && x.frozen < x.visible <= u && x.value
  }

  lemma NotCounting(ts: seq<Trial>, t: nat)
    requires forall x :: x in ts ==> x.frozen != t
    ensures Count(ts, Frozen(t + 1)) == Count(ts, Frozen(t))
  {
    CountMonotone(ts, Frozen(t + 1), Frozen(t));
    CountMonotone(ts, Frozen(t), Frozen(t + 1));
  }

  /** n at step t is the number of counting trials so far, and the counted successes are at most the true ones among
      their verdicts. */
  lemma {:induction false} CountedAtMostTrue(cell: Cell, verdicts: seq<bool>, draws: seq<bool>, ts: seq<Trial>, t: nat, u: nat)
    requires cell.blockSize > 0 && |draws| == |verdicts| && TrialsOf(cell, verdicts, draws, ts) && t <= |verdicts|
    ensures Count(ts, Frozen(t)) == |CountingVerdicts(cell, verdicts, t)|
    ensures Count(ts, SucceededUpTo(t, u)) <= Successes(CountingVerdicts(cell, verdicts, t))
    decreases t
  {
    hide TrialsOf, Count, CountingStep, Successes;
    if t == 0 {
      NothingCounted(ts, u);
    } else {
      CountedAtMostTrue(cell, verdicts, draws, ts, t - 1, u);
      if CountingStep(cell, t - 1) {
        OneMoreFrozen(cell, verdicts, draws, ts, t - 1);
        OneMoreCounted(cell, verdicts, draws, ts, t - 1, u);
        SuccessesSnoc(CountingVerdicts(cell, verdicts, t - 1), verdicts[t - 1]);
      } else {
        NoneFrozen(cell, verdicts, draws, ts, t - 1, u);
        var before := CountingVerdicts(cell, verdicts, t - 1);
        assert before + [] == before;
      }
    }
  }

  lemma NothingCounted(ts: seq<Trial>, u: nat)
    ensures Count(ts, Frozen(0)) == 0 && Count(ts, SucceededUpTo(0, u)) == 0
  {
    StartOfQueue(ts, 0);
    CountNone(ts, SucceededUpTo(0, u));
  }

  lemma NoneFrozen(cell: Cell, verdicts: seq<bool>, draws: seq<bool>, ts: seq<Trial>, t: nat, u: nat)
    requires cell.blockSize > 0 && |draws| == |verdicts| && TrialsOf(cell, verdicts, draws, ts) && t < |verdicts| && !CountingStep(cell, t)
    ensures Count(ts, Frozen(t + 1)) == Count(ts, Frozen(t))
    ensures Count(ts, SucceededUpTo(t + 1, u)) <= Count(ts, SucceededUpTo(t, u))
  {
    forall x | x in ts ensures x.frozen != t {}
    NotCounting(ts, t);
    CountMonotone(ts, SucceededUpTo(t + 1, u), SucceededUpTo(t, u));
  }

  lemma OneMoreFrozen(cell: Cell, verdicts: seq<bool>, draws: seq<bool>, ts: seq<Trial>, t: nat)
    requires cell.blockSize > 0 && |draws| == |verdicts| && TrialsOf(cell, verdicts, draws, ts) && t < |verdicts| && CountingStep(cell, t)
    ensures Count(ts, Frozen(t + 1)) == Count(ts, Frozen(t)) + 1
  {
    hide Count;
    TrialsAreDistinct(cell, verdicts, draws, ts);
    FrozenStep(ts, t);
  }

  lemma OneMoreCounted(cell: Cell, verdicts: seq<bool>, draws: seq<bool>, ts: seq<Trial>, t: nat, u: nat)
    requires cell.blockSize > 0 && |draws| == |verdicts| && TrialsOf(cell, verdicts, draws, ts) && t < |verdicts| && CountingStep(cell, t)
    ensures Count(ts, SucceededUpTo(t + 1, u)) <= Count(ts, SucceededUpTo(t, u)) + if verdicts[t] then 1 else 0
  {
    hide Count;
    TrialsAreDistinct(cell, verdicts, draws, ts);
    var now := (x: Trial) => x.frozen == t && x.frozen < x.visible <= u && x.value;
    CountAdds(ts, SucceededUpTo(t, u), now, SucceededUpTo(t + 1, u));
    CountOne(ts, now, t);
    ValueIsVerdict(cell, verdicts, draws, ts, t);
  }

  lemma ValueIsVerdict(cell: Cell, verdicts: seq<bool>, draws: seq<bool>, ts: seq<Trial>, t: nat)
    requires cell.blockSize > 0 && |draws| == |verdicts| && TrialsOf(cell, verdicts, draws, ts) && t < |verdicts|
    ensures forall x :: x in ts && x.frozen == t && x.value ==> verdicts[t]
  {}

  ghost predicate DriverOpens(cell: Cell, nMin: int, r: real, alpha: real, verdicts: seq<bool>, draws: seq<bool>)
    requires cell.blockSize > 0 && |draws| == |verdicts|
  {
    exists ts, t :: TrialsOf(cell, verdicts, draws, ts) && 0 <= t < |verdicts| && Excluded(Pessimistic, nMin, r, alpha, ts, t)
  }

  /** A step at which the driver's gate opens is one at which the verdicts on the counting trials so far cross. */
  lemma DriverOpenCrosses(cell: Cell, nMin: int, r: real, alpha: real, verdicts: seq<bool>, draws: seq<bool>) returns (t: nat)
    requires cell.blockSize > 0 && |draws| == |verdicts| && 0.0 < r
    requires DriverOpens(cell, nMin, r, alpha, verdicts, draws)
    ensures t < |verdicts|
    ensures var counted := CountingVerdicts(cell, verdicts, t);
            Crossed(Successes(counted), Failures(counted), r, alpha, JEFFREYS, JEFFREYS)
  {
    hide TrialsOf, Excluded;
    var ts, step :| TrialsOf(cell, verdicts, draws, ts) && 0 <= step < |verdicts| && Excluded(Pessimistic, nMin, r, alpha, ts, step);
    t := step;
    RecountCrosses(cell, nMin, r, alpha, verdicts, draws, ts, t);
  }

  lemma RecountCrosses(cell: Cell, nMin: int, r: real, alpha: real, verdicts: seq<bool>, draws: seq<bool>, ts: seq<Trial>, t: nat)
    requires cell.blockSize > 0 && |draws| == |verdicts| && 0.0 < r && t < |verdicts|
    requires TrialsOf(cell, verdicts, draws, ts) && Excluded(Pessimistic, nMin, r, alpha, ts, t)
    ensures var counted := CountingVerdicts(cell, verdicts, t);
            Crossed(Successes(counted), Failures(counted), r, alpha, JEFFREYS, JEFFREYS)
  {
    hide TrialsOf, Count, Crossed, CountingVerdicts;
    CountedAtMostTrue(cell, verdicts, draws, ts, t, t);
    SameSuccesses(ts, t);
    TruthCrosses(CountingVerdicts(cell, verdicts, t), Count(ts, Succeeded(t)), r, alpha);
  }

  lemma SameSuccesses(ts: seq<Trial>, t: nat)
    ensures Count(ts, Succeeded(t)) <= Count(ts, SucceededUpTo(t, t))
  {
    CountMonotone(ts, Succeeded(t), SucceededUpTo(t, t));
  }

  lemma TruthCrosses(verdicts: Labels, s: nat, r: real, alpha: real)
    requires s <= |verdicts| && s <= Successes(verdicts) && 0.0 < r && Crossed(s, |verdicts| - s, r, alpha, JEFFREYS, JEFFREYS)
    ensures Crossed(Successes(verdicts), Failures(verdicts), r, alpha, JEFFREYS, JEFFREYS)
  {
    SuccessesBounded(verdicts);
    MoreSuccessesKeepCrossing(s, |verdicts| - s, Successes(verdicts), Failures(verdicts), r, alpha, JEFFREYS, JEFFREYS);
  }

  /** A world of the driver: every verdict and every draw. */
  datatype DriverWorld = DriverWorld(verdicts: seq<bool>, draws: seq<bool>)

  /** Its counting trials are judged by an initial stretch of the sequence. */
  ghost predicate JudgedBy(cell: Cell, w: DriverWorld, sigma: Labels)
    requires cell.blockSize > 0
  {
    |w.draws| == |w.verdicts| && CountingVerdicts(cell, w.verdicts, |w.verdicts|) <= sigma
  }

  /** The driver's pessimistic cells keep the level, whether every step counts or one for each block: over independent
      Bernoulli(p) verdicts on the counting trials with p at or below the requirement, whatever the other verdicts of
      a block have to do with them, and whatever is delayed, withheld or made inconclusive, the chance that
      FirstCrossing reports a step is at most alpha. */
  lemma DriverKeepsLevel(cell: Cell, p: real, r: real, nMin: int, length: nat, alpha: real, world: Labels -> DriverWorld)
    requires cell.blockSize > 0
    requires 0.0 <= p <= r <= 1.0 && 0.0 < r && 0.0 < alpha < 1.0
    requires forall sigma :: |sigma| == length ==> JudgedBy(cell, world(sigma), sigma)
    ensures Weight(p, length, (sigma: Labels) =>
              JudgedBy(cell, world(sigma), sigma)
              && DriverOpens(cell, nMin, r, alpha, world(sigma).verdicts, world(sigma).draws)) <= alpha
  {
    var stop := (s: nat, f: nat) => Crossed(s, f, r, alpha, JEFFREYS, JEFFREYS);
    var event := (sigma: Labels) =>
      JudgedBy(cell, world(sigma), sigma) && DriverOpens(cell, nMin, r, alpha, world(sigma).verdicts, world(sigma).draws);
    forall s: nat, f: nat | stop(s, f) ensures Reached(s, f, p, alpha, JEFFREYS, JEFFREYS) {
      ReachedBelow(s, f, p, r, alpha, JEFFREYS, JEFFREYS);
    }
    forall sigma: Labels | |sigma| == length && event(sigma)
      ensures exists n :: 0 <= n <= length && stop(Successes(sigma[..n]), Failures(sigma[..n]))
    {
      var w := world(sigma);
      var t := DriverOpenCrosses(cell, nMin, r, alpha, w.verdicts, w.draws);
      CountingExtends(cell, w.verdicts, t, |w.verdicts|);
      var n := |CountingVerdicts(cell, w.verdicts, t)|;
      assert sigma[..n] == CountingVerdicts(cell, w.verdicts, t);
      assert stop(Successes(sigma[..n]), Failures(sigma[..n]));
    }
    LooksBounded(p, length, stop, event, alpha, JEFFREYS, JEFFREYS);
  }

  /** With trial-by-trial counting the verdicts are the sequence itself. */
  lemma EveryStepJudged(cell: Cell, sigma: Labels, draws: seq<bool>)
    requires cell.blockSize > 0 && !cell.blockCounting && |draws| == |sigma|
    ensures JudgedBy(cell, DriverWorld(sigma, draws), sigma)
  {
    AllCount(cell, sigma, |sigma|);
    assert sigma[..|sigma|] == sigma;
  }
}
