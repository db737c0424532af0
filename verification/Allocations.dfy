/** The error budget over whole runs: every level ever recorded is a share of its own, so together they never
    exceed the budget, and the latest row of a partition is its current epoch's.  */
module Allocations {
  import opened Tables
  import opened AlphaSpending
  import opened Shadow
  import opened Lifecycle
  import opened Steps
  import opened Settling
  import opened Operations
  import opened OperationSteps
  import opened Invariants
  import LikelihoodFacts

  function Allocs(alphas: seq<AlphaRow>): seq<Allocation> {
    if alphas == [] then [] else Allocs(alphas[..|alphas| - 1]) + [alphas[|alphas| - 1].allocation]
  }

  /** A policy that spends: online over partitions, by lineage over epochs, within the budget. */
  ghost predicate Frugal(policy: Policy, alpha: real, c: real) {
    && 0.0 <= policy.alpha <= alpha && policy.spending == c && c > 0.0
    && policy.partitions == Online && policy.epochs == Lineage
  }

  /** A registered partition: its index, the number of its rows, and its latest row agree with its record. */
  ghost predicate RowsAgree(db: Db, key: PartitionKey)
    requires key in db.lifecycle
  {
    var index, last := IndexOf(db.alphas, key), LastRow(db.alphas, key);
    && index.Some? && 1 <= index.value <= Registrations(db.alphas)
    && EpochsOf(Allocs(db.alphas), index.value) == db.lifecycle[key].epoch + 1
    && last.Some? && last.value.allocation.epoch == db.lifecycle[key].epoch && last.value.allocation.index == index.value
  }

  ghost predicate IndexApart(alphas: seq<AlphaRow>, key: PartitionKey, other: PartitionKey) {
    key != other ==> IndexOf(alphas, key) != IndexOf(alphas, other)
  }

  ghost predicate AlphaInv(db: Db, alpha: real, c: real) {
    && Spent(Allocs(db.alphas), alpha, c)
    && (forall i :: 0 <= i < |db.alphas| ==> db.alphas[i].allocation.index <= Registrations(db.alphas))
    && (forall key :: key in db.lifecycle ==> RowsAgree(db, key))
    && (forall key, other :: key in db.lifecycle && other in db.lifecycle ==> IndexApart(db.alphas, key, other))
    && (forall key :: key !in db.lifecycle ==> LastRow(db.alphas, key).None? && IndexOf(db.alphas, key).None?)
  }

  /** In every such state the recorded levels have distinct places in the two series, and their sum is within
      the budget. */
  lemma BudgetConserved(db: Db, alpha: real, c: real)
    requires AlphaInv(db, alpha, c) && alpha >= 0.0 && SpendingConstant(c)
    ensures Total(Allocs(db.alphas)) <= alpha
    ensures forall i, j :: 0 <= i < j < |Allocs(db.alphas)| ==>
              (Allocs(db.alphas)[i].index, Allocs(db.alphas)[i].epoch) != (Allocs(db.alphas)[j].index, Allocs(db.alphas)[j].epoch)
  {
    AllocationsConserve(Allocs(db.alphas), alpha, c);
    AllocationsDistinct(Allocs(db.alphas), alpha, c);
  }

  // ---- one more row --------------------------------------------------------------------------------

  lemma AppendSpent(rows: seq<Allocation>, row: Allocation, alpha: real, c: real)
    requires Spent(rows, alpha, c) && row.index >= 1 && row.epoch == EpochsOf(rows, row.index)
    requires row.alpha <= alpha * Share(c, row.index) * Share(c, row.epoch + 1)
    ensures Spent(rows + [row], alpha, c)
  {
    var longer := rows + [row];
    forall i | 0 <= i < |longer| ensures SpentAt(longer, i, alpha, c) {
      assert longer[..i] == rows[..i];
      if i < |rows| { assert SpentAt(rows, i, alpha, c); } else { assert rows[..|rows|] == rows; }
    }
  }

  lemma RowWithinShare(policy: Policy, row: AlphaRow, index: nat, epoch: nat, alpha: real, c: real)
    requires Frugal(policy, alpha, c) && NewRow(policy, row, index, epoch)
    ensures row.allocation.alpha <= alpha * Share(c, index) * Share(c, epoch + 1)
  {
    ShareNotNegative(c, index);
    ShareNotNegative(c, epoch + 1);
    LikelihoodFacts.MulMonotoneRight(Share(c, index), policy.alpha, alpha);
    LikelihoodFacts.MulMonotoneRight(Share(c, epoch + 1), policy.alpha * Share(c, index), alpha * Share(c, index));
  }

  lemma OneMore(alphas: seq<AlphaRow>, row: AlphaRow)
    ensures Allocs(alphas + [row]) == Allocs(alphas) + [row.allocation]
    ensures Registrations(alphas + [row]) == Registrations(alphas) + if row.reason == REGISTERED then 1 else 0
    ensures forall key :: LastRow(alphas + [row], key) == if row.partition == key then Some(row) else LastRow(alphas, key)
    ensures forall key :: IndexOf(alphas + [row], key)
                       == if row.partition == key && row.reason == REGISTERED then Some(row.allocation.index) else IndexOf(alphas, key)
  {
    assert (alphas + [row])[..|alphas|] == alphas;
  }

  lemma EpochsOneMore(rows: seq<Allocation>, row: Allocation, k: nat)
    ensures EpochsOf(rows + [row], k) == EpochsOf(rows, k) + if row.index == k then 1 else 0
  {
    assert (rows + [row])[..|rows|] == rows;
  }

  lemma {:induction false} NoEpochsAbove(alphas: seq<AlphaRow>, k: nat)
    requires forall i :: 0 <= i < |alphas| ==> alphas[i].allocation.index < k
    ensures EpochsOf(Allocs(alphas), k) == 0
  {
    if alphas != [] {
      NoEpochsAbove(alphas[..|alphas| - 1], k);
      EpochsOneMore(Allocs(alphas[..|alphas| - 1]), alphas[|alphas| - 1].allocation, k);
    }
  }

  /** A registration takes the next index, at its first epoch. */
  lemma RegisteringKeeps(policy: Policy, a: Db, b: Db, key: PartitionKey, row: AlphaRow, alpha: real, c: real)
    requires AlphaInv(a, alpha, c) && Frugal(policy, alpha, c) && key !in a.lifecycle
    requires b.alphas == a.alphas + [row] && key in b.lifecycle && b.lifecycle == a.lifecycle[key := b.lifecycle[key]]
    requires b.lifecycle[key].epoch == 0 && row.partition == key && row.reason == REGISTERED
    requires NewRow(policy, row, Registrations(a.alphas) + 1, 0)
    ensures AlphaInv(b, alpha, c)
  {
    hide AllocatedAlpha, EpochsOf, LastRow, Spent;
    OneMore(a.alphas, row);
    NoEpochsAbove(a.alphas, row.allocation.index);
    RowWithinShare(policy, row, row.allocation.index, 0, alpha, c);
    AppendSpent(Allocs(a.alphas), row.allocation, alpha, c);
    forall other | other in b.lifecycle ensures RowsAgree(b, other) {
      if other == key {
        EpochsOneMore(Allocs(a.alphas), row.allocation, row.allocation.index);
      } else {
        assert RowsAgree(a, other);
        EpochsOneMore(Allocs(a.alphas), row.allocation, IndexOf(a.alphas, other).value);
      }
    }
    forall k, l | k in b.lifecycle && l in b.lifecycle ensures IndexApart(b.alphas, k, l) {
      if k in a.lifecycle { assert RowsAgree(a, k); }
      if l in a.lifecycle { assert RowsAgree(a, l); }
      if k in a.lifecycle && l in a.lifecycle { assert IndexApart(a.alphas, k, l); }
    }
  }

  /** A new epoch takes its partition's next place. */
  lemma ReopeningKeeps(policy: Policy, a: Db, b: Db, key: PartitionKey, row: AlphaRow, alpha: real, c: real)
    requires AlphaInv(a, alpha, c) && Frugal(policy, alpha, c) && key in a.lifecycle && IndexOf(a.alphas, key).Some?
    requires b.alphas == a.alphas + [row] && key in b.lifecycle && b.lifecycle == a.lifecycle[key := b.lifecycle[key]]
    requires b.lifecycle[key].epoch == a.lifecycle[key].epoch + 1 && row.partition == key && row.reason != REGISTERED
    requires NewRow(policy, row, IndexOf(a.alphas, key).value, a.lifecycle[key].epoch + 1)
    ensures AlphaInv(b, alpha, c)
  {
    OneMore(a.alphas, row);
    ReopenedSpent(policy, a, key, row, alpha, c);
    forall other | other in b.lifecycle ensures RowsAgree(b, other) { RowsStillAgree(policy, a, b, key, row, other, alpha, c); }
    forall k, l | k in b.lifecycle && l in b.lifecycle ensures IndexApart(b.alphas, k, l) { assert IndexApart(a.alphas, k, l); }
    assert IndexOf(a.alphas, key).value <= Registrations(a.alphas) by { assert RowsAgree(a, key); }
  }

  lemma ReopenedSpent(policy: Policy, a: Db, key: PartitionKey, row: AlphaRow, alpha: real, c: real)
    requires AlphaInv(a, alpha, c) && Frugal(policy, alpha, c) && key in a.lifecycle && IndexOf(a.alphas, key).Some?
    requires NewRow(policy, row, IndexOf(a.alphas, key).value, a.lifecycle[key].epoch + 1)
    ensures Spent(Allocs(a.alphas) + [row.allocation], alpha, c)
  {
    assert RowsAgree(a, key);
    RowWithinShare(policy, row, row.allocation.index, row.allocation.epoch, alpha, c);
    AppendSpent(Allocs(a.alphas), row.allocation, alpha, c);
  }

  lemma RowsStillAgree(policy: Policy, a: Db, b: Db, key: PartitionKey, row: AlphaRow, other: PartitionKey, alpha: real, c: real)
    requires AlphaInv(a, alpha, c) && key in a.lifecycle && IndexOf(a.alphas, key).Some? && other in a.lifecycle
    requires b.alphas == a.alphas + [row] && key in b.lifecycle && b.lifecycle == a.lifecycle[key := b.lifecycle[key]]
    requires b.lifecycle[key].epoch == a.lifecycle[key].epoch + 1 && row.partition == key && row.reason != REGISTERED
    requires NewRow(policy, row, IndexOf(a.alphas, key).value, a.lifecycle[key].epoch + 1)
    ensures RowsAgree(b, other)
  {
    assert RowsAgree(a, other) && RowsAgree(a, key) && IndexApart(a.alphas, key, other);
    OneMore(a.alphas, row);
    EpochsOneMore(Allocs(a.alphas), row.allocation, IndexOf(a.alphas, other).value);
  }

  /** Nothing else moves the series: records keep their epochs and no other code writes a row. */
  lemma SameRowsKeep(a: Db, b: Db, alpha: real, c: real)
    requires AlphaInv(a, alpha, c) && b.alphas == a.alphas && b.lifecycle.Keys == a.lifecycle.Keys
    requires forall key :: key in a.lifecycle ==> b.lifecycle[key].epoch == a.lifecycle[key].epoch
    ensures AlphaInv(b, alpha, c)
  {
    forall key | key in b.lifecycle ensures RowsAgree(b, key) { assert RowsAgree(a, key); }
    forall k, l | k in b.lifecycle && l in b.lifecycle ensures IndexApart(b.alphas, k, l) { assert IndexApart(a.alphas, k, l); }
  }

  // ---- every operation --------------------------------------------------------------------------------

  ghost function Conserving(alpha: real, c: real): Db -> bool {
    (d: Db) => AlphaInv(d, alpha, c)
  }

  /** A partition with a record is registered: the branch for older databases is never taken. */
  lemma AlwaysRegistered(env: Env, a: Db, b: Db, key: PartitionKey, alpha: real, c: real)
    ensures !(AlphaInv(a, alpha, c) && CaughtUp(env, a, b, key))
  {
    if AlphaInv(a, alpha, c) && key in a.lifecycle { assert RowsAgree(a, key); }
  }

  lemma ConservingWalk(env: Env, alpha: real, c: real, key: PartitionKey)
    requires Frugal(env.policy, alpha, c)
    ensures QuietStable(env, Conserving(alpha, c), key)
  {
    var J := Conserving(alpha, c);
    forall a, b | J(a) && Noted(a, b) ensures J(b) { SameRowsKeep(a, b, alpha, c); }
    forall a, b | J(a) && Withdrew(a, b) ensures J(b) { SameRowsKeep(a, b, alpha, c); }
    forall a, b | J(a) && Republished(a, b, key) ensures J(b) { SameRowsKeep(a, b, alpha, c); }
    forall a, b | J(a) && Stepped(env, a, b, key) ensures J(b) { SameRowsKeep(a, b, alpha, c); }
    forall a, b | J(a) && VersionRetired(env, a, b, key) ensures J(b) { SameRowsKeep(a, b, alpha, c); }
    forall a, b | J(a) && Enlisted(env, a, b, key) ensures J(b) {
      RegisteringKeeps(env.policy, a, b, key, b.alphas[|b.alphas| - 1], alpha, c);
    }
    forall a, b ensures !(J(a) && CaughtUp(env, a, b, key)) { AlwaysRegistered(env, a, b, key, alpha, c); }
  }

  lemma ConservingEndures(env: Env, alpha: real, c: real)
    requires Frugal(env.policy, alpha, c)
    ensures Enduring(env, Conserving(alpha, c))
  {
    var J := Conserving(alpha, c);
    forall a, b | J(a) && Wrote(a, b) ensures J(b) { SameRowsKeep(a, b, alpha, c); }
    WritesSurvive(J);
    forall key ensures Stable(env, J, key) {
      ConservingWalk(env, alpha, c, key);
      forall a, b, t | J(a) && Censors(env, a, b, t) ensures J(b) { SameRowsKeep(a, b, alpha, c); }
    }
    forall a, b, key, oracle, reason | J(a) && Reopened(env, a, b, key, oracle, reason) ensures J(b) {
      ConservingEpoch(env, a, b, key, oracle, reason, alpha, c);
    }
    assert forall key, reason :: SurvivesEpoch(env, J, key, reason);
    ConservingOperations(alpha, c);
  }

  lemma ConservingOperations(alpha: real, c: real)
    ensures var J := Conserving(alpha, c);
            SurvivesSevere(J) && SurvivesFlag(J) && SurvivesWithdrawal(J) && SurvivesLink(J) && SurvivesRevocation(J)
  {
    var J := Conserving(alpha, c);
    forall a, b, key | J(a) && Severed(a, b, key) ensures J(b) { SameRowsKeep(a, b, alpha, c); }
    forall a, b, key | J(a) && Flagged(a, b, key) ensures J(b) { SameRowsKeep(a, b, alpha, c); }
    forall a, b, key | J(a) && Withdrawn(a, b, key) ensures J(b) { SameRowsKeep(a, b, alpha, c); }
    forall a, b, k, l | J(a) && Joined(a, b, k, l) ensures J(b) { SameRowsKeep(a, b, alpha, c); }
    forall a, b, cause, scope, actor | J(a) && Revokes(a, b, cause, scope, actor) ensures J(b) { SameRowsKeep(a, b, alpha, c); }
  }

  lemma ConservingEpoch(env: Env, a: Db, b: Db, key: PartitionKey, oracle: Oracle, reason: AlphaReason, alpha: real, c: real)
    requires AlphaInv(a, alpha, c) && Frugal(env.policy, alpha, c) && Reopened(env, a, b, key, oracle, reason)
    ensures AlphaInv(b, alpha, c)
  {
    var mid, end := EpochShape(env.policy, a, key, a.lifecycle[key], oracle, reason);
    assert IndexOf(a.alphas, key).Some? by { assert RowsAgree(a, key); }
    ReopeningKeeps(env.policy, a, b, key, b.alphas[|b.alphas| - 1], alpha, c);
  }

  // ---- what each level is ---------------------------------------------------------------------------------

  /** The level a policy allocates to the k-th registration's epoch. */
  function LevelUnder(p: Policy, index: nat, epoch: nat): real
    requires index >= 1
  {
    AllocatedAlpha(p.alpha, p.spending, p.partitions, p.epochs, index, epoch + 1)
  }

  ghost predicate PricedRow(row: AlphaRow, allowed: Policy -> bool) {
    row.allocation.index >= 1 && exists p :: allowed(p) && row.allocation.alpha == LevelUnder(p, row.allocation.index, row.allocation.epoch)
  }

  /** Every recorded level is what some allowed policy allocates to that registration and epoch. */
  ghost function Priced(allowed: Policy -> bool): Db -> bool {
    (d: Db) => forall i :: 0 <= i < |d.alphas| ==> PricedRow(d.alphas[i], allowed)
  }

  lemma OnePriced(policy: Policy, allowed: Policy -> bool, a: Db, b: Db, row: AlphaRow, index: nat, epoch: nat)
    requires Priced(allowed)(a) && allowed(policy) && b.alphas == a.alphas + [row] && NewRow(policy, row, index, epoch)
    ensures Priced(allowed)(b)
  {
    forall i | 0 <= i < |b.alphas| ensures PricedRow(b.alphas[i], allowed) {
      if i < |a.alphas| { assert PricedRow(a.alphas[i], allowed); } else { assert row.allocation.alpha == LevelUnder(policy, index, epoch); }
    }
  }

  lemma PricedWalk(env: Env, allowed: Policy -> bool, key: PartitionKey)
    requires allowed(env.policy)
    ensures QuietStable(env, Priced(allowed), key)
  {
    var J := Priced(allowed);
    forall a, b | J(a) && Enlisted(env, a, b, key) ensures J(b) {
      OnePriced(env.policy, allowed, a, b, b.alphas[|b.alphas| - 1], Registrations(a.alphas) + 1, 0);
    }
    forall a, b | J(a) && CaughtUp(env, a, b, key) ensures J(b) {
      OnePriced(env.policy, allowed, a, b, b.alphas[|b.alphas| - 1], Registrations(a.alphas) + 1, a.lifecycle[key].epoch);
    }
  }

  lemma EpochRow(policy: Policy, db: Db, key: PartitionKey, record: Record, oracle: Oracle, reason: AlphaReason, row: AlphaRow) returns (index: nat)
    requires EpochOpenedFor(policy, db, key, record, oracle, reason).Done?
    requires var w := EpochOpenedFor(policy, db, key, record, oracle, reason).value; w.db.alphas != [] ==> row == w.db.alphas[|w.db.alphas| - 1]
    ensures NewRow(policy, row, index, record.epoch + 1)
    ensures EpochOpenedFor(policy, db, key, record, oracle, reason).value.db.alphas == db.alphas + [row]
  {
    var mid, end := EpochShape(policy, db, key, record, oracle, reason);
    index := row.allocation.index;
  }

  lemma PricedEpoch(env: Env, allowed: Policy -> bool, a: Db, b: Db, key: PartitionKey, oracle: Oracle, reason: AlphaReason)
    requires allowed(env.policy) && Priced(allowed)(a) && Reopened(env, a, b, key, oracle, reason)
    ensures Priced(allowed)(b)
  {
    var row := b.alphas[|b.alphas| - 1];
    var index := EpochRow(env.policy, a, key, a.lifecycle[key], oracle, reason, row);
    OnePriced(env.policy, allowed, a, b, row, index, a.lifecycle[key].epoch + 1);
  }

  lemma PricedSame(allowed: Policy -> bool, a: Db, b: Db)
    requires Priced(allowed)(a) && b.alphas == a.alphas
    ensures Priced(allowed)(b)
  {
    forall i | 0 <= i < |b.alphas| ensures PricedRow(b.alphas[i], allowed) { assert PricedRow(a.alphas[i], allowed); }
  }

  lemma PricedOperations(allowed: Policy -> bool)
    ensures var J := Priced(allowed); SurvivesEvidence(J)
    ensures var J := Priced(allowed);
            SurvivesSevere(J) && SurvivesFlag(J) && SurvivesWithdrawal(J) && SurvivesLink(J) && SurvivesRevocation(J)
  {
    hide Priced;
    var J := Priced(allowed);
    forall a, b | J(a) && Wrote(a, b) ensures J(b) { PricedSame(allowed, a, b); }
    WritesSurvive(J);
    forall a, b, key | J(a) && Severed(a, b, key) ensures J(b) { PricedSame(allowed, a, b); }
    forall a, b, key | J(a) && Flagged(a, b, key) ensures J(b) { PricedSame(allowed, a, b); }
    forall a, b, key | J(a) && Withdrawn(a, b, key) ensures J(b) { PricedSame(allowed, a, b); }
    forall a, b, k, l | J(a) && Joined(a, b, k, l) ensures J(b) { PricedSame(allowed, a, b); }
    forall a, b, cause, scope, actor | J(a) && Revokes(a, b, cause, scope, actor) ensures J(b) { PricedSame(allowed, a, b); }
  }

  lemma PricedEndures(env: Env, allowed: Policy -> bool)
    requires allowed(env.policy)
    ensures Enduring(env, Priced(allowed))
  {
    hide Priced, Reopened, QuietStable, SurvivesEvidence, SurvivesSevere, SurvivesFlag, SurvivesWithdrawal,
         SurvivesLink, SurvivesRevocation;
    var J := Priced(allowed);
    PricedOperations(allowed);
    forall key ensures Stable(env, J, key) {
      PricedWalk(env, allowed, key);
      forall a, b, t | J(a) && Censors(env, a, b, t) ensures J(b) { PricedSame(allowed, a, b); }
    }
    forall a, b, key, oracle, reason | J(a) && Reopened(env, a, b, key, oracle, reason) ensures J(b) {
      PricedEpoch(env, allowed, a, b, key, oracle, reason);
    }
    assert forall key, reason :: SurvivesEpoch(env, J, key, reason);
  }

  lemma {:induction false} LastRowIsRow(alphas: seq<AlphaRow>, key: PartitionKey)
    requires LastRow(alphas, key).Some?
    ensures exists i :: 0 <= i < |alphas| && alphas[i] == LastRow(alphas, key).value
  {
    var n := |alphas| - 1;
    if alphas[n].partition != key {
      LastRowIsRow(alphas[..n], key);
      var i :| 0 <= i < n && alphas[..n][i] == LastRow(alphas, key).value;
      assert alphas[i] == LastRow(alphas, key).value;
    }
  }
}
