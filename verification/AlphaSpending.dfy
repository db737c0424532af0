/** How one error budget is divided over partitions and epochs, and why every allocation ever written
    adds up to no more than it.  */
module AlphaSpending {
  import opened Martingale
  import opened LikelihoodFacts

  datatype PartitionRule = PerPartition | Online
  datatype EpochRule = PerEpoch | Lineage

  /** The level given to a partition's epoch: `index` counts registrations from 1, `epoch` epochs from 0. */
  datatype Allocation = Allocation(index: nat, epoch: nat, alpha: real)

  function Share(spending: real, k: int): real
    requires k >= 1
  {
    spending / (k as real * k as real)
  }

  /** The level of the k-th registered partition's e-th epoch, both counted from 1. */
  function AllocatedAlpha(alpha: real, spending: real, partitions: PartitionRule, epochs: EpochRule, k: int, e: int): real
    requires k >= 1 && e >= 1
  {
    var byPartition := if partitions == Online then alpha * Share(spending, k) else alpha;
    if epochs == Lineage then byPartition * Share(spending, e) else byPartition
  }

  lemma ShareTimes(x: real, spending: real, k: int)
    requires k >= 1
    ensures x * Share(spending, k) * (k as real * k as real) == x * spending
  {
    var square := k as real * k as real;
    assert square >= 1.0;
    assert Share(spending, k) * square == spending;
    assert x * Share(spending, k) * square == x * (Share(spending, k) * square);
  }

  /** Exactly what a level is: online spending divides by the square of the registration, lineage spending by that of
      the epoch, each with the spending constant, and neither rule leaves the whole. */
  lemma AllocatedExactly(alpha: real, spending: real, k: int, e: int)
    requires k >= 1 && e >= 1
    ensures AllocatedAlpha(alpha, spending, PerPartition, PerEpoch, k, e) == alpha
    ensures AllocatedAlpha(alpha, spending, Online, PerEpoch, k, e) * (k as real * k as real) == alpha * spending
    ensures AllocatedAlpha(alpha, spending, PerPartition, Lineage, k, e) * (e as real * e as real) == alpha * spending
    ensures AllocatedAlpha(alpha, spending, Online, Lineage, k, e) * (e as real * e as real) * (k as real * k as real)
         == alpha * spending * spending
  {
    hide Share;
    ShareTimes(alpha, spending, k);
    ShareTimes(alpha, spending, e);
    ShareTimes(alpha * Share(spending, k), spending, e);
    var squares := k as real * k as real;
    assert alpha * Share(spending, k) * spending * squares == alpha * Share(spending, k) * squares * spending;
  }

  /** 1 + 1/4 + ... + 1/n^2 */
  function InverseSquares(n: nat): real {
    if n == 0 then 0.0 else InverseSquares(n - 1) + 1.0 / (n as real * n as real)
  }

  /** What spending needs of its constant: the shares of any number of claimants stay within the whole. */
  ghost predicate SpendingConstant(c: real) {
    c > 0.0 && forall n: nat :: SpendsAtMostOne(c, n)
  }

  ghost predicate SpendsAtMostOne(c: real, n: nat) {
    c * InverseSquares(n) <= 1.0
  }

  lemma {:induction false} InverseSquaresTelescope(n: nat)
    requires n >= 1
    ensures InverseSquares(n) <= 5.0 / 3.0 - 1.0 / (n as real + 0.5)
  {
    if n > 1 {
      InverseSquaresTelescope(n - 1);
      TelescopeTerm(n as real);
      assert (n - 1) as real + 0.5 == n as real - 0.5;
    }
  }

  lemma TelescopeTerm(k: real)
    requires k >= 1.0
    ensures 1.0 / (k * k) <= 1.0 / (k - 0.5) - 1.0 / (k + 0.5)
  {
    var x, y, z := 1.0 / (k * k), 1.0 / (k - 0.5), 1.0 / (k + 0.5);
    var u, v := k - 0.5, k + 0.5;
    assert k * k >= 1.0;
    assert x * (k * k) == 1.0 && y * u == 1.0 && z * v == 1.0;
    assert u * v == k * k - 0.25;
    TelescopeProduct(x, y, z, u, v, k * k);
  }

  lemma TelescopeProduct(x: real, y: real, z: real, u: real, v: real, kk: real)
    requires u > 0.0 && v == u + 1.0 && kk == u * v + 0.25 && kk > 0.0
    requires x * kk == 1.0 && y * u == 1.0 && z * v == 1.0
    ensures x <= y - z
  {
    var c := u * v;
    MulRange(u, v);
    assert (y - z) * c == 1.0 by { assert y * (u * v) == v && z * (u * v) == u; }
    assert x * c == 1.0 - 0.25 * x by { assert x * kk == x * c + x * 0.25; }
    Cancel(0.0, x, kk);
    Cancel(x, y - z, c);
  }

  /** 3/5 is a spending constant (the program's 6 / pi^2 is the largest one). */
  lemma ThreeFifthsSpends()
    ensures SpendingConstant(0.6)
  {
    forall n: nat ensures SpendsAtMostOne(0.6, n) {
      if n >= 1 {
        InverseSquaresTelescope(n);
        assert 1.0 / (n as real + 0.5) > 0.0;
      }
    }
  }

  // ---- conservation ------------------------------------------------------------------------------

  /** What the shares of n claimants take of a base. */
  function Portion(base: real, c: real, n: nat): real {
    base * (c * InverseSquares(n))
  }

  function Total(rows: seq<Allocation>): real {
    if rows == [] then 0.0 else Total(rows[..|rows| - 1]) + rows[|rows| - 1].alpha
  }

  function TotalFor(rows: seq<Allocation>, k: nat): real {
    if rows == [] then 0.0
    else
      var last := rows[|rows| - 1];
      TotalFor(rows[..|rows| - 1], k) + if last.index == k then last.alpha else 0.0
  }

  function EpochsOf(rows: seq<Allocation>, k: nat): nat {
    if rows == [] then 0
    else EpochsOf(rows[..|rows| - 1], k) + if rows[|rows| - 1].index == k then 1 else 0
  }

  /** Each row is the next epoch of its index, and no larger than the share of that index and epoch. */
  ghost predicate Spent(rows: seq<Allocation>, alpha: real, spending: real) {
    forall i :: 0 <= i < |rows| ==> SpentAt(rows, i, alpha, spending)
  }

  ghost predicate SpentAt(rows: seq<Allocation>, i: nat, alpha: real, spending: real)
    requires i < |rows|
  {
    && rows[i].index >= 1
    && rows[i].epoch == EpochsOf(rows[..i], rows[i].index)
    && rows[i].alpha <= alpha * Share(spending, rows[i].index) * Share(spending, rows[i].epoch + 1)
  }

  lemma SpentPrefix(rows: seq<Allocation>, alpha: real, spending: real)
    requires rows != [] && Spent(rows, alpha, spending)
    ensures Spent(rows[..|rows| - 1], alpha, spending)
  {
    var prefix := rows[..|rows| - 1];
    forall i | 0 <= i < |prefix| ensures SpentAt(prefix, i, alpha, spending) {
      assert SpentAt(rows, i, alpha, spending) && prefix[..i] == rows[..i] && prefix[i] == rows[i];
    }
  }

  lemma ShareNotNegative(spending: real, k: int)
    requires k >= 1 && spending > 0.0
    ensures Share(spending, k) >= 0.0 && Share(spending, k) == spending * (1.0 / (k as real * k as real))
  {
    var d := k as real * k as real;
    assert d >= 1.0;
    var q := 1.0 / d;
    assert q * d == 1.0;
    assert q > 0.0;
    var s := spending / d;
    assert s * d == spending;
    assert (spending * q) * d == spending;
    Cancel(s, spending * q, d);
    Cancel(spending * q, s, d);
    MulRange(spending, q);
  }

  /** One index, over all its epochs, spends at most its share. */
  lemma {:induction false} IndexWithinShare(rows: seq<Allocation>, k: nat, alpha: real, spending: real)
    requires Spent(rows, alpha, spending) && k >= 1 && alpha >= 0.0 && spending > 0.0
    ensures TotalFor(rows, k) <= Portion(alpha * Share(spending, k), spending, EpochsOf(rows, k))
    decreases |rows|
  {
    if rows != [] {
      var prefix, last := rows[..|rows| - 1], rows[|rows| - 1];
      assert SpentAt(rows, |rows| - 1, alpha, spending);
      SpentPrefix(rows, alpha, spending);
      IndexWithinShare(prefix, k, alpha, spending);
      if last.index == k {
        AddRow(EpochsOf(prefix, k), alpha * Share(spending, k), spending, TotalFor(prefix, k), last.alpha);
      }
    }
  }

  lemma AddRow(e: nat, base: real, c: real, total: real, added: real)
    requires c > 0.0 && total <= Portion(base, c, e) && added <= base * Share(c, e + 1)
    ensures total + added <= Portion(base, c, e + 1)
  {
    ShareNotNegative(c, e + 1);
    AddEpoch(base, c, InverseSquares(e), 1.0 / ((e + 1) as real * (e + 1) as real), Share(c, e + 1), total, added);
  }

  lemma AddEpoch(base: real, c: real, h: real, q: real, share: real, total: real, added: real)
    requires share == c * q && total <= base * (c * h) && added <= base * share
    ensures total + added <= base * (c * (h + q))
  {
    assert base * (c * (h + q)) == base * (c * h) + base * (c * q);
  }

  function TotalUpTo(rows: seq<Allocation>, n: nat): real {
    if n == 0 then 0.0 else TotalUpTo(rows, n - 1) + TotalFor(rows, n)
  }

  lemma {:induction false} TotalUpToEmpty(n: nat)
    ensures TotalUpTo([], n) == 0.0
  {
    if n > 0 { TotalUpToEmpty(n - 1); }
  }

  lemma {:induction false} TotalUpToLast(rows: seq<Allocation>, n: nat)
    requires rows != []
    ensures TotalUpTo(rows, n) == TotalUpTo(rows[..|rows| - 1], n)
                                  + if 1 <= rows[|rows| - 1].index <= n then rows[|rows| - 1].alpha else 0.0
  {
    if n > 0 { TotalUpToLast(rows, n - 1); }
  }

  lemma {:induction false} TotalByIndex(rows: seq<Allocation>, n: nat)
    requires forall i :: 0 <= i < |rows| ==> 1 <= rows[i].index <= n
    ensures Total(rows) == TotalUpTo(rows, n)
    decreases |rows|
  {
    if rows == [] {
      TotalUpToEmpty(n);
    } else {
      TotalByIndex(rows[..|rows| - 1], n);
      TotalUpToLast(rows, n);
    }
  }

  lemma IndexWithinBudget(rows: seq<Allocation>, k: nat, alpha: real, spending: real)
    requires Spent(rows, alpha, spending) && k >= 1 && alpha >= 0.0 && SpendingConstant(spending)
    ensures TotalFor(rows, k) <= alpha * Share(spending, k)
  {
    IndexWithinShare(rows, k, alpha, spending);
    ShareNotNegative(spending, k);
    MulRange(alpha, Share(spending, k));
    WholeShare(alpha * Share(spending, k), spending, EpochsOf(rows, k), TotalFor(rows, k));
  }

  lemma {:induction false} WithinShares(rows: seq<Allocation>, n: nat, alpha: real, spending: real)
    requires Spent(rows, alpha, spending) && alpha >= 0.0 && SpendingConstant(spending)
    ensures TotalUpTo(rows, n) <= Portion(alpha, spending, n)
  {
    if n > 0 {
      WithinShares(rows, n - 1, alpha, spending);
      IndexWithinBudget(rows, n, alpha, spending);
      AddRow(n - 1, alpha, spending, TotalUpTo(rows, n - 1), TotalFor(rows, n));
    }
  }

  lemma SpendsAtMostAll(spending: real, n: nat)
    requires SpendingConstant(spending)
    ensures spending * InverseSquares(n) <= 1.0
  {
    assert SpendsAtMostOne(spending, n);
  }

  lemma WholeShare(base: real, c: real, n: nat, total: real)
    requires base >= 0.0 && SpendingConstant(c) && total <= Portion(base, c, n)
    ensures total <= base
  {
    SpendsAtMostAll(c, n);
    MulMonotoneRight(base, c * InverseSquares(n), 1.0);
  }

  lemma {:induction false} LargestIndex(rows: seq<Allocation>) returns (n: nat)
    ensures forall i :: 0 <= i < |rows| ==> rows[i].index <= n
    decreases |rows|
  {
    n := 0;
    if rows != [] {
      n := LargestIndex(rows[1..]);
      assert forall i :: 1 <= i < |rows| ==> rows[i] == rows[1..][i - 1];
      if rows[0].index > n { n := rows[0].index; }
    }
  }

  /** Everything ever allocated, over every partition and every epoch, is at most the budget. */
  lemma AllocationsConserve(rows: seq<Allocation>, alpha: real, spending: real)
    requires Spent(rows, alpha, spending) && alpha >= 0.0 && SpendingConstant(spending)
    ensures Total(rows) <= alpha
  {
    var n := LargestIndex(rows);
    forall i | 0 <= i < |rows| ensures 1 <= rows[i].index { assert SpentAt(rows, i, alpha, spending); }
    TotalByIndex(rows, n);
    WithinShares(rows, n, alpha, spending);
    WholeShare(alpha, spending, n, TotalUpTo(rows, n));
  }

  /** No (index, epoch) pair is allocated twice. */
  lemma AllocationsDistinct(rows: seq<Allocation>, alpha: real, spending: real)
    requires Spent(rows, alpha, spending)
    ensures forall i, j :: 0 <= i < j < |rows| ==> (rows[i].index, rows[i].epoch) != (rows[j].index, rows[j].epoch)
  {
    forall i, j | 0 <= i < j < |rows| && rows[i].index == rows[j].index
      ensures rows[i].epoch < rows[j].epoch
    {
      assert SpentAt(rows, i, alpha, spending) && SpentAt(rows, j, alpha, spending);
      EpochsGrow(rows, i + 1, j, rows[i].index);
      assert rows[..i + 1][..i] == rows[..i];
    }
  }

  lemma {:induction false} EpochsGrow(rows: seq<Allocation>, i: nat, j: nat, k: nat)
    requires i <= j <= |rows|
    ensures EpochsOf(rows[..i], k) <= EpochsOf(rows[..j], k)
    decreases j
  {
    if i < j {
      EpochsGrow(rows, i, j - 1, k);
      assert rows[..j][..j - 1] == rows[..j - 1];
    }
  }

  // ---- the driver's unit levels --------------------------------------------------------------------

  datatype UnitRule = UnitPerPartition | Bonferroni | UnitOnline

  function UnitAlpha(alpha: real, spending: real, rule: UnitRule, declared: nat, epochs: EpochRule, k: nat, e: nat): real
    requires k >= 1 && e >= 1 && declared >= 1
  {
    var byPartition := match rule
      case UnitPerPartition => alpha
      case Bonferroni => alpha / declared as real
      case UnitOnline => alpha * Share(spending, k);
    if epochs == Lineage then byPartition * Share(spending, e) else byPartition
  }

  function UnitEpochs(alpha: real, spending: real, rule: UnitRule, declared: nat, k: nat, e: nat): real
    requires k >= 1 && declared >= 1
  {
    if e == 0 then 0.0
    else UnitEpochs(alpha, spending, rule, declared, k, e - 1) + UnitAlpha(alpha, spending, rule, declared, Lineage, k, e)
  }

  function UnitFamily(alpha: real, spending: real, rule: UnitRule, declared: nat, k: nat, e: nat): real
    requires declared >= 1
  {
    if k == 0 then 0.0
    else UnitFamily(alpha, spending, rule, declared, k - 1, e) + UnitEpochs(alpha, spending, rule, declared, k, e)
  }

  lemma {:induction false} UnitEpochsWithinShare(alpha: real, spending: real, rule: UnitRule, declared: nat, k: nat, e: nat, base: real)
    requires k >= 1 && declared >= 1 && SpendingConstant(spending) && base >= 0.0
    requires base == match rule case UnitPerPartition => alpha case Bonferroni => alpha / declared as real
                                case UnitOnline => alpha * Share(spending, k)
    ensures UnitEpochs(alpha, spending, rule, declared, k, e) <= Portion(base, spending, e)
  {
    if e > 0 {
      UnitEpochsWithinShare(alpha, spending, rule, declared, k, e - 1, base);
      AddRow(e - 1, base, spending, UnitEpochs(alpha, spending, rule, declared, k, e - 1),
             UnitAlpha(alpha, spending, rule, declared, Lineage, k, e));
    }
  }

  lemma UnitEpochsWithinBase(alpha: real, spending: real, rule: UnitRule, declared: nat, k: nat, e: nat, base: real)
    requires k >= 1 && declared >= 1 && SpendingConstant(spending) && base >= 0.0
    requires base == match rule case UnitPerPartition => alpha case Bonferroni => alpha / declared as real
                                case UnitOnline => alpha * Share(spending, k)
    ensures UnitEpochs(alpha, spending, rule, declared, k, e) <= base
  {
    UnitEpochsWithinShare(alpha, spending, rule, declared, k, e, base);
    WholeShare(base, spending, e, UnitEpochs(alpha, spending, rule, declared, k, e));
  }

  lemma {:induction false} OnlineFamily(alpha: real, spending: real, declared: nat, k: nat, e: nat)
    requires declared >= 1 && SpendingConstant(spending) && alpha >= 0.0
    ensures UnitFamily(alpha, spending, UnitOnline, declared, k, e) <= Portion(alpha, spending, k)
  {
    if k > 0 {
      OnlineFamily(alpha, spending, declared, k - 1, e);
      ShareNotNegative(spending, k);
      MulRange(alpha, Share(spending, k));
      UnitEpochsWithinBase(alpha, spending, UnitOnline, declared, k, e, alpha * Share(spending, k));
      AddRow(k - 1, alpha, spending, UnitFamily(alpha, spending, UnitOnline, declared, k - 1, e),
             UnitEpochs(alpha, spending, UnitOnline, declared, k, e));
    }
  }

  lemma OneMoreShare(k: nat, share: real)
    requires k > 0
    ensures k as real * share == (k - 1) as real * share + share
  {}

  lemma {:induction false} EvenFamily(alpha: real, spending: real, declared: nat, k: nat, e: nat, share: real)
    requires declared >= 1 && SpendingConstant(spending) && alpha >= 0.0 && share == alpha / declared as real && share >= 0.0
    ensures UnitFamily(alpha, spending, Bonferroni, declared, k, e) <= k as real * share
  {
    hide UnitEpochs, UnitAlpha, Share, Portion;
    if k > 0 {
      EvenFamily(alpha, spending, declared, k - 1, e, share);
      UnitEpochsWithinBase(alpha, spending, Bonferroni, declared, k, e, share);
      OneMoreShare(k, share);
    }
  }

  /** Under lineage spending the levels of a whole family add up to at most alpha: over any number of
      partitions with online spending, and over at most the declared number with the even split. */
  lemma UnitFamilyConserves(alpha: real, spending: real, rule: UnitRule, declared: nat, k: nat, e: nat)
    requires declared >= 1 && SpendingConstant(spending) && alpha >= 0.0
    requires rule == UnitOnline || (rule == Bonferroni && k <= declared)
    ensures UnitFamily(alpha, spending, rule, declared, k, e) <= alpha
  {
    if rule == UnitOnline {
      OnlineFamily(alpha, spending, declared, k, e);
      WholeShare(alpha, spending, k, UnitFamily(alpha, spending, rule, declared, k, e));
    } else {
      var share := alpha / declared as real;
      EvenSplit(alpha, declared as real, share);
      EvenFamily(alpha, spending, declared, k, e, share);
      MulMonotone(k as real, declared as real, share, share);
    }
  }

  lemma EvenSplit(alpha: real, d: real, share: real)
    requires d >= 1.0 && alpha >= 0.0 && share == alpha / d
    ensures share >= 0.0 && d * share == alpha
  {
    assert share * d == alpha;
    Cancel(0.0, share, d);
  }
}
