/** How the likelihood p^s (1 - p)^f moves below the empirical rate, and how the mixture compares with
    its maximum.  */
module LikelihoodFacts {
  import opened Martingale

  /** Weighted AM-GM with integer exponents: s numbers x <= 1, f numbers y >= 1 and one z with
      arithmetic mean at most 1 have a product of at most 1.  Each step replaces z and one of the
      others, on the far side of 1, by their sum minus 1, which cannot lower the product.  */
  lemma {:induction false} BalancedProduct(s: nat, f: nat, x: real, y: real, z: real)
    requires 0.0 <= x <= 1.0 <= y && 0.0 <= z
    requires s as real * x + f as real * y + z <= (s + f + 1) as real
    ensures Pow(x, s) * Pow(y, f) * z <= 1.0
    decreases s + f
  {
    if z <= 1.0 && f > 0 {
      var w := z + y - 1.0;
      DropOne(f, y);
      BalancedProduct(s, f - 1, x, y, w);
      PowRange(x, s);
      PowRange(y, f - 1);
      Absorb(Pow(x, s), Pow(y, f - 1), y, z, w, Pow(y, f));
    } else if z > 1.0 && s > 0 {
      var w := z + x - 1.0;
      DropOne(s, x);
      BalancedProduct(s - 1, f, x, y, w);
      PowRange(y, f);
      PowRange(x, s - 1);
      Commute3(Pow(y, f), Pow(x, s), z);
      Commute3(Pow(y, f), Pow(x, s - 1), w);
      Absorb(Pow(y, f), Pow(x, s - 1), x, z, w, Pow(x, s));
    } else if z <= 1.0 {
      PowRange(x, s);
      MulMonotone(Pow(x, s), 1.0, z, 1.0);
    } else {
      FloorOfSum(f, y);
      assert false;
    }
  }

  lemma DropOne(n: nat, x: real)
    requires n > 0
    ensures n as real * x == (n - 1) as real * x + x
  {}

  lemma FloorOfSum(n: nat, y: real)
    requires y >= 1.0
    ensures n as real * y >= n as real
  {}

  lemma Commute3(x: real, y: real, z: real)
    ensures x * y * z == y * x * z
  {}

  lemma Absorb(p: real, q: real, y: real, z: real, w: real, r: real)
    requires p >= 0.0 && q >= 0.0 && w == z + y - 1.0 && r == y * q
    requires (z <= 1.0 && y >= 1.0) || (z >= 1.0 && y <= 1.0)
    requires p * q * w <= 1.0
    ensures p * r * z <= 1.0
  {
    SwapSides(y, z, w);
    MulRange(p, q);
    MulMonotoneRight(p * q, y * z, w);
    Regroup(p, q, y, z);
  }

  lemma SwapSides(y: real, z: real, w: real)
    requires w == z + y - 1.0
    requires (z <= 1.0 && y >= 1.0) || (z >= 1.0 && y <= 1.0)
    ensures y * z <= w
  {
    assert (1.0 - z) * (y - 1.0) >= 0.0;
  }

  lemma Regroup(p: real, q: real, y: real, z: real)
    ensures p * (y * q) * z == (p * q) * (y * z)
  {}

  lemma Cancel(x: real, y: real, c: real)
    requires c > 0.0 && x * c <= y * c
    ensures x <= y
  {}

  lemma MulMonotoneRight(c: real, x: real, y: real)
    requires c >= 0.0 && x <= y
    ensures c * x <= c * y
  {}

  /** The likelihood rises with p up to the empirical rate s / (s + f). */
  lemma LikelihoodMonotone(p: real, q: real, s: nat, f: nat)
    requires 0.0 <= p <= q && q <= 1.0 && q * (s + f) as real <= s as real
    ensures Likelihood(p, s, f) <= Likelihood(q, s, f)
  {
    if q == 0.0 {
    } else if q == 1.0 {
      assert f == 0;
      PowMonotone(p, q, s);
    } else {
      var x, y := p / q, (1.0 - p) / (1.0 - q);
      Quotients(p, q, x, y);
      TwoSides(s as real, f as real, q, 1.0 - x, y - 1.0);
      BalancedProduct(s, f, x, y, 1.0);
      PowProduct(p, x, q, s);
      PowProduct(1.0 - p, y, 1.0 - q, f);
      LikelihoodPositive(q, s, f);
      Rescale(Pow(x, s), Pow(q, s), Pow(y, f), Pow(1.0 - q, f), Pow(p, s), Pow(1.0 - p, f));
    }
  }

  lemma PowProduct(p: real, x: real, y: real, n: nat)
    requires x * y == p
    ensures Pow(p, n) == Pow(x, n) * Pow(y, n)
  {
    PowMul(x, y, n);
  }

  lemma Quotients(p: real, q: real, x: real, y: real)
    requires 0.0 <= p <= q && 0.0 < q < 1.0
    requires x == p / q && y == (1.0 - p) / (1.0 - q)
    ensures 0.0 <= x <= 1.0 <= y && x * q == p && y * (1.0 - q) == 1.0 - p
  {
    assert x * q == p && y * (1.0 - q) == 1.0 - p;
    Cancel(0.0, x, q);
    Cancel(x, 1.0, q);
    Cancel(1.0, y, 1.0 - q);
  }

  lemma TwoSides(s: real, f: real, q: real, u: real, v: real)
    requires 0.0 < q < 1.0 && u >= 0.0 && v >= 0.0 && s >= 0.0 && f >= 0.0
    requires u * q == v * (1.0 - q) && q * (s + f) <= s
    ensures f * v <= s * u
  {
    var c := v * (1.0 - q);
    MulRange(v, 1.0 - q);
    assert q * f <= s * (1.0 - q);
    MulMonotoneRight(c, q * f, s * (1.0 - q));
    assert (f * v) * (q * (1.0 - q)) == c * (q * f);
    assert (s * u) * (q * (1.0 - q)) == s * (1.0 - q) * (u * q);
    MulRange(q, 1.0 - q);
    Cancel(f * v, s * u, q * (1.0 - q));
  }

  lemma Rescale(px: real, pq: real, py: real, pr: real, lp: real, lr: real)
    requires px * py * 1.0 <= 1.0 && pq * pr >= 0.0 && lp == px * pq && lr == py * pr
    ensures lp * lr <= pq * pr
  {
    assert (px * pq) * (py * pr) == (px * py) * (pq * pr);
    MulMonotoneRight(pq * pr, px * py, 1.0);
  }

  // ---- the mixture never exceeds the maximum likelihood (Jeffreys prior) ---------------------

  /** Bernoulli's inequality. */
  lemma {:induction false} Bernoulli(x: real, n: nat)
    requires 0.0 <= x <= 1.0
    ensures Pow(1.0 - x, n) >= 1.0 - n as real * x
  {
    if n > 0 {
      Bernoulli(x, n - 1);
      BernoulliStep(x, (n - 1) as real, Pow(1.0 - x, n - 1));
    }
  }

  lemma BernoulliStep(x: real, n: real, y: real)
    requires 0.0 <= x <= 1.0 && n >= 0.0 && y >= 1.0 - n * x
    ensures (1.0 - x) * y >= 1.0 - (n + 1.0) * x
  {
    MulMonotoneRight(1.0 - x, 1.0 - n * x, y);
    assert (1.0 - x) * (1.0 - n * x) == 1.0 - (n + 1.0) * x + n * (x * x);
    assert n * (x * x) >= 0.0;
  }

  /** (1 + 1/n)^n is nondecreasing, as a comparison of products. */
  lemma EulerStep(n: nat)
    ensures Pow((n + 1) as real, n) * Pow((n + 1) as real, n + 1) <= Pow((n + 2) as real, n + 1) * Pow(n as real, n)
  {
    var u, v, w := n as real, (n + 1) as real, (n + 2) as real;
    assert v == u + 1.0 && w == u + 2.0;
    var x := 1.0 / (v * v);
    Inverse(v);
    EulerStepAt(n, u, v, w, x, 1.0 - x, v * v, Pow(u, n), Pow(v, n), Pow(w, n), Pow(1.0 - x, n));
    assert Pow(v, n + 1) == v * Pow(v, n) && Pow(w, n + 1) == w * Pow(w, n);
  }

  lemma EulerStepAt(n: nat, u: real, v: real, w: real, x: real, y: real, vv: real, pu: real, pv: real, pw: real, py: real)
    requires u == n as real && v == u + 1.0 && w == u + 2.0 && vv == v * v && 0.0 < x <= 1.0 && x * vv == 1.0 && y == 1.0 - x
    requires pu == Pow(u, n) && pv == Pow(v, n) && pw == Pow(w, n) && py == Pow(y, n)
    ensures pv * (v * pv) <= (w * pw) * pu
  {
    EulerSplit(u, v, w, x, y, vv);
    EulerPowers(u, w, v, y, u * w, vv, n, pu, pw, py, pv);
    PowRange(v, n);
    EulerBernoulli(n, u, x, y, py);
    EulerEnd(u, v, w, x, 1.0 - u * x, vv, pu, pv, pw, py);
  }

  lemma EulerBernoulli(n: nat, u: real, x: real, y: real, py: real)
    requires u == n as real && 0.0 <= x <= 1.0 && y == 1.0 - x && py == Pow(y, n)
    ensures py >= 1.0 - u * x
  {
    Bernoulli(x, n);
  }

  lemma EulerSplit(u: real, v: real, w: real, x: real, y: real, vv: real)
    requires v == u + 1.0 && w == u + 2.0 && vv == v * v && x * vv == 1.0 && y == 1.0 - x
    ensures u * w == y * vv
  {
    assert y * vv == vv - x * vv;
  }

  lemma EulerEnd(u: real, v: real, w: real, x: real, z: real, vv: real, pu: real, pv: real, pw: real, py: real)
    requires u >= 0.0 && v == u + 1.0 && w == u + 2.0 && vv == v * v && x * vv == 1.0 && z == 1.0 - u * x
    requires pv > 0.0 && pu * pw == py * (pv * pv) && py >= z
    ensures pv * (v * pv) <= (w * pw) * pu
  {
    EulerFactor(u, v, w, x, z);
    EulerProduct(pu, pv, pw, py, v, w, z, v * pv, w * pw);
  }

  lemma EulerPowers(u: real, w: real, v: real, y: real, uw: real, vv: real, n: nat, pu: real, pw: real, py: real, pv: real)
    requires uw == u * w && vv == v * v && uw == y * vv
    requires pu == Pow(u, n) && pw == Pow(w, n) && py == Pow(y, n) && pv == Pow(v, n)
    ensures pu * pw == py * (pv * pv)
  {
    PowProduct(uw, u, w, n);
    PowProduct(uw, y, vv, n);
    PowProduct(vv, v, v, n);
    SameFactor(py, Pow(vv, n), pv * pv);
  }

  lemma SameFactor(c: real, x: real, y: real)
    requires x == y
    ensures c * x == c * y
  {}

  lemma Inverse(v: real)
    requires v >= 1.0
    ensures v * v >= 1.0 && 0.0 < 1.0 / (v * v) <= 1.0 && 1.0 / (v * v) * (v * v) == 1.0
  {
    MulRange(v, v);
    var c := v * v;
    assert 1.0 / c * c == 1.0;
    Cancel(1.0 / c, 1.0, c);
  }

  lemma EulerFactor(n: real, v: real, w: real, x: real, z: real)
    requires n >= 0.0 && v == n + 1.0 && w == n + 2.0 && x * (v * v) == 1.0 && z == 1.0 - n * x
    ensures z * w >= v
  {
    var c := v * v;
    assert c == n * n + 2.0 * n + 1.0;
    assert c >= 1.0;
    ScaleOut(n, x, c, z);
    assert (z * w) * c == (z * c) * w;
    assert (c - n) * w == v * c + 1.0 by { Cube(n); }
    Cancel(v, z * w, c);
  }

  lemma ScaleOut(n: real, x: real, c: real, z: real)
    requires x * c == 1.0 && z == 1.0 - n * x
    ensures z * c == c - n
  {
    assert z * c == c - n * (x * c);
  }

  lemma Cube(n: real)
    ensures (n * n + n + 1.0) * (n + 2.0) == (n + 1.0) * (n * n + 2.0 * n + 1.0) + 1.0
  {}

  lemma EulerProduct(pu: real, pv: real, pw: real, py: real, v: real, w: real, z: real, pv': real, pw': real)
    requires pv > 0.0 && w > 0.0 && pv' == v * pv && pw' == w * pw
    requires pu * pw == py * (pv * pv) && py >= z && z * w >= v
    ensures pv * pv' <= pw' * pu
  {
    var c := pv * pv;
    MulRange(pv, pv);
    assert (w * pw) * pu == (py * w) * c;
    MulMonotoneRight(w, z, py);
    MulMonotoneRight(c, v, py * w);
    assert pv * (v * pv) == c * v;
  }

  lemma {:induction false} EulerMonotone(n: nat, m: nat)
    requires n <= m
    ensures Pow((n + 1) as real, n) * Pow(m as real, m) <= Pow((m + 1) as real, m) * Pow(n as real, n)
    decreases m - n
  {
    hide *;
    if n < m {
      EulerMonotone(n, m - 1);
      EulerStep(m - 1);
      PowRange((m - 1) as real, m - 1);
      PowRange(m as real, m - 1);
      PowRange(m as real, m);
      PowRange(n as real, n);
      PowRange((m + 1) as real, m);
      Chain(Pow((n + 1) as real, n), Pow((m - 1) as real, m - 1), Pow(m as real, m - 1), Pow(n as real, n),
            Pow(m as real, m), Pow((m + 1) as real, m));
    }
  }

  /** a b <= c d and c e <= g b with b, c, e > 0 give a e <= g d. */
  lemma Chain(a: real, b: real, c: real, d: real, e: real, g: real)
    requires a * b <= c * d && c * e <= g * b && b > 0.0 && c > 0.0 && d >= 0.0 && e > 0.0
    ensures a * e <= g * d
  {
    MulMonotoneRight(e, a * b, c * d);
    MulMonotoneRight(d, c * e, g * b);
    assert (a * e) * b == e * (a * b) && e * (c * d) == d * (c * e) && d * (g * b) == (g * d) * b;
    Cancel(a * e, g * d, b);
  }

  lemma {:induction false} PowAdd(x: real, n: nat, m: nat)
    ensures Pow(x, n + m) == Pow(x, n) * Pow(x, m)
  {
    if n > 0 {
      PowAdd(x, n - 1, m);
      assert n - 1 + m == n + m - 1;
      assert x * (Pow(x, n - 1) * Pow(x, m)) == (x * Pow(x, n - 1)) * Pow(x, m);
    }
  }

  lemma PowStep(x: real, n: nat)
    ensures Pow(x, n + 1) == x * Pow(x, n)
  {}

  /** s (s + 1) <= (s + 1/2)^2, raised to the power s and spread over the Euler factors.  The powers
      are passed by name so that the products below are products of variables.  */
  lemma MiddleFactor(s: nat, u: real, v: real, h: real, v2: real, h2: real, us: real, bigger: real, vs1: real, big: real)
    requires u == s as real && v == u + 1.0 && h == u + 0.5 && v2 == 2.0 * v && h2 == 2.0 * h
    requires us == Pow(u, s) && bigger == Pow(v2, 2 * s + 1)
    requires vs1 == Pow(v, s + 1) && big == Pow(h2, 2 * s + 1)
    ensures us * h * bigger <= vs1 * big
  {
    PowRange(2.0, 2 * s + 1);
    PowRange(v, s + 1);
    SquaresApart(s, u, v, h);
    PowStep(h, s);
    var two, vs, hs, hs1 := Pow(2.0, 2 * s + 1), Pow(v, s), Pow(h, s), Pow(h, s + 1);
    DoubledPower(s, v, v2, two, vs1, vs, bigger);
    DoubledPower(s, h, h2, two, hs1, hs, big);
    MiddleProduct(us, h, two, vs1, vs, hs, hs1, vs1 * vs, hs1 * hs, bigger, big);
  }

  lemma DoubledPower(s: nat, v: real, v2: real, two: real, vs1: real, vs: real, big: real)
    requires v2 == 2.0 * v && two == Pow(2.0, 2 * s + 1) && vs1 == Pow(v, s + 1) && vs == Pow(v, s)
    requires big == Pow(v2, 2 * s + 1)
    ensures big == two * (vs1 * vs)
  {
    PowProduct(v2, 2.0, v, 2 * s + 1);
    PowAdd(v, s + 1, s);
    assert (s + 1) + s == 2 * s + 1;
  }

  lemma SquaresApart(s: nat, u: real, v: real, h: real)
    requires u >= 0.0 && v == u + 1.0 && h == u + 0.5
    ensures Pow(u, s) * Pow(v, s) <= Pow(h, s) * Pow(h, s)
  {
    MulRange(u, v);
    assert u * v <= h * h;
    PowMonotone(u * v, h * h, s);
    PowMul(u, v, s);
    PowMul(h, h, s);
  }

  lemma MiddleProduct(us: real, h: real, two: real, vs1: real, vs: real, hs: real, hs1: real, vm: real, hm: real,
                      bigger: real, big: real)
    requires two > 0.0 && h > 0.0 && vs1 > 0.0 && us * vs <= hs * hs && hs1 == h * hs
    requires vm == vs1 * vs && hm == hs1 * hs && bigger == two * vm && big == two * hm
    ensures us * h * bigger <= vs1 * big
  {
    var c := two * h * vs1;
    assert c > 0.0 by { MulRange(two, h); MulRange(two * h, vs1); }
    MulMonotoneRight(c, us * vs, hs * hs);
    assert us * h * (two * (vs1 * vs)) == c * (us * vs);
    assert vs1 * (two * (h * hs * hs)) == c * (hs * hs);
  }

  /** Adding a success to the side that is not behind keeps the mixture below the maximum. */
  lemma EntropyStep(s: nat, n: nat, x: real, ps: real, pn1: real, ps1: real, pn: real)
    requires n <= 2 * s + 1 && x == s as real + 0.5
    requires ps == Pow(s as real, s) && pn1 == Pow((n + 1) as real, n)
    requires ps1 == Pow((s + 1) as real, s + 1) && pn == Pow(n as real, n)
    ensures ps * x * pn1 <= ps1 * pn
  {
    var m := 2 * s + 1;
    EulerMonotone(n, m);
    MiddleFactor(s, s as real, (s + 1) as real, x, (m + 1) as real, m as real, ps, Pow((m + 1) as real, m), ps1, Pow(m as real, m));
    PowRange(m as real, m);
    PowRange(s as real, s);
    PowRange(n as real, n);
    MulRange(ps, x);
    EntropyChain(ps * x, pn1, Pow(m as real, m), Pow((m + 1) as real, m), pn, ps1);
  }

  lemma EntropyChain(a: real, n1: real, mm: real, m1: real, nn: real, d: real)
    requires a >= 0.0 && mm > 0.0 && nn >= 0.0 && n1 * mm <= m1 * nn && a * m1 <= d * mm
    ensures a * n1 <= d * nn
  {
    MulMonotoneRight(a, n1 * mm, m1 * nn);
    MulMonotoneRight(nn, a * m1, d * mm);
    assert (a * n1) * mm == a * (n1 * mm) && a * (m1 * nn) == nn * (a * m1) && nn * (d * mm) == (d * nn) * mm;
    Cancel(a * n1, d * nn, mm);
  }

  lemma MixtureSymmetric(s: nat, f: nat, a: real)
    requires a > 0.0
    ensures Mixture(s, f, a, a) == Mixture(f, s, a, a)
  {
    assert Rising(a, s) * Rising(a, f) == Rising(a, f) * Rising(a, s);
    assert s + f == f + s;
  }

  /** The mixture times n^n is at most s^s f^f, for the Jeffreys prior. */
  lemma {:induction false} MixtureBelowEntropy(s: nat, f: nat)
    ensures Mixture(s, f, 0.5, 0.5) * Pow((s + f) as real, s + f) <= Pow(s as real, s) * Pow(f as real, f)
    decreases s + f, f
  {
    if s < f {
      MixtureBelowEntropy(f, s);
      MixtureSymmetric(s, f, 0.5);
      assert f + s == s + f;
    } else if s > 0 {
      MixtureBelowEntropy(s - 1, f);
      BelowEntropyStep(s, f);
    }
  }

  lemma BelowEntropyStep(s: nat, f: nat)
    requires s > 0 && f <= s
    requires Mixture(s - 1, f, 0.5, 0.5) * Pow((s - 1 + f) as real, s - 1 + f)
          <= Pow((s - 1) as real, s - 1) * Pow(f as real, f)
    ensures Mixture(s, f, 0.5, 0.5) * Pow((s + f) as real, s + f) <= Pow(s as real, s) * Pow(f as real, f)
  {
    var n := s - 1 + f;
    MixtureSuccess(s - 1, f, 0.5, 0.5);
    BelowEntropyStepAt(s, f, n, (n + 1) as real, (s - 1) as real + 0.5, Mixture(s, f, 0.5, 0.5),
                       Mixture(s - 1, f, 0.5, 0.5), Pow((s - 1) as real, s - 1), Pow((n + 1) as real, n),
                       Pow(s as real, s), Pow(n as real, n), Pow(f as real, f));
    PowStep((n + 1) as real, n);
  }

  lemma BelowEntropyStepAt(s: nat, f: nat, n: nat, n1: real, x: real, k1: real, k: real, ps: real, pn1: real, ps1: real,
                           pn: real, pf: real)
    requires 0 < s && f <= s && n == s - 1 + f && n1 == (n + 1) as real && x == (s - 1) as real + 0.5
    requires ps == Pow((s - 1) as real, s - 1) && pn1 == Pow((n + 1) as real, n)
    requires ps1 == Pow(s as real, s) && pn == Pow(n as real, n) && pf == Pow(f as real, f)
    requires k1 * n1 == k * x && k * pn <= ps * pf
    ensures k1 * (n1 * pn1) <= ps1 * pf
  {
    EntropyStep(s - 1, n, x, ps, pn1, ps1, pn);
    PowRange(f as real, f);
    PowRange((n + 1) as real, n);
    PowSelf(n);
    BelowStep(k1, k, n1, x, pn1, pn, ps, ps1, pf, n1 * pn1);
  }

  lemma PowSelf(n: nat)
    ensures Pow(n as real, n) > 0.0
  {
    if n > 0 { PowRange(n as real, n); }
  }

  lemma BelowStep(k1: real, k: real, n1: real, x: real, pn1: real, pn: real, ps: real, ps1: real, pf: real, top: real)
    requires k1 * n1 == k * x && k * pn <= ps * pf && ps * x * pn1 <= ps1 * pn && top == n1 * pn1
    requires pn > 0.0 && pn1 >= 0.0 && x >= 0.0 && pf >= 0.0
    ensures k1 * top <= ps1 * pf
  {
    var c := x * pn1;
    MulRange(x, pn1);
    MulMonotoneRight(c, k * pn, ps * pf);
    MulMonotoneRight(pf, ps * x * pn1, ps1 * pn);
    assert (k1 * (n1 * pn1)) * pn == (k1 * n1) * (pn1 * pn);
    assert (k * x) * (pn1 * pn) == c * (k * pn);
    assert c * (ps * pf) == pf * (ps * x * pn1);
    assert pf * (ps1 * pn) == (ps1 * pf) * pn;
    Cancel(k1 * top, ps1 * pf, pn);
  }

  /** The mixture likelihood is at most the maximum likelihood. */
  lemma MixtureAtMostMaximum(s: nat, f: nat)
    requires s + f > 0
    ensures Mixture(s, f, 0.5, 0.5) <= Likelihood(s as real / (s + f) as real, s, f)
  {
    hide Rising;
    var n := s + f;
    var q := s as real / n as real;
    assert q * n as real == s as real;
    assert (1.0 - q) * n as real == f as real;
    PowProduct(s as real, q, n as real, s);
    PowProduct(f as real, 1.0 - q, n as real, f);
    PowAdd(n as real, s, f);
    PowRange(n as real, n);
    MixtureBelowEntropy(s, f);
    Rearranged(Pow(q, s), Pow(n as real, s), Pow(1.0 - q, f), Pow(n as real, f), Likelihood(q, s, f), Pow(n as real, n),
               Pow(s as real, s), Pow(f as real, f));
    Cancel(Mixture(s, f, 0.5, 0.5), Likelihood(q, s, f), Pow(n as real, n));
  }

  lemma Rearranged(a: real, b: real, c: real, d: real, l: real, nn: real, ss: real, ff: real)
    requires l == a * c && nn == b * d && ss == a * b && ff == c * d
    ensures l * nn == ss * ff
  {
    assert (a * b) * (c * d) == (a * c) * (b * d);
  }
}
