/**
 * One coordinate drawn a fixed fraction of the way toward its target, once
 * and repeatedly: the arithmetic of the integrator's snap regime.
 */
module Contraction {
  import opened Elementary

  /** One coordinate moved the fraction k of the way to its target. */
  function Approach(p: real, t: real, k: real): real {
    p + (t - p) * k
  }

  /** An approach with k in (0, 1] multiplies the distance to the target by 1 - k. */
  lemma ApproachContracts(p: real, t: real, k: real)
    requires 0.0 < k <= 1.0
    ensures Approach(p, t, k) - t == (1.0 - k) * (p - t)
    ensures Abs(Approach(p, t, k) - t) == (1.0 - k) * Abs(p - t)
    ensures Abs(Approach(p, t, k) - t) <= Abs(p - t)
  {
    assert Approach(p, t, k) - t == (p - t) * (1.0 - k);
    if p - t >= 0.0 {
      MulNonneg(p - t, 1.0 - k);
      MulMono(p - t, 1.0 - k, 1.0);
    } else {
      MulNonneg(t - p, 1.0 - k);
      MulMono(t - p, 1.0 - k, 1.0);
    }
  }

  /** r to the power n. */
  function Power(r: real, n: nat): real
    decreases n
  {
    if n == 0 then 1.0 else r * Power(r, n - 1)
  }

  /** For r in [0, 1] the powers are non-negative and do not grow. */
  lemma {:induction false} PowerShrinks(r: real, n: nat)
    requires 0.0 <= r <= 1.0
    ensures 0.0 <= Power(r, n + 1) <= Power(r, n) <= 1.0
    decreases n
  {
    if n > 0 {
      PowerShrinks(r, n - 1);
    }
    MulNonneg(r, Power(r, n));
    MulMono(Power(r, n), r, 1.0);
  }

  /** Equal factors give equal products. */
  lemma ScaleEq(c: real, x: real, y: real)
    requires x == y
    ensures c * x == c * y
  {
  }

  /** Multiplication is associative. */
  lemma MulAssoc(a: real, b: real, c: real)
    ensures a * (b * c) == (a * b) * c
  {
  }

  /** n approaches of one coordinate p toward t at rate k. */
  function Approaches(p: real, t: real, k: real, n: nat): real
    decreases n
  {
    if n == 0 then p else Approaches(Approach(p, t, k), t, k, n - 1)
  }

  /** After n approaches, the signed offset from t is the initial one times (1 - k)^n. */
  lemma {:induction false} ApproachesContract(p: real, t: real, k: real, n: nat)
    ensures Approaches(p, t, k, n) - t == Power(1.0 - k, n) * (p - t)
    decreases n
  {
    if n > 0 {
      var p1 := Approach(p, t, k);
      assert p1 - t == (1.0 - k) * (p - t);
      ApproachesContract(p1, t, k, n - 1);
      OffsetStep(p1 - t, 1.0 - k, Power(1.0 - k, n - 1), p - t, Approaches(p1, t, k, n - 1) - t);
    }
  }

  /** An offset e scaled by c, where e is d scaled by f, is d scaled by f c. */
  lemma OffsetStep(e: real, f: real, c: real, d: real, q: real)
    requires q == c * e && e == f * d
    ensures q == (f * c) * d
  {
    ScaleEq(c, e, f * d);
    MulAssoc(c, f, d);
  }

  /**
   * Bernoulli's bound for the contraction factor: for k in (0, 1],
   * (1 - k)^n is non-negative and (1 - k)^n (1 + n k) is at most 1, so the
   * factor is at most 1 / (1 + n k) and falls below any positive tolerance.
   */
  lemma {:induction false} PowerBernoulli(k: real, n: nat)
    requires 0.0 < k <= 1.0
    ensures 0.0 <= Power(1.0 - k, n)
    ensures Power(1.0 - k, n) * (1.0 + n as real * k) <= 1.0
    decreases n
  {
    if n > 0 {
      var f := 1.0 - k;
      var c := Power(f, n - 1);
      var m := (n - 1) as real;
      var g := 1.0 + m * k;
      PowerBernoulli(k, n - 1);
      PowerShrinks(f, n - 1);
      assert Power(f, n) == f * c;
      assert 1.0 + n as real * k == g + k;
      assert f * (g + k) == g - k * k * (m + 1.0);
      MulNonneg(k * k, m + 1.0);
      MulMono(c, f * (g + k), g);
      MulAssoc(c, f, g + k);
      assert (f * c) * (g + k) == (c * f) * (g + k);
    }
  }

  /**
   * After n approaches at rate k in (0, 1] the distance to the target, times
   * 1 + n k, is at most the first distance.
   */
  lemma ApproachesWithin(p: real, t: real, k: real, n: nat)
    requires 0.0 < k <= 1.0
    ensures Abs(Approaches(p, t, k, n) - t) * (1.0 + n as real * k) <= Abs(p - t)
  {
    ApproachesContract(p, t, k, n);
    PowerBernoulli(k, n);
    ScaledDistance(Power(1.0 - k, n), p - t, 1.0 + n as real * k, Approaches(p, t, k, n) - t);
  }

  /** A non-negative factor c with c b <= 1 scales a distance d to at most d / b. */
  lemma ScaledDistance(c: real, d: real, b: real, q: real)
    requires 0.0 <= c && c * b <= 1.0 && q == c * d
    ensures Abs(q) * b <= Abs(d)
  {
    if d >= 0.0 {
      MulNonneg(c, d);
    } else {
      MulNonneg(c, -d);
      assert c * d == -(c * (-d));
    }
    assert Abs(q) == c * Abs(d);
    MulAssoc(Abs(d), c, b);
    MulMono(Abs(d), c * b, 1.0);
    assert (c * Abs(d)) * b == Abs(d) * (c * b);
  }

  /** A distance a with a (1 + x) <= x eps is below eps. */
  lemma BelowTolerance(a: real, x: real, eps: real)
    requires 0.0 <= x && 0.0 < eps
    requires a * (1.0 + x) <= x * eps
    ensures a < eps
  {
    if a >= eps {
      MulMono(1.0 + x, eps, a);
    }
  }

  /**
   * Convergence with a tolerance: for any eps > 0, once n k eps reaches the
   * first distance, n approaches leave the coordinate within eps of its target.
   */
  lemma ApproachesReach(p: real, t: real, k: real, n: nat, eps: real)
    requires 0.0 < k <= 1.0 && 0.0 < eps
    requires Abs(p - t) <= n as real * k * eps
    ensures Abs(Approaches(p, t, k, n) - t) < eps
  {
    var x := n as real * k;
    MulNonneg(n as real, k);
    ApproachesWithin(p, t, k, n);
    BelowTolerance(Abs(Approaches(p, t, k, n) - t), x, eps);
  }

  /**
   * ApproachesReach for one axis whose n-th approach is q, with the
   * distances written as two-sided bounds.
   */
  lemma ApproachesSettle(p: real, t: real, k: real, n: nat, eps: real, q: real)
    requires 0.0 < k <= 1.0 && 0.0 < eps && q == Approaches(p, t, k, n)
    requires -(n as real * k * eps) <= p - t <= n as real * k * eps
    ensures -eps < q - t < eps
  {
    ApproachesReach(p, t, k, n, eps);
  }
}
