/**
 * Feed-forward coefficient derivation of the attitude stabiliser.
 *
 * Each axis runs a second-order filter whose coefficients are derived, every cycle, from the
 * filter corner frequency `fg`, the damping `d`, the axis inertia `j`, the motor time constant
 * `tmc` and the cycle time `dt`. The arithmetic is modelled over `real`, not `float`.
 */
module FeedForward {

  /** `M_PI` as the C library defines it. */
  const Pi: real := 3.14159265358979323846

  /**
   * Coefficients handed to the second-order filter: `den1`, `den2` stand for the C array
   * `a[0]`, `a[1]` (denominator 1 + a[0]·w + a[1]·w² in the delay operator w = z⁻¹, leading
   * term normalised to 1), `num0`, `num1`, `num2` for `b[0..2]` (numerator
   * b[0] + b[1]·w + b[2]·w²).
   */
  datatype Coeffs = Coeffs(den1: real, den2: real, num0: real, num1: real, num2: real)

  /** T = 1 / (2·π·fg), the time constant of the corner frequency. */
  function TimeConst(fg: real): real
    requires fg != 0.0
  {
    1.0 / (2.0 * Pi * fg)
  }

  /** The un-normalised leading denominator coefficient, the local `a0` of the C code. */
  function LeadCoeff(fg: real, d: real, dt: real): real
    requires fg != 0.0
  {
    var T := TimeConst(fg);
    4.0 * T * T + 4.0 * d * T * dt + dt * dt
  }

  /** The two divisions of the derivation are defined. */
  predicate Derivable(fg: real, d: real, dt: real)
  {
    fg != 0.0 && LeadCoeff(fg, d, dt) != 0.0
  }

  /** The `a[]` formulas and the `__FF_B_SETUP(j)` macro, for one axis of inertia `j`. */
  function Derive(fg: real, d: real, j: real, tmc: real, dt: real): Coeffs
    requires Derivable(fg, d, dt)
  {
    var T := TimeConst(fg);
    var a0 := LeadCoeff(fg, d, dt);
    Coeffs((2.0 * dt * dt - 8.0 * T * T) / a0,
           (4.0 * T * T - 4.0 * d * T * dt + dt * dt) / a0,
           (2.0 * j * (2.0 * tmc + dt)) / a0,
           -(8.0 * j * tmc) / a0,
           (2.0 * j * (2.0 * tmc - dt)) / a0)
  }

  /** Discrete numerator and denominator polynomials in the delay operator w = z⁻¹. */
  function DiscreteNum(c: Coeffs, w: real): real
  {
    c.num0 + c.num1 * w + c.num2 * w * w
  }

  function DiscreteDen(c: Coeffs, w: real): real
  {
    1.0 + c.den1 * w + c.den2 * w * w
  }

  /**
   * The continuous feed-forward model the coefficients discretise:
   * G(s) = j·s·(tmc·s + 1) / (T²·s² + 2·d·T·s + 1), inertia times angular acceleration through a
   * first-order motor lag, smoothed by a second-order low-pass filter.
   */
  function ContinuousNum(j: real, tmc: real, s: real): real
  {
    j * s * (tmc * s + 1.0)
  }

  function ContinuousDen(T: real, d: real, s: real): real
  {
    T * T * s * s + 2.0 * d * T * s + 1.0
  }

  /** The bilinear (Tustin) substitution s = (2/dt)·(1 − w)/(1 + w). */
  function Tustin(dt: real, w: real): real
    requires dt != 0.0 && w != -1.0
  {
    2.0 * (1.0 - w) / (dt * (1.0 + w))
  }

  lemma ProductPositive(x: real, y: real)
    requires x > 0.0 && y > 0.0
    ensures x * y > 0.0
  {
  }

  lemma ProductNonNegative(x: real, y: real)
    requires x >= 0.0 && y >= 0.0
    ensures x * y >= 0.0
  {
  }

  lemma SquarePositive(x: real)
    requires x != 0.0
    ensures x * x > 0.0
  {
    if x < 0.0 {
      ProductPositive(-x, -x);
    } else {
      ProductPositive(x, x);
    }
  }

  lemma CrossMultiplied(x: real, y: real, u: real, v: real)
    requires y != 0.0 && v != 0.0 && x * v == u * y
    ensures x / y == u / v
  {
    calc {
      x / y;
      (x * v) / (y * v);
      (u * y) / (y * v);
      u / v;
    }
  }

  /** For a positive corner frequency, non-negative damping and positive cycle time the
      divisor `a0` is positive, so the derivation is defined. */
  lemma LeadCoeffPositive(fg: real, d: real, dt: real)
    requires fg > 0.0 && d >= 0.0 && dt > 0.0
    ensures Derivable(fg, d, dt) && LeadCoeff(fg, d, dt) > 0.0
  {
    var T := TimeConst(fg);
    ProductPositive(2.0 * Pi, fg);
    assert T > 0.0;
    ProductPositive(T, T);
    ProductPositive(dt, dt);
    ProductNonNegative(d, T);
    ProductNonNegative(d * T, dt);
  }

  /** The numerator coefficients sum to zero: the numerator vanishes at w = 1 (z = 1). */
  lemma NumeratorSumsToZero(fg: real, d: real, j: real, tmc: real, dt: real)
    requires Derivable(fg, d, dt)
    ensures var c := Derive(fg, d, j, tmc, dt); c.num0 + c.num1 + c.num2 == 0.0
    ensures DiscreteNum(Derive(fg, d, j, tmc, dt), 1.0) == 0.0
  {
    var a0 := LeadCoeff(fg, d, dt);
    var c := Derive(fg, d, j, tmc, dt);
    assert c.num0 + c.num1 + c.num2
        == (2.0 * j * (2.0 * tmc + dt) - 8.0 * j * tmc + 2.0 * j * (2.0 * tmc - dt)) / a0;
  }

  /**
   * At w = 1 (z = 1) the denominator scaled by `a0` is 4·dt². So for a non-zero step the
   * DC gain of the transfer function these coefficients describe is defined, and it is zero.
   */
  lemma SteadyStateGainIsZero(fg: real, d: real, j: real, tmc: real, dt: real)
    requires Derivable(fg, d, dt) && dt != 0.0
    ensures LeadCoeff(fg, d, dt) * DiscreteDen(Derive(fg, d, j, tmc, dt), 1.0) == 4.0 * dt * dt
    ensures DiscreteDen(Derive(fg, d, j, tmc, dt), 1.0) != 0.0
    ensures DiscreteNum(Derive(fg, d, j, tmc, dt), 1.0)
            / DiscreteDen(Derive(fg, d, j, tmc, dt), 1.0) == 0.0
  {
    var T := TimeConst(fg);
    var a0 := LeadCoeff(fg, d, dt);
    Cancel(a0, 2.0 * dt * dt - 8.0 * T * T);
    Cancel(a0, 4.0 * T * T - 4.0 * d * T * dt + dt * dt);
    var den := DiscreteDen(Derive(fg, d, j, tmc, dt), 1.0);
    assert a0 * den == 4.0 * dt * dt;
    NonZeroFactor(a0, den, 4.0 * dt, dt);
    NumeratorSumsToZero(fg, d, j, tmc, dt);
  }

  /** If k·x equals a product of two non-zero factors, x is non-zero. */
  lemma NonZeroFactor(k: real, x: real, y: real, z: real)
    requires k * x == y * z && y != 0.0 && z != 0.0
    ensures x != 0.0
  {
  }

  /** Scaling a quadratic in w scales each of its coefficients. */
  lemma ScaleQuadratic(k: real, x0: real, x1: real, x2: real, y0: real, y1: real, y2: real, w: real)
    requires k * x0 == y0 && k * x1 == y1 && k * x2 == y2
    ensures k * (x0 + x1 * w + x2 * w * w) == y0 + y1 * w + y2 * w * w
  {
  }

  /** The denominator polynomial regrouped in u = 1 − w and v = 1 + w. */
  lemma DenominatorRegrouped(T: real, d: real, dt: real, w: real)
    ensures var u, v := 1.0 - w, 1.0 + w;
      (4.0 * T * T + 4.0 * d * T * dt + dt * dt) + (2.0 * dt * dt - 8.0 * T * T) * w
        + (4.0 * T * T - 4.0 * d * T * dt + dt * dt) * w * w
      == 4.0 * T * T * (u * u) + 4.0 * d * T * dt * (u * v) + dt * dt * (v * v)
  {
  }

  /** The numerator polynomial regrouped in u = 1 − w and v = 1 + w. */
  lemma NumeratorRegrouped(j: real, tmc: real, dt: real, w: real)
    ensures var u, v := 1.0 - w, 1.0 + w;
      2.0 * j * (2.0 * tmc + dt) + -(8.0 * j * tmc) * w + 2.0 * j * (2.0 * tmc - dt) * w * w
      == 4.0 * j * tmc * (u * u) + 2.0 * j * dt * (u * v)
  {
  }

  /** Clearing the Tustin denominator q = dt·v from the continuous polynomials, given s·q = 2u. */
  lemma ContinuousDenCleared(T: real, d: real, s: real, q: real, u: real, dt: real, v: real)
    requires s * q == 2.0 * u && q == dt * v
    ensures q * q * ContinuousDen(T, d, s)
         == 4.0 * T * T * (u * u) + 4.0 * d * T * dt * (u * v) + dt * dt * (v * v)
  {
    calc {
      q * q * ContinuousDen(T, d, s);
      T * T * ((s * q) * (s * q)) + 2.0 * d * T * (s * q) * q + q * q;
    }
  }

  lemma ContinuousNumCleared(j: real, tmc: real, s: real, q: real, u: real, dt: real, v: real)
    requires s * q == 2.0 * u && q == dt * v
    ensures q * q * ContinuousNum(j, tmc, s) == 4.0 * j * tmc * (u * u) + 2.0 * j * dt * (u * v)
  {
    calc {
      q * q * ContinuousNum(j, tmc, s);
      j * tmc * ((s * q) * (s * q)) + j * (s * q) * q;
    }
  }

  /** The Tustin point times its denominator. */
  lemma TustinCleared(dt: real, w: real)
    requires dt != 0.0 && w != -1.0
    ensures Tustin(dt, w) * (dt * (1.0 + w)) == 2.0 * (1.0 - w)
  {
  }

  /** Multiplying a quotient back by its divisor. */
  lemma Cancel(k: real, x: real)
    requires k != 0.0
    ensures k * (x / k) == x
  {
  }

  /**
   * The denominator is the bilinear transform of the continuous one: scaled by `a0`, the
   * discrete denominator at w equals (dt·(1 + w))² times the continuous denominator at the
   * Tustin image of w.
   */
  lemma BilinearDenominator(fg: real, d: real, j: real, tmc: real, dt: real, w: real)
    requires Derivable(fg, d, dt) && dt != 0.0 && w != -1.0
    ensures var q := dt * (1.0 + w);
      LeadCoeff(fg, d, dt) * DiscreteDen(Derive(fg, d, j, tmc, dt), w)
        == q * q * ContinuousDen(TimeConst(fg), d, Tustin(dt, w))
  {
    var T, a0, c := TimeConst(fg), LeadCoeff(fg, d, dt), Derive(fg, d, j, tmc, dt);
    var q := dt * (1.0 + w);
    Cancel(a0, 2.0 * dt * dt - 8.0 * T * T);
    Cancel(a0, 4.0 * T * T - 4.0 * d * T * dt + dt * dt);
    ScaleQuadratic(a0, 1.0, c.den1, c.den2, a0, 2.0 * dt * dt - 8.0 * T * T,
                   4.0 * T * T - 4.0 * d * T * dt + dt * dt, w);
    DenominatorRegrouped(T, d, dt, w);
    TustinCleared(dt, w);
    ContinuousDenCleared(T, d, Tustin(dt, w), q, 1.0 - w, dt, 1.0 + w);
  }

  /** The numerator is the bilinear transform of the continuous one, with the same scaling. */
  lemma BilinearNumerator(fg: real, d: real, j: real, tmc: real, dt: real, w: real)
    requires Derivable(fg, d, dt) && dt != 0.0 && w != -1.0
    ensures var q := dt * (1.0 + w);
      LeadCoeff(fg, d, dt) * DiscreteNum(Derive(fg, d, j, tmc, dt), w)
        == q * q * ContinuousNum(j, tmc, Tustin(dt, w))
  {
    var a0, c := LeadCoeff(fg, d, dt), Derive(fg, d, j, tmc, dt);
    var q := dt * (1.0 + w);
    Cancel(a0, 2.0 * j * (2.0 * tmc + dt));
    Cancel(a0, -(8.0 * j * tmc));
    Cancel(a0, 2.0 * j * (2.0 * tmc - dt));
    ScaleQuadratic(a0, c.num0, c.num1, c.num2, 2.0 * j * (2.0 * tmc + dt), -(8.0 * j * tmc),
                   2.0 * j * (2.0 * tmc - dt), w);
    NumeratorRegrouped(j, tmc, dt, w);
    TustinCleared(dt, w);
    ContinuousNumCleared(j, tmc, Tustin(dt, w), q, 1.0 - w, dt, 1.0 + w);
  }

  /**
   * Hence the discrete filter is the Tustin discretisation of G(s): wherever both
   * denominators are non-zero, the two transfer functions agree.
   */
  lemma BilinearTransferFunction(fg: real, d: real, j: real, tmc: real, dt: real, w: real)
    requires Derivable(fg, d, dt) && dt != 0.0 && w != -1.0
    requires DiscreteDen(Derive(fg, d, j, tmc, dt), w) != 0.0
    ensures ContinuousDen(TimeConst(fg), d, Tustin(dt, w)) != 0.0
    ensures DiscreteNum(Derive(fg, d, j, tmc, dt), w) / DiscreteDen(Derive(fg, d, j, tmc, dt), w)
         == ContinuousNum(j, tmc, Tustin(dt, w)) / ContinuousDen(TimeConst(fg), d, Tustin(dt, w))
  {
    var c, a0 := Derive(fg, d, j, tmc, dt), LeadCoeff(fg, d, dt);
    var q, s, T := dt * (1.0 + w), Tustin(dt, w), TimeConst(fg);
    BilinearDenominator(fg, d, j, tmc, dt, w);
    BilinearNumerator(fg, d, j, tmc, dt, w);
    var nd, dd := DiscreteNum(c, w), DiscreteDen(c, w);
    var nc, dc := ContinuousNum(j, tmc, s), ContinuousDen(T, d, s);
    assert q != 0.0;
    SquarePositive(q);
    assert q * q * dc == a0 * dd;
    assert dc != 0.0;
    assert nd * dc == nc * dd by {
      assert (a0 * nd) * (q * q * dc) == (q * q * nc) * (a0 * dd);
    }
    CrossMultiplied(nd, dd, nc, dc);
  }
}
