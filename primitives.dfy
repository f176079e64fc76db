/**
 * The numeric building blocks the stabiliser links against: the first- and second-order
 * filters, the five-step multistep integrator and the PID controller. Their code is not part of
 * this model, so each operation is an uninterpreted function, handed to the stabiliser once, at
 * construction, and each instance's internal state is an opaque vector of reals. What can be
 * stated about the stabiliser is then which primitive it calls, in which order, on which inputs,
 * and where each result goes.
 */
module Primitives {
  import opened Vectors
  import opened FeedForward

  /** The internal state of one primitive instance (filter history, integrator history, PID
      integral); its layout belongs to the primitive. */
  type State = seq<real>

  datatype Primitives = Primitives(
    /** `filter2_init(f, a, b, Ts, 1)`: a one-wide second-order filter with explicit coefficients. */
    filter2Init: (Coeffs, real) -> State,
    /** `filter2_update_coeff(f, a, b)`. */
    filter2UpdateCoeff: (State, Coeffs) -> State,
    /** `filter2_run` on a one-wide filter: new state and the output sample. */
    filter2Run1: (State, real) -> (State, real),
    /** `filter2_lp_init(f, fg, d, Ts, 3)`: a three-wide second-order low-pass filter. */
    filter2LpInit: (real, real, real) -> State,
    /** `filter2_lp_update_coeff(f, fg, d, dt)`. */
    filter2LpUpdateCoeff: (State, real, real, real) -> State,
    /** `filter2_run` on a three-wide filter. */
    filter2Run3: (State, Vec3) -> (State, Vec3),
    /** `filter1_lp_init(f, fg, Ts, 3)` and `filter1_hp_init(f, fg, Ts, 3)`. */
    filter1LpInit: (real, real) -> State,
    filter1HpInit: (real, real) -> State,
    /** `filter1_lp_update_coeff(f, fg, dt)` and `filter1_hp_update_coeff(f, fg, dt)`. */
    filter1LpUpdateCoeff: (State, real, real) -> State,
    filter1HpUpdateCoeff: (State, real, real) -> State,
    /** `filter1_run` on a three-wide filter. */
    filter1Run: (State, Vec3) -> (State, Vec3),
    /** `adams5_init(a, 3)` and `adams5_reset(a)`. */
    adams5Init: State,
    adams5Reset: State -> State,
    /** `adams5_run(a, out, in, dt, enable)`: given the state, the output buffer as it was, the
        input, the step and the enable flag, the new state and the new output buffer. */
    adams5Run: (State, Vec3, Vec3, real, int) -> (State, Vec3),
    /** `pid_init(c, kp, ki, NULL, NULL)` and `pid_reset(c)`. */
    pidInit: State,
    pidReset: State -> State,
    /** `pid_control(c, error, target, dt)` with the P and I gains the controller reads when it
        runs: the new state and the control output. */
    pidControl: (State, real, real, real, real, real) -> (State, real)
  )

  /**
   * The gating the stabiliser relies on when it passes its enable flag to `adams5_run`: with
   * the flag at 0 the integrator leaves its output buffer as it was. The integrator's code is
   * not part of this model, so this is a hypothesis that statements about gating assume.
   */
  ghost predicate IntegratorHoldsWhenDisabled(prims: Primitives)
  {
    forall s, x, e, dt :: prims.adams5Run(s, x, e, dt, 0).1 == x
  }
}
