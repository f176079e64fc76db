# PenguPilot stabilising PIID controller — a Dafny model

This project models the per-cycle bookkeeping of PenguPilot's attitude stabiliser
(`autopilot/service/control/speed/piid.c`). The stabiliser turns a commanded body rate `rc`
and a measured body rate `gyro` into a four-slot actuator command `u_ctrl`. It does this once
per control cycle, from a measured cycle time `dt`:

- **Feed-forward.** Every cycle, the roll, pitch and yaw second-order filters get new
  coefficients. These are derived from the corner frequency `filt_fg`, the damping `filt_d`,
  the axis inertia (`jxx_jyy` or `jzz`), the motor time constant `tmc` and `dt`. Each filter
  then turns `rc[i]` into `u_ctrl[i]`.
- **Delay line.** A flat ring of 21 cells holds 7 slots of three, with a cursor. Each cycle
  reads the slot at the cursor and subtracts `gyro` from it to form the error. It then
  overwrites that slot with `rc` and moves the cursor on by 3, wrapping to 0 at 21. The error
  is therefore formed against the reference commanded exactly seven cycles earlier.
- **Feedback.** The error is high-passed into a derivative estimate and low-passed in place.
  It is integrated twice, and both integrations are gated by the enable flag. Roll and pitch
  add `kp·e + ki·∫e + kii·∫∫e + kd·ė` to their feed-forward output. On yaw, a PID running on
  the undelayed `rc[2] − gyro[2]` overwrites the feed-forward output. `u_ctrl[3]` is never
  written.

Files:

- `vectors.dfy`: three-wide vectors.
- `feedforward.dfy`: coefficient derivation over `real`. Its lemmas include the proof that the
  coefficients are the bilinear (Tustin) discretisation of the continuous model
  G(s) = j·s·(tmc·s + 1) / (T²s² + 2dTs + 1), with T = 1/(2π·fg).
- `delayline.dfy`: the ring's contents as a function of the references written so far
  (`RingOf`), and the exactly-seven-cycles delay proved by induction.
- `primitives.dfy`: the filters, the multistep integrator and the PID as uninterpreted
  functions with opaque state.
- `piid.dfy`: class `Stabilizer`, the module-level state of the C file. Its constructor is
  `piid_init`. Its methods are `piid_int_enable`, `piid_reset` and `piid_run`. `Run` calls
  `FeedForwardCycle` and `FeedbackCycle`; the latter calls `DelayLineCycle` (which calls
  `ExchangeSlot`) and `AttitudeFeedback`.

Design decisions:

- The C file keeps its state in module-level statics, and `ASSERT_ONCE` guards `piid_init`.
  Here that state is one object, and initialisation is its constructor, which can only run
  once per object.
- The tunables are read on every use in the C code. Here they are a `Params` value passed to
  the constructor and to `Run`.
- The primitives are handed to the constructor once, as a record of functions, so every
  method uses the same code.
- The coefficient formulas appear twice in the C file, in `piid_init` with `Ts` and in
  `piid_run` with `dt`. Both are modelled by the one function `FeedForward.Derive`. The
  constructor installs `Derive(…, Ts)` and `Run` installs `Derive(…, dt)`, so the two
  formulas agree whenever `dt = Ts`.
- `piid_run` computes the filtered reference `rc_filt` (piid.c:215-216) but writes the raw
  `rc` into the ring (piid.c:221) and reads `rc_filt` nowhere. The model steps the reference
  filter and drops its output.
- The integrators' code is not part of this model. The gating that the stabiliser's enable
  flag is meant to give is stated as a hypothesis, `Primitives.IntegratorHoldsWhenDisabled`:
  with the flag at 0, `adams5_run` leaves its output buffer as it was. `Run` promises that
  under this hypothesis a disabled cycle leaves both integrals unchanged.

## Model

| member | source | states |
|---|---|---|
| `FeedForward.LeadCoeffPositive` | autopilot/service/control/speed/piid.c:178-179 | for fg > 0, d ≥ 0 and dt > 0, the divisor a0 = 4T² + 4dT·dt + dt² is positive, so every coefficient division is defined |
| `FeedForward.Derive` | autopilot/service/control/speed/piid.c:178-189 | the `a[]` formulas and the `__FF_B_SETUP(j)` macro for one axis inertia j; the same formulas appear at piid.c:115-126 with Ts in place of dt. It has no contract of its own: its meaning is given by `LeadCoeffPositive`, `NumeratorSumsToZero`, `BilinearDenominator`, `BilinearNumerator` and `BilinearTransferFunction` |
| `FeedForward.NumeratorSumsToZero` | autopilot/service/control/speed/piid.c:186-189 | b[0] + b[1] + b[2] = 0, so the numerator polynomial vanishes at z = 1 |
| `FeedForward.SteadyStateGainIsZero` | autopilot/service/control/speed/piid.c:178-189 | at z = 1 the denominator scaled by a0 is 4·dt², so it is non-zero for a non-zero dt, and the filter's DC gain (numerator over denominator at z = 1) is 0. So a filter that realises these coefficients passes no constant reference. `filter2_run` itself is not modelled |
| `FeedForward.BilinearDenominator` | autopilot/service/control/speed/piid.c:178-183 | a0·(1 + a[0]w + a[1]w²) equals (dt(1+w))² times the continuous denominator T²s² + 2dTs + 1 at the Tustin point s = 2(1−w)/(dt(1+w)) |
| `FeedForward.BilinearNumerator` | autopilot/service/control/speed/piid.c:185-189 | a0·(b[0] + b[1]w + b[2]w²) equals (dt(1+w))² times the continuous numerator j·s·(tmc·s + 1) at the same point |
| `FeedForward.BilinearTransferFunction` | autopilot/service/control/speed/piid.c:178-189 | where the denominators are non-zero, the discrete transfer function equals G(s) at s = 2(1−w)/(dt(1+w)); the coefficients are the Tustin discretisation of the feed-forward model |
| `Piid.AxisInertia` | autopilot/service/control/speed/piid.c:191-201 | the inertia handed to `__FF_B_SETUP`: jxx_jyy for axes 0 and 1, jzz for axis 2; stated by `RollPitchShareCoeffs` |
| `Piid.AxisCoeffs` | autopilot/service/control/speed/piid.c:191-201 | the coefficients installed in the filter of an axis, `Derive` at that axis's inertia; stated by `RollPitchShareCoeffs` |
| `Piid.RollPitchShareCoeffs` | autopilot/service/control/speed/piid.c:191-201 | roll and pitch receive identical (a, b), both derived from jxx_jyy; yaw's come from jzz |
| `DelayLine.Push` | autopilot/service/control/speed/piid.c:221 | writing rc into the slot at the cursor keeps the ring's 21 cells; which cells change is stated by `PushOnlyChangesSlot` |
| `DelayLine.PushOnlyChangesSlot` | autopilot/service/control/speed/piid.c:218-222 | writing a slot changes exactly the three cells ring[idx..idx+2], to rc; the other 18 cells keep their values |
| `DelayLine.RingOfSnoc` | autopilot/service/control/speed/piid.c:218-222 | the ring after one more cycle is the previous ring with the slot at that cycle's cursor overwritten by its reference |
| `DelayLine.Advance` | autopilot/service/control/speed/piid.c:224-228 | from a non-negative cursor the new cursor lies in [0, 21); from a slot start (a multiple of 3) it lands on a slot start with a whole slot behind it; `CursorStep` ties it to the cycle count |
| `DelayLine.CursorStep` | autopilot/service/control/speed/piid.c:224-228 | after n cycles the cursor 3·(n mod 7) is a multiple of 3 in [0, 18], and the advance-by-3-wrap-at-21 rule takes it to the cursor after n+1 cycles |
| `DelayLine.RingOf` | autopilot/service/control/speed/piid.c:155-157 | the ring after any sequence of writes into the zeroed ring still has 3·7 = 21 cells |
| `DelayLine.RingHoldsLastSeven` | autopilot/service/control/speed/piid.c:218-228 | for m = 1..7, the slot written m cycles ago holds that cycle's reference, or 0 when fewer than m references have been written: the ring holds the last seven references |
| `DelayLine.DelayIsSeven` | autopilot/service/control/speed/piid.c:220 | the cell read at the cursor holds rc[i] from exactly seven cycles earlier, and 0 during the first seven cycles |
| `DelayLine.DelayedSlot` | autopilot/service/control/speed/piid.c:218-222 | the whole slot read at the cursor is the reference vector of seven cycles earlier |
| `DelayLine.WrittenValueReturnsSevenCyclesLater` | autopilot/service/control/speed/piid.c:218-228 | a reference written now is read back seven cycles later, whatever is written in between (rc_1 is what the 8th call reads) |
| `Piid.Feedback` | autopilot/service/control/speed/piid.c:244-250 | the roll and pitch PIID law kp·e + ki·xi + kii·xii + kd·de; no contract of its own, used by the contracts of `AttitudeFeedback`, `FeedbackCycle` and `Run` |
| `Piid.FeedForwardStep` | autopilot/service/control/speed/piid.c:191-207 | one axis's feed-forward for one cycle: install `AxisCoeffs` for dt, then filter rc[i]; no contract of its own, used by the contracts of `FeedForwardCycle` and `Run` |
| `Piid.Stabilizer.constructor` | autopilot/service/control/speed/piid.c:83-158 | all 21 ring cells are 0, the cursor is 0 and no reference has been written; the feed-forward filters are initialised with Derive(…, Ts) (jxx_jyy for roll and pitch, jzz for yaw); integrators, error filters, reference filter and yaw PID are initialised; xi_err and xii_err are zero; the enable flag is 0 |
| `Piid.Stabilizer.IntEnable` | autopilot/service/control/speed/piid.c:161-164 | only the enable flag changes, to the given value |
| `Piid.Stabilizer.Reset` | autopilot/service/control/speed/piid.c:167-173 | the enable flag becomes 0, both integrators and the yaw PID are reset; the ring, the cursor, the filters and the integrator output buffers are untouched |
| `Piid.Stabilizer.Run` | autopilot/service/control/speed/piid.c:176-254 | one cycle: the error reads the old ring slot at the cursor, which is the reference of exactly seven cycles earlier, minus gyro; only that slot changes, to rc; the cursor advances with wrap; u_ctrl[0..1] = feed-forward output + kp·e + ki·xi + kii·xii + kd·de, where e is the error low-passed, de the error high-passed, and xi, xii its first and second gated integrals; u_ctrl[2] is the yaw PID's output on the raw rc[2] − gyro[2], replacing the feed-forward value; u_ctrl[3] is unchanged; the flag is unchanged; if the integrator holds its output when disabled (`IntegratorHoldsWhenDisabled`) and the flag is 0, xi_err and xii_err are unchanged |
| `Piid.Stabilizer.FeedForwardCycle` | autopilot/service/control/speed/piid.c:185-207 | each feed-forward filter first gets this cycle's coefficients Derive(…, dt), then filters rc[i] into u_ctrl[i]; u_ctrl[3] is unchanged |
| `Piid.Stabilizer.FeedbackCycle` | autopilot/service/control/speed/piid.c:218-253 | the delay line steps as in `DelayLineCycle`; roll and pitch gain the PIID sum on the delayed error; the yaw PID on the raw rc[2] − gyro[2] sets u_ctrl[2]; u_ctrl[3] is unchanged; a disabled cycle leaves xi_err and xii_err unchanged under `IntegratorHoldsWhenDisabled` |
| `Piid.Stabilizer.DelayLineCycle` | autopilot/service/control/speed/piid.c:218-228 | each axis reads the cell at the cursor before it is overwritten with rc; the value read is the reference of seven cycles earlier; the ring becomes the old ring with that slot replaced; the cursor advances by 3 and wraps to 0 at 21 |
| `Piid.Stabilizer.ExchangeSlot` | autopilot/service/control/speed/piid.c:218-222 | the returned error is the old slot at the cursor minus gyro, and the ring becomes the old ring with exactly that slot replaced by rc |
| `Piid.Stabilizer.AttitudeFeedback` | autopilot/service/control/speed/piid.c:230-250 | the high-pass and low-pass each get new coefficients and then run on the same raw error; the first integrator takes the low-passed error and the second the first's output, both with the current enable flag; roll and pitch gain the PIID sum; yaw and slot 3 are unchanged; with the flag at 0 and the integrator holding its output when disabled, xi_err and xii_err are unchanged |

## Left out

- Piid.Stabilizer.Run: requires filt_fg ≠ 0 and a0 ≠ 0, because the model has no IEEE infinities or NaNs. In C, these divisions yield non-finite coefficients.
- Piid.Stabilizer.FeedForwardCycle: has the same requirement for `dt`, for the same reason.
- Piid.Stabilizer.constructor: has the same requirement for `Ts`, for the same reason.
- Piid.Stabilizer.constructor: sets the enable flag to 0, the static initial value at piid.c:80. `piid_init` itself never writes `int_enable`, so in C a `piid_int_enable` call made before `piid_init` survives initialisation. The model has no object before its constructor runs and cannot express that call.
- IEEE single-precision rounding: all arithmetic is over `real`, and nothing is claimed about bit-exact float results.
- The internals of `filter1_*`, `filter2_*`, `adams5_*` and `pid_*` are not part of this model. Each is an uninterpreted function over an opaque state. Properties that depend on them are not stated: zero output after reset, convergence, and non-divergence under jitter. Integrator gating is stated only under the hypothesis `IntegratorHoldsWhenDisabled`.
- `tsfloat_t` parameter reads: each `tsfloat_get` is a read of memory shared with the tuning thread, and the model reads every tunable once per cycle from an explicit `Params` snapshot. The C code reads some tunables several times per cycle. `jxx_jyy` is read at piid.c:192 and 196, `filt_d` at 179 and 183, `tmc` in every `__FF_B_SETUP`, and `filt_fg` at 178, 215, 231 and 234. A retune that lands between two of those reads can give roll and pitch different coefficients, so `RollPitchShareCoeffs` holds only for a cycle that sees one snapshot.
- `opcd_params_apply` configuration loading and the `LOG` calls are left out. They are I/O.
- Aliasing and in-place filtering: `gyro` and `rc` are passed by value, and each filter primitive is a function from its input to its output. The model therefore does not capture two things. The error low-pass runs in place (piid.c:235, `filter1_run(&filter_lp_err, error, error)`), which relies on `filter1_run` reading its input before it writes its output. A caller whose `rc` aliases `u_ctrl` would have the feed-forward outputs of piid.c:206 written into the ring at piid.c:221 instead of the reference.
- `calloc`/`ASSERT_NOT_NULL`: allocation failure is fatal in the C code and is not modelled. `xi_err` and `xii_err` are zeroed three-wide vectors.
- `ASSERT_ONCE`: a second `piid_init` is impossible by construction, since the model creates a fresh object instead.
- The filtered reference `rc_filt` is computed but feeds no output. The model keeps the filter step and drops the value.
- autopilot/service/control/speed/ne_speed.c is not part of this model. Its only own logic is `err = setp − speed` around the same primitives.
- powerman/services/powerman.py is not part of this model. It is hardware, thread and socket plumbing.
