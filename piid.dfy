/**
 * The stabilising PIID attitude controller: physics-based feed-forward on all three axes, a
 * delay-compensated proportional, integral, double-integral and derivative feedback law on roll
 * and pitch, and a rate PID on yaw.
 *
 * The module-level state of the C implementation becomes one object of class `Stabilizer`:
 * creating it is `piid_init` (which the C code guards against a second call), `IntEnable`,
 * `Reset` and `Run` are `piid_int_enable`, `piid_reset` and `piid_run`.
 */
module Piid {
  import opened Vectors
  import opened FeedForward
  import opened DelayLine
  import opened Primitives

  /** `PIID_YAW`: index of the yaw axis in the command and sensor vectors. */
  const Yaw: nat := 2

  /** The tunable parameters, as read in one cycle. */
  datatype Params = Params(
    attKp: real, attKi: real, attKii: real, attKd: real,
    yawKp: real, yawKi: real,
    filtFg: real, filtD: real,
    jxxJyy: real, jzz: real, tmc: real)

  /** The inertia used for an axis: `jxx_jyy` for roll and pitch, `jzz` for yaw. */
  function AxisInertia(p: Params, axis: nat): real
    requires axis < 3
  {
    if axis < Yaw then p.jxxJyy else p.jzz
  }

  /** The feed-forward coefficients of an axis for the cycle time `dt`. */
  function AxisCoeffs(p: Params, dt: real, axis: nat): Coeffs
    requires axis < 3 && Derivable(p.filtFg, p.filtD, dt)
  {
    Derive(p.filtFg, p.filtD, AxisInertia(p, axis), p.tmc, dt)
  }

  /** Roll and pitch get identical feed-forward coefficients; yaw gets those of `jzz`. */
  lemma RollPitchShareCoeffs(p: Params, dt: real)
    requires Derivable(p.filtFg, p.filtD, dt)
    ensures AxisCoeffs(p, dt, 0) == AxisCoeffs(p, dt, 1)
    ensures AxisCoeffs(p, dt, Yaw) == Derive(p.filtFg, p.filtD, p.jzz, p.tmc, dt)
  {
  }

  /** The attitude feedback law of roll and pitch. */
  function Feedback(p: Params, err: Vec3, xi: Vec3, xii: Vec3, derr: Vec3, i: nat): real
    requires i < 3
  {
    p.attKp * err[i] + p.attKi * xi[i] + p.attKii * xii[i] + p.attKd * derr[i]
  }

  /** One feed-forward filter for one cycle: install the coefficients, filter the reference. */
  function FeedForwardStep(prims: Primitives, p: Params, dt: real, f: State, axis: nat, r: real): (State, real)
    requires axis < 3 && Derivable(p.filtFg, p.filtD, dt)
  {
    prims.filter2Run1(prims.filter2UpdateCoeff(f, AxisCoeffs(p, dt, axis)), r)
  }

  /** The three feed-forward filters, roll, pitch and yaw. */
  type FilterBank = s: seq<State> | |s| == 3 witness [[], [], []]

  class Stabilizer {
    /** The linked primitives. */
    const prims: Primitives

    /** `filters[3]`: the feed-forward filters of roll, pitch and yaw. */
    var filters: FilterBank
    /** `filter_ref`, `filter_lp_err`, `filter_hp_err`. */
    var refFilter: State
    var lpErr: State
    var hpErr: State
    /** `int_err1`, `int_err2` and their output buffers `xi_err`, `xii_err`. */
    var intErr1: State
    var intErr2: State
    var xiErr: Vec3
    var xiiErr: Vec3
    /** `yaw_ctrl`. */
    var yawCtrl: State
    /** `int_enable`. */
    var intEnable: int

    /** `ringbuf` and `ringbuf_idx`. */
    const ringbuf: array<real>
    var ringbufIdx: int
    /** The references written into the delay line since initialisation, oldest first. */
    ghost var Inputs: seq<Vec3>

    ghost predicate Valid()
      reads this`ringbufIdx, this`Inputs, ringbuf
    {
      && ringbuf.Length == RingLen
      && ringbuf[..] == RingOf(Inputs)
      && ringbufIdx == Cursor(|Inputs|)
    }

    /** `piid_init(Ts)`, with the tunables as read at that time. */
    constructor (Ts: real, p: Params, prims: Primitives)
      requires Derivable(p.filtFg, p.filtD, Ts)
      ensures Valid() && fresh(ringbuf) && this.prims == prims
      ensures Inputs == [] && ringbufIdx == 0
      ensures forall k :: 0 <= k < ringbuf.Length ==> ringbuf[k] == 0.0
      ensures filters == [prims.filter2Init(AxisCoeffs(p, Ts, 0), Ts),
                          prims.filter2Init(AxisCoeffs(p, Ts, 1), Ts),
                          prims.filter2Init(AxisCoeffs(p, Ts, 2), Ts)]
      ensures intErr1 == prims.adams5Init && intErr2 == prims.adams5Init
      ensures lpErr == prims.filter1LpInit(p.filtFg, Ts) && hpErr == prims.filter1HpInit(p.filtFg, Ts)
      ensures refFilter == prims.filter2LpInit(p.filtFg, p.filtD, Ts)
      ensures xiErr == Zero3 && xiiErr == Zero3
      ensures yawCtrl == prims.pidInit && intEnable == 0
    {
      this.prims := prims;
      yawCtrl := prims.pidInit;
      filters := [prims.filter2Init(AxisCoeffs(p, Ts, 0), Ts),
                  prims.filter2Init(AxisCoeffs(p, Ts, 1), Ts),
                  prims.filter2Init(AxisCoeffs(p, Ts, 2), Ts)];
      intErr1, intErr2 := prims.adams5Init, prims.adams5Init;
      lpErr := prims.filter1LpInit(p.filtFg, Ts);
      hpErr := prims.filter1HpInit(p.filtFg, Ts);
      refFilter := prims.filter2LpInit(p.filtFg, p.filtD, Ts);
      xiErr, xiiErr := Zero3, Zero3;
      // the flag keeps its static initial value, 0, on the one permitted initialisation
      intEnable := 0;
      ringbuf := new real[RingLen](_ => 0.0);
      ringbufIdx := 0;
      Inputs := [];
      new;
      assert ringbuf[..] == Zeros(RingLen);
    }

    /** `piid_int_enable(val)`: stores the flag and nothing else. */
    method IntEnable(val: int)
      requires Valid()
      modifies this`intEnable
      ensures Valid() && intEnable == val
    {
      intEnable := val;
    }

    /** `piid_reset()`: disables integration and resets both integrators and the yaw PID; the
        filters, the integrator output buffers and the delay line are left alone. */
    method Reset()
      requires Valid()
      modifies this`intEnable, this`intErr1, this`intErr2, this`yawCtrl
      ensures Valid() && intEnable == 0
      ensures intErr1 == prims.adams5Reset(old(intErr1)) && intErr2 == prims.adams5Reset(old(intErr2))
      ensures yawCtrl == prims.pidReset(old(yawCtrl))
      ensures ringbuf[..] == old(ringbuf[..]) && ringbufIdx == old(ringbufIdx) && Inputs == old(Inputs)
    {
      intEnable := 0;
      intErr1 := prims.adams5Reset(intErr1);
      intErr2 := prims.adams5Reset(intErr2);
      yawCtrl := prims.pidReset(yawCtrl);
    }

    /**
     * `piid_run(u_ctrl, gyro, rc, dt)` with the tunables `p` read in this cycle.
     *
     * The delay-line error reads, on every axis, the cell at the cursor before overwriting it
     * with `rc`; the cell read holds the reference of exactly seven cycles earlier (zero in the
     * first seven cycles). Only the three cells of that slot change. Roll and pitch commands are
     * the feed-forward output plus the PIID feedback; the yaw command is the yaw PID's output on
     * the undelayed `rc[2] - gyro[2]`, replacing the yaw feed-forward output; `u_ctrl[3]` is not
     * written. The reference filter is stepped but its output feeds nothing.
     */
    method Run(uCtrl: array<real>, gyro: Vec3, rc: Vec3, dt: real, p: Params)
      requires Valid()
      requires uCtrl.Length == 4 && uCtrl != ringbuf
      requires Derivable(p.filtFg, p.filtD, dt)
      modifies this, ringbuf, uCtrl
      ensures Valid()
      // delay line
      ensures Inputs == old(Inputs) + [rc]
      ensures old(ringbuf[ringbufIdx..ringbufIdx + 3]) == DelayedRef(old(Inputs))
      ensures ringbuf[..] == Push(old(ringbuf[..]), old(ringbufIdx), rc)
      ensures ringbufIdx == Advance(old(ringbufIdx))
      // feed-forward filters and the reference filter
      ensures forall k :: 0 <= k < 3 ==> filters[k] == FeedForwardStep(prims, p, dt, old(filters[k]), k, rc[k]).0
      ensures refFilter == prims.filter2Run3(prims.filter2LpUpdateCoeff(old(refFilter), p.filtFg, p.filtD, dt), rc).0
      // error conditioning, double integration and roll/pitch commands
      ensures
        var e := Sub(old(ringbuf[ringbufIdx..ringbufIdx + 3]), gyro);
        var hp := prims.filter1Run(prims.filter1HpUpdateCoeff(old(hpErr), p.filtFg, dt), e);
        var lp := prims.filter1Run(prims.filter1LpUpdateCoeff(old(lpErr), p.filtFg, dt), e);
        var i1 := prims.adams5Run(old(intErr1), old(xiErr), lp.1, dt, old(intEnable));
        var i2 := prims.adams5Run(old(intErr2), old(xiiErr), i1.1, dt, old(intEnable));
        && hpErr == hp.0 && lpErr == lp.0
        && intErr1 == i1.0 && xiErr == i1.1 && intErr2 == i2.0 && xiiErr == i2.1
        && forall k :: 0 <= k < Yaw ==>
             uCtrl[k] == FeedForwardStep(prims, p, dt, old(filters[k]), k, rc[k]).1
                         + Feedback(p, lp.1, i1.1, i2.1, hp.1, k)
      // yaw command, and the untouched throttle slot
      ensures
        var y := prims.pidControl(old(yawCtrl), p.yawKp, p.yawKi, rc[Yaw] - gyro[Yaw], 0.0, dt);
        yawCtrl == y.0 && uCtrl[Yaw] == y.1
      ensures uCtrl[3] == old(uCtrl[3])
      ensures intEnable == old(intEnable)
      // with integration disabled, both integrals hold
      ensures IntegratorHoldsWhenDisabled(prims) && old(intEnable) == 0 ==>
        xiErr == old(xiErr) && xiiErr == old(xiiErr)
    {
      FeedForwardCycle(uCtrl, rc, dt, p);

      // reference filter; its output (`rc_filt`) feeds nothing
      refFilter := prims.filter2LpUpdateCoeff(refFilter, p.filtFg, p.filtD, dt);
      var refOut := prims.filter2Run3(refFilter, rc);
      refFilter := refOut.0;

      FeedbackCycle(uCtrl, gyro, rc, dt, p);
    }

    /** The feedback half of `piid_run`: the delay line, the roll and pitch PIID law and the
        yaw PID. */
    method FeedbackCycle(uCtrl: array<real>, gyro: Vec3, rc: Vec3, dt: real, p: Params)
      requires Valid()
      requires uCtrl.Length == 4 && uCtrl != ringbuf
      modifies ringbuf, this`ringbufIdx, this`Inputs, uCtrl
      modifies this`hpErr, this`lpErr, this`intErr1, this`intErr2, this`xiErr, this`xiiErr, this`yawCtrl
      ensures Valid()
      ensures Inputs == old(Inputs) + [rc]
      ensures old(ringbuf[ringbufIdx..ringbufIdx + 3]) == DelayedRef(old(Inputs))
      ensures ringbuf[..] == Push(old(ringbuf[..]), old(ringbufIdx), rc)
      ensures ringbufIdx == Advance(old(ringbufIdx))
      ensures
        var e := Sub(old(ringbuf[ringbufIdx..ringbufIdx + 3]), gyro);
        var hp := prims.filter1Run(prims.filter1HpUpdateCoeff(old(hpErr), p.filtFg, dt), e);
        var lp := prims.filter1Run(prims.filter1LpUpdateCoeff(old(lpErr), p.filtFg, dt), e);
        var i1 := prims.adams5Run(old(intErr1), old(xiErr), lp.1, dt, intEnable);
        var i2 := prims.adams5Run(old(intErr2), old(xiiErr), i1.1, dt, intEnable);
        && hpErr == hp.0 && lpErr == lp.0
        && intErr1 == i1.0 && xiErr == i1.1 && intErr2 == i2.0 && xiiErr == i2.1
        && forall k :: 0 <= k < Yaw ==> uCtrl[k] == old(uCtrl[k]) + Feedback(p, lp.1, i1.1, i2.1, hp.1, k)
      ensures
        var y := prims.pidControl(old(yawCtrl), p.yawKp, p.yawKi, rc[Yaw] - gyro[Yaw], 0.0, dt);
        yawCtrl == y.0 && uCtrl[Yaw] == y.1
      ensures uCtrl[3] == old(uCtrl[3])
      ensures IntegratorHoldsWhenDisabled(prims) && intEnable == 0 ==>
        xiErr == old(xiErr) && xiiErr == old(xiiErr)
    {
      var error := DelayLineCycle(gyro, rc);

      AttitudeFeedback(uCtrl, error, dt, p);

      // yaw feedback overwrites the yaw feed-forward output
      var y := prims.pidControl(yawCtrl, p.yawKp, p.yawKi, rc[Yaw] - gyro[Yaw], 0.0, dt);
      yawCtrl := y.0;
      uCtrl[Yaw] := y.1;
    }

    /**
     * The roll and pitch feedback part of `piid_run`: high-pass the error into a derivative
     * estimate, low-pass it in place, integrate it twice (gated by the enable flag), and add
     * the PIID law to the roll and pitch commands.
     */
    method AttitudeFeedback(uCtrl: array<real>, e: Vec3, dt: real, p: Params)
      requires uCtrl.Length == 4
      modifies this`hpErr, this`lpErr, this`intErr1, this`intErr2, this`xiErr, this`xiiErr, uCtrl
      ensures
        var hp := prims.filter1Run(prims.filter1HpUpdateCoeff(old(hpErr), p.filtFg, dt), e);
        var lp := prims.filter1Run(prims.filter1LpUpdateCoeff(old(lpErr), p.filtFg, dt), e);
        var i1 := prims.adams5Run(old(intErr1), old(xiErr), lp.1, dt, intEnable);
        var i2 := prims.adams5Run(old(intErr2), old(xiiErr), i1.1, dt, intEnable);
        && hpErr == hp.0 && lpErr == lp.0
        && intErr1 == i1.0 && xiErr == i1.1 && intErr2 == i2.0 && xiiErr == i2.1
        && forall k :: 0 <= k < Yaw ==> uCtrl[k] == old(uCtrl[k]) + Feedback(p, lp.1, i1.1, i2.1, hp.1, k)
      ensures forall k :: Yaw <= k < 4 ==> uCtrl[k] == old(uCtrl[k])
      // with integration disabled, both integrals hold
      ensures IntegratorHoldsWhenDisabled(prims) && intEnable == 0 ==>
        xiErr == old(xiErr) && xiiErr == old(xiiErr)
    {
      // high-pass: derivative estimate; low-pass: the error, filtered in place
      var hp := prims.filter1Run(prims.filter1HpUpdateCoeff(hpErr, p.filtFg, dt), e);
      var lp := prims.filter1Run(prims.filter1LpUpdateCoeff(lpErr, p.filtFg, dt), e);
      var error, derror := lp.1, hp.1;
      // first and second error integration
      var i1 := prims.adams5Run(intErr1, xiErr, error, dt, intEnable);
      var i2 := prims.adams5Run(intErr2, xiiErr, i1.1, dt, intEnable);
      hpErr, lpErr, intErr1, xiErr, intErr2, xiiErr := hp.0, lp.0, i1.0, i1.1, i2.0, i2.1;

      for i := 0 to Yaw
        modifies uCtrl
        invariant forall k :: 0 <= k < i ==> uCtrl[k] == old(uCtrl[k]) + Feedback(p, error, xiErr, xiiErr, derror, k)
        invariant forall k :: i <= k < 4 ==> uCtrl[k] == old(uCtrl[k])
      {
        uCtrl[i] := uCtrl[i] + Feedback(p, error, xiErr, xiiErr, derror, i);
      }
    }

    /** The feed-forward part of `piid_run`: install this cycle's coefficients in the three
        filters, then filter each reference component straight into the command vector. */
    method FeedForwardCycle(uCtrl: array<real>, rc: Vec3, dt: real, p: Params)
      requires uCtrl.Length == 4
      requires Derivable(p.filtFg, p.filtD, dt)
      modifies this`filters, uCtrl
      ensures forall k :: 0 <= k < 3 ==>
        (filters[k], uCtrl[k]) == FeedForwardStep(prims, p, dt, old(filters[k]), k, rc[k])
      ensures uCtrl[3] == old(uCtrl[3])
    {
      filters := filters[0 := prims.filter2UpdateCoeff(filters[0], AxisCoeffs(p, dt, 0))];
      filters := filters[1 := prims.filter2UpdateCoeff(filters[1], AxisCoeffs(p, dt, 1))];
      filters := filters[2 := prims.filter2UpdateCoeff(filters[2], AxisCoeffs(p, dt, 2))];
      for i := 0 to 3
        invariant forall k :: 0 <= k < i ==>
          (filters[k], uCtrl[k]) == FeedForwardStep(prims, p, dt, old(filters[k]), k, rc[k])
        invariant forall k :: i <= k < 3 ==>
          filters[k] == prims.filter2UpdateCoeff(old(filters[k]), AxisCoeffs(p, dt, k))
        invariant uCtrl[3] == old(uCtrl[3])
      {
        var out := prims.filter2Run1(filters[i], rc[i]);
        filters := filters[i := out.0];
        uCtrl[i] := out.1;
      }
    }

    /**
     * The delay-line part of `piid_run`: on each axis, read the cell at the cursor, then
     * overwrite it with the reference; then advance the cursor. The error returned is the
     * reference of exactly seven cycles earlier (zero in the first seven) minus the rate.
     */
    method DelayLineCycle(gyro: Vec3, rc: Vec3) returns (error: Vec3)
      requires Valid()
      modifies ringbuf, this`ringbufIdx, this`Inputs
      ensures Valid()
      ensures error == Sub(old(ringbuf[ringbufIdx..ringbufIdx + 3]), gyro)
      ensures old(ringbuf[ringbufIdx..ringbufIdx + 3]) == DelayedRef(old(Inputs))
      ensures Inputs == old(Inputs) + [rc]
      ensures ringbuf[..] == Push(old(ringbuf[..]), old(ringbufIdx), rc)
      ensures ringbufIdx == Advance(old(ringbufIdx))
    {
      ghost var h, before, idx := Inputs, ringbuf[..], ringbufIdx;
      assert idx + 3 <= RingLen && Advance(idx) == Cursor(|h| + 1) by { CursorStep(|h|); }
      assert before[idx..idx + 3] == DelayedRef(h) by { DelayedSlot(h); }
      error := ExchangeSlot(gyro, rc);
      assert ringbuf[..] == RingOf(h + [rc]) by { RingOfSnoc(h, rc); }
      Inputs := Inputs + [rc];

      ringbufIdx := ringbufIdx + 3;
      if ringbufIdx >= RingLen {
        ringbufIdx := 0;
      }
    }

    /** The `FOR_N` loop of the delay line: on each axis, the error reads the cell at the cursor
        before the cell is overwritten with the reference. */
    method ExchangeSlot(gyro: Vec3, rc: Vec3) returns (error: Vec3)
      requires 0 <= ringbufIdx && ringbufIdx + 3 <= ringbuf.Length
      modifies ringbuf
      ensures error == Sub(old(ringbuf[ringbufIdx..ringbufIdx + 3]), gyro)
      ensures ringbuf[..] == Push(old(ringbuf[..]), ringbufIdx, rc)
    {
      ghost var before := ringbuf[..];
      error := Zero3;
      for i := 0 to 3
        invariant forall k :: 0 <= k < i ==> error[k] == before[ringbufIdx + k] - gyro[k]
        invariant forall k :: ringbufIdx <= k < ringbufIdx + i ==> ringbuf[k] == rc[k - ringbufIdx]
        invariant forall k :: 0 <= k < ringbuf.Length && !(ringbufIdx <= k < ringbufIdx + i) ==>
          ringbuf[k] == before[k]
      {
        error := error[i := ringbuf[ringbufIdx + i] - gyro[i]];
        ringbuf[ringbufIdx + i] := rc[i];
      }
      assert error == Sub(before[ringbufIdx..ringbufIdx + 3], gyro);
      PushOnlyChangesSlot(before, ringbufIdx, rc);
    }
  }
}
