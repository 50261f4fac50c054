/**
 * The HP 4280A controller: it holds the six sweep parameters, turns each
 * setter and mode call into commands written to the connection's instrument,
 * and sequences the composite operations (default set-ups, single
 * configuration, sweeps). Every operation is specified by the exact commands
 * it appends to the instrument's log and the exact fields it changes.
 */
module Controller {
  import opened Wrappers
  import opened Commands

  /** What `conn.inst` is: no such attribute, None, or an instrument resource. */
  datatype InstSlot = Absent | Null | Present

  /**
   * The connection object the controller is built on, seen through its
   * `inst`: the lines written to the instrument, and the instrument's
   * `timeout` and `write_delay`. For the demo connection (SimulatedVisaCon)
   * `inst` is the connection itself and is always present; for a VisaCon
   * whose connect failed it is None.
   */
  class Connection {
    const inst: InstSlot
    var log: seq<Cmd>
    var timeout: int
    var writeDelay: real

    constructor (inst: InstSlot, timeout: int, writeDelay: real)
      ensures this.inst == inst && log == []
      ensures this.timeout == timeout && this.writeDelay == writeDelay
    {
      this.inst := inst;
      log := [];
      this.timeout := timeout;
      this.writeDelay := writeDelay;
    }
  }

  /** The AttributeError the constructor raises. */
  datatype ControllerError = MissingInstAttribute

  class Controller {
    const conn: Connection
    var dcV: real
    var startV: real
    var stopV: real
    var stepV: real
    var holdT: real
    var stepT: real

    /** The constructor only succeeds on a connection that has an `inst` attribute. */
    ghost predicate Valid() {
      conn.inst != Absent
    }

    /** `conn.inst is not None`: the guard of every operation that talks to the instrument. */
    predicate Open() {
      conn.inst == Present
    }

    function Params(): SweepParams
      reads this
    {
      SweepParams(dcV, startV, stopV, stepV, holdT, stepT)
    }

    constructor (conn: Connection, dcV: real, startV: real, stopV: real, stepV: real, holdT: real, stepT: real)
      ensures this.conn == conn
      ensures Params() == SweepParams(dcV, startV, stopV, stepV, holdT, stepT)
    {
      this.conn := conn;
      this.dcV := dcV;
      this.startV := startV;
      this.stopV := stopV;
      this.stepV := stepV;
      this.holdT := holdT;
      this.stepT := stepT;
    }

    /** `command`: the line reaches the instrument exactly when `inst` is present. */
    method Command(c: Cmd)
      requires Valid()
      modifies conn`log
      ensures conn.log == old(conn.log) + (if Open() then [c] else [])
    {
      if Open() {
        conn.log := conn.log + [c];
      }
    }

    /**
     * set_DCV, set_StartV, set_StopV, set_StepV, set_Hold_Time, set_StepT:
     * store the value in its own field, set the write delay and write the
     * parameter's command; with no instrument, nothing happens.
     */
    method SetParam(p: SweepParam, v: real)
      requires Valid()
      modifies this, conn`log, conn`writeDelay
      ensures Open() ==> Params() == old(Params()).Set(p, v)
      ensures Open() ==> conn.writeDelay == 0.5 && conn.log == old(conn.log) + [ParamCmd(p, v)]
      ensures !Open() ==> Params() == old(Params())
      ensures !Open() ==> conn.writeDelay == old(conn.writeDelay) && conn.log == old(conn.log)
    {
      if Open() {
        match p {
          case DcV => dcV := v;
          case StartV => startV := v;
          case StopV => stopV := v;
          case StepV => stepV := v;
          case HoldT => holdT := v;
          case StepT => stepT := v;
        }
        conn.writeDelay := 0.5;
        Command(ParamCmd(p, v));
      }
    }

    /**
     * set_NOFREAD, set_Measure_pulse, set_Pulse, set_th, set_td: set the
     * write delay and write the C-t parameter's command; no field changes.
     */
    method SetCt(q: CtParam, v: real)
      requires Valid()
      modifies conn`log, conn`writeDelay
      ensures Open() ==> conn.writeDelay == 0.5 && conn.log == old(conn.log) + [Param(CtMnemonic(q), v)]
      ensures !Open() ==> conn.writeDelay == old(conn.writeDelay) && conn.log == old(conn.log)
    {
      if Open() {
        conn.writeDelay := 0.5;
        Command(Param(CtMnemonic(q), v));
      }
    }

    /** The mode setters (set_float .. set_10nf, set_double, measure_start): write one fixed code. */
    method SetMode(s: Setting)
      requires Valid()
      modifies conn`log
      ensures conn.log == old(conn.log) + (if Open() then [Code(SettingCode(s))] else [])
    {
      Command(Code(SettingCode(s)));
    }

    /** The nine mode codes default_single writes before its sweep parameters. */
    method DefaultSingleCodesWrite()
      requires Valid() && Open()
      modifies conn`log
      ensures conn.log == old(conn.log) + DefaultSingleCodes
    {
      Command(Code("IB2"));
      Command(Code("MS2"));
      Command(Code("FL"));
      Command(Code("FN1"));
      Command(Code("CEI"));
      Command(Code("TR1"));
      Command(Code("LE1"));
      Command(Code("SL2"));
      Command(Code("RA1"));
    }

    /** default_single: the single-sweep C-G set-up, leaving the default sweep parameters. */
    method DefaultSingle()
      requires Valid()
      modifies this, conn`log, conn`writeDelay
      ensures Open() ==> conn.log == old(conn.log) + DefaultSingleTrace
      ensures Open() ==> Params() == DefaultSingleParams && conn.writeDelay == 0.5
      ensures !Open() ==> Params() == old(Params())
      ensures !Open() ==> conn.log == old(conn.log) && conn.writeDelay == old(conn.writeDelay)
    {
      if Open() {
        DefaultSingleCodesWrite();
        ghost var mid := conn.log;
        SetParam(DcV, 5.0);
        SetParam(StartV, 0.0);
        SetParam(StopV, 5.0);
        assert conn.log == mid + DefaultSingleSetters[..3];
        assert Params() == SweepParams(5.0, 0.0, 5.0, old(stepV), old(holdT), old(stepT));
        SetParam(HoldT, 0.01);
        SetParam(StepV, 0.01);
        SetParam(StepT, 0.03);
        assert conn.log == mid + DefaultSingleSetters;
        assert conn.log == old(conn.log) + DefaultSingleCodes + DefaultSingleSetters;
      }
    }

    /** default_CT: the C-t set-up; the sweep parameters are left alone. */
    method DefaultCt()
      requires Valid()
      modifies conn`log, conn`writeDelay
      ensures Open() ==> conn.log == old(conn.log) + DefaultCtTrace && conn.writeDelay == 0.5
      ensures !Open() ==> conn.log == old(conn.log) && conn.writeDelay == old(conn.writeDelay)
    {
      if Open() {
        Command(Code("FN5"));
        Command(Code("IB5"));
        Command(Code("FL"));
        Command(Code("LE1"));
        Command(Code("MS1"));
        Command(Code("RA1"));
        Command(Code("TR1"));
        SetCt(Pulse, 0.0);
        SetCt(MeasurePulse, 0.0);
        SetCt(NofRead, 10.0);
        SetCt(HoldTh, 1.0);
        SetCt(IntervalTd, 0.01);
        Command(Code("SL2"));
      }
    }

    /**
     * single_config: re-send the six current parameters, then single-sweep
     * biasing. Every field keeps its value.
     */
    method SingleConfig()
      requires Valid()
      modifies this, conn`log, conn`writeDelay
      ensures Params() == old(Params())
      ensures conn.log == old(conn.log) + (if Open() then SingleConfigTrace(old(Params())) else [])
      ensures conn.writeDelay == if Open() then 0.5 else old(conn.writeDelay)
    {
      SetParam(DcV, dcV);
      SetParam(StartV, startV);
      SetParam(StopV, stopV);
      SetParam(StepV, stepV);
      SetParam(HoldT, holdT);
      SetParam(StepT, stepT);
      Command(Code("IB2"));
    }

    /** init_sweep: hold/manual trigger, then start the sweep. */
    method InitSweep()
      requires Valid()
      modifies conn`log
      ensures conn.log == old(conn.log) + (if Open() then [Code("TR3"), Code("SW1")] else [])
    {
      if Open() {
        Command(Code("TR3"));
        Command(Code("SW1"));
      }
    }

    /** stop_sweep: single-sweep biasing, then stop the sweep. */
    method StopSweep()
      requires Valid()
      modifies conn`log
      ensures conn.log == old(conn.log) + (if Open() then [Code("IB2"), Code("SW0")] else [])
    {
      if Open() {
        Command(Code("IB2"));
        Command(Code("SW0"));
      }
    }

    /**
     * sweep_measure: raise the timeout, trigger a sweep and request its data.
     * `response` is what the instrument's read returned (None when nothing
     * came back) and `filePath` the timestamped CSV path. Only with data does
     * it stop the sweep, restore the timeout and return the path.
     */
    method SweepMeasure(response: Option<string>, filePath: string) returns (r: Option<string>)
      requires Valid()
      modifies conn`log, conn`timeout
      ensures Open() && response.Some? ==>
                r == Some(filePath) && conn.timeout == 10000 &&
                conn.log == old(conn.log) + SweepMeasureTrace + [Code("SW0")]
      ensures Open() && response.None? ==>
                r == None && conn.timeout == 1000000 && conn.log == old(conn.log) + SweepMeasureTrace
      ensures !Open() ==> r == None && conn.timeout == old(conn.timeout) && conn.log == old(conn.log)
    {
      if Open() {
        conn.timeout := 1000000;
        Command(Code("V01"));
        Command(Code("SW1"));
        Command(Code("BL1"));
        Command(Code("BD"));
        Command(Code("READ?"));
        if response.Some? {
          Command(Code("SW0"));
          conn.timeout := 10000;
          r := Some(filePath);
        } else {
          r := None;
        }
      } else {
        r := None;
      }
    }

    /** One round of the pulse sweep: both bounds set to `c`, one sweep started, read and stopped. */
    method PulseRoundAt(c: real)
      requires Valid() && Open()
      modifies this, conn`log, conn`timeout, conn`writeDelay
      ensures conn.log == old(conn.log) + PulseRound(c)
      ensures Params() == old(Params()).Set(StopV, c).Set(StartV, c)
      ensures conn.timeout == 10000 && conn.writeDelay == 0.5
    {
      SetParam(StopV, c);
      SetParam(StartV, c);
      Command(Code("SW1"));
      conn.timeout := 6000000;
      Command(Code("BL1"));
      Command(Code("BD"));
      Command(Code("READ?"));
      Command(Code("SW0"));
      conn.timeout := 10000;
    }

    /**
     * pulse_sweep: double-sweep biasing, then the pulse rounds; with no
     * instrument, nothing happens.
     */
    method PulseSweep()
      requires Valid()
      requires Open() ==> stepV > 0.0 || stopV <= 0.0
      modifies this, conn`log, conn`timeout, conn`writeDelay
      ensures !Open() ==> Params() == old(Params()) && conn.log == old(conn.log)
      ensures !Open() ==> conn.timeout == old(conn.timeout) && conn.writeDelay == old(conn.writeDelay)
      ensures Open() ==>
                var n := PulseCount(old(stopV), old(stepV));
                && conn.log == old(conn.log) + [Code("IB3")] + PulseTrace(old(stepV), n)
                && Params() == AfterPulses(old(Params()), n)
                && (n > 0 ==> conn.timeout == 10000 && conn.writeDelay == 0.5)
                && (n == 0 ==> conn.timeout == old(conn.timeout) && conn.writeDelay == old(conn.writeDelay))
    {
      if Open() {
        SetMode(DoubleSweep);
        PulseRounds();
      }
    }

    /**
     * The loop of pulse_sweep: one pulse round at each voltage c = Step_V,
     * 2*Step_V, ... while c < Stop_V + Step_V (Stop_V as it was on entry),
     * each round setting stop and start voltage to c. The loop ends only if
     * Step_V > 0 or it never starts (Stop_V <= 0).
     */
    method PulseRounds()
      requires Valid() && Open()
      requires stepV > 0.0 || stopV <= 0.0
      modifies this, conn`log, conn`timeout, conn`writeDelay
      ensures var n := PulseCount(old(stopV), old(stepV));
                && conn.log == old(conn.log) + PulseTrace(old(stepV), n)
                && Params() == AfterPulses(old(Params()), n)
                && (n > 0 ==> conn.timeout == 10000 && conn.writeDelay == 0.5)
                && (n == 0 ==> conn.timeout == old(conn.timeout) && conn.writeDelay == old(conn.writeDelay))
    {
      var step := stepV;
      var currentEnd := stepV;
      var actualEnd := stopV;
      ghost var n := PulseCount(actualEnd, step);
      ghost var k: nat := 0;
      while currentEnd < actualEnd + step
        invariant k <= n
        invariant step == old(stepV) && actualEnd == old(stopV)
        invariant currentEnd == (k + 1) as real * step
        invariant conn.log == old(conn.log) + PulseTrace(step, k)
        invariant Params() == AfterPulses(old(Params()), k)
        invariant k > 0 ==> conn.timeout == 10000 && conn.writeDelay == 0.5
        invariant k == 0 ==> conn.timeout == old(conn.timeout) && conn.writeDelay == old(conn.writeDelay)
        decreases n - k
      {
        PulseCountBounds(actualEnd, step, k);
        ghost var trace := PulseTrace(step, k);
        ghost var c0 := currentEnd;
        PulseRoundAt(currentEnd);
        assert conn.log == old(conn.log) + (trace + PulseRound(currentEnd));
        currentEnd := currentEnd + step;
        k := k + 1;
        PulseTraceSnoc(step, k);
        assert c0 == k as real * step;
      }
      PulseCountBounds(actualEnd, step, k);
    }
  }

  /** The controller's constructor: it raises when the connection has no `inst` attribute. */
  method NewController(conn: Connection, dcV: real, startV: real, stopV: real, stepV: real, holdT: real, stepT: real)
    returns (r: Result<Controller, ControllerError>)
    ensures r.Failure? <==> conn.inst == Absent
    ensures r.Success? ==>
              && fresh(r.value) && r.value.conn == conn && r.value.Valid()
              && r.value.Params() == SweepParams(dcV, startV, stopV, stepV, holdT, stepT)
  {
    var c := new Controller(conn, dcV, startV, stopV, stepV, holdT, stepT);
    if conn.inst == Absent {
      return Failure(MissingInstAttribute);
    }
    return Success(c);
  }

  /**
   * step_calc, over the sweep parameters: the number of voltage points of the
   * sweep; with a zero step, the voltage span itself.
   */
  function StepCalc(p: SweepParams): (r: real)
    ensures p.stepV != 0.0 ==> (r - 1.0) * p.stepV == p.stopV - p.startV
    ensures p.stepV == 0.0 ==> r == p.stopV - p.startV
  {
    if p.stepV == 0.0 then (p.stopV - p.startV) / 1.0
    else (p.stopV - p.startV) / p.stepV + 1.0
  }

  /** A sweep from start to start + k*step has k + 1 points: start, start + step, ..., stop. */
  lemma StepCalcCountsPoints(p: SweepParams, k: nat)
    requires p.stepV != 0.0 && p.stopV == p.startV + k as real * p.stepV
    ensures StepCalc(p) == (k + 1) as real
  {
    MulCancel(StepCalc(p) - 1.0, k as real, p.stepV);
  }

  lemma MulCancel(x: real, y: real, s: real)
    requires s != 0.0 && x * s == y * s
    ensures x == y
  {
    assert (x - y) * s == 0.0;
  }

  /**
   * sweep_time_calc: computed in milliseconds and divided back to seconds;
   * it is one second plus (step time + hold time) per point.
   */
  function SweepTimeCalc(p: SweepParams): (r: real)
    ensures r == StepCalc(p) * (p.stepT + p.holdT) + 1.0
  {
    var numSteps := StepCalc(p);
    (numSteps * (p.stepT + p.holdT) * 1000.0 + 1000.0) / 1000.0
  }

  /** For a sweep of k steps, the sweep time is one second plus (step time + hold time) for each of its k + 1 points. */
  lemma SweepTimeOfSteps(p: SweepParams, k: nat)
    requires p.stepV != 0.0 && p.stopV == p.startV + k as real * p.stepV
    ensures SweepTimeCalc(p) == 1.0 + (k + 1) as real * (p.stepT + p.holdT)
  {
    StepCalcCountsPoints(p, k);
  }

  /**
   * The number of rounds pulse_sweep runs when started with stop voltage
   * `stop` and step `step`: the least n with stop <= n*step.
   */
  function PulseCount(stop: real, step: real): (n: nat)
    requires step > 0.0 || stop <= 0.0
    ensures stop <= n as real * step
    ensures n == 0 || (n - 1) as real * step < stop
    ensures stop <= 0.0 ==> n == 0
  {
    if stop <= 0.0 then 0
    else
      var q := stop / step;
      var m := -((-q).Floor);
      assert q * step == stop;
      CeilingBounds(q);
      ScaleBounds(q, m, step);
      assert (m - 1) as real * step < stop;
      m
  }

  /** -floor(-q) is the ceiling of q. */
  lemma CeilingBounds(q: real)
    ensures q <= (-((-q).Floor)) as real < q + 1.0
  {
  }

  lemma ScaleBounds(q: real, m: int, step: real)
    requires step > 0.0 && q <= m as real < q + 1.0
    ensures q * step <= m as real * step
    ensures (m - 1) as real * step < q * step
  {
  }

  /** Multiplying by a positive step keeps the order of integers. */
  lemma ScaleLess(a: int, b: int, step: real)
    requires step > 0.0 && a as real * step < b as real * step
    ensures a < b
  {
  }

  /** The loop guard of pulse_sweep holds for round k < PulseCount and fails at round PulseCount. */
  lemma PulseCountBounds(stop: real, step: real, k: nat)
    requires step > 0.0 || stop <= 0.0
    ensures k <= PulseCount(stop, step) && k as real * step < stop ==> k < PulseCount(stop, step)
    ensures k <= PulseCount(stop, step) && stop <= k as real * step ==> k == PulseCount(stop, step)
  {
    var n := PulseCount(stop, step);
    if k <= n && k as real * step < stop && step > 0.0 {
      ScaleLess(k, n, step);
    }
    if k <= n && stop <= k as real * step && n > 0 {
      assert step > 0.0;
      assert (n - 1) as real * step < k as real * step;
      ScaleLess(n - 1, k, step);
    }
  }
}
