/**
 * The command vocabulary of the HP 4280A as the controller uses it: numeric
 * parameter commands ("PV 5.0"), fixed codes ("FN1", "SW0"), the fixed command
 * sequences of the composite operations, and the instrument's reading of a
 * sequence of commands (which sweep parameters it ends up holding).
 */
module Commands {
  import opened Wrappers

  /**
   * One line written to the instrument. `Param(m, v)` stands for the text
   * m + " " + str(v); the text rendering of floats is not modelled.
   */
  datatype Cmd = Param(mnemonic: string, value: real) | Code(code: string)

  /** The six sweep parameters the controller tracks (its fields DC_V .. Step_T). */
  datatype SweepParam = DcV | StartV | StopV | StepV | HoldT | StepT

  /** The mnemonic that sets a sweep parameter on the instrument. */
  function Mnemonic(p: SweepParam): string {
    match p
    case DcV => "PV"
    case StartV => "PS"
    case StopV => "PP"
    case StepV => "PE"
    case HoldT => "PL"
    case StepT => "PD"
  }

  /** The instrument's reading of a mnemonic: the sweep parameter it sets, if any. */
  function ParamOf(m: string): Option<SweepParam> {
    if m == "PV" then Some(DcV)
    else if m == "PS" then Some(StartV)
    else if m == "PP" then Some(StopV)
    else if m == "PE" then Some(StepV)
    else if m == "PL" then Some(HoldT)
    else if m == "PD" then Some(StepT)
    else None
  }

  /** Each sweep parameter has its own mnemonic, and the instrument reads it back as that parameter. */
  lemma MnemonicRoundTrip(p: SweepParam)
    ensures ParamOf(Mnemonic(p)) == Some(p)
  {
  }

  /** A value for each of the six sweep parameters. */
  datatype SweepParams = SweepParams(dcV: real, startV: real, stopV: real, stepV: real, holdT: real, stepT: real)
  {
    function Get(p: SweepParam): real {
      match p
      case DcV => dcV
      case StartV => startV
      case StopV => stopV
      case StepV => stepV
      case HoldT => holdT
      case StepT => stepT
    }

    /** These values with `p` replaced by `v`: exactly one parameter changes. */
    function Set(p: SweepParam, v: real): (r: SweepParams)
      ensures r.Get(p) == v
      ensures forall q :: q != p ==> r.Get(q) == Get(q)
    {
      match p
      case DcV => this.(dcV := v)
      case StartV => this.(startV := v)
      case StopV => this.(stopV := v)
      case StepV => this.(stepV := v)
      case HoldT => this.(holdT := v)
      case StepT => this.(stepT := v)
    }
  }

  /** The command a numeric sweep setter writes. */
  function ParamCmd(p: SweepParam, v: real): Cmd {
    Param(Mnemonic(p), v)
  }

  /** Numeric parameters of the C-t measurement, written but not stored by the controller. */
  datatype CtParam = NofRead | MeasurePulse | Pulse | HoldTh | IntervalTd

  function CtMnemonic(q: CtParam): string {
    match q
    case NofRead => "PN"
    case MeasurePulse => "PM"
    case Pulse => "PU"
    case HoldTh => "PH"
    case IntervalTd => "PT"
  }

  /** C-t parameters are not sweep parameters: the instrument reads no sweep parameter from them. */
  lemma CtMnemonicIsNoSweepParam(q: CtParam)
    ensures ParamOf(CtMnemonic(q)) == None
  {
  }

  /**
   * The fixed-code settings, one constructor per mode-setting method of the
   * controller: float/ground, measurement speed, signal level, cable length,
   * trigger, function, range, double-sweep biasing and measurement start.
   * `Repeat` (set_repeat) and `Internal` (set_int) are two methods that send
   * the same code.
   */
  datatype Setting =
    | Float | Ground
    | Slow | Medium | Fast
    | Signal10 | Signal30
    | Cable1 | Cable2 | Cable3
    | Repeat | Internal | External | Hold
    | FuncCG | FuncC | FuncG | FuncCGt | FuncCt | FuncGt
    | RangeAuto | RangeManual | Range10pF | Range100pF | Range10nF
    | DoubleSweep
    | MeasureStart

  function SettingCode(s: Setting): string {
    match s
    case Float => "FL"
    case Ground => "GN"
    case Slow => "MS3"
    case Medium => "MS2"
    case Fast => "MS1"
    case Signal10 => "SL1"
    case Signal30 => "SL2"
    case Cable1 => "LE1"
    case Cable2 => "LE2"
    case Cable3 => "LE3"
    case Repeat => "TR1"
    case Internal => "TR1"
    case External => "TR2"
    case Hold => "TR3"
    case FuncCG => "FN1"
    case FuncC => "FN2"
    case FuncG => "FN3"
    case FuncCGt => "FN4"
    case FuncCt => "FN5"
    case FuncGt => "FN6"
    case RangeAuto => "RA1"
    case RangeManual => "RA0"
    case Range10pF => "RM1"
    case Range100pF => "RM2"
    case Range10nF => "RM3"
    case DoubleSweep => "IB3"
    case MeasureStart => "INIT"
  }

  /** The instrument's reading of a fixed code: the setting it selects, if any. */
  function SettingOf(code: string): Option<Setting> {
    match code
    case "FL" => Some(Float)
    case "GN" => Some(Ground)
    case "MS3" => Some(Slow)
    case "MS2" => Some(Medium)
    case "MS1" => Some(Fast)
    case "SL1" => Some(Signal10)
    case "SL2" => Some(Signal30)
    case "LE1" => Some(Cable1)
    case "LE2" => Some(Cable2)
    case "LE3" => Some(Cable3)
    case "TR1" => Some(Repeat)
    case "TR2" => Some(External)
    case "TR3" => Some(Hold)
    case "FN1" => Some(FuncCG)
    case "FN2" => Some(FuncC)
    case "FN3" => Some(FuncG)
    case "FN4" => Some(FuncCGt)
    case "FN5" => Some(FuncCt)
    case "FN6" => Some(FuncGt)
    case "RA1" => Some(RangeAuto)
    case "RA0" => Some(RangeManual)
    case "RM1" => Some(Range10pF)
    case "RM2" => Some(Range100pF)
    case "RM3" => Some(Range10nF)
    case "IB3" => Some(DoubleSweep)
    case "INIT" => Some(MeasureStart)
    case _ => None
  }

  /** The two trigger methods set_repeat and set_int select the same trigger mode. */
  function Canonical(s: Setting): Setting {
    if s == Internal then Repeat else s
  }

  /** Every setting's code is read back as that setting (set_int's as set_repeat's). */
  lemma SettingRoundTrip(s: Setting)
    ensures SettingOf(SettingCode(s)) == Some(Canonical(s))
  {
  }

  /** Two mode setters send the same code exactly when they select the same setting. */
  lemma SettingCodesDistinct(s: Setting, t: Setting)
    ensures SettingCode(s) == SettingCode(t) <==> Canonical(s) == Canonical(t)
  {
    SettingRoundTrip(s);
    SettingRoundTrip(t);
    if Canonical(s) == Canonical(t) {
      assert SettingCode(s) == SettingCode(Canonical(s));
    }
  }

  /** What single_config writes: the six parameters in order, then single-sweep biasing. */
  function SingleConfigTrace(ps: SweepParams): seq<Cmd> {
    [ ParamCmd(DcV, ps.dcV), ParamCmd(StartV, ps.startV), ParamCmd(StopV, ps.stopV),
      ParamCmd(StepV, ps.stepV), ParamCmd(HoldT, ps.holdT), ParamCmd(StepT, ps.stepT),
      Code("IB2") ]
  }

  /** The sweep parameters default_single leaves behind. */
  const DefaultSingleParams := SweepParams(5.0, 0.0, 5.0, 0.01, 0.01, 0.03)

  /** What default_single writes: nine codes, then PV, PS, PP, PL, PE, PD (hold time before step). */
  const DefaultSingleTrace: seq<Cmd> := DefaultSingleCodes + DefaultSingleSetters

  const DefaultSingleCodes: seq<Cmd> :=
    Codes([ "IB2", "MS2", "FL", "FN1", "CEI", "TR1", "LE1", "SL2", "RA1" ])

  /** Fixed codes written one after another. */
  function Codes(names: seq<string>): (r: seq<Cmd>)
    ensures |r| == |names|
    ensures forall i :: 0 <= i < |names| ==> r[i] == Code(names[i])
  {
    seq(|names|, i requires 0 <= i < |names| => Code(names[i]))
  }

  const DefaultSingleSetters: seq<Cmd> :=
    [ ParamCmd(DcV, 5.0), ParamCmd(StartV, 0.0), ParamCmd(StopV, 5.0),
      ParamCmd(HoldT, 0.01), ParamCmd(StepV, 0.01), ParamCmd(StepT, 0.03) ]

  /** What default_CT writes: seven codes, the five C-t parameters, then signal level 30. */
  const DefaultCtTrace: seq<Cmd> :=
    [ Code("FN5"), Code("IB5"), Code("FL"), Code("LE1"), Code("MS1"), Code("RA1"), Code("TR1"),
      Param(CtMnemonic(Pulse), 0.0), Param(CtMnemonic(MeasurePulse), 0.0), Param(CtMnemonic(NofRead), 10.0),
      Param(CtMnemonic(HoldTh), 1.0), Param(CtMnemonic(IntervalTd), 0.01),
      Code("SL2") ]

  /** What sweep_measure writes before it reads the block response. */
  const SweepMeasureTrace: seq<Cmd> :=
    [ Code("V01"), Code("SW1"), Code("BL1"), Code("BD"), Code("READ?") ]

  /** One round of pulse_sweep at voltage c: stop and start set to c, one triggered sweep read back. */
  function PulseRound(c: real): seq<Cmd> {
    [ ParamCmd(StopV, c), ParamCmd(StartV, c) ] + PulseRoundCodes
  }

  /** The codes of a pulse round after its two voltages: trigger, request the data, stop. */
  const PulseRoundCodes: seq<Cmd> := [ Code("SW1"), Code("BL1"), Code("BD"), Code("READ?"), Code("SW0") ]

  /** The first n rounds of pulse_sweep: rounds at step, 2*step, ..., n*step. */
  function PulseTrace(step: real, n: nat): seq<Cmd> {
    if n == 0 then [] else PulseTrace(step, n - 1) + PulseRound(n as real * step)
  }

  lemma PulseTraceSnoc(step: real, n: nat)
    requires n > 0
    ensures PulseTrace(step, n) == PulseTrace(step, n - 1) + PulseRound(n as real * step)
  {
  }

  /** Round j (counting from 0) of the pulse trace sits at positions 7j .. 7j+6 and runs at (j+1)*step. */
  lemma {:induction false} PulseTraceShape(step: real, n: nat, j: nat)
    requires j < n
    ensures 7 * j + 7 <= |PulseTrace(step, n)|
    ensures PulseTrace(step, n)[7 * j .. 7 * j + 7] == PulseRound((j + 1) as real * step)
  {
    PulseTraceLength(step, n);
    if j < n - 1 {
      PulseTraceShape(step, n - 1, j);
      PulseTraceKeepsRound(step, n, j);
    } else {
      PulseTraceLast(step, n, j);
    }
  }

  /** A further round leaves the earlier rounds where they were. */
  lemma PulseTraceKeepsRound(step: real, n: nat, j: nat)
    requires j + 1 < n
    ensures |PulseTrace(step, n - 1)| == 7 * n - 7 && |PulseTrace(step, n)| == 7 * n
    ensures PulseTrace(step, n)[7 * j .. 7 * j + 7] == PulseTrace(step, n - 1)[7 * j .. 7 * j + 7]
  {
    PulseTraceLength(step, n - 1);
    PulseTraceLength(step, n);
    PulseTraceSnoc(step, n);
    SliceOfFront(PulseTrace(step, n - 1), PulseRound(n as real * step), 7 * j, 7 * j + 7);
  }

  /** The last round of the pulse trace is its final seven commands. */
  lemma PulseTraceLast(step: real, n: nat, j: nat)
    requires j + 1 == n
    ensures |PulseTrace(step, n)| == 7 * n
    ensures PulseTrace(step, n)[7 * j .. 7 * j + 7] == PulseRound((j + 1) as real * step)
  {
    PulseTraceLength(step, n - 1);
    PulseTraceLength(step, n);
    PulseTraceSnoc(step, n);
    var c := (j + 1) as real * step;
    assert c == n as real * step;
    SliceOfBack(PulseTrace(step, n - 1), PulseRound(c), 7 * j, 7 * j + 7);
  }

  lemma SliceOfFront<T>(a: seq<T>, b: seq<T>, i: nat, k: nat)
    requires i <= k <= |a|
    ensures (a + b)[i..k] == a[i..k]
  {
  }

  lemma SliceOfBack<T>(a: seq<T>, b: seq<T>, i: nat, k: nat)
    requires i == |a| && k == |a| + |b|
    ensures (a + b)[i..k] == b
  {
  }

  lemma {:induction false} PulseTraceLength(step: real, n: nat)
    ensures |PulseTrace(step, n)| == 7 * n
  {
    if n > 0 {
      PulseTraceLength(step, n - 1);
    }
  }

  /** The instrument's reading of one command: a sweep mnemonic sets that parameter, anything else leaves them. */
  function Apply(s: SweepParams, c: Cmd): SweepParams {
    match c
    case Param(m, v) =>
      (match ParamOf(m)
       case Some(p) => s.Set(p, v)
       case None => s)
    case Code(_) => s
  }

  /** The sweep parameters the instrument holds after reading `cmds`, starting from `s`. */
  function Replay(s: SweepParams, cmds: seq<Cmd>): SweepParams
    decreases |cmds|
  {
    if cmds == [] then s else Replay(Apply(s, cmds[0]), cmds[1..])
  }

  lemma {:induction false} ReplayAppend(s: SweepParams, a: seq<Cmd>, b: seq<Cmd>)
    ensures Replay(s, a + b) == Replay(Replay(s, a), b)
    decreases |a|
  {
    if a == [] {
      assert a + b == b;
    } else {
      assert (a + b)[0] == a[0];
      assert (a + b)[1..] == a[1..] + b;
      ReplayAppend(Apply(s, a[0]), a[1..], b);
    }
  }

  /** Reading a suffix of a trace is reading its first command, then the rest. */
  lemma ReplayAt(s: SweepParams, t: seq<Cmd>, i: nat)
    requires i < |t|
    ensures Replay(s, t[i..]) == Replay(Apply(s, t[i]), t[i + 1..])
  {
    assert t[i..][0] == t[i];
    assert t[i..][1..] == t[i + 1..];
  }

  /** A numeric sweep setter's command sets exactly that parameter on the instrument. */
  lemma ParamCmdApply(s: SweepParams, p: SweepParam, v: real)
    ensures Apply(s, ParamCmd(p, v)) == s.Set(p, v)
  {
    MnemonicRoundTrip(p);
  }

  /** After single_config the instrument holds exactly the controller's parameters, whatever it held before. */
  lemma SingleConfigReplay(s: SweepParams, ps: SweepParams)
    ensures Replay(s, SingleConfigTrace(ps)) == ps
  {
    var t := SingleConfigTrace(ps);
    var s1 := s.Set(DcV, ps.dcV);
    var s2 := s1.Set(StartV, ps.startV);
    var s3 := s2.Set(StopV, ps.stopV);
    var s4 := s3.Set(StepV, ps.stepV);
    var s5 := s4.Set(HoldT, ps.holdT);
    var s6 := s5.Set(StepT, ps.stepT);
    assert t[0..] == t;
    ReplayAt(s, t, 0);
    ParamCmdApply(s, DcV, ps.dcV);
    ReplayAt(s1, t, 1);
    ParamCmdApply(s1, StartV, ps.startV);
    ReplayAt(s2, t, 2);
    ParamCmdApply(s2, StopV, ps.stopV);
    ReplayAt(s3, t, 3);
    ParamCmdApply(s3, StepV, ps.stepV);
    ReplayAt(s4, t, 4);
    ParamCmdApply(s4, HoldT, ps.holdT);
    ReplayAt(s5, t, 5);
    ParamCmdApply(s5, StepT, ps.stepT);
    ReplayAt(s6, t, 6);
    assert t[7..] == [];
  }

  /** After default_single the instrument holds DefaultSingleParams, whatever it held before. */
  lemma DefaultSingleReplay(s: SweepParams)
    ensures Replay(s, DefaultSingleTrace) == DefaultSingleParams
  {
    ReplayAppend(s, DefaultSingleCodes, DefaultSingleSetters);
    InertReplay(s, DefaultSingleCodes);
    DefaultSingleSettersReplay(s);
  }

  lemma DefaultSingleSettersReplay(s: SweepParams)
    ensures Replay(s, DefaultSingleSetters) == DefaultSingleParams
  {
    var t := DefaultSingleSetters;
    var s1 := s.Set(DcV, 5.0);
    var s2 := s1.Set(StartV, 0.0);
    var s3 := s2.Set(StopV, 5.0);
    var s4 := s3.Set(HoldT, 0.01);
    var s5 := s4.Set(StepV, 0.01);
    var s6 := s5.Set(StepT, 0.03);
    assert t[0..] == t;
    ReplayAt(s, t, 0);
    ParamCmdApply(s, DcV, 5.0);
    ReplayAt(s1, t, 1);
    ParamCmdApply(s1, StartV, 0.0);
    ReplayAt(s2, t, 2);
    ParamCmdApply(s2, StopV, 5.0);
    ReplayAt(s3, t, 3);
    ParamCmdApply(s3, HoldT, 0.01);
    ReplayAt(s4, t, 4);
    ParamCmdApply(s4, StepV, 0.01);
    ReplayAt(s5, t, 5);
    ParamCmdApply(s5, StepT, 0.03);
    assert t[6..] == [];
  }

  /** default_CT changes none of the instrument's sweep parameters. */
  lemma DefaultCtReplay(s: SweepParams)
    ensures Replay(s, DefaultCtTrace) == s
  {
    forall q: CtParam {
      CtMnemonicIsNoSweepParam(q);
    }
    InertReplay(s, DefaultCtTrace);
  }

  /** A command that sets no sweep parameter: a fixed code, or a mnemonic the instrument reads as none. */
  predicate Inert(c: Cmd) {
    c.Code? || ParamOf(c.mnemonic) == None
  }

  /** Commands that set no sweep parameter leave the instrument's sweep parameters as they were. */
  lemma {:induction false} InertReplay(s: SweepParams, cmds: seq<Cmd>)
    requires forall i :: 0 <= i < |cmds| ==> Inert(cmds[i])
    ensures Replay(s, cmds) == s
    decreases |cmds|
  {
    if cmds != [] {
      InertReplay(s, cmds[1..]);
    }
  }

  /** One pulse round leaves the instrument with start and stop voltage both c. */
  lemma PulseRoundReplay(s: SweepParams, c: real)
    ensures Replay(s, PulseRound(c)) == s.Set(StopV, c).Set(StartV, c)
  {
    var r := PulseRound(c);
    ReplayAppend(s, r[..2], r[2..]);
    assert r[..2][1..][1..] == [];
    InertReplay(s.Set(StopV, c).Set(StartV, c), r[2..]);
  }

  /** The sweep parameters after n pulse rounds: start and stop voltage both at n*stepV, if n >= 1. */
  function AfterPulses(ps: SweepParams, n: nat): SweepParams {
    if n == 0 then ps
    else ps.Set(StopV, n as real * ps.stepV).Set(StartV, n as real * ps.stepV)
  }

  /**
   * Whatever the instrument held before, after the first n pulse rounds at `step` it holds start and
   * stop voltage both at n*step, every other parameter as it was.
   */
  lemma {:induction false} PulseTraceReplayAny(s: SweepParams, step: real, n: nat)
    ensures Replay(s, PulseTrace(step, n)) ==
              if n == 0 then s else s.Set(StopV, n as real * step).Set(StartV, n as real * step)
  {
    if n > 0 {
      var c := n as real * step;
      PulseTraceSnoc(step, n);
      PulseTraceReplayAny(s, step, n - 1);
      ReplayAppend(s, PulseTrace(step, n - 1), PulseRound(c));
      PulseRoundReplay(Replay(s, PulseTrace(step, n - 1)), c);
    }
  }

  /** The instrument, told the first n pulse rounds, holds what the controller's fields hold after them. */
  lemma {:induction false} PulseTraceReplay(s: SweepParams, step: real, n: nat)
    requires step == s.stepV
    ensures Replay(s, PulseTrace(step, n)) == AfterPulses(s, n)
  {
    PulseTraceReplayAny(s, step, n);
  }
}
