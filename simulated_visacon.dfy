/** The simulated HP4280A connection used when no GPIB instrument is attached. */
module SimulatedVisa {
  import opened Commands

  const DefaultAddr: string := "GPIB0::17::INSTR"
  const DefaultTimeout: int := 10000

  /** What the simulator prints in front of every command it is asked to write. */
  const WritePrefix: string := "Simulated write: "

  /** The canned answers of the simulator's query; any other command is answered "0.0". */
  const SimulatedResponses: map<string, string> :=
    map[ "PV?" := "5.0", "PS?" := "0.0", "PP?" := "5.0",
         "PE?" := "0.1", "PL?" := "0.01", "PD?" := "0.03" ]

  /** The query a caller sends to read back one sweep parameter: its mnemonic followed by '?'. */
  function ReadBack(p: SweepParam): string {
    Mnemonic(p) + "?"
  }

  /** The simulator answers exactly the six sweep-parameter read-backs, and nothing else, with a canned value. */
  lemma CannedQueriesAreReadBacks(command: string)
    ensures command in SimulatedResponses <==> exists p :: command == ReadBack(p)
  {
    if command in SimulatedResponses {
      if command == "PV?" { assert command == ReadBack(DcV); }
      else if command == "PS?" { assert command == ReadBack(StartV); }
      else if command == "PP?" { assert command == ReadBack(StopV); }
      else if command == "PE?" { assert command == ReadBack(StepV); }
      else if command == "PL?" { assert command == ReadBack(HoldT); }
      else { assert command == ReadBack(StepT); }
    } else {
      forall p: SweepParam ensures command != ReadBack(p) {
        match p {
          case DcV => assert ReadBack(p) == "PV?";
          case StartV => assert ReadBack(p) == "PS?";
          case StopV => assert ReadBack(p) == "PP?";
          case StepV => assert ReadBack(p) == "PE?";
          case HoldT => assert ReadBack(p) == "PL?";
          case StepT => assert ReadBack(p) == "PD?";
        }
      }
    }
  }

  /** A simulated measurement: capacitance and conductance drawn uniformly from fixed ranges. */
  datatype Reading = Reading(c: real, g: real)

  /**
   * query_measurement: the two uniform draws are passed in as fractions u1, u2 of their ranges
   * (capacitance 1 to 10, conductance 0.1 to 1); the requested value plays no part.
   */
  function QueryMeasurement(value: real, u1: real, u2: real): (r: Reading)
    requires 0.0 <= u1 <= 1.0 && 0.0 <= u2 <= 1.0
    ensures 1.0 <= r.c <= 10.0 && 0.1 <= r.g <= 1.0
  {
    Reading(1.0 + 9.0 * u1, 0.1 + 0.9 * u2)
  }

  /** The simulated reading depends on the random draws only, never on the value asked for. */
  lemma QueryMeasurementIgnoresValue(v: real, w: real, u1: real, u2: real)
    requires 0.0 <= u1 <= 1.0 && 0.0 <= u2 <= 1.0
    ensures QueryMeasurement(v, u1, u2) == QueryMeasurement(w, u1, u2)
  {
  }

  class SimulatedVisaCon {
    const addr: string
    var timeout: int
    var connected: bool
    /** The simulator stands in for its own instrument handle. */
    var inst: SimulatedVisaCon?

    constructor (addr: string, timeout: int)
      ensures GetMac() == addr && GetTimeout() == timeout
      ensures !CheckConnection() && inst == this
    {
      this.addr := addr;
      this.timeout := timeout;
      connected := false;
      new;
      inst := this;
    }

    /** connect always succeeds. */
    method Connect()
      modifies this`connected
      ensures connected && CheckConnection()
      ensures GetDeviceId() == "HP4280A Simulated Device"
    {
      connected := true;
    }

    /** disconnect leaves the simulator disconnected, whether or not it was connected before. */
    method Disconnect()
      modifies this`connected
      ensures !connected && !CheckConnection()
      ensures GetDeviceId() == "No device connected"
    {
      if connected {
        connected := false;
      }
    }

    /** check_connection reports whether connect was called more recently than disconnect. */
    function CheckConnection(): (r: bool)
      reads this
      ensures r <==> connected
    {
      connected
    }

    /**
     * write only echoes the command to the console; the echoed line is returned here. Nothing is
     * recorded: the method may modify nothing.
     */
    method Write(command: string) returns (echo: string)
      ensures |echo| == |WritePrefix| + |command|
      ensures echo[..|WritePrefix|] == WritePrefix && echo[|WritePrefix|..] == command
    {
      echo := WritePrefix + command;
    }

    /** query answers a sweep-parameter read-back with its canned value and anything else with "0.0". */
    function Query(command: string): (r: string)
      ensures command in SimulatedResponses ==> r == SimulatedResponses[command]
      ensures command !in SimulatedResponses ==> r == "0.0"
    {
      if command in SimulatedResponses then SimulatedResponses[command] else "0.0"
    }

    /** get_MAC reports the address the simulator was created with. */
    function GetMac(): (r: string)
      ensures r == addr
    {
      addr
    }

    function GetTimeout(): (r: int)
      reads this
      ensures r == timeout
    {
      timeout
    }

    method SetTimeout(t: int)
      modifies this`timeout
      ensures GetTimeout() == t
    {
      timeout := t;
    }

    /** get_device_id names the simulated device exactly while connected. */
    function GetDeviceId(): (r: string)
      reads this
      ensures r == "HP4280A Simulated Device" <==> connected
      ensures r == "No device connected" <==> !connected
    {
      if connected then "HP4280A Simulated Device" else "No device connected"
    }
  }

  /** A simulator built with the default address and timeout, as the application creates it. */
  method NewDefault() returns (v: SimulatedVisaCon)
    ensures fresh(v) && v.addr == DefaultAddr && v.timeout == DefaultTimeout
    ensures !v.connected && v.inst == v
  {
    v := new SimulatedVisaCon(DefaultAddr, DefaultTimeout);
  }
}
