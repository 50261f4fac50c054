# HP 4280A controller — a Dafny model

This project models the core of the HP 4280A C-V meter application in Dafny:

- **The instrument controller** (`controller.dfy`, class `Controller.Controller`). It holds the six
  sweep parameters: DC voltage, start voltage, stop voltage, step voltage, hold time and step time.
  Every setter and mode call becomes a command written to the connection's instrument. Composite
  operations send those commands in sequence: `default_single`, `default_CT`, `single_config`,
  starting and stopping a sweep, `sweep_measure` and the `pulse_sweep` loop.
  - The connection is a `Connection` object. Its `inst` is absent, None or present. It records the
    lines written to the instrument (`log`), the instrument's `timeout` and its `write_delay`.
  - Every operation is specified by the exact commands it appends to `log` and the exact fields it
    changes.
- **The command vocabulary** (`commands.dfy`):
  - the numeric parameter mnemonics (`PV`, `PS`, `PP`, `PE`, `PL`, `PD`, and the C-t mnemonics
    `PN`, `PM`, `PU`, `PH`, `PT`);
  - the fixed codes of the mode setters;
  - the fixed command sequences of the composite operations.

  It also gives the instrument's reading of a command sequence (`Replay`): which sweep parameters
  the instrument holds after reading it. This reading is the independent partner against which the
  controller's bookkeeping is proved. After `single_config` or `default_single`, the instrument
  holds exactly what the controller's fields hold, whatever it held before. A run of n pulse rounds
  leaves any instrument with start and stop voltage at n times the step and every other parameter
  as it was; it therefore agrees with the controller's fields afterwards if it already held them.
  `default_CT` touches none of them.
- **The simulated connection** (`simulated_visacon.dfy`, class `SimulatedVisa.SimulatedVisaCon`).
  It models connect and disconnect, the canned query answers, the address, the timeout and the
  device identification. Its `Write` only echoes the command; the echoed line is its result.
- **The user and measurement tables** (`database.dfy`, class `Database.Db`). They are modelled as
  sequences of rows in insertion order, with the SQL engine's AUTOINCREMENT counters and the UNIQUE
  email column made explicit. The module covers:
  - seeding on an empty table;
  - the admin rule of `add_user`;
  - lookups by id and by email;
  - deletion;
  - recording a measurement;
  - filtering measurements by user.

Inputs the program reads from the outside are parameters of the model:
- the instrument's block response;
- the CSV file path built from the clock;
- the measurement date and time;
- the already hashed admin password;
- the random draws of the simulator.

`wrappers.dfy` holds the `Option` and `Result` types.

`pulse_sweep` keeps going while the round voltage is below the stop voltage plus one step. So its
last round runs at the first multiple of the step at or above the stop voltage, and `PulseCount`
counts that round.

## Model

| member | source | states |
|---|---|---|
| Controller.Controller.constructor | Version2/controller.py:16-24 | the controller keeps the connection and the six sweep parameters it is given |
| Controller.NewController | Version2/controller.py:16-30 | construction fails (AttributeError) exactly when the connection has no `inst` attribute; otherwise a controller over that connection holding the given parameters |
| Controller.Controller.Command | Version2/controller.py:534-543 | a command reaches the instrument's log exactly when `inst` is not None, and is then appended after everything written before |
| Controller.Controller.SetParam | Version2/controller.py:42-94 | with an instrument, a sweep setter changes exactly its own parameter to the value, sets the write delay to 0.5 and writes its mnemonic with the value; without one, nothing changes |
| Controller.Controller.SetCt | Version2/controller.py:97-145 | with an instrument, a C-t setter sets the write delay to 0.5 and writes its mnemonic with the value, changing no sweep parameter; without one, nothing changes |
| Controller.Controller.SetMode | Version2/controller.py:34-394 | each mode setter (also set_double and measure_start) writes exactly its fixed code when an instrument is present, and nothing otherwise |
| Controller.Controller.DefaultSingleCodesWrite | Version2/controller.py:160-168 | default_single's nine mode codes go out in their order |
| Controller.Controller.DefaultSingle | Version2/controller.py:158-177 | with an instrument: the nine codes, then PV 5, PS 0, PP 5, PL 0.01, PE 0.01, PD 0.03 in that order, leaving the fields at those defaults; without one, nothing changes |
| Controller.Controller.DefaultCt | Version2/controller.py:179-197 | with an instrument: the seven codes, the five C-t parameters and SL2 in that order, sweep fields untouched; without one, nothing changes |
| Controller.Controller.SingleConfig | Version2/controller.py:199-206 | re-sends all six current parameters in order, then IB2; no field changes |
| Controller.Controller.InitSweep | Version2/controller.py:400-406 | with an instrument: TR3 then SW1; otherwise nothing |
| Controller.Controller.StopSweep | Version2/controller.py:408-414 | with an instrument: IB2 then SW0; otherwise nothing |
| Controller.Controller.SweepMeasure | Version2/controller.py:416-442 | with data: the five request commands, SW0, timeout back to 10000 and the file path returned; without data: the timeout stays raised at 1000000, no SW0, None returned; without an instrument: None and no change |
| Controller.Controller.PulseRoundAt | Version2/controller.py:490-505 | one pulse round sets stop and start voltage to c, writes PP c, PS c, SW1, BL1, BD, READ?, SW0 and leaves the timeout at 10000 |
| Controller.Controller.PulseSweep | Version2/controller.py:481-513 | IB3, then exactly PulseCount(Stop_V, Step_V) rounds at Step_V, 2·Step_V, …; afterwards start and stop voltage both hold the last round's voltage; no round runs when the stop voltage is not positive |
| Controller.Controller.PulseRounds | Version2/controller.py:487-507 | the loop runs exactly PulseCount(Stop_V, Step_V) rounds, writes exactly those rounds' commands in order, and leaves start and stop voltage at the last round's voltage; the timeout is 10000 and the write delay 0.5 after any round, and both are untouched when no round runs |
| Controller.PulseCount | Version2/controller.py:487-489 | the number of rounds is the least n with Stop_V ≤ n·Step_V |
| Controller.PulseCountBounds | Version2/controller.py:489 | the loop guard holds for every round before PulseCount and fails at PulseCount |
| Controller.StepCalc | Version2/controller.py:517-524 | with a non-zero step, (result − 1)·step spans start to stop; with a zero step, the result is the span itself |
| Controller.StepCalcCountsPoints | Version2/controller.py:517-524 | a sweep from start to start + k·step has k + 1 points |
| Controller.SweepTimeCalc | Version2/controller.py:527-531 | the millisecond round trip cancels: the time is step_calc's count times (step time + hold time), plus one second |
| Controller.SweepTimeOfSteps | Version2/controller.py:517-531 | for a sweep of k steps, the time is one second plus (step time + hold time) for each of its k + 1 points |
| Commands.MnemonicRoundTrip | Version2/controller.py:42-94 | each sweep setter's mnemonic is read back by the instrument as that same parameter, so the six mnemonics are distinct |
| Commands.SweepParams.Set | Version2/controller.py:42-94 | a setter's new state differs from the old one in its own parameter only |
| Commands.CtMnemonicIsNoSweepParam | Version2/controller.py:97-145 | no C-t mnemonic sets a sweep parameter |
| Commands.SettingRoundTrip | Version2/controller.py:214-394 | every mode setter's code is read back as that setting (set_int's as set_repeat's) |
| Commands.SettingCodesDistinct | Version2/controller.py:248-394 | two mode setters send the same code exactly when they select the same setting (only set_repeat and set_int share TR1) |
| Commands.SingleConfigReplay | Version2/controller.py:199-206 | after single_config's commands, the instrument holds exactly the controller's parameters, whatever it held before |
| Commands.DefaultSingleReplay | Version2/controller.py:158-177 | after default_single's commands, the instrument holds the six defaults, whatever it held before |
| Commands.DefaultCtReplay | Version2/controller.py:179-197 | default_CT's commands change none of the instrument's sweep parameters |
| Commands.PulseRoundReplay | Version2/controller.py:490-505 | one pulse round leaves the instrument with start and stop voltage both at that round's voltage |
| Commands.PulseTraceReplayAny | Version2/controller.py:487-507 | from any instrument state, n rounds leave start and stop voltage at n·step and every other parameter unchanged; no round changes nothing |
| Commands.PulseTraceReplay | Version2/controller.py:487-507 | an instrument that already held the controller's fields holds them again after n rounds |
| Commands.PulseTraceShape | Version2/controller.py:489-507 | n rounds are 7n commands, and round j runs at (j + 1)·Step_V |
| Commands.PulseTraceLength | Version2/controller.py:489-507 | each round writes seven commands |
| SimulatedVisa.SimulatedVisaCon.constructor | Version2/simulated_visacon.py:5-9 | a new simulator reports its address and timeout, is disconnected and is its own `inst` |
| SimulatedVisa.NewDefault | Version2/simulated_visacon.py:5-9 | the defaults are GPIB0::17::INSTR and 10000 |
| SimulatedVisa.SimulatedVisaCon.Connect | Version2/simulated_visacon.py:12-15 | connect always succeeds: afterwards check_connection is true and the device id is the simulated device's |
| SimulatedVisa.SimulatedVisaCon.Disconnect | Version2/simulated_visacon.py:18-24 | afterwards the simulator is disconnected, whether or not it was connected before |
| SimulatedVisa.SimulatedVisaCon.CheckConnection | Version2/simulated_visacon.py:27-28 | reports the connection state |
| SimulatedVisa.SimulatedVisaCon.Write | Version2/simulated_visacon.py:31-32 | the echoed line is the fixed prefix followed by exactly the command, so the command can be read back from it; no state changes (nothing may be modified) |
| SimulatedVisa.SimulatedVisaCon.Query | Version2/simulated_visacon.py:35-46 | a canned query gets its canned answer; any other gets "0.0" |
| SimulatedVisa.CannedQueriesAreReadBacks | Version2/simulated_visacon.py:38-45 | the canned queries are exactly the six sweep-parameter read-backs (mnemonic followed by '?') |
| SimulatedVisa.SimulatedVisaCon.GetMac | Version2/simulated_visacon.py:49-50 | the "MAC" is the address |
| SimulatedVisa.SimulatedVisaCon.GetTimeout | Version2/simulated_visacon.py:53-54 | reports the current timeout |
| SimulatedVisa.SimulatedVisaCon.SetTimeout | Version2/simulated_visacon.py:57-58 | get_timeout afterwards returns the value set |
| SimulatedVisa.SimulatedVisaCon.GetDeviceId | Version2/simulated_visacon.py:61-65 | the simulated device's name exactly while connected, "No device connected" exactly while not |
| SimulatedVisa.QueryMeasurement | Version2/simulated_visacon.py:68-72 | capacitance lies in [1, 10] and conductance in [0.1, 1] |
| SimulatedVisa.QueryMeasurementIgnoresValue | Version2/simulated_visacon.py:68-72 | the reading does not depend on the requested value |
| Database.Db.constructor | Version2/database.py:10-38 | freshly created tables are empty and satisfy the table rules |
| Database.Db.InsertUser | Version2/database.py:16-25 | an INSERT is refused with a UNIQUE violation exactly when the email is taken, changing nothing; otherwise the row is appended under the next AUTOINCREMENT id and the rules (increasing ids, unique emails) still hold |
| Database.Db.InitDb | Version2/database.py:40-58 | an empty users table receives exactly the admin (is_admin 1) and the demo user (is_admin 0), in that order, under the next two AUTOINCREMENT ids; a non-empty one is left alone |
| Database.AdminFlag | Version2/database.py:69-76 | the stored flag is 1 whenever no admin exists, whatever was asked; otherwise the given flag, 0 when none |
| Database.AddedUserKeepsAdmin | Version2/database.py:69-82 | after a successful add_user the table always has an admin |
| Database.Db.AddUser | Version2/database.py:63-83 | a taken email fails and changes nothing, the AUTOINCREMENT counter included; otherwise exactly one row with the AdminFlag flag is appended under the old counter + 1, and get_user_by_email then finds it |
| Database.UserById | Version2/database.py:86-95 | a row with that id, or None exactly when no row has that id |
| Database.UserByEmail | Version2/database.py:97-106 | a row with that email, or None exactly when no row has that email |
| Database.UserByEmailFindsAppended | Version2/database.py:97-106 | a row added under a fresh email is what the lookup by that email returns |
| Database.UserByIdStableUnderAppend | Version2/database.py:86-95 | adding a row does not change what an existing id's lookup returns |
| Database.WithoutId | Version2/database.py:108-116 | the rows left are exactly the rows without that id |
| Database.WithoutIdKeepsIdOrder | Version2/database.py:108-116 | deleting keeps the remaining ids increasing and under the counter |
| Database.WithoutIdKeepsEmailsUnique | Version2/database.py:108-116 | deleting keeps the remaining emails unique |
| Database.UserByIdAfterDelete | Version2/database.py:108-116 | after deleting an id, its lookup returns None and every other id's lookup is unchanged |
| Database.Db.DeleteUserById | Version2/database.py:108-116 | the users table becomes the rows without that id; the rules still hold; measurements are untouched |
| Database.Db.AddMeasurement | Version2/database.py:119-132 | exactly one row for the given user, test type and path is appended; its returned id is larger than every earlier id |
| Database.RowsOfUser | Version2/database.py:139-142 | the rows returned are exactly the rows of that user |
| Database.MeasurementsOf | Version2/database.py:135-147 | an absent or zero user id returns every row; any other returns exactly that user's rows |
| Database.RowsOfUserAppend | Version2/database.py:119-147 | a newly recorded measurement appears at the end of its own user's rows and in no other user's rows |

## Left out

- The web application, `visacon.py` (the real VISA connection), `data_save.py` and the test script are not part of this model.
- Writing CSV files (`mkcsv`), reading and decoding the block response (`ReadBlockResponseAscii`, `ProcessBinary`), the clock and the uploads folder are not modelled. The response, the file path and the date and time are parameters.
- The text rendering of numeric commands (`"PV " + str(v)`) is not modelled: a `Param` command carries the mnemonic and the exact value. Python's float rounding is not modelled either. In particular, `pulse_sweep` accumulates `current_end += Step_V` in floating point, while the model uses exact reals.
- The `VisaIOError` handlers in `command` and `pulse_sweep` are not modelled: every write succeeds.
- The duplicate definitions of `set_ext` and `set_hold` are one setting each. Python keeps the later ones, and both send the same code.
- `Connection.inst` is fixed for the life of a controller. A reconnect that replaces `inst` is not modelled.
- `Connection.timeout` and `SimulatedVisaCon.timeout` are separate fields. For the simulator, `inst` is the connection itself, so the two are one field in the program.
- Controller.Controller.PulseSweep: it requires a positive step voltage whenever the stop voltage is positive. With any other step the program's loop never ends, and this model covers terminating runs only.
- The console output of the simulated `write` is not modelled; `Write` returns the line it would print.
- SimulatedVisa.QueryMeasurement: the random draws are parameters, given as fractions of their ranges.
- The simulator lacks the `read` and `clear` methods the controller calls. That failure path is not modelled.
- Password hashing, `migrate_passwords` and `export_measurements_to_csv` are not modelled. Passwords are opaque strings, and the admin password is passed in already hashed.
- The database's foreign key from measurements to users is not enforced. SQLite does not enforce it unless told to, so `AddMeasurement` accepts any user id, and `DeleteUserById` does not cascade.
- The NOT NULL constraints are not modelled: the model's strings are never null.
- SQLite row ids and the measurement date and time are not modelled beyond the AUTOINCREMENT counter.
