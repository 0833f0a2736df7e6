# Pump and float-switch control rules, modelled in Dafny

This project models the control core of the SII_Teltonika scripts. Each script decides from float switches whether a
well pump or motor must run. There are three variants:

- **Well-to-tank controller** (`SII_Teltonika1.py`, module `WellTank`). One iteration of `control_pozo` is the
  specification function `WellTank.Next`. It reads the tank's low and high float switches over Modbus. It decides an
  action (`puede_encender` and the switch table). It writes coil 0 of the well station when an action is decided and
  differs from `ultimo_estado_bomba`, the value of the last successful command write. The fail-safe OFF is written but never
  remembered (see Findings). A failing cycle writes a fail-safe OFF. The third failure in a row resets the serial port, which
  starts a restart delay of `RETARDO_REARRANQUE` seconds. The class `WellTank.WellController` holds
  `ultimo_estado_bomba`, `errores_consecutivos` and the global `ultimo_rearranque`. Its `Step` method is proved to
  implement `Next`.
- **Anti-short-cycle motor control** (`SII_Teltonika1DO.py`, module `MotorRestart`). It holds `motor_DO`,
  `en_rearranque` and `fin_rearranque`. `encender_motor`, `apagar_motor` and one pass of the main loop are the
  functions `Encender`, `Apagar` and `Loop`. The class `MotorControl` holds the same globals, and its methods are
  proved to implement those functions. The state invariant is "a restart delay implies the output is off", and an
  automatic stop keeps the motor off for `TIEMPO_REARRANQUE` seconds.
- **Test-mode loop** (`control_pozo_prueba.py`, module `PumpTest`). It is a stateless rule from `(bajo, alto)` to the
  relay value "1", the value "0" or no command, with a final "0" on interrupt. `RuleComparison` relates this rule to
  the well controller's switch table.

The serial bus, the GPIO calls and the clock are not modelled. Each Modbus transaction becomes an outcome
(`WellTank.Cycle`: port unavailable, read error, or the two bits plus whether the coil write succeeded). Wall-clock
time is an integer number of seconds, `now`, passed in per cycle. In `control_pozo` each cycle reads the clock at most
once: in `puede_encender` on the read path, or in `reiniciar_conexion` on the reset path. So one `now` per cycle is
exact. Sensor and digital-input values of the other two scripts are parameters too.

The constants are those of the code: `MAX_ERRORES = 3`, `RETARDO_REARRANQUE = 30` seconds and
`TIEMPO_REARRANQUE = 300` seconds. The comments beside `RETARDO_REARRANQUE` speak of five minutes, but the code's value
of 30 seconds is modelled. So the remaining-minutes message reports 1 whenever the clock has not gone back since the
reset; a clock set back by 30 seconds or more makes it report more.

## Model

| member | source | states |
|---|---|---|
| `WellTank.PuedeEncender` | SII_Teltonika1.py:35-47 | true iff no port reset has happened yet or at least `RETARDO_REARRANQUE` seconds have passed since the last one |
| `WellTank.RestanteMinutos` | SII_Teltonika1.py:41-44 | while the restart delay is active, the minutes reported are at least 1 (exactly 1 when the clock has not gone back), and `m` minutes cover the remaining seconds while `m - 1` do not |
| `WellTank.Decide` | SII_Teltonika1.py:133-152 | ON exactly for an empty tank with restart allowed; no action exactly for low-only; OFF whenever the high switch is set (full or switch fault), and OFF on an empty tank during the delay |
| `WellTank.Fail` | SII_Teltonika1.py:164-172 | the `except` branch appends the fail-safe OFF to the writes already issued, keeps the remembered pump state and the counter bound, zeroes the counter exactly at the third failure, and moves the reconnect time only then, to the current time |
| `WellTank.Next` | SII_Teltonika1.py:112-174 | one loop pass keeps the counter bound, issues at most two writes (a command and the fail-safe OFF), changes the remembered pump state only by a successful write of that value, and answers a port or read failure with just the fail-safe OFF |
| `WellTank.Run` | SII_Teltonika1.py:112-174 | repeated loop passes issue at most two coil writes per cycle |
| `WellTank.DelayBlocksStart` | SII_Teltonika1.py:35-47 | within `RETARDO_REARRANQUE` seconds of a port reset, no cycle writes pump ON, whatever its outcome |
| `WellTank.EmptyTankStartsPump` | SII_Teltonika1.py:136-159 | with no reset yet or the delay elapsed, an empty tank not already remembered ON yields exactly one ON write and remembers ON |
| `WellTank.WriteSuppression` | SII_Teltonika1.py:154-160 | a read cycle writes the coil iff the action is decided and differs from the remembered state; the write carries the action; a successful write makes the remembered state the action |
| `WellTank.ReadResetsCounter` | SII_Teltonika1.py:123-165 | a successful read leaves the counter at 0, or at exactly 1 when the ensuing coil write fails; the reconnect time is untouched |
| `WellTank.FailurePath` | SII_Teltonika1.py:164-172 | every failing cycle ends with the fail-safe OFF write, keeps the remembered pump state, counts one more failure, and at the third resets the counter and records the reset time |
| `WellTank.NextValid` | SII_Teltonika1.py:164-172 | the failure counter stays below `MAX_ERRORES` across a cycle |
| `WellTank.OnlyResetStartsDelay` | SII_Teltonika1.py:170-172 | the reconnect time changes only on the third consecutive failure, and then becomes the current time |
| `WellTank.FirstActionWritten` | SII_Teltonika1.py:107-159 | whenever nothing is remembered (start-up, also after failing or low-only cycles or a port reset), a cycle that decides an action, with the restart delay as it stands, writes it, and remembers it if the write succeeds |
| `WellTank.NothingRememberedUntilWritten` | SII_Teltonika1.py:107-159 | from a state with nothing remembered, whatever is remembered after any run was written successfully by one of its cycles: a read cycle with an accepted write whose only write is that command |
| `WellTank.RememberedWasWritten` | SII_Teltonika1.py:154-172 | once a pump state is remembered it stays set over any run, and a different later value was written successfully by one of the run's cycles |
| `WellTank.WrittenAtShift` | SII_Teltonika1.py:154-159 | a successful command write in the rest of a run is one in the whole run, one cycle later |
| `WellTank.RunValid` | SII_Teltonika1.py:112-174 | the counter bound holds after any number of cycles |
| `WellTank.SteadyActionWritesAtMostOnce` | SII_Teltonika1.py:154-159 | error-free cycles with one reading and one decided action write at most once, and not at all if that action is already remembered |
| `WellTank.ConstantReadingWritesAtMostOnce` | SII_Teltonika1.py:133-159 | a constant reading over error-free cycles writes the coil at most once (unless an empty-tank reading can see the restart delay end) |
| `WellTank.FailSafeForgottenAsWritten` | SII_Teltonika1.py:154-168 | as written: ON, then a read error, then an empty tank writes only ON then fail-safe OFF, and the remembered ON no longer matches the last write |
| `WellTank.FailedWriteForgottenAsWritten` | SII_Teltonika1.py:154-168 | as written: with ON remembered, a failed full-tank OFF write issues the command and the fail-safe OFF, keeps ON remembered, and the next empty-tank read writes nothing |
| `WellTank.NextFixed` | SII_Teltonika1.py:112-174 | corrected cycle: the same writes, counter and reconnect time as the script's cycle, but any cycle ending with the fail-safe OFF (port or read failure, or a failed command write) leaves nothing remembered; every other cycle is exactly the script's |
| `WellTank.NextFixedRemembers` | SII_Teltonika1.py:154-168 | corrected cycle: one cycle keeps the remembered pump state equal to the last coil write issued, both ways: a remembered value is the last write, and a last command write is remembered |
| `WellTank.RunFixedRemembers` | SII_Teltonika1.py:154-168 | corrected cycle: after any run the remembered pump state equals the last coil write issued, both ways: a remembered value is the last write, and a last command write is remembered (a last fail-safe OFF leaves nothing remembered) |
| `WellTank.FixedRestartsAfterFailSafe` | SII_Teltonika1.py:164-168 | corrected cycle: after a failing cycle, an empty tank with the delay over writes ON |
| `WellTank.WellController.constructor` | SII_Teltonika1.py:107-108 | start-up state: nothing remembered, no failures, no reset yet |
| `WellTank.WellController.ApagarBombaSeguridad` | SII_Teltonika1.py:92-97 | issues the fail-safe OFF write and changes no controller state |
| `WellTank.WellController.ReiniciarConexion` | SII_Teltonika1.py:72-89 | the reconnect time becomes the current time; nothing else changes |
| `WellTank.WellController.Step` | SII_Teltonika1.py:112-174 | one loop pass updates the three fields and issues the writes exactly as `Next` says, keeping the counter below `MAX_ERRORES` |
| `MotorRestart.Encender` | SII_Teltonika1DO.py:50-54 | idempotent: the output ends on; an output already on is left as is; the restart fields are untouched |
| `MotorRestart.Apagar` | SII_Teltonika1DO.py:57-65 | a running motor is switched off with the delay armed to end `TIEMPO_REARRANQUE` seconds from now; a stopped motor is left as is |
| `MotorRestart.Loop` | SII_Teltonika1DO.py:72-90 | keeps the invariant; changes nothing while the delay runs; starts only with the switch high; stops only with the switch low, arming the delay; the delay is cleared exactly when it expires |
| `MotorRestart.HighSwitchStarts` | SII_Teltonika1DO.py:79-87 | with no delay or an expired one, a high switch leaves the motor on and the delay cleared |
| `MotorRestart.LowSwitchStops` | SII_Teltonika1DO.py:84-90 | a running motor with a low switch is stopped and the delay ends `TIEMPO_REARRANQUE` seconds later |
| `MotorRestart.RunKeepsInv` | SII_Teltonika1DO.py:72-90 | "a delay implies the output is off" holds after any number of passes |
| `MotorRestart.DelayFreezesState` | SII_Teltonika1DO.py:79-90 | passes before the delay's end change nothing |
| `MotorRestart.NoRestartBeforeDelay` | SII_Teltonika1DO.py:57-90 | after an automatic stop the motor stays off in every pass earlier than `TIEMPO_REARRANQUE` seconds later |
| `MotorRestart.AlertaManual` | SII_Teltonika1DO.py:93-94 | the manual-mode alert: the input shows the motor running while the output is off |
| `MotorRestart.MotorControl.constructor` | SII_Teltonika1DO.py:11-14 | start-up globals: output and input off, no delay |
| `MotorRestart.MotorControl.DoMotor` | SII_Teltonika1DO.py:39-46 | the output takes the given value |
| `MotorRestart.MotorControl.EncenderMotor` | SII_Teltonika1DO.py:50-54 | the globals change as `Encender` says |
| `MotorRestart.MotorControl.ApagarMotor` | SII_Teltonika1DO.py:57-65 | the globals change as `Apagar` says |
| `MotorRestart.MotorControl.LoopStep` | SII_Teltonika1DO.py:72-94 | one pass updates the globals as `Loop` says, keeps the invariant, and raises the manual alert exactly when DI is on and DO is off |
| `PumpTest.CycleCommand` | control_pozo_prueba.py:40-46 | "1" exactly on an empty tank; "0" exactly when the high switch is set (including low open, high closed); nothing exactly for low-only |
| `PumpTest.Commands` | control_pozo_prueba.py:36-48 | the loop sends at most one relay value per cycle |
| `PumpTest.Session` | control_pozo_prueba.py:50-52 | an interrupted session is the loop's commands followed by exactly one "0" |
| `PumpTest.ReportsOn` | control_pozo_prueba.py:18 | `set_bomba` reports the pump on exactly for the value "1" |
| `PumpTest.CommandsAppend` | control_pozo_prueba.py:36-48 | cycles carry no state: the commands of two stretches of readings are those of each stretch in turn |
| `PumpTest.CommandsAreRelayValues` | control_pozo_prueba.py:36-48 | the loop only ever sends "0" or "1" |
| `PumpTest.EmptyTankRepeatsOn` | control_pozo_prueba.py:36-48 | no suppression: `n` empty-tank cycles send "1" `n` times |
| `PumpTest.HighSwitchStops` | control_pozo_prueba.py:40-46 | a high-switch cycle contributes exactly one "0" to the sequence sent; a low-only cycle contributes nothing |
| `PumpTest.SessionEndsOff` | control_pozo_prueba.py:50-52 | an interrupted session sends one command more than its cycles did, the last being "0", reported OFF, and only "0"/"1" |
| `RuleComparison.TestRuleMatchesWellRule` | control_pozo_prueba.py:40-46 | with restart allowed, the test rule sends the well controller's decision as a relay value for every switch pair |
| `RuleComparison.RulesDifferDuringDelay` | SII_Teltonika1.py:133-152 | for every switch pair and restart permission, the two rules differ exactly on an empty tank during the restart delay, where the test rule sends "1" and the well controller decides OFF |

## Findings

| source | as written | input that shows it | evidently intended | confidence | as-written member | corrected member |
|---|---|---|---|---|---|---|
| SII_Teltonika1.py:154-168 | the fail-safe OFF of a failing cycle leaves `ultimo_estado_bomba` at its old value; this holds for a port or read failure and also for a failed command write | pump written ON at t=0, read error at t=12, empty tank read at t=13 (likewise: ON remembered, a full-tank OFF write that fails, then an empty tank): the last write is the fail-safe OFF, but the remembered ON suppresses the new ON, so the pump stays off while the tank is empty (until the tank fills or a third failure resets the port) | after a fail-safe OFF the controller should not believe the pump is still on, so the next decided action is written | medium, not executed | `WellTank.FailSafeForgottenAsWritten`, `WellTank.FailedWriteForgottenAsWritten` | `WellTank.NextFixed`, `WellTank.RunFixedRemembers` |

The corrected cycle is `WellTank.NextFixed`: a cycle that ends with the fail-safe OFF also forgets the remembered pump
state. `WellTank.FixedRestartsAfterFailSafe` shows that it restarts the pump. `WellTank.WellController.Step` and
`WellTank.Next` keep the behaviour as written, because they model the deployed script.

## Left out

- The Modbus transport: client construction, `connect`/`close`, the port-reset sleep, and the read and write calls.
  They are replaced by the outcome values of `WellTank.Cycle`. A fail-safe write that fails is not distinguished from
  one that succeeds, because the script ignores its result.
- The `ubus` subprocess in `set_bomba` and the GPIO calls. They are out of scope as I/O. `PumpTest.ReportsOn` keeps
  only the ON/OFF report. A failing `ubus` call is caught and printed, so it does not change the command sequence.
- Logging, printing and the `time.sleep` cadences.
- Floating-point time. Time is whole seconds. In `SII_Teltonika1DO.py`, `apagar_motor` reads the clock again after the
  loop's `ahora`. The model uses the same `now` for both readings, so `fin_rearranque` is the loop time plus 300
  seconds.
- The simulators `motor_DI_simulado` and `flotador_simulado`, and the `leer_flotadores` stub of the test script, which
  uses an undefined name. Sensor values are parameters.
- `SII_Presion_Modbus.py`. It is a fixed sequence of register reads that only prints the results. It has no decoding
  or control logic, so no register decoding is modelled.
- Interrupts other than the one between cycles of the test loop. An interrupt in the middle of a cycle is not modelled. In
  `SII_Teltonika1.py` the `KeyboardInterrupt` handler only logs, and `SII_Teltonika1DO.py` has no handler at all.
- Exception messages. The failure kinds are the constructors of `WellTank.Cycle`.
