/**
 * The well-to-tank pump controller (SII_Teltonika1.py).
 *
 * Every cycle the controller reads the two float switches of the tank over
 * Modbus, decides whether the well pump must run, and writes coil 0 of the
 * well station.  A failing cycle writes a fail-safe OFF; three failures in a
 * row reset the serial port, which starts a restart delay.
 *
 * The pure specification (`Next`) is given first; the class
 * `WellController` is the loop body of `control_pozo` and is proved to
 * implement it.
 */
module WellTank {
  import opened Options

  /** Consecutive failures that trigger a port reset. */
  const MaxErrores: nat := 3
  /** Seconds after a port reset during which the pump may not start. */
  const RetardoRearranque: int := 30

  /** The outcome of the Modbus traffic of one cycle. */
  datatype Cycle =
    | PortUnavailable
      // `conectar` failed
    | ReadError
      // the discrete-input read of the tank returned an error
    | ReadOk(bajo: bool, alto: bool, writeOk: bool)
      // the two switch bits; `writeOk` is the outcome of the pump coil
      // write, should the cycle issue one

  predicate IsFailure(c: Cycle) {
    c.PortUnavailable? || c.ReadError?
  }

  /** A write to coil 0 of the well station. */
  datatype Write =
    | Command(on: bool)   // a decided pump command
    | FailSafeOff         // the OFF written by `apagar_bomba_seguridad`

  /** The loop's local variables and the module-level reconnect time. */
  datatype WellState = WellState(
    ultimoEstado: Option<bool>,       // last pump value written successfully
    errores: nat,                     // consecutive failed cycles
    ultimoRearranque: Option<int>)    // time of the last port reset

  const Init := WellState(None, 0, None)

  ghost predicate Valid(s: WellState) {
    s.errores < MaxErrores
  }

  /** `puede_encender`: no reset yet, or the restart delay has elapsed. */
  predicate PuedeEncender(now: int, ultimoRearranque: Option<int>)
    ensures PuedeEncender(now, ultimoRearranque) <==>
              ultimoRearranque.None? || now - ultimoRearranque.value >= RetardoRearranque
  {
    match ultimoRearranque
    case None => true
    case Some(t) => !(now - t < RetardoRearranque)
  }

  /** The whole minutes `puede_encender` reports while the delay is active. */
  function RestanteMinutos(now: int, t: int): (m: int)
    requires now - t < RetardoRearranque
    ensures m >= 1
    ensures now >= t ==> m == 1
    ensures (m - 1) * 60 <= RetardoRearranque - (now - t) < m * 60
  {
    (RetardoRearranque - (now - t)) / 60 + 1
  }

  /** The switch table of one cycle: `Some(b)` commands the pump, `None` leaves it. */
  function Decide(bajo: bool, alto: bool, puede: bool): (accion: Option<bool>)
    ensures accion == Some(true) <==> !bajo && !alto && puede
    ensures accion == None <==> bajo && !alto
    ensures alto ==> accion == Some(false)
    ensures !bajo && !alto && !puede ==> accion == Some(false)
  {
    if !bajo && !alto then Some(puede)        // tank empty
    else if bajo && alto then Some(false)     // tank full
    else if !bajo && alto then Some(false)    // switch fault
    else None
  }

  /** The `except` branch: count the failure, write the fail-safe OFF, maybe reset the port. */
  function Fail(s: WellState, issued: seq<Write>, now: int): (r: (WellState, seq<Write>))
    ensures r.1 == issued + [FailSafeOff]
    ensures r.0.ultimoEstado == s.ultimoEstado
    ensures Valid(s) ==> Valid(r.0)
    ensures r.0.errores != 0 <==> s.errores + 1 < MaxErrores
    ensures r.0.ultimoRearranque != s.ultimoRearranque ==>
              s.errores + 1 >= MaxErrores && r.0.ultimoRearranque == Some(now)
  {
    var e := s.errores + 1;
    if e >= MaxErrores then
      (s.(errores := 0, ultimoRearranque := Some(now)), issued + [FailSafeOff])
    else
      (s.(errores := e), issued + [FailSafeOff])
  }

  /** One iteration of the `control_pozo` loop: the new state and the coil writes issued. */
  function Next(s: WellState, c: Cycle, now: int): (r: (WellState, seq<Write>))
    ensures Valid(s) ==> Valid(r.0)
    ensures |r.1| <= 2
    ensures r.0.ultimoEstado != s.ultimoEstado ==>
              c.ReadOk? && c.writeOk && r.0.ultimoEstado.Some? && r.1 == [Command(r.0.ultimoEstado.value)]
    ensures IsFailure(c) ==> r.1 == [FailSafeOff]
  {
    match c
    case PortUnavailable => Fail(s, [], now)
    case ReadError => Fail(s, [], now)
    case ReadOk(bajo, alto, writeOk) =>
      var s1 := s.(errores := 0);
      var accion := Decide(bajo, alto, PuedeEncender(now, s.ultimoRearranque));
      if accion.Some? && accion != s.ultimoEstado then
        if writeOk then (s1.(ultimoEstado := accion), [Command(accion.value)])
        else Fail(s1, [Command(accion.value)], now)
      else
        (s1, [])
  }

  /** The loop run over a sequence of (outcome, time) cycles; all writes in order. */
  function Run(s: WellState, cycles: seq<(Cycle, int)>): (r: (WellState, seq<Write>))
    ensures |r.1| <= 2 * |cycles|
    decreases |cycles|
  {
    if cycles == [] then (s, [])
    else
      var step := Next(s, cycles[0].0, cycles[0].1);
      var rest := Run(step.0, cycles[1..]);
      (rest.0, step.1 + rest.1)
  }

  // ---------------------------------------------------------------------
  // Properties of one cycle
  // ---------------------------------------------------------------------

  /** The pump coil is written only for a decided action that differs from the remembered one. */
  lemma WriteSuppression(s: WellState, bajo: bool, alto: bool, writeOk: bool, now: int)
    ensures var accion := Decide(bajo, alto, PuedeEncender(now, s.ultimoRearranque));
            var r := Next(s, ReadOk(bajo, alto, writeOk), now);
            (r.1 != [] <==> accion.Some? && accion != s.ultimoEstado)
            && (r.1 != [] ==> r.1[0] == Command(accion.value))
            && (writeOk ==> r.0.ultimoEstado == (if accion.Some? then accion else s.ultimoEstado))
  {
  }

  /** A successful read zeroes the counter before the write, so a failed write leaves it at 1. */
  lemma ReadResetsCounter(s: WellState, bajo: bool, alto: bool, writeOk: bool, now: int)
    ensures var r := Next(s, ReadOk(bajo, alto, writeOk), now);
            r.0.errores == (if r.1 != [] && !writeOk then 1 else 0)
            && r.0.ultimoRearranque == s.ultimoRearranque
  {
  }

  /** Every failing cycle ends with the fail-safe OFF, counts one failure and keeps the remembered pump state. */
  lemma FailurePath(s: WellState, c: Cycle, now: int)
    requires IsFailure(c) || (c.ReadOk? && !c.writeOk && Next(s, c, now).1 != [])
    requires Valid(s)
    ensures var r := Next(s, c, now);
            |r.1| >= 1 && r.1[|r.1| - 1] == FailSafeOff
            && r.0.ultimoEstado == s.ultimoEstado
            && (IsFailure(c) && s.errores + 1 < MaxErrores ==> r.0.errores == s.errores + 1)
            && (IsFailure(c) && s.errores + 1 >= MaxErrores ==> r.0.errores == 0 && r.0.ultimoRearranque == Some(now))
  {
  }

  /** Between cycles the failure counter stays below `MaxErrores`. */
  lemma NextValid(s: WellState, c: Cycle, now: int)
    requires Valid(s)
    ensures Valid(Next(s, c, now).0)
  {
  }

  /** Only a port reset moves the reconnect time, and it moves it to the current time. */
  lemma OnlyResetStartsDelay(s: WellState, c: Cycle, now: int)
    requires Valid(s)
    ensures var r := Next(s, c, now);
            r.0.ultimoRearranque != s.ultimoRearranque ==>
              IsFailure(c) && s.errores == MaxErrores - 1 && r.0.ultimoRearranque == Some(now)
  {
  }

  /** Within `RetardoRearranque` seconds of a port reset no cycle writes pump ON. */
  lemma DelayBlocksStart(s: WellState, c: Cycle, t: int, now: int)
    requires s.ultimoRearranque == Some(t) && now - t < RetardoRearranque
    ensures Command(true) !in Next(s, c, now).1
  {
  }

  /** Once the delay is over, an empty tank with the pump not remembered ON issues exactly one ON write. */
  lemma EmptyTankStartsPump(s: WellState, now: int)
    requires PuedeEncender(now, s.ultimoRearranque) && s.ultimoEstado != Some(true)
    ensures Next(s, ReadOk(false, false, true), now) == (WellState(Some(true), 0, s.ultimoRearranque), [Command(true)])
  {
  }

  /** While nothing is remembered (start-up), the first cycle that decides an action writes it. */
  lemma FirstActionWritten(s: WellState, bajo: bool, alto: bool, writeOk: bool, now: int)
    requires s.ultimoEstado.None?
    requires !(bajo && !alto)
    ensures var accion := Decide(bajo, alto, PuedeEncender(now, s.ultimoRearranque));
            var r := Next(s, ReadOk(bajo, alto, writeOk), now);
            |r.1| >= 1 && r.1[0] == Command(accion.value)
            && (writeOk ==> r.0.ultimoEstado == accion)
  {
  }

  // ---------------------------------------------------------------------
  // Properties of runs
  // ---------------------------------------------------------------------

  /** The counter bound holds after any number of cycles. */
  lemma {:induction false} RunValid(s: WellState, cycles: seq<(Cycle, int)>)
    requires Valid(s)
    ensures Valid(Run(s, cycles).0)
    decreases |cycles|
  {
    if cycles != [] {
      NextValid(s, cycles[0].0, cycles[0].1);
      RunValid(Next(s, cycles[0].0, cycles[0].1).0, cycles[1..]);
    }
  }

  /** Cycle `i` of the run from `s` is a successful command write of `v`. */
  ghost predicate WrittenAt(s: WellState, cycles: seq<(Cycle, int)>, i: int, v: bool) {
    0 <= i < |cycles| && cycles[i].0.ReadOk? && cycles[i].0.writeOk
    && Next(Run(s, cycles[..i]).0, cycles[i].0, cycles[i].1).1 == [Command(v)]
  }

  /** A successful write in the rest of a run is one in the whole run, one cycle later. */
  lemma WrittenAtShift(s: WellState, cycles: seq<(Cycle, int)>, j: int, v: bool)
    requires cycles != []
    requires WrittenAt(Next(s, cycles[0].0, cycles[0].1).0, cycles[1..], j, v)
    ensures WrittenAt(s, cycles, j + 1, v)
  {
    assert cycles[..j + 1][1..] == cycles[1..][..j];
    assert cycles[..j + 1][0] == cycles[0];
  }

  /**
   * From a state with nothing remembered (as at start-up), the remembered
   * pump state stays `None` until a command write succeeds: whatever is
   * remembered after a run was written successfully by one of its cycles.
   */
  lemma {:induction false} NothingRememberedUntilWritten(s: WellState, cycles: seq<(Cycle, int)>)
    requires s.ultimoEstado.None?
    ensures var r := Run(s, cycles);
            r.0.ultimoEstado.Some? ==> exists i :: WrittenAt(s, cycles, i, r.0.ultimoEstado.value)
    decreases |cycles|
  {
    if cycles != [] {
      var step := Next(s, cycles[0].0, cycles[0].1);
      var v := Run(s, cycles).0.ultimoEstado;
      assert Run(s, cycles).0 == Run(step.0, cycles[1..]).0;
      if v.Some? {
        if step.0.ultimoEstado.None? {
          NothingRememberedUntilWritten(step.0, cycles[1..]);
          var j :| WrittenAt(step.0, cycles[1..], j, v.value);
          WrittenAtShift(s, cycles, j, v.value);
        } else {
          RememberedWasWritten(step.0, cycles[1..]);
          if v == step.0.ultimoEstado {
            assert cycles[..0] == [];
            assert WrittenAt(s, cycles, 0, v.value);
          } else {
            var j :| WrittenAt(step.0, cycles[1..], j, v.value);
            WrittenAtShift(s, cycles, j, v.value);
          }
        }
      }
    }
  }

  /** Once a value is remembered it stays set; a different value later was written successfully in between. */
  lemma {:induction false} RememberedWasWritten(s: WellState, cycles: seq<(Cycle, int)>)
    requires s.ultimoEstado.Some?
    ensures var r := Run(s, cycles);
            r.0.ultimoEstado.Some?
            && (r.0.ultimoEstado == s.ultimoEstado || exists i :: WrittenAt(s, cycles, i, r.0.ultimoEstado.value))
    decreases |cycles|
  {
    if cycles != [] {
      var step := Next(s, cycles[0].0, cycles[0].1);
      var v := Run(s, cycles).0.ultimoEstado;
      assert Run(s, cycles).0 == Run(step.0, cycles[1..]).0;
      RememberedWasWritten(step.0, cycles[1..]);
      if v != s.ultimoEstado {
        if v == step.0.ultimoEstado {
          assert cycles[..0] == [];
          assert WrittenAt(s, cycles, 0, v.value);
        } else {
          var j :| WrittenAt(step.0, cycles[1..], j, v.value);
          WrittenAtShift(s, cycles, j, v.value);
        }
      }
    }
  }

  /** Error-free cycles with the same reading that keep deciding the same action write at most once. */
  lemma {:induction false} SteadyActionWritesAtMostOnce(
    s: WellState, bajo: bool, alto: bool, accion: Option<bool>, cycles: seq<(Cycle, int)>)
    requires forall i :: 0 <= i < |cycles| ==> cycles[i].0 == ReadOk(bajo, alto, true)
    requires forall i :: 0 <= i < |cycles| ==>
               Decide(bajo, alto, PuedeEncender(cycles[i].1, s.ultimoRearranque)) == accion
    ensures |Run(s, cycles).1| <= (if accion.Some? && accion != s.ultimoEstado then 1 else 0)
    decreases |cycles|
  {
    if cycles != [] {
      var step := Next(s, cycles[0].0, cycles[0].1);
      assert step.0.ultimoRearranque == s.ultimoRearranque;
      assert step.0.ultimoEstado == (if accion.Some? then accion else s.ultimoEstado);
      SteadyActionWritesAtMostOnce(step.0, bajo, alto, accion, cycles[1..]);
    }
  }

  /** A constant reading over error-free cycles produces at most one coil write, unless the restart delay can end meanwhile. */
  lemma ConstantReadingWritesAtMostOnce(s: WellState, bajo: bool, alto: bool, cycles: seq<(Cycle, int)>)
    requires forall i :: 0 <= i < |cycles| ==> cycles[i].0 == ReadOk(bajo, alto, true)
    requires bajo || alto || s.ultimoRearranque.None?
    ensures |Run(s, cycles).1| <= 1
  {
    SteadyActionWritesAtMostOnce(s, bajo, alto, Decide(bajo, alto, true), cycles);
  }

  // ---------------------------------------------------------------------
  // Finding: the fail-safe OFF is not remembered
  // ---------------------------------------------------------------------

  /**
   * The remembered pump state agrees with the last coil write issued: a
   * remembered value is the last write, and a last command write is remembered.
   */
  predicate Remembers(s: WellState, writes: seq<Write>) {
    (s.ultimoEstado.Some? ==> |writes| > 0 && writes[|writes| - 1] == Command(s.ultimoEstado.value))
    && (|writes| > 0 && writes[|writes| - 1].Command? ==> s.ultimoEstado == Some(writes[|writes| - 1].on))
  }

  /**
   * As written: pump started, one read error, tank still empty.  The
   * fail-safe OFF is the last write, yet the controller still remembers ON and
   * the third cycle writes nothing, so the pump stays off.
   */
  lemma FailSafeForgottenAsWritten()
    ensures var cycles := [(ReadOk(false, false, true), 0), (ReadError, 12), (ReadOk(false, false, true), 13)];
            Run(Init, cycles).1 == [Command(true), FailSafeOff]
            && !Remembers(Run(Init, cycles[..2]).0, Run(Init, cycles[..2]).1)
  {
    var cycles: seq<(Cycle, int)> := [(ReadOk(false, false, true), 0), (ReadError, 12), (ReadOk(false, false, true), 13)];
    var s1 := WellState(Some(true), 0, None);
    var s2 := WellState(Some(true), 1, None);
    var last: seq<(Cycle, int)> := [(ReadOk(false, false, true), 13)];
    var mid: seq<(Cycle, int)> := [(ReadError, 12)];
    assert Next(Init, ReadOk(false, false, true), 0) == (s1, [Command(true)]);
    assert [] + [FailSafeOff] == [FailSafeOff];
    assert Next(s1, ReadError, 12) == (s2, [FailSafeOff]);
    assert Next(s2, ReadOk(false, false, true), 13) == (s1, []);
    assert Run(s1, []) == (s1, []);
    assert Run(s2, []) == (s2, []);
    assert Run(s2, last) == (s1, []) by {
      assert last[1..] == [];
      assert last[0].0 == ReadOk(false, false, true) && last[0].1 == 13;
      var empty: seq<Write> := [];
      assert empty + empty == empty;
    }
    assert Run(s1, mid + last) == (s1, [FailSafeOff]) by {
      assert (mid + last)[1..] == last;
      assert (mid + last)[0].0 == ReadError && (mid + last)[0].1 == 12;
      assert [FailSafeOff] + [] == [FailSafeOff];
    }
    assert Run(s1, mid) == (s2, [FailSafeOff]) by { assert mid[1..] == []; }
    assert cycles[1..] == mid + last && cycles[..2][1..] == mid;
  }

  /**
   * As written, by the write path: with ON remembered, a full-tank OFF write
   * that fails leaves ON remembered after the fail-safe OFF, and the next
   * empty-tank read writes nothing.
   */
  lemma FailedWriteForgottenAsWritten()
    ensures var s1 := WellState(Some(true), 1, None);
            Next(WellState(Some(true), 0, None), ReadOk(true, true, false), 0) == (s1, [Command(false), FailSafeOff])
            && Next(s1, ReadOk(false, false, true), 12).1 == []
  {
    var s0 := WellState(Some(true), 0, None);
    assert Decide(true, true, PuedeEncender(0, None)) == Some(false);
    assert [Command(false)] + [FailSafeOff] == [Command(false), FailSafeOff];
    assert Fail(s0, [Command(false)], 0) == (WellState(Some(true), 1, None), [Command(false), FailSafeOff]);
  }

  /** Corrected cycle: a failure also forgets the remembered pump state. */
  function NextFixed(s: WellState, c: Cycle, now: int): (r: (WellState, seq<Write>))
    ensures r.1 == Next(s, c, now).1
    ensures r.0.errores == Next(s, c, now).0.errores
    ensures r.0.ultimoRearranque == Next(s, c, now).0.ultimoRearranque
    ensures IsFailure(c) ==> r.0.ultimoEstado.None?
    ensures |r.1| > 0 && r.1[|r.1| - 1] == FailSafeOff ==> r.0.ultimoEstado.None?
    ensures !(|r.1| > 0 && r.1[|r.1| - 1] == FailSafeOff) ==> r == Next(s, c, now)
  {
    var r := Next(s, c, now);
    if |r.1| > 0 && r.1[|r.1| - 1] == FailSafeOff then (r.0.(ultimoEstado := None), r.1) else r
  }

  function RunFixed(s: WellState, cycles: seq<(Cycle, int)>): (r: (WellState, seq<Write>))
    decreases |cycles|
  {
    if cycles == [] then (s, [])
    else
      var step := NextFixed(s, cycles[0].0, cycles[0].1);
      var rest := RunFixed(step.0, cycles[1..]);
      (rest.0, step.1 + rest.1)
  }

  /** Corrected: one cycle keeps the remembered pump state equal to the last coil write. */
  lemma NextFixedRemembers(s: WellState, before: seq<Write>, c: Cycle, now: int)
    requires Remembers(s, before)
    ensures Remembers(NextFixed(s, c, now).0, before + NextFixed(s, c, now).1)
  {
    var r := NextFixed(s, c, now);
    if r.0.ultimoEstado.Some? && r.1 != [] {
      assert r.1[|r.1| - 1] != FailSafeOff;
      assert (before + r.1)[|before + r.1| - 1] == r.1[|r.1| - 1];
    } else if r.1 == [] {
      assert before + r.1 == before;
    }
  }

  /** Corrected: after any run the remembered pump state is the last coil write. */
  lemma {:induction false} RunFixedRemembers(s: WellState, before: seq<Write>, cycles: seq<(Cycle, int)>)
    requires Remembers(s, before)
    ensures Remembers(RunFixed(s, cycles).0, before + RunFixed(s, cycles).1)
    decreases |cycles|
  {
    if cycles != [] {
      var step := NextFixed(s, cycles[0].0, cycles[0].1);
      NextFixedRemembers(s, before, cycles[0].0, cycles[0].1);
      RunFixedRemembers(step.0, before + step.1, cycles[1..]);
      assert before + step.1 + RunFixed(step.0, cycles[1..]).1 == before + RunFixed(s, cycles).1;
    }
  }

  /** Corrected: after a fail-safe OFF, an empty tank with the delay over restarts the pump. */
  lemma FixedRestartsAfterFailSafe(s: WellState, c: Cycle, t1: int, t2: int)
    requires Valid(s)
    requires IsFailure(c)
    requires PuedeEncender(t2, NextFixed(s, c, t1).0.ultimoRearranque)
    ensures NextFixed(NextFixed(s, c, t1).0, ReadOk(false, false, true), t2).1 == [Command(true)]
  {
  }

  // ---------------------------------------------------------------------
  // The loop body as state updated in place
  // ---------------------------------------------------------------------

  class WellController {
    var ultimoEstadoBomba: Option<bool>
    var erroresConsecutivos: nat
    /** The module-level `ultimo_rearranque` of the script. */
    var ultimoRearranque: Option<int>

    function State(): WellState
      reads this
    {
      WellState(ultimoEstadoBomba, erroresConsecutivos, ultimoRearranque)
    }

    constructor ()
      ensures State() == Init
    {
      ultimoEstadoBomba := None;
      erroresConsecutivos := 0;
      ultimoRearranque := None;
    }

    /** `apagar_bomba_seguridad`: writes coil 0 OFF, never raises, changes nothing here. */
    method ApagarBombaSeguridad() returns (w: Write)
      ensures w == FailSafeOff
    {
      w := FailSafeOff;
    }

    /** The state effect of `reiniciar_conexion`: the restart delay starts now. */
    method ReiniciarConexion(now: int)
      modifies this`ultimoRearranque
      ensures ultimoRearranque == Some(now)
    {
      ultimoRearranque := Some(now);
    }

    /** One pass of the `while True` body of `control_pozo`. */
    method Step(c: Cycle, now: int) returns (writes: seq<Write>)
      requires Valid(State())
      modifies this
      ensures Valid(State())
      ensures (State(), writes) == Next(old(State()), c, now)
    {
      writes := [];
      var failed := false;
      if c.PortUnavailable? || c.ReadError? {
        failed := true;
      } else {
        erroresConsecutivos := 0;
        var accion := Decide(c.bajo, c.alto, PuedeEncender(now, ultimoRearranque));
        if accion.Some? && accion != ultimoEstadoBomba {
          writes := [Command(accion.value)];
          if c.writeOk {
            ultimoEstadoBomba := accion;
          } else {
            failed := true;
          }
        }
      }
      if failed {
        erroresConsecutivos := erroresConsecutivos + 1;
        var w := ApagarBombaSeguridad();
        writes := writes + [w];
        if erroresConsecutivos >= MaxErrores {
          ReiniciarConexion(now);
          erroresConsecutivos := 0;
        }
      }
    }
  }
}
