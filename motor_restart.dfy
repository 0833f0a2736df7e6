/**
 * The anti-short-cycle motor control (SII_Teltonika1DO.py).
 *
 * A single high-level float switch drives the motor's digital output.
 * Every automatic stop starts a restart delay of `TiempoRearranque` seconds,
 * during which the automatic control does nothing.  A digital input that
 * shows the motor running while the output is off raises a manual-mode
 * alert.
 */
module MotorRestart {

  /** Seconds the motor must stay off after an automatic stop. */
  const TiempoRearranque: int := 300

  /** The module-level `motor_DO`, `en_rearranque` and `fin_rearranque`. */
  datatype MotorState = MotorState(motorDO: bool, enRearranque: bool, finRearranque: int)

  const Init := MotorState(false, false, 0)

  /** While the restart delay is active the output is off. */
  predicate Inv(m: MotorState) {
    m.enRearranque ==> !m.motorDO
  }

  /** `encender_motor`: switches the output on unless it already is. */
  function Encender(m: MotorState): (r: MotorState)
    ensures r.motorDO
    ensures r.enRearranque == m.enRearranque && r.finRearranque == m.finRearranque
    ensures m.motorDO ==> r == m
  {
    if !m.motorDO then m.(motorDO := true) else m
  }

  /** `apagar_motor`: switches a running motor off and arms the restart delay. */
  function Apagar(m: MotorState, now: int): (r: MotorState)
    ensures !r.motorDO
    ensures m.motorDO ==> r.enRearranque && r.finRearranque == now + TiempoRearranque
    ensures !m.motorDO ==> r == m
    ensures Inv(r)
  {
    if m.motorDO then MotorState(false, true, now + TiempoRearranque) else m
  }

  /** Does the delay end at `now`? */
  predicate DelayExpires(m: MotorState, now: int) {
    m.enRearranque && now >= m.finRearranque
  }

  /** One pass of the main loop: delay expiry, then the automatic rule. */
  function Loop(m: MotorState, now: int, flotadorAlto: bool): (r: MotorState)
    ensures Inv(m) ==> Inv(r)
    ensures m.enRearranque && now < m.finRearranque ==> r == m
    ensures r.motorDO && !m.motorDO ==> flotadorAlto && !(m.enRearranque && now < m.finRearranque)
    ensures !r.motorDO && m.motorDO ==>
              !flotadorAlto && r.enRearranque && r.finRearranque == now + TiempoRearranque
    ensures r.enRearranque && !m.enRearranque ==> m.motorDO && !r.motorDO
    ensures !r.enRearranque && m.enRearranque ==> DelayExpires(m, now)
    ensures Inv(m) && DelayExpires(m, now) ==> !r.enRearranque
  {
    var m1 := if DelayExpires(m, now) then m.(enRearranque := false) else m;
    if !m1.enRearranque then
      if flotadorAlto && !m1.motorDO then Encender(m1)
      else if !flotadorAlto && m1.motorDO then Apagar(m1, now)
      else m1
    else m1
  }

  /** The manual-mode alert: the motor runs (DI) while the output is off (DO). */
  predicate AlertaManual(motorDI: bool, m: MotorState) {
    motorDI && !m.motorDO
  }

  /** The loop run over a sequence of (time, high switch) samples. */
  function RunLoop(m: MotorState, samples: seq<(int, bool)>): (r: MotorState)
    decreases |samples|
  {
    if samples == [] then m
    else RunLoop(Loop(m, samples[0].0, samples[0].1), samples[1..])
  }

  /** With the switch high, the motor runs once the delay is over (or none is active). */
  lemma HighSwitchStarts(m: MotorState, now: int)
    requires !m.enRearranque || now >= m.finRearranque
    ensures Loop(m, now, true).motorDO && !Loop(m, now, true).enRearranque
  {
  }

  /** With the switch low, a running motor stops and the delay is armed. */
  lemma LowSwitchStops(m: MotorState, now: int)
    requires Inv(m) && m.motorDO
    ensures Loop(m, now, false) == MotorState(false, true, now + TiempoRearranque)
  {
  }

  /** The invariant holds at start-up and after any number of passes. */
  lemma {:induction false} RunKeepsInv(m: MotorState, samples: seq<(int, bool)>)
    requires Inv(m)
    ensures Inv(RunLoop(m, samples))
    decreases |samples|
  {
    if samples != [] {
      RunKeepsInv(Loop(m, samples[0].0, samples[0].1), samples[1..]);
    }
  }

  /** While the delay runs, nothing changes, whatever the switch says. */
  lemma {:induction false} DelayFreezesState(m: MotorState, samples: seq<(int, bool)>)
    requires m.enRearranque
    requires forall i :: 0 <= i < |samples| ==> samples[i].0 < m.finRearranque
    ensures RunLoop(m, samples) == m
    decreases |samples|
  {
    if samples != [] {
      assert Loop(m, samples[0].0, samples[0].1) == m;
      DelayFreezesState(m, samples[1..]);
    }
  }

  /**
   * Anti-short-cycle: after an automatic stop at `stop`, the motor stays off
   * through every pass earlier than `stop + TiempoRearranque`.
   */
  lemma {:induction false} NoRestartBeforeDelay(m: MotorState, stop: int, samples: seq<(int, bool)>)
    requires Inv(m) && m.motorDO
    requires forall i :: 0 <= i < |samples| ==> samples[i].0 < stop + TiempoRearranque
    ensures !RunLoop(Loop(m, stop, false), samples).motorDO
  {
    DelayFreezesState(Loop(m, stop, false), samples);
  }

  // ---------------------------------------------------------------------
  // The script's globals updated in place
  // ---------------------------------------------------------------------

  class MotorControl {
    var motorDO: bool
    var motorDI: bool
    var enRearranque: bool
    var finRearranque: int

    function State(): MotorState
      reads this
    {
      MotorState(motorDO, enRearranque, finRearranque)
    }

    constructor ()
      ensures State() == Init && !motorDI && Inv(State())
    {
      motorDO := false;
      motorDI := false;
      enRearranque := false;
      finRearranque := 0;
    }

    /** `DO_motor`: sets the digital output. */
    method DoMotor(estado: bool)
      modifies this`motorDO
      ensures motorDO == estado
    {
      motorDO := estado;
    }

    /** `encender_motor`. */
    method EncenderMotor()
      modifies this`motorDO
      ensures State() == Encender(old(State()))
    {
      if !motorDO {
        DoMotor(true);
      }
    }

    /** `apagar_motor`; `now` is the clock at the stop. */
    method ApagarMotor(now: int)
      modifies this`motorDO, this`enRearranque, this`finRearranque
      ensures State() == Apagar(old(State()), now)
    {
      if motorDO {
        DoMotor(false);
        enRearranque := true;
        finRearranque := now + TiempoRearranque;
      }
    }

    /** One pass of the `while True` loop; returns whether the manual alert is raised. */
    method LoopStep(ahora: int, di: bool, flotadorAlto: bool) returns (alerta: bool)
      requires Inv(State())
      modifies this
      ensures Inv(State())
      ensures State() == Loop(old(State()), ahora, flotadorAlto)
      ensures motorDI == di
      ensures alerta == AlertaManual(di, State())
    {
      motorDI := di;
      if enRearranque && ahora >= finRearranque {
        enRearranque := false;
      }
      if !enRearranque {
        if flotadorAlto && !motorDO {
          EncenderMotor();
        } else if !flotadorAlto && motorDO {
          ApagarMotor(ahora);
        }
      }
      alerta := motorDI && !motorDO;
    }
  }
}
