/**
 * The test-mode pump loop (control_pozo_prueba.py).
 *
 * Each cycle maps the two float switches to a relay value, "1" (pump on) or
 * "0" (pump off), or to no command; nothing is carried between cycles and
 * nothing is suppressed.  An interrupt ends the session with one final "0".
 */
module PumpTest {
  import opened Options

  /** The per-cycle rule of the loop. */
  function CycleCommand(bajo: bool, alto: bool): (cmd: Option<string>)
    ensures cmd == Some("1") <==> !bajo && !alto
    ensures cmd == Some("0") <==> alto
    ensures cmd == None <==> bajo && !alto
  {
    if !bajo && !alto then Some("1")
    else if alto then Some("0")
    else None
  }

  /** The relay values sent by the loop, one reading per cycle. */
  function Commands(readings: seq<(bool, bool)>): (sent: seq<string>)
    ensures |sent| <= |readings|
    decreases |readings|
  {
    if readings == [] then []
    else
      var rest := Commands(readings[1..]);
      match CycleCommand(readings[0].0, readings[0].1)
      case Some(v) => [v] + rest
      case None => rest
  }

  /** Everything `set_bomba` receives in a session interrupted after `readings`. */
  function Session(readings: seq<(bool, bool)>): (sent: seq<string>)
    ensures |sent| == |Commands(readings)| + 1 && sent[|sent| - 1] == "0"
    ensures sent[..|sent| - 1] == Commands(readings)
  {
    Commands(readings) + ["0"]
  }

  /** What `set_bomba` reports for a relay value. */
  predicate ReportsOn(valor: string) {
    valor == "1"
  }

  /** The loop's commands over two stretches of readings are those of each stretch in turn. */
  lemma {:induction false} CommandsAppend(a: seq<(bool, bool)>, b: seq<(bool, bool)>)
    ensures Commands(a + b) == Commands(a) + Commands(b)
    decreases |a|
  {
    if a == [] {
      assert a + b == b;
    } else {
      assert (a + b)[0] == a[0];
      assert (a + b)[1..] == a[1..] + b;
      CommandsAppend(a[1..], b);
    }
  }

  /** Only "0" and "1" are ever sent. */
  lemma {:induction false} CommandsAreRelayValues(readings: seq<(bool, bool)>)
    ensures forall v :: v in Commands(readings) ==> v == "0" || v == "1"
    decreases |readings|
  {
    if readings != [] {
      CommandsAreRelayValues(readings[1..]);
    }
  }

  /** No suppression: `n` empty-tank cycles send "1" `n` times. */
  lemma {:induction false} EmptyTankRepeatsOn(readings: seq<(bool, bool)>)
    requires forall i :: 0 <= i < |readings| ==> readings[i] == (false, false)
    ensures Commands(readings) == seq(|readings|, _ => "1")
    decreases |readings|
  {
    if readings != [] {
      EmptyTankRepeatsOn(readings[1..]);
    }
  }

  /** A high switch forces "0" whatever the low switch reads; low-only sends nothing. */
  lemma HighSwitchStops(readings: seq<(bool, bool)>, i: nat)
    requires i < |readings|
    ensures readings[i].1 ==>
              Commands(readings) == Commands(readings[..i]) + ["0"] + Commands(readings[i + 1..])
    ensures readings[i] == (true, false) ==>
              Commands(readings) == Commands(readings[..i]) + Commands(readings[i + 1..])
  {
    assert readings == readings[..i] + [readings[i]] + readings[i + 1..];
    CommandsAppend(readings[..i] + [readings[i]], readings[i + 1..]);
    CommandsAppend(readings[..i], [readings[i]]);
    assert [readings[i]][1..] == [];
  }

  /** A session sends only relay values and ends with exactly one appended "0", reported as OFF. */
  lemma SessionEndsOff(readings: seq<(bool, bool)>)
    ensures var s := Session(readings);
            |s| == |Commands(readings)| + 1
            && s[|s| - 1] == "0" && !ReportsOn(s[|s| - 1])
            && forall v :: v in s ==> v == "0" || v == "1"
  {
    CommandsAreRelayValues(readings);
  }
}
