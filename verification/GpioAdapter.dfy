/** The Raspberry Pi side of the four control wires: the active-low play gate
    (Arduino A0) and the three power bits (A1-A3).

    The functions describe one adapter call as a change of an `Adapter` value;
    class `GpioArduinoAdapter` performs the same call step by step and is proved
    against them. */
module GpioAdapter {
  import opened Prelude

  // ------------------------------------------------------------------ wires

  type Bits = b: seq<bool> | |b| == 3 witness [false, false, false]

  /** What the Arduino reads: `gate` is true while A0 is pulled low. */
  datatype Wires = Wires(gate: bool, bits: Bits)

  function Level(b: Bits): (level: nat)
    ensures level <= 7
  {
    (if b[0] then 1 else 0) + (if b[1] then 2 else 0) + (if b[2] then 4 else 0)
  }

  /** Bit `i` of a level, for the three bits that exist. */
  predicate BitOf(level: nat, i: nat) {
    (if i == 0 then level else if i == 1 then level / 2 else level / 4) % 2 == 1
  }

  // ----------------------------------------------------------------- faults

  /** Outcome of one pin write: it works, it raises and leaves the pin alone, or
      it raises after the pin has already changed. */
  datatype Write = Done | Refused | Applied

  /** What the hardware does around one readiness check. Index 0 is the gate
      output, index i+1 power output i. */
  datatype Faults = Faults(
    lost: nat -> bool,          // outputs found closed or no longer driving
    floats: nat -> bool,        // level of an undriven power wire
    closeRaises: nat -> bool,   // close() while dropping lost outputs
    openRaises: nat -> bool,    // the output factory
    recloseRaises: nat -> bool) // close() after a failed open

  datatype SendFaults = SendFaults(before: Faults, write: nat -> Write, after: Faults)

  ghost predicate Calm(f: Faults) {
    && (forall i: nat :: !f.lost(i))
    && (forall i: nat :: !f.openRaises(i))
  }

  ghost predicate CalmSend(f: SendFaults) {
    Calm(f.before) && Calm(f.after) && forall i: nat :: f.write(i) == Done
  }

  // ---------------------------------------------------------------- adapter

  type Outputs = s: seq<bool> | |s| <= 3

  /** `start` and `power` are the output objects the adapter holds, each true
      while the object still drives its pin; `seen` records every distinct state
      of the wires so far, oldest first. */
  datatype Adapter = Adapter(
    mock: bool,
    library: bool,
    start: Option<bool>,
    power: Outputs,
    failed: bool,
    wires: Wires,
    seen: seq<Wires>)

  function Fresh(mock: bool, library: bool, wires: Wires): Adapter {
    Adapter(mock, library, None, [], false, wires, [])
  }

  function Drive(a: Adapter, w: Wires): Adapter {
    if w == a.wires then a else a.(wires := w, seen := a.seen + [w])
  }

  function DriveGate(a: Adapter, on: bool): Adapter {
    Drive(a, a.wires.(gate := on))
  }

  function DriveBit(a: Adapter, i: nat, on: bool): Adapter
    requires i < 3
  {
    Drive(a, a.wires.(bits := a.wires.bits[i := on]))
  }

  predicate Ready(a: Adapter) {
    a.start == Some(true) && a.power == [true, true, true]
  }

  function StillDriving(power: Outputs, f: Faults): Outputs {
    seq(|power|, i requires 0 <= i < |power| => power[i] && !f.lost(i + 1))
  }

  /** Losing an output stops it driving: the pull-up releases the gate, a power
      wire floats. */
  function WiresAfterLoss(start: Option<bool>, power: Outputs, w: Wires, f: Faults): Wires {
    Wires(w.gate && !(start.Some? && f.lost(0)),
          seq(3, i requires 0 <= i < 3 =>
            if i < |power| && f.lost(i + 1) then f.floats(i) else w.bits[i]))
  }

  function Lose(a: Adapter, f: Faults): Adapter {
    var start := match a.start case None => None case Some(ok) => Some(ok && !f.lost(0));
    Drive(a.(start := start, power := StillDriving(a.power, f)),
          WiresAfterLoss(a.start, a.power, a.wires, f))
  }

  function ClosePower(a: Adapter, raises: nat -> bool, floats: nat -> bool, i: nat): Adapter
    decreases |a.power| - i
  {
    if i >= |a.power| then a
    else ClosePower(if raises(i + 1) then a else DriveBit(a, i, floats(i)), raises, floats, i + 1)
  }

  /** close(): an output whose close raises keeps its level but is forgotten. */
  function Close(a: Adapter, raises: nat -> bool, floats: nat -> bool): Adapter {
    var b := if a.start.Some? && !raises(0) then DriveGate(a, false) else a;
    ClosePower(b, raises, floats, 0).(start := None, power := [])
  }

  function OpenPower(a: Adapter, f: Faults): Adapter
    decreases 3 - |a.power|
  {
    var i := |a.power|;
    if i == 3 then a.(failed := false)
    else if f.openRaises(i + 1) then Close(a.(failed := true), f.recloseRaises, f.floats)
    else OpenPower(DriveBit(a, i, false).(power := a.power + [true]), f)
  }

  function Open(a: Adapter, f: Faults): Adapter {
    if f.openRaises(0) then Close(a.(failed := true), f.recloseRaises, f.floats)
    else OpenPower(DriveGate(a, false).(start := Some(true), power := []), f)
  }

  function AfterConnect(a: Adapter, f: Faults): Adapter {
    if a.mock then a else
      var b := Lose(a, f);
      if Ready(b) then b else
        var c := if b.start.Some? || b.power != [] then Close(b, f.closeRaises, f.floats) else b;
        if !c.library then c.(failed := true) else Open(c, f)
  }

  // --------------------------------------------------------------- commands

  datatype Command = ClawPower(percent: int) | PlayStart(seconds: int) | PlayStop | EmergencyStop

  /** Python's round() of n/10, ties going to the even neighbour. */
  function RoundTenths(n: nat): nat {
    var q, r := n / 10, n % 10;
    if r < 5 || (r == 5 && q % 2 == 0) then q else q + 1
  }

  function PowerLevel(percent: int): nat {
    var p: int := if percent < 40 then 40 else if percent > 100 then 100 else percent;
    var level := RoundTenths(p - 40);
    if level > 6 then 6 else level
  }

  function WriteLevel(a: Adapter, level: nat, write: nat -> Write, i: nat): (Adapter, bool)
    decreases |a.power| - i
  {
    if i >= |a.power| then (a, true)
    else
      var b := if write(i) == Refused then a else DriveBit(a, i, BitOf(level, i));
      if write(i) == Done then WriteLevel(b, level, write, i + 1) else (b, false)
  }

  function WriteGate(a: Adapter, on: bool, w: Write): (Adapter, bool) {
    (if w == Refused then a else DriveGate(a, on), w == Done)
  }

  function LevelThenRelease(a: Adapter, level: nat, write: nat -> Write): (Adapter, bool) {
    var (b, ok) := WriteLevel(a, level, write, 0);
    if ok then WriteGate(b, false, write(3)) else (b, false)
  }

  /** send_command: the adapter afterwards and the `ok` of its response. */
  function AfterSend(a: Adapter, command: Command, f: SendFaults): (Adapter, bool) {
    if a.mock then (a, true) else
      var b := AfterConnect(a, f.before);
      if !Ready(b) then (b, false) else
        match command
        case ClawPower(percent) => WriteLevel(b, PowerLevel(percent), f.write, 0)
        case PlayStart(_) => WriteGate(b, true, f.write(3))
        case PlayStop => LevelThenRelease(b, RESERVED_CODE, f.write)
        case EmergencyStop => LevelThenRelease(b, 0, f.write)
  }

  // ------------------------------------------------- the adapter in its own form

  /** The object itself. `wires` stands for the hardware; `seen` is its history. */
  class GpioArduinoAdapter {
    const forceMock: bool
    const library: bool
    var startOutput: Option<bool>
    var powerOutputs: Outputs
    var connectionError: bool
    var wires: Wires
    ghost var seen: seq<Wires>

    ghost function State(): Adapter
      reads this
    {
      Adapter(forceMock, library, startOutput, powerOutputs, connectionError, wires, seen)
    }

    constructor (forceMock: bool, library: bool, wires: Wires)
      ensures State() == Fresh(forceMock, library, wires)
    {
      this.forceMock, this.library := forceMock, library;
      startOutput, powerOutputs, connectionError := None, [], false;
      this.wires, seen := wires, [];
    }

    method SetWires(w: Wires)
      modifies this
      ensures State() == Drive(old(State()), w)
    {
      if w != wires {
        seen := seen + [w];
        wires := w;
      }
    }

    predicate OutputsReady()
      reads this
      ensures OutputsReady() == Ready(State())
    {
      startOutput == Some(true) && powerOutputs == [true, true, true]
    }

    method LoseOutputs(f: Faults)
      modifies this
      ensures State() == Lose(old(State()), f)
    {
      var w := WiresAfterLoss(startOutput, powerOutputs, wires, f);
      if startOutput.Some? {
        startOutput := Some(startOutput.value && !f.lost(0));
      }
      powerOutputs := StillDriving(powerOutputs, f);
      SetWires(w);
    }

    method CloseOutputs(raises: nat -> bool, floats: nat -> bool)
      modifies this
      ensures State() == Close(old(State()), raises, floats)
    {
      if startOutput.Some? && !raises(0) {
        SetWires(wires.(gate := false));
      }
      ghost var entry := State();
      var i := 0;
      while i < |powerOutputs|
        invariant 0 <= i <= |powerOutputs| && powerOutputs == entry.power
        invariant ClosePower(entry, raises, floats, 0) == ClosePower(State(), raises, floats, i)
      {
        if !raises(i + 1) {
          SetWires(wires.(bits := wires.bits[i := floats(i)]));
        }
        i := i + 1;
      }
      startOutput, powerOutputs := None, [];
    }

    method OpenOutputs(f: Faults)
      modifies this
      ensures State() == Open(old(State()), f)
    {
      if f.openRaises(0) {
        connectionError := true;
        CloseOutputs(f.recloseRaises, f.floats);
        return;
      }
      SetWires(wires.(gate := false));
      startOutput, powerOutputs := Some(true), [];
      var i := 0;
      while i < 3
        invariant 0 <= i <= 3 && |powerOutputs| == i
        invariant Open(old(State()), f) == OpenPower(State(), f)
      {
        if f.openRaises(i + 1) {
          connectionError := true;
          CloseOutputs(f.recloseRaises, f.floats);
          return;
        }
        SetWires(wires.(bits := wires.bits[i := false]));
        powerOutputs := powerOutputs + [true];
        i := i + 1;
      }
      connectionError := false;
    }

    method Connect(f: Faults)
      modifies this
      ensures State() == AfterConnect(old(State()), f)
    {
      if forceMock { return; }
      LoseOutputs(f);
      if OutputsReady() { return; }
      if startOutput.Some? || powerOutputs != [] {
        CloseOutputs(f.closeRaises, f.floats);
      }
      if !library {
        connectionError := true;
        return;
      }
      OpenOutputs(f);
    }

    method SetPowerLevel(level: nat, write: nat -> Write) returns (ok: bool)
      modifies this
      ensures (State(), ok) == WriteLevel(old(State()), level, write, 0)
    {
      ghost var before := State();
      var i := 0;
      while i < |powerOutputs|
        invariant 0 <= i <= |powerOutputs|
        invariant WriteLevel(before, level, write, 0) == WriteLevel(State(), level, write, i)
      {
        if write(i) != Refused {
          SetWires(wires.(bits := wires.bits[i := BitOf(level, i)]));
        }
        if write(i) != Done { return false; }
        i := i + 1;
      }
      return true;
    }

    method SetGate(on: bool, w: Write) returns (ok: bool)
      modifies this
      ensures (State(), ok) == WriteGate(old(State()), on, w)
    {
      if w != Refused {
        SetWires(wires.(gate := on));
      }
      return w == Done;
    }

    method SendCommand(command: Command, f: SendFaults) returns (ok: bool)
      modifies this
      ensures (State(), ok) == AfterSend(old(State()), command, f)
    {
      if forceMock { return true; }
      Connect(f.before);
      if !OutputsReady() { return false; }
      match command
      case ClawPower(percent) =>
        ok := SetPowerLevel(PowerLevel(percent), f.write);
      case PlayStart(_) =>
        ok := SetGate(true, f.write(3));
      case PlayStop =>
        // Releasing the gate with 111 on the power bits asks for the end pulse.
        ok := SetPowerLevel(RESERVED_CODE, f.write);
        if ok { ok := SetGate(false, f.write(3)); }
      case EmergencyStop =>
        ok := SetPowerLevel(0, f.write);
        if ok { ok := SetGate(false, f.write(3)); }
    }
  }
}
