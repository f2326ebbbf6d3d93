/** Controller calls while no pin fails and no output is lost: what each shows
    on the wires, state by state. */
module CalmCalls {
  import opened Prelude
  import opened GpioAdapter
  import opened GpioLaws
  import opened RuntimeController
  import opened ControllerRuns

  predicate Settled(a: Adapter) {
    !a.mock && a.library && (Ready(a) || (a.start.None? && a.power == [] && !a.wires.gate))
  }

  function FaultFree(): Faults {
    var no := (i: nat) => false;
    Faults(no, no, no, no, no)
  }

  function NoFaults(): (f: SendFaults)
    ensures CalmSend(f)
  {
    SendFaults(FaultFree(), i => Done, FaultFree())
  }

  /** The gate did not move, in any state shown. */
  ghost predicate Held(a: Adapter, b: Adapter) {
    && a.seen <= b.seen
    && b.wires.gate == a.wires.gate
    && forall k :: |a.seen| <= k < |b.seen| ==> b.seen[k].gate == a.wires.gate
  }

  /** The gate moved once, in the last state shown, with `level` on the bits. */
  ghost predicate Flipped(a: Adapter, b: Adapter, level: nat) {
    && a.seen < b.seen
    && b.seen[|b.seen| - 1] == b.wires
    && b.wires.gate == !a.wires.gate
    && Level(b.wires.bits) == level
    && forall k :: |a.seen| <= k < |b.seen| - 1 ==> b.seen[k].gate == a.wires.gate
  }

  lemma HeldThenHeld(a: Adapter, b: Adapter, c: Adapter)
    requires Held(a, b) && Held(b, c)
    ensures Held(a, c)
  {
    forall k | |a.seen| <= k < |c.seen| ensures c.seen[k].gate == a.wires.gate {
      assert k < |b.seen| ==> c.seen[k] == b.seen[k];
    }
  }

  lemma HeldThenFlipped(a: Adapter, b: Adapter, c: Adapter, level: nat)
    requires Held(a, b) && Flipped(b, c, level)
    ensures Flipped(a, c, level)
  {
    forall k | |a.seen| <= k < |c.seen| - 1 ensures c.seen[k].gate == a.wires.gate {
      assert k < |b.seen| ==> c.seen[k] == b.seen[k];
    }
  }

  /** With nothing lost, usable outputs are left alone and missing ones open. */
  lemma CalmCheck(a: Adapter, f: Faults)
    requires Calm(f) && !a.mock
    ensures Ready(a) ==> AfterConnect(a, f) == a
    ensures Settled(a) ==>
              Ready(AfterConnect(a, f)) && Settled(AfterConnect(a, f)) && Held(a, AfterConnect(a, f))
  {
    var b := Lose(a, f);
    assert b.power == a.power;
    assert WiresAfterLoss(a.start, a.power, a.wires, f) == a.wires;
    if Settled(a) && !Ready(a) {
      OpenLowers(a, f);
    }
  }

  lemma CalmPower(a: Adapter, percent: int, f: SendFaults)
    requires Settled(a) && CalmSend(f)
    ensures var (b, ok) := AfterSend(a, ClawPower(percent), f);
            ok && Ready(b) && Settled(b) && Held(a, b) && Level(b.wires.bits) == PowerLevel(percent)
  {
    hide AfterConnect, WriteLevel, PowerLevel;
    CalmCheck(a, f.before);
    var r := AfterConnect(a, f.before);
    PowerLevelInRange(percent);
    WriteLevelHoldsGate(r, PowerLevel(percent), f.write, 0);
    HeldThenHeld(a, r, AfterSend(a, ClawPower(percent), f).0);
  }

  /** Both stops: the bits are set first, the gate is released last. */
  lemma CalmRelease(a: Adapter, command: Command, f: SendFaults)
    requires Settled(a) && CalmSend(f) && (command.PlayStop? || command.EmergencyStop?)
    ensures var (b, ok) := AfterSend(a, command, f);
            && ok && Ready(b) && Settled(b)
            && (if a.wires.gate then Flipped(a, b, if command.PlayStop? then RESERVED_CODE else 0) else Held(a, b))
  {
    CalmCheck(a, f.before);
    var r := AfterConnect(a, f.before);
    var level := if command.PlayStop? then RESERVED_CODE else 0;
    WriteLevelHoldsGate(r, level, f.write, 0);
    var s := WriteLevel(r, level, f.write, 0).0;
    var b := AfterSend(a, command, f).0;
    assert b == DriveGate(s, false);
    if a.wires.gate {
      assert Flipped(r, b, level);
      HeldThenFlipped(a, r, b, level);
    } else {
      HeldThenHeld(a, r, b);
    }
  }

  lemma CalmRaise(a: Adapter, seconds: int, f: SendFaults)
    requires Settled(a) && Ready(a) && CalmSend(f) && !a.wires.gate
    ensures var (b, ok) := AfterSend(a, PlayStart(seconds), f);
            ok && Ready(b) && Settled(b) && Flipped(a, b, Level(a.wires.bits))
  {
    CalmCheck(a, f.before);
  }

  /** A start either is refused before anything is sent or raises the gate with
      the stored power on the bits. */
  lemma CalmStart(c: Controller, command: PlayStartCommand, now: int, f: SendFaults, g: SendFaults)
    requires Settled(c.adapter) && CalmSend(f) && CalmSend(g) && c.adapter.wires.gate == Running(c)
    ensures var (d, error) := AfterStart(c, command, now, f, g);
            && Settled(d.adapter)
            && error == ValidateStart(command, c.machine)
            && (if error.None?
                then Flipped(c.adapter, d.adapter, PowerLevel(c.machine.clawPowerPercent))
                else d == c)
  {
    if ValidateStart(command, c.machine).None? {
      var percent := c.machine.clawPowerPercent;
      CalmPower(c.adapter, percent, f);
      var (c1, powered) := Dispatch(c, ClawPower(percent), f);
      CalmCheck(AfterSend(c.adapter, ClawPower(percent), f).0, f.after);
      CalmRaise(c1.adapter, command.duration, g);
      CalmCheck(AfterSend(c1.adapter, PlayStart(command.duration), g).0, g.after);
      var (c2, started) := Dispatch(c1, PlayStart(command.duration), g);
      HeldThenFlipped(c.adapter, c1.adapter, c2.adapter, PowerLevel(percent));
    }
  }

  lemma CalmDispatchRelease(c: Controller, command: Command, f: SendFaults)
    requires Settled(c.adapter) && CalmSend(f) && (command.PlayStop? || command.EmergencyStop?)
    ensures var (d, ok) := Dispatch(c, command, f);
            && ok && Settled(d.adapter)
            && (if c.adapter.wires.gate
                then Flipped(c.adapter, d.adapter, if command.PlayStop? then RESERVED_CODE else 0)
                else Held(c.adapter, d.adapter))
  {
    CalmRelease(c.adapter, command, f);
    CalmCheck(AfterSend(c.adapter, command, f).0, f.after);
  }

  ghost predicate CalmEvent(e: Event) {
    match e
    case ReadStatus(f) => Calm(f)
    case Start(_, _, f, g) => CalmSend(f) && CalmSend(g)
    case Stop(f) => CalmSend(f)
    case SetPower(_, f) => CalmSend(f)
    case Emergency(f) => CalmSend(f)
    case Fire(_, f) => CalmSend(f)
    case Loss(f) => Calm(f)
  }

  /** How an event ends: with the gate moved, and which level went with it. */
  ghost predicate Shown(c: Controller, d: Controller) {
    if Running(c) == Running(d) then Held(c.adapter, d.adapter)
    else if Running(d) then Flipped(c.adapter, d.adapter, PowerLevel(c.machine.clawPowerPercent))
    else Flipped(c.adapter, d.adapter, if d.machine.emergencyStopped then 0 else RESERVED_CODE)
  }

  lemma CalmStop(c: Controller, f: SendFaults)
    requires Settled(c.adapter) && CalmSend(f) && c.adapter.wires.gate == Running(c)
    requires c.machine.emergencyStopped ==> !Running(c)
    ensures var d := AfterStop(c, f).0;
            Settled(d.adapter) && d.adapter.wires.gate == Running(d) && Shown(c, d)
  {
    hide AfterSend, AfterConnect;
    CalmDispatchRelease(c.(generation := c.generation + 1), PlayStop, f);
  }

  lemma CalmFire(c: Controller, i: nat, f: SendFaults)
    requires Settled(c.adapter) && CalmSend(f) && c.adapter.wires.gate == Running(c) && i < |c.timers|
    requires c.machine.emergencyStopped ==> !Running(c)
    ensures var d := AfterTimer(c, i, f);
            Settled(d.adapter) && d.adapter.wires.gate == Running(d) && Shown(c, d)
  {
    hide AfterSend, AfterConnect;
    CalmDispatchRelease(c.(timers := Without(c.timers, i)), PlayStop, f);
  }

  lemma CalmEmergency(c: Controller, f: SendFaults)
    requires Settled(c.adapter) && CalmSend(f) && c.adapter.wires.gate == Running(c)
    ensures var d := AfterEmergency(c, f);
            Settled(d.adapter) && d.adapter.wires.gate == Running(d) && Shown(c, d)
  {
    hide AfterSend, AfterConnect;
    CalmDispatchRelease(c.(generation := c.generation + 1, machine := c.machine.(emergencyStopped := true)),
                        EmergencyStop, f);
  }

  lemma CalmSetPower(c: Controller, percent: int, f: SendFaults)
    requires Settled(c.adapter) && CalmSend(f) && c.adapter.wires.gate == Running(c)
    ensures var d := AfterSetPower(c, percent, f).0;
            Settled(d.adapter) && d.adapter.wires.gate == Running(d) && Shown(c, d)
  {
    hide AfterSend, AfterConnect;
    CalmPower(c.adapter, percent, f);
    CalmCheck(AfterSend(c.adapter, ClawPower(percent), f).0, f.after);
  }

  lemma CalmLoss(a: Adapter, f: Faults)
    requires Settled(a) && Calm(f)
    ensures Lose(a, f) == a
  {
    assert Lose(a, f).power == a.power;
    assert WiresAfterLoss(a.start, a.power, a.wires, f) == a.wires;
  }

  lemma CalmStep(c: Controller, e: Event)
    requires Settled(c.adapter) && CalmEvent(e) && c.adapter.wires.gate == Running(c)
    requires c.machine.emergencyStopped ==> !Running(c)
    ensures var d := Step(c, e);
            Settled(d.adapter) && d.adapter.wires.gate == Running(d) && Shown(c, d)
  {
    hide AfterConnect, AfterStop, AfterTimer, AfterEmergency, AfterSetPower, Lose;
    match e
    case ReadStatus(f) => CalmCheck(c.adapter, f);
    case Start(command, now, f, g) => CalmStart(c, command, now, f, g);
    case Stop(f) => CalmStop(c, f);
    case SetPower(percent, f) => CalmSetPower(c, percent, f);
    case Emergency(f) => CalmEmergency(c, f);
    case Fire(i, f) => if i < |c.timers| { CalmFire(c, i, f); }
    case Loss(f) => CalmLoss(c.adapter, f);
  }
}
