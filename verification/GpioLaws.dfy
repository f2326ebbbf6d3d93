/** What adapter calls can and cannot do to the wires, under every fault. */
module GpioLaws {
  import opened Prelude
  import opened GpioAdapter

  /** From `a` to `b` the wires only gained states with the gate no higher. */
  ghost predicate GateNotRaised(a: Adapter, b: Adapter) {
    && a.seen <= b.seen
    && b.mock == a.mock && b.library == a.library
    && (b.wires.gate ==> a.wires.gate)
    && (!a.wires.gate ==> forall k :: |a.seen| <= k < |b.seen| ==> !b.seen[k].gate)
  }

  /** Bits move, the gate does not. */
  ghost predicate GateHeld(a: Adapter, b: Adapter) {
    && a.seen <= b.seen
    && b.mock == a.mock && b.library == a.library
    && b.start == a.start && b.power == a.power
    && b.wires.gate == a.wires.gate
    && (forall k :: |a.seen| <= k < |b.seen| ==> b.seen[k].gate == a.wires.gate)
  }

  lemma {:induction false} ClosePowerLowers(a: Adapter, raises: nat -> bool, floats: nat -> bool, i: nat)
    ensures GateHeld(a, ClosePower(a, raises, floats, i))
    decreases |a.power| - i
  {
    if i < |a.power| {
      var b := if raises(i + 1) then a else DriveBit(a, i, floats(i));
      ClosePowerLowers(b, raises, floats, i + 1);
    }
  }

  lemma CloseLowers(a: Adapter, raises: nat -> bool, floats: nat -> bool)
    ensures GateNotRaised(a, Close(a, raises, floats))
  {
    var b := if a.start.Some? && !raises(0) then DriveGate(a, false) else a;
    ClosePowerLowers(b, raises, floats, 0);
  }

  lemma {:induction false} OpenPowerLowers(a: Adapter, f: Faults)
    ensures GateNotRaised(a, OpenPower(a, f))
    ensures a.start == Some(true) && a.power == seq(|a.power|, _ => true) && !a.wires.gate
            && (forall k :: 0 <= k < |a.power| ==> !a.wires.bits[k]) && Ready(OpenPower(a, f))
            ==> !OpenPower(a, f).wires.gate && Level(OpenPower(a, f).wires.bits) == 0
    ensures a.start == Some(true) && a.power == seq(|a.power|, _ => true) && (forall i: nat :: !f.openRaises(i))
            ==> Ready(OpenPower(a, f))
    decreases 3 - |a.power|
  {
    var i := |a.power|;
    if i < 3 {
      if f.openRaises(i + 1) {
        CloseLowers(a.(failed := true), f.recloseRaises, f.floats);
      } else {
        OpenPowerLowers(DriveBit(a, i, false).(power := a.power + [true]), f);
      }
    }
  }

  lemma OpenLowers(a: Adapter, f: Faults)
    ensures GateNotRaised(a, Open(a, f))
    ensures Ready(Open(a, f)) ==> !Open(a, f).wires.gate && Level(Open(a, f).wires.bits) == 0
    ensures (forall i: nat :: !f.openRaises(i)) ==> Ready(Open(a, f))
  {
    if f.openRaises(0) {
      CloseLowers(a.(failed := true), f.recloseRaises, f.floats);
    } else {
      OpenPowerLowers(DriveGate(a, false).(start := Some(true), power := []), f);
    }
  }

  lemma LoseLowers(a: Adapter, f: Faults)
    ensures GateNotRaised(a, Lose(a, f))
    ensures Ready(Lose(a, f)) ==> Lose(a, f) == a
  {
    var b := Lose(a, f);
    if Ready(b) {
      assert |a.power| == 3;
      assert forall i :: 0 <= i < 3 ==> b.power[i] == (a.power[i] && !f.lost(i + 1));
      assert b.power == a.power;
      assert b.power[0] && b.power[1] && b.power[2];
      assert WiresAfterLoss(a.start, a.power, a.wires, f).bits == a.wires.bits;
    }
  }

  /** A readiness check never raises the gate, and outputs it leaves usable are
      either untouched or freshly opened, with the gate off and level 0. */
  lemma ConnectLowers(a: Adapter, f: Faults)
    ensures var r := AfterConnect(a, f);
            && GateNotRaised(a, r)
            && (Ready(r) ==> r == a || (!r.wires.gate && Level(r.wires.bits) == 0))
  {
    if !a.mock {
      LoseLowers(a, f);
      var b := Lose(a, f);
      if !Ready(b) {
        CloseLowers(b, f.closeRaises, f.floats);
        var c := if b.start.Some? || b.power != [] then Close(b, f.closeRaises, f.floats) else b;
        OpenLowers(c, f);
      }
    }
  }

  lemma {:induction false} WriteLevelHoldsGate(a: Adapter, level: nat, write: nat -> Write, i: nat)
    requires i <= |a.power|
    ensures var (b, ok) := WriteLevel(a, level, write, i);
            && GateHeld(a, b)
            && (ok ==> forall k :: i <= k < |a.power| ==> b.wires.bits[k] == BitOf(level, k))
            && (forall k :: 0 <= k < i ==> b.wires.bits[k] == a.wires.bits[k])
            && ((forall k: nat :: write(k) == Done) ==> ok)
    decreases |a.power| - i
  {
    if i < |a.power| && write(i) == Done {
      WriteLevelHoldsGate(DriveBit(a, i, BitOf(level, i)), level, write, i + 1);
    }
  }

  lemma WriteLevelSets(a: Adapter, level: nat, write: nat -> Write)
    requires Ready(a) && level <= 7
    ensures var (b, ok) := WriteLevel(a, level, write, 0);
            GateHeld(a, b) && (ok ==> Level(b.wires.bits) == level)
  {
    WriteLevelHoldsGate(a, level, write, 0);
  }

  lemma PowerLevelInRange(percent: int)
    ensures PowerLevel(percent) <= 6
  {
  }

  /** Every command but PLAY START leaves the gate where it was or lower, and a
      confirmed stop of either kind has released it. */
  lemma SendLowers(a: Adapter, command: Command, f: SendFaults)
    requires !command.PlayStart?
    ensures var (b, ok) := AfterSend(a, command, f);
            && (b.wires.gate ==> a.wires.gate)
            && b.mock == a.mock && b.library == a.library
            && (command.ClawPower? ==> GateNotRaised(a, b))
            && (command.ClawPower? && ok && !a.mock ==>
                  Ready(b) && Level(b.wires.bits) == PowerLevel(command.percent))
            && (!command.ClawPower? && ok && !a.mock ==> !b.wires.gate)
  {
    if !a.mock {
      ConnectLowers(a, f.before);
      var b := AfterConnect(a, f.before);
      if Ready(b) {
        var level := match command case ClawPower(p) => PowerLevel(p) case PlayStop => RESERVED_CODE case _ => 0;
        WriteLevelSets(b, level, f.write);
      }
    }
  }

  /** PLAY START raises the gate exactly when it is confirmed, except for a raise
      that reports failure after taking effect. */
  lemma SendStartRaises(a: Adapter, seconds: int, f: SendFaults)
    ensures var (b, ok) := AfterSend(a, PlayStart(seconds), f);
            && b.mock == a.mock && b.library == a.library
            && (ok && !a.mock ==> b.wires.gate)
            && (!ok && f.write(3) != Applied ==> (b.wires.gate ==> a.wires.gate))
  {
    ConnectLowers(a, f.before);
  }

  lemma {:induction false} OpenPowerIff(a: Adapter, f: Faults)
    requires a.start == Some(true) && a.power == seq(|a.power|, _ => true)
    ensures Ready(OpenPower(a, f)) <==> forall i :: |a.power| < i <= 3 ==> !f.openRaises(i)
    ensures OpenPower(a, f).failed == !Ready(OpenPower(a, f))
    decreases 3 - |a.power|
  {
    var i := |a.power|;
    if i < 3 {
      if f.openRaises(i + 1) {
        CloseForgets(a.(failed := true), f.recloseRaises, f.floats);
      } else {
        var b := DriveBit(a, i, false).(power := a.power + [true]);
        OpenPowerIff(b, f);
      }
    }
  }

  lemma {:induction false} ClosePowerKeepsFlag(a: Adapter, raises: nat -> bool, floats: nat -> bool, i: nat)
    ensures ClosePower(a, raises, floats, i).failed == a.failed
    decreases |a.power| - i
  {
    if i < |a.power| {
      ClosePowerKeepsFlag(if raises(i + 1) then a else DriveBit(a, i, floats(i)), raises, floats, i + 1);
    }
  }

  lemma CloseForgets(a: Adapter, raises: nat -> bool, floats: nat -> bool)
    ensures var b := Close(a, raises, floats); b.failed == a.failed && b.start.None? && b.power == []
  {
    ClosePowerKeepsFlag(if a.start.Some? && !raises(0) then DriveGate(a, false) else a, raises, floats, 0);
  }

  lemma {:induction false} ClosePowerFloats(a: Adapter, raises: nat -> bool, floats: nat -> bool, i: nat, k: nat)
    requires i <= |a.power| && k < 3
    ensures var b := ClosePower(a, raises, floats, i);
            && b.wires.gate == a.wires.gate
            && b.wires.bits[k] == if i <= k < |a.power| && !raises(k + 1) then floats(k) else a.wires.bits[k]
    decreases |a.power| - i
  {
    if i < |a.power| {
      ClosePowerFloats(if raises(i + 1) then a else DriveBit(a, i, floats(i)), raises, floats, i + 1, k);
    }
  }

  /** Closing releases the gate and lets every power wire float, but for an output whose
      close raises, which keeps its level; and all the outputs are forgotten. */
  lemma CloseReleases(a: Adapter, raises: nat -> bool, floats: nat -> bool)
    ensures var b := Close(a, raises, floats);
            && b.start.None? && b.power == [] && b.failed == a.failed
            && b.wires.gate == (a.wires.gate && (a.start.None? || raises(0)))
            && forall k :: 0 <= k < 3 ==>
                 b.wires.bits[k] == if k < |a.power| && !raises(k + 1) then floats(k) else a.wires.bits[k]
  {
    var b := if a.start.Some? && !raises(0) then DriveGate(a, false) else a;
    CloseForgets(a, raises, floats);
    ClosePowerFloats(b, raises, floats, 0, 0);
    forall k | 0 <= k < 3
      ensures Close(a, raises, floats).wires.bits[k]
              == if k < |a.power| && !raises(k + 1) then floats(k) else a.wires.bits[k]
    {
      ClosePowerFloats(b, raises, floats, 0, k);
    }
  }

  /** A readiness check leaves usable outputs if and only if none was lost, or the
      library is there and all four can be opened; the error flag then says whether it
      has had to give up, and a check with nothing lost leaves it as it was. */
  lemma ConnectReadyIff(a: Adapter, f: Faults)
    requires !a.mock
    ensures var r := AfterConnect(a, f);
            && (Ready(r) <==>
                  || Ready(Lose(a, f))
                  || (a.library && !f.openRaises(0) && !f.openRaises(1) && !f.openRaises(2) && !f.openRaises(3)))
            && (if Ready(Lose(a, f)) then r == Lose(a, f) else r.failed == !Ready(r))
  {
    var b := Lose(a, f);
    if !Ready(b) {
      CloseLowers(b, f.closeRaises, f.floats);
      var c := if b.start.Some? || b.power != [] then Close(b, f.closeRaises, f.floats) else b;
      CloseForgets(b, f.closeRaises, f.floats);
      assert c.library == a.library && !Ready(c);
      hide Lose, Close, ClosePower, OpenPower;
      if c.library {
        if f.openRaises(0) {
          CloseForgets(c.(failed := true), f.recloseRaises, f.floats);
        } else {
          OpenPowerIff(DriveGate(c, false).(start := Some(true), power := []), f);
        }
      }
    }
  }
}
