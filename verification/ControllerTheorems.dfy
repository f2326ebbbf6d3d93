/** What every run of the controller keeps. */
module ControllerTheorems {
  import opened Prelude
  import opened GpioAdapter
  import opened GpioLaws
  import opened RuntimeController
  import opened ControllerRuns
  import opened CalmCalls

  // -------------------------------------------------------- timer discipline

  /** A running play has a live timer exactly until one of its stops fails; there
      is never more than one, and it carries the play's own end time. */
  lemma {:induction false} TimerDiscipline(duration: int, percent: int, a: Adapter, events: seq<Event>)
    ensures var c := Run(Initial(duration, percent, a), events);
            && (Running(c) ==> ((exists i: nat :: i < |c.timers| && Live(c, i)) <==> !StopFailed(c.log)))
            && (forall i: nat :: i < |c.timers| && Live(c, i) ==>
                  Running(c) && c.machine.playEndsAt == Some(c.timers[i].deadline))
            && (forall i: nat, j: nat :: i < |c.timers| && j < |c.timers| && Live(c, i) && Live(c, j) ==> i == j)
  {
    var c := Run(Initial(duration, percent, a), events);
    InitialConsistent(duration, percent, a);
    RunKeeps(percent, Initial(duration, percent, a), events);
    if Running(c) && !StopFailed(c.log) {
      var i :| 0 <= i < |c.timers| && c.timers[i].generation == c.generation;
      assert Live(c, i);
    }
  }

  lemma LiveTimerWakes(first: int, c: Controller, i: nat, f: SendFaults)
    requires Consistent(first, c) && i < |c.timers| && Live(c, i)
    ensures var d := AfterTimer(c, i, f);
            && |d.log| == |c.log| + 1 && d.log[|c.log|].command == PlayStop
            && Running(d) == !d.log[|c.log|].ok
            && (forall j: nat :: j < |d.timers| ==> !Live(d, j))
  {
    hide AfterSend, AfterConnect;
    var d := AfterTimer(c, i, f);
    forall j: nat | j < |d.timers| ensures !Live(d, j) {
      var k := if j < i then j else j + 1;
      assert d.timers[j] == c.timers[k];
    }
  }

  /** Waking any other timer only uses that timer up, while waking the live one
      ends the play exactly when its PLAY STOP is confirmed. */
  lemma {:induction false} TimerWakes(duration: int, percent: int, a: Adapter, events: seq<Event>,
                                      i: nat, f: SendFaults)
    requires i < |Run(Initial(duration, percent, a), events).timers|
    ensures var c := Run(Initial(duration, percent, a), events);
            var d := AfterTimer(c, i, f);
            && (!Live(c, i) ==> d == c.(timers := Without(c.timers, i)))
            && (Live(c, i) ==>
                  && |d.log| == |c.log| + 1 && d.log[|c.log|].command == PlayStop
                  && Running(d) == !d.log[|c.log|].ok
                  && (forall j: nat :: j < |d.timers| ==> !Live(d, j)))
  {
    var c := Run(Initial(duration, percent, a), events);
    InitialConsistent(duration, percent, a);
    RunKeeps(percent, Initial(duration, percent, a), events);
    if Live(c, i) {
      LiveTimerWakes(percent, c, i, f);
    }
  }

  /** A confirmed start sends exactly two commands, and leaves one new timer, due
      when startup and play are over: 10 to 210 seconds away. */
  lemma StartSchedulesStop(c: Controller, command: PlayStartCommand, now: int, f: SendFaults, g: SendFaults)
    requires AfterStart(c, command, now, f, g).1.None?
    ensures var d := AfterStart(c, command, now, f, g).0;
            && d.log == c.log + [Sent(ClawPower(c.machine.clawPowerPercent), true),
                                 Sent(PlayStart(command.duration), true)]
            && d.generation == c.generation + 1
            && |d.timers| == |c.timers| + 1 && d.timers[..|c.timers|] == c.timers && Live(d, |c.timers|)
            && d.machine.playStartedAt == Some(now)
            && d.machine.playEndsAt == Some(d.timers[|c.timers|].deadline)
            && d.timers[|c.timers|].deadline == now + 1000 * command.startup + 1000 * command.duration
            && now + 10000 <= d.timers[|c.timers|].deadline <= now + 210000
  {
    hide AfterSend, AfterConnect;
  }

  lemma RefusedStopFails(c: Controller)
    requires Running(c) && Ready(c.adapter) && !c.adapter.mock
    ensures var (d, error) := AfterStop(c, SendFaults(FaultFree(), i => Refused, FaultFree()));
            Running(d) && d.timers == c.timers && d.generation == c.generation + 1
  {
    CalmCheck(c.adapter, FaultFree());
  }

  /** Such plays exist: a start without faults and a stop whose first write is refused
      leave a running play that no timer will stop. */
  lemma FailedStopExample() returns (events: seq<Event>)
    ensures var c := Run(Initial(60, 100, Fresh(false, true, Wires(false, [false, false, false]))), events);
            Running(c) && forall i: nat :: i < |c.timers| ==> !Live(c, i)
  {
    hide AfterStart, AfterStop, Run;
    var c0 := Initial(60, 100, Fresh(false, true, Wires(false, [false, false, false])));
    var good := NoFaults();
    var bad := SendFaults(FaultFree(), i => Refused, FaultFree());
    var command := PlayStartCommand(60, 4, false);
    events := [Start(command, 0, good, good), Stop(bad)];
    TwoSteps(c0, events[0], events[1]);
    InitialConsistent(60, 100, c0.adapter);
    StepKeeps(100, c0, events[0]);
    StartRuns(c0, command, 0, good);
    RefusedStopFails(Step(c0, events[0]));
  }

  lemma TwoSteps(c: Controller, d: Event, e: Event)
    ensures Run(c, [d, e]) == Step(Step(c, d), e)
  {
    hide Step;
    assert [d, e][..1] == [d] && [d][..0] == [];
    assert Run(c, [d]) == Step(Run(c, []), d);
    assert Run(c, [d, e]) == Step(Run(c, [d, e][..1]), e);
  }

  lemma StartRuns(c: Controller, command: PlayStartCommand, now: int, f: SendFaults)
    requires Settled(c.adapter) && CalmSend(f) && !c.adapter.wires.gate && !Running(c)
    requires ValidateStart(command, c.machine).None?
    ensures var d := Step(c, Start(command, now, f, f)); Running(d) && Ready(d.adapter) && !d.adapter.mock
  {
    hide AfterStart;
    CalmStart(c, command, now, f, f);
    CalmStep(c, Start(command, now, f, f));
  }

  // -------------------------------------------------------- command language

  /** The log of every run obeys `Spoken`, and reading it tells the state. */
  lemma {:induction false} TraceLanguage(duration: int, percent: int, a: Adapter, events: seq<Event>)
    ensures var c := Run(Initial(duration, percent, a), events);
            && Spoken(percent, c.log)
            && Running(c) == PlayOn(c.log)
            && c.machine.emergencyStopped == EmergencySent(c.log)
            && c.machine.clawPowerPercent == StoredPercent(percent, c.log)
  {
    InitialConsistent(duration, percent, a);
    RunKeeps(percent, Initial(duration, percent, a), events);
  }

  lemma {:induction false} PlayStaysOn(first: int, log: seq<Sent>, i: nat, j: nat)
    requires i < j <= |log| && log[i].command.PlayStart? && log[i].ok
    requires forall k :: i < k < j ==> !log[k].command.EmergencyStop? && log[k] != Sent(PlayStop, true)
    ensures PlayOn(log[..j])
  {
    assert log[..j][..j - 1] == log[..j - 1];
    if i < j - 1 {
      PlayStaysOn(first, log, i, j - 1);
    }
  }

  /** Between two confirmed starts there is a confirmed PLAY STOP, and after an
      EMERGENCY STOP nothing else is ever sent. */
  lemma {:induction false} StartsAndStopsAlternate(duration: int, percent: int, a: Adapter, events: seq<Event>,
                                                   i: nat, j: nat)
    requires var log := Run(Initial(duration, percent, a), events).log; i < j < |log|
    ensures var log := Run(Initial(duration, percent, a), events).log;
            && (log[i].command.EmergencyStop? ==> log[j].command.EmergencyStop?)
            && (log[i].command.PlayStart? && log[i].ok && log[j].command.PlayStart? ==>
                  exists k :: i < k < j && log[k] == Sent(PlayStop, true))
  {
    var log := Run(Initial(duration, percent, a), events).log;
    TraceLanguage(duration, percent, a, events);
    assert Allowed(percent, log[..j], log[j]);
    if log[i].command.EmergencyStop? {
      assert log[..j][i].command.EmergencyStop?;
    } else if log[i].command.PlayStart? && log[i].ok && log[j].command.PlayStart? {
      forall k | i < k < j ensures !log[k].command.EmergencyStop? {
        assert log[..j][k] == log[k];
      }
      if forall k :: i < k < j ==> log[k] != Sent(PlayStop, true) {
        PlayStaysOn(percent, log, i, j);
      }
    }
  }

  // -------------------------------------------------------------- gate safety

  /** No PLAY START raises the gate and then reports failure. */
  predicate NoFalseAlarm(e: Event) {
    e.Start? ==> e.g.write(3) != Applied
  }

  predicate GateSafe(c: Controller) {
    c.adapter.wires.gate ==>
      Running(c) || (c.machine.emergencyStopped && LastEmergencyFailed(c.log))
  }

  lemma LogLast(log: seq<Sent>, s: Sent)
    ensures LastEmergencyFailed(log + [s]) == if s.command.EmergencyStop? then !s.ok else LastEmergencyFailed(log)
  {
    assert (log + [s])[..|log|] == log;
  }

  /** One command other than PLAY START. */
  lemma DispatchLowers(c: Controller, command: Command, f: SendFaults)
    requires !command.PlayStart?
    ensures var (d, ok) := Dispatch(c, command, f);
            && (d.adapter.wires.gate ==> c.adapter.wires.gate)
            && d.adapter.mock == c.adapter.mock
            && (!command.ClawPower? && ok && !c.adapter.mock ==> !d.adapter.wires.gate)
            && (LastEmergencyFailed(d.log) == if command.EmergencyStop? then !ok else LastEmergencyFailed(c.log))
  {
    SendLowers(c.adapter, command, f);
    ConnectLowers(AfterSend(c.adapter, command, f).0, f.after);
    LogLast(c.log, Sent(command, Dispatch(c, command, f).1));
  }

  lemma DispatchStart(c: Controller, seconds: int, f: SendFaults)
    ensures var (d, ok) := Dispatch(c, PlayStart(seconds), f);
            && d.adapter.mock == c.adapter.mock
            && (!ok && f.write(3) != Applied ==> (d.adapter.wires.gate ==> c.adapter.wires.gate))
            && (c.adapter.mock ==> d.adapter == c.adapter)
  {
    SendStartRaises(c.adapter, seconds, f);
    ConnectLowers(AfterSend(c.adapter, PlayStart(seconds), f).0, f.after);
  }

  lemma StartSafe(c: Controller, command: PlayStartCommand, now: int, f: SendFaults, g: SendFaults)
    requires GateSafe(c) && g.write(3) != Applied
    ensures var d := AfterStart(c, command, now, f, g).0;
            && GateSafe(d)
            && d.adapter.mock == c.adapter.mock
            && (c.adapter.mock && !c.adapter.wires.gate ==> !d.adapter.wires.gate)
  {
    hide AfterConnect, AfterSend;
    if ValidateStart(command, c.machine).None? {
      DispatchLowers(c, ClawPower(c.machine.clawPowerPercent), f);
      var (c1, powered) := Dispatch(c, ClawPower(c.machine.clawPowerPercent), f);
      if powered {
        DispatchStart(c1, command.duration, g);
      }
    }
  }

  lemma StepSafe(first: int, c: Controller, e: Event)
    requires Consistent(first, c) && GateSafe(c) && NoFalseAlarm(e)
    requires c.adapter.mock ==> !c.adapter.wires.gate
    ensures GateSafe(Step(c, e))
    ensures Step(c, e).adapter.mock == c.adapter.mock
    ensures c.adapter.mock ==> !Step(c, e).adapter.wires.gate
  {
    hide AfterConnect, AfterSend, Lose, AfterStart;
    match e
    case ReadStatus(f) => ConnectLowers(c.adapter, f);
    case Start(command, now, f, g) =>
      StartSafe(c, command, now, f, g);
    case Stop(f) => DispatchLowers(c.(generation := c.generation + 1), PlayStop, f);
    case SetPower(percent, f) => DispatchLowers(c, ClawPower(percent), f);
    case Emergency(f) =>
      DispatchLowers(c.(generation := c.generation + 1, machine := c.machine.(emergencyStopped := true)),
                     EmergencyStop, f);
    case Fire(i, f) =>
      if i < |c.timers| {
        DispatchLowers(c.(timers := Without(c.timers, i)), PlayStop, f);
      }
    case Loss(f) => LoseLowers(c.adapter, f);
  }

  /** A gate that is asserted stays asserted through a readiness check: nothing at all
      is found lost, or only power outputs are and neither closing nor reopening the
      gate output does anything. */
  predicate GateSurvives(f: Faults, library: bool) {
    && !f.lost(0)
    && ((!f.lost(1) && !f.lost(2) && !f.lost(3)) || (f.closeRaises(0) && (!library || f.openRaises(0))))
  }

  lemma GateSurvivesIff(a: Adapter, f: Faults)
    requires Ready(a) && !a.mock && a.wires.gate
    ensures AfterConnect(a, f).wires.gate <==> GateSurvives(f, a.library)
  {
    var b := Lose(a, f);
    LoseLowers(a, f);
    assert b.power == [!f.lost(1), !f.lost(2), !f.lost(3)];
    if !Ready(b) {
      ClosePowerLowers(if f.closeRaises(0) then b else DriveGate(b, false), f.closeRaises, f.floats, 0);
      var c := Close(b, f.closeRaises, f.floats);
      assert c.wires.gate == (b.wires.gate && f.closeRaises(0));
      ReopenedGate(c, f);
    }
  }

  /** Reopening switches the gate off unless its own output cannot be opened. */
  lemma ReopenedGate(c: Adapter, f: Faults)
    requires c.start.None? && c.power == []
    ensures Open(c, f).wires.gate == (c.wires.gate && f.openRaises(0))
  {
    if f.openRaises(0) {
      ClosePowerLowers(c.(failed := true), f.recloseRaises, f.floats, 0);
    } else {
      OpenPowerLowers(DriveGate(c, false).(start := Some(true), power := []), f);
    }
  }

  /** The faults of a start that raise the gate and still report failure. */
  predicate RaisedInVain(c: Controller, f: SendFaults, g: SendFaults) {
    var (c1, powered) := Dispatch(c, ClawPower(c.machine.clawPowerPercent), f);
    && powered && !c.adapter.mock
    && Ready(AfterConnect(c1.adapter, g.before))
    && g.write(3) == Applied
    && GateSurvives(g.after, c.adapter.library)
  }

  lemma RaiseIsSafeIff(c: Controller, seconds: int, g: SendFaults)
    requires !c.adapter.mock && !c.adapter.wires.gate
    ensures var (d, ok) := Dispatch(c, PlayStart(seconds), g);
            && (ok ==> g.write(3) == Done)
            && (!ok ==> (d.adapter.wires.gate <==>
                          && Ready(AfterConnect(c.adapter, g.before)) && g.write(3) == Applied
                          && GateSurvives(g.after, c.adapter.library)))
  {
    hide AfterConnect;
    ConnectLowers(c.adapter, g.before);
    var b := AfterConnect(c.adapter, g.before);
    if Ready(b) && g.write(3) == Applied {
      GateSurvivesIff(DriveGate(b, true), g.after);
    } else {
      ConnectLowers(AfterSend(c.adapter, PlayStart(seconds), g).0, g.after);
    }
  }

  /** The excluded fault is the only one that matters: whatever else fails, a start
      makes a safe state unsafe exactly when it is valid, the power command and the
      check before the raise work, the raise both acts and fails, and the check after
      it leaves the gate alone. */
  lemma FalseAlarmIsTheOnlyHazard(c: Controller, command: PlayStartCommand, now: int, f: SendFaults, g: SendFaults)
    requires GateSafe(c)
    requires c.adapter.mock ==> !c.adapter.wires.gate
    ensures GateSafe(AfterStart(c, command, now, f, g).0)
            <==> !(ValidateStart(command, c.machine).None? && RaisedInVain(c, f, g))
  {
    hide AfterConnect, AfterSend, GateSurvives;
    if ValidateStart(command, c.machine).None? {
      DispatchLowers(c, ClawPower(c.machine.clawPowerPercent), f);
      var (c1, powered) := Dispatch(c, ClawPower(c.machine.clawPowerPercent), f);
      SendLowers(c.adapter, ClawPower(c.machine.clawPowerPercent), f);
      if powered {
        if c.adapter.mock {
          DispatchStart(c1, command.duration, g);
        } else {
          LibraryStays(c, ClawPower(c.machine.clawPowerPercent), f);
          RaiseIsSafeIff(c1, command.duration, g);
        }
      }
    }
  }

  lemma LibraryStays(c: Controller, command: Command, f: SendFaults)
    requires !command.PlayStart?
    ensures Dispatch(c, command, f).0.adapter.library == c.adapter.library
  {
    hide AfterConnect, AfterSend;
    SendLowers(c.adapter, command, f);
    ConnectLowers(AfterSend(c.adapter, command, f).0, f.after);
  }

  /** A start that is valid where it is made and whose raise acts in vain. */
  predicate Hazard(c: Controller, e: Event) {
    e.Start? && ValidateStart(e.command, c.machine).None? && RaisedInVain(c, e.f, e.g)
  }

  lemma StartKeepsMock(c: Controller, command: PlayStartCommand, now: int, f: SendFaults, g: SendFaults)
    ensures var d := AfterStart(c, command, now, f, g).0;
            && d.adapter.mock == c.adapter.mock
            && (c.adapter.mock && !c.adapter.wires.gate ==> !d.adapter.wires.gate)
  {
    hide AfterConnect, AfterSend;
    if ValidateStart(command, c.machine).None? {
      DispatchLowers(c, ClawPower(c.machine.clawPowerPercent), f);
      DispatchStart(Dispatch(c, ClawPower(c.machine.clawPowerPercent), f).0, command.duration, g);
    }
  }

  lemma StepSafeIff(first: int, c: Controller, e: Event)
    requires Consistent(first, c) && GateSafe(c)
    requires c.adapter.mock ==> !c.adapter.wires.gate
    ensures GateSafe(Step(c, e)) <==> !Hazard(c, e)
    ensures Step(c, e).adapter.mock == c.adapter.mock
    ensures c.adapter.mock ==> !Step(c, e).adapter.wires.gate
  {
    hide AfterConnect, AfterSend, AfterStart, RaisedInVain, GateSafe;
    if e.Start? {
      FalseAlarmIsTheOnlyHazard(c, e.command, e.now, e.f, e.g);
      StartKeepsMock(c, e.command, e.now, e.f, e.g);
    } else {
      StepSafe(first, c, e);
    }
  }

  ghost predicate HazardAt(c0: Controller, events: seq<Event>, k: nat) {
    k < |events| && Hazard(Run(c0, events[..k]), events[k])
  }

  ghost predicate SafeThroughout(c0: Controller, events: seq<Event>) {
    forall k :: 0 <= k <= |events| ==> GateSafe(Run(c0, events[..k]))
  }

  lemma SafeThroughoutGrows(c0: Controller, events: seq<Event>)
    requires events != []
    ensures var before := events[..|events| - 1];
            SafeThroughout(c0, events) <==> SafeThroughout(c0, before) && GateSafe(Run(c0, events))
  {
    hide Run, GateSafe;
    var n := |events| - 1;
    assert events[..n + 1] == events;
    forall k | 0 <= k <= n ensures events[..n][..k] == events[..k] {
    }
    if SafeThroughout(c0, events) {
      forall k | 0 <= k <= n ensures GateSafe(Run(c0, events[..n][..k])) {
        assert GateSafe(Run(c0, events[..k]));
      }
      assert GateSafe(Run(c0, events[..n + 1]));
    } else {
      var k :| 0 <= k <= |events| && !GateSafe(Run(c0, events[..k]));
      assert k <= n ==> !GateSafe(Run(c0, events[..n][..k]));
    }
  }

  lemma HazardGrows(c0: Controller, events: seq<Event>)
    requires events != []
    ensures var n := |events| - 1;
            (exists k: nat :: HazardAt(c0, events, k)) <==>
              (exists k: nat :: HazardAt(c0, events[..n], k)) || Hazard(Run(c0, events[..n]), events[n])
  {
    hide Run, Hazard;
    var n := |events| - 1;
    forall k: nat | k < n ensures HazardAt(c0, events[..n], k) <==> HazardAt(c0, events, k) {
      assert events[..n][..k] == events[..k];
    }
    assert HazardAt(c0, events, n) <==> Hazard(Run(c0, events[..n]), events[n]);
  }

  lemma {:induction false} MockNeverRaises(duration: int, percent: int, a: Adapter, events: seq<Event>)
    requires !a.wires.gate
    ensures var c := Run(Initial(duration, percent, a), events);
            c.adapter.mock == a.mock && (a.mock ==> !c.adapter.wires.gate)
  {
    hide AfterStart, AfterConnect, AfterSend;
    var c0 := Initial(duration, percent, a);
    if events != [] {
      var before, e := events[..|events| - 1], events[|events| - 1];
      MockNeverRaises(duration, percent, a, before);
      StepKeepsMock(Run(c0, before), e);
    }
  }

  lemma StepKeepsMock(c: Controller, e: Event)
    ensures Step(c, e).adapter.mock == c.adapter.mock
    ensures c.adapter.mock && !c.adapter.wires.gate ==> !Step(c, e).adapter.wires.gate
  {
    hide AfterConnect, AfterSend, AfterStart, Lose;
    match e
    case ReadStatus(f) => ConnectLowers(c.adapter, f);
    case Start(command, now, f, g) => StartKeepsMock(c, command, now, f, g);
    case Stop(f) => DispatchLowers(c.(generation := c.generation + 1), PlayStop, f);
    case SetPower(percent, f) => DispatchLowers(c, ClawPower(percent), f);
    case Emergency(f) =>
      DispatchLowers(c.(generation := c.generation + 1, machine := c.machine.(emergencyStopped := true)),
                     EmergencyStop, f);
    case Fire(i, f) =>
      if i < |c.timers| {
        DispatchLowers(c.(timers := Without(c.timers, i)), PlayStop, f);
      }
    case Loss(f) => LoseLowers(c.adapter, f);
  }

  lemma NothingYetIsSafe(c0: Controller)
    requires !c0.adapter.wires.gate
    ensures SafeThroughout(c0, [])
  {
    assert Run(c0, [][..0]) == c0;
  }

  /** Which runs stay safe. Whatever pins fail, get lost or are reopened: after every
      call of a run the gate is asserted only under a running play, or after an
      emergency stop whose last command failed, if and only if no start of the run is
      valid where it is made and raises the gate in vain. */
  lemma {:induction false} SafeIffNoHazard(duration: int, percent: int, a: Adapter, events: seq<Event>)
    requires !a.wires.gate
    ensures var c0 := Initial(duration, percent, a);
            SafeThroughout(c0, events) <==> !exists k: nat :: HazardAt(c0, events, k)
  {
    hide Step, GateSafe, Consistent, Hazard;
    var c0 := Initial(duration, percent, a);
    if events == [] {
      NothingYetIsSafe(c0);
    } else {
      var n := |events| - 1;
      SafeIffNoHazard(duration, percent, a, events[..n]);
      SafeThroughoutGrows(c0, events);
      HazardGrows(c0, events);
      if SafeThroughout(c0, events[..n]) {
        assert GateSafe(Run(c0, events[..n][..n])) && events[..n][..n] == events[..n];
        InitialConsistent(duration, percent, a);
        RunKeeps(percent, c0, events[..n]);
        MockNeverRaises(duration, percent, a, events[..n]);
        StepSafeIff(percent, Run(c0, events[..n]), events[n]);
      }
    }
  }

  /** So it is in every run in which no raise of the gate both acts and fails. */
  lemma {:induction false} GateSafety(duration: int, percent: int, a: Adapter, events: seq<Event>)
    requires !a.wires.gate
    requires forall i :: 0 <= i < |events| ==> NoFalseAlarm(events[i])
    ensures var c := Run(Initial(duration, percent, a), events);
            && GateSafe(c)
            && c.adapter.mock == a.mock
            && (a.mock ==> !c.adapter.wires.gate)
  {
    var c0 := Initial(duration, percent, a);
    forall k: nat ensures !HazardAt(c0, events, k) {
      assert k < |events| ==> NoFalseAlarm(events[k]);
    }
    SafeIffNoHazard(duration, percent, a, events);
    assert GateSafe(Run(c0, events[..|events|])) && events[..|events|] == events;
    MockNeverRaises(duration, percent, a, events);
  }

  /** The hazard is real: one start on a controller just switched on. */
  lemma HazardExample() returns (e: Event)
    ensures !GateSafe(Run(Initial(60, 100, Fresh(false, true, Wires(false, [false, false, false]))), [e]))
  {
    hide AfterConnect, AfterSend, AfterStart;
    var c0 := Initial(60, 100, Fresh(false, true, Wires(false, [false, false, false])));
    var vain := SendFaults(FaultFree(), i => Applied, FaultFree());
    e := Start(PlayStartCommand(60, 4, false), 0, NoFaults(), vain);
    CalmPower(c0.adapter, 100, NoFaults());
    var sent := AfterSend(c0.adapter, ClawPower(100), NoFaults()).0;
    CalmCheck(sent, FaultFree());
    CalmCheck(Dispatch(c0, ClawPower(100), NoFaults()).0.adapter, FaultFree());
    FalseAlarmIsTheOnlyHazard(c0, e.command, 0, e.f, e.g);
    assert [e][..0] == [];
    assert Run(c0, [e]) == Step(Run(c0, []), e);
  }

  /** Without faults the gate is asserted exactly while a play is running. */
  lemma {:induction false} GateFollowsPlay(duration: int, percent: int, wires: Wires, events: seq<Event>)
    requires !wires.gate
    requires forall i :: 0 <= i < |events| ==> CalmEvent(events[i])
    ensures var c := Run(Initial(duration, percent, Fresh(false, true, wires)), events);
            Settled(c.adapter) && (c.adapter.wires.gate <==> Running(c))
  {
    var c0 := Initial(duration, percent, Fresh(false, true, wires));
    if events != [] {
      var before := events[..|events| - 1];
      GateFollowsPlay(duration, percent, wires, before);
      InitialConsistent(duration, percent, Fresh(false, true, wires));
      RunKeeps(percent, c0, before);
      CalmStep(Run(c0, before), events[|events| - 1]);
    }
  }

  /** A confirmed start shows the Arduino one rising gate, and never with the
      reserved 111 on the power bits, whatever is lost or reopened around it. */
  lemma StartNeverAsksForHome(c: Controller, command: PlayStartCommand, now: int, f: SendFaults, g: SendFaults)
    requires !c.adapter.mock && !c.adapter.wires.gate
    requires AfterStart(c, command, now, f, g).1.None?
    ensures var seen := AfterStart(c, command, now, f, g).0.adapter.seen;
            exists j :: |c.adapter.seen| <= j < |seen| && seen[j].gate && Level(seen[j].bits) != RESERVED_CODE
                        && forall k :: |c.adapter.seen| <= k < j ==> !seen[k].gate
  {
    var percent := c.machine.clawPowerPercent;
    var sent := AfterSend(c.adapter, ClawPower(percent), f).0;
    SendLowers(c.adapter, ClawPower(percent), f);
    ConnectLowers(sent, f.after);
    var c1 := Dispatch(c, ClawPower(percent), f).0;
    ConnectLowers(c1.adapter, g.before);
    var b := AfterConnect(c1.adapter, g.before);
    PowerLevelInRange(percent);
    var raised := DriveGate(b, true);
    ConnectLowers(raised, g.after);
    var seen := AfterStart(c, command, now, f, g).0.adapter.seen;
    assert seen[|b.seen|] == raised.wires;
    assert forall k :: |c.adapter.seen| <= k < |b.seen| ==> !seen[k].gate;
  }
}
