/** What each controller call achieves, told by its own arguments and by the commands
    sent so far. */
module ControllerCalls {
  import opened Prelude
  import opened GpioAdapter
  import opened GpioLaws
  import opened RuntimeController
  import opened ControllerRuns
  import opened CalmCalls
  import opened ControllerTheorems

  // ------------------------------------------------------------- under any faults

  /** A power setting is stored if and only if exactly that setting was sent and
      confirmed; it is then what the wires were left with. Otherwise the old setting
      stays, and the command was refused unsent or sent and failed. */
  lemma PowerIsWhatWasAsked(c: Controller, percent: int, f: SendFaults)
    ensures var (d, error) := AfterSetPower(c, percent, f);
            && (error == Some(EmergencyActive) <==> c.machine.emergencyStopped)
            && (error == Some(BadPower) <==> !c.machine.emergencyStopped && (percent < 40 || percent > 100))
            && (error.None? || error == Some(EmergencyActive) || error == Some(BadPower) || error == Some(MachineFault))
            && d.log == c.log + (if error.None? then [Sent(ClawPower(percent), true)]
                                 else if error == Some(MachineFault) then [Sent(ClawPower(percent), false)] else [])
            && d.machine.clawPowerPercent == (if error.None? then percent else c.machine.clawPowerPercent)
            && (error.None? && !c.adapter.mock ==>
                  Level(AfterSend(c.adapter, ClawPower(percent), f).0.wires.bits) == PowerLevel(percent))
  {
    SendLowers(c.adapter, ClawPower(percent), f);
    hide AfterSend, AfterConnect;
  }

  /** A stop is refused unsent without a play; else PLAY STOP is sent, and the play is
      over if and only if it was confirmed. */
  lemma StopIsSent(c: Controller, f: SendFaults)
    ensures var (d, error) := AfterStop(c, f);
            if !Running(c) then d == c && error == Some(NotRunning)
            else
              && d.log == c.log + [Sent(PlayStop, error.None?)] && (error.None? || error == Some(MachineFault))
              && Running(d) == error.Some?
              && (error.None? ==> d.machine.playEndsAt.None? && d.machine.playStartedAt.None?)
              && d.generation != c.generation && d.timers == c.timers
  {
    hide AfterSend, AfterConnect;
  }

  /** An emergency stop is always sent and always latches. */
  lemma EmergencyIsSent(c: Controller, f: SendFaults)
    ensures var d := AfterEmergency(c, f);
            && |d.log| == |c.log| + 1 && d.log[..|c.log|] == c.log && d.log[|c.log|].command == EmergencyStop
            && d.machine.emergencyStopped && !Running(d) && d.machine.status == EmergencyStatus
            && d.generation != c.generation && d.timers == c.timers
  {
    hide AfterSend, AfterConnect;
  }

  /** A start is refused unsent for the first of these reasons that holds, and else sends
      the stored power and then, if that is confirmed, itself. */
  lemma StartIsSent(c: Controller, command: PlayStartCommand, now: int, f: SendFaults, g: SendFaults)
    ensures var (d, error) := AfterStart(c, command, now, f, g);
            var power := ClawPower(c.machine.clawPowerPercent);
            if c.machine.emergencyStopped then d == c && error == Some(EmergencyActive)
            else if !c.machine.machineEnabled then d == c && error == Some(MachineDisabled)
            else if Running(c) then d == c && error == Some(AlreadyRunning)
            else if command.duration < 10 || command.duration > 180 then d == c && error == Some(BadDuration)
            else if command.startup < 0 || command.startup > 30 then d == c && error == Some(BadStartup)
            else
              && (error.None? || error == Some(MachineFault)) && Running(d) == error.None?
              && (d.log == c.log + [Sent(power, false)]
                  || d.log == c.log + [Sent(power, true), Sent(PlayStart(command.duration), error.None?)])
              && (error.None? ==> d.log[|d.log| - 1] == Sent(PlayStart(command.duration), true)
                                  && d.machine.playMode == Some(if command.testMode then Test else Play)
                                  && d.machine.playDurationSeconds == command.duration)
  {
    hide AfterSend, AfterConnect;
  }

  /** What a call leaves in the status: whether the outputs are usable now, and whether
      the last command failed. */
  lemma SendReports(c: Controller, command: Command, f: SendFaults)
    ensures var (d, ok) := Dispatch(c, command, f);
            && d.machine.arduinoConnected == Ready(d.adapter) && d.machine.mockArduino == d.adapter.mock
            && d.machine.lastError == !ok && (!ok ==> d.machine.status == FaultStatus)
            && d.log == c.log + [Sent(command, ok)]
  {
    hide AfterSend, AfterConnect;
  }

  /** A status reading changes nothing but the two flags, and says that the outputs are
      usable exactly when none was lost or all could be opened again. */
  lemma StatusReports(c: Controller, f: Faults)
    ensures var d := AfterStatus(c, f);
            && d.machine.arduinoConnected == Ready(d.adapter) && d.machine.mockArduino == d.adapter.mock
            && d.log == c.log && d.timers == c.timers && d.generation == c.generation
            && d.machine.(arduinoConnected := false, mockArduino := false)
               == c.machine.(arduinoConnected := false, mockArduino := false)
            && (!c.adapter.mock ==>
                  (d.machine.arduinoConnected <==>
                     || Ready(Lose(c.adapter, f))
                     || (c.adapter.library && forall i :: 0 <= i <= 3 ==> !f.openRaises(i))))
  {
    if !c.adapter.mock {
      ConnectReadyIff(c.adapter, f);
    }
    hide AfterConnect, Lose;
  }

  /** A simulated machine confirms every command and never touches a wire, so its calls
      fail only where their arguments or the state refuse them. */
  lemma MockConfirms(c: Controller, e: Event)
    requires c.adapter.mock && !e.Loss?
    ensures Step(c, e).adapter == c.adapter
    ensures forall i :: |c.log| <= i < |Step(c, e).log| ==> Step(c, e).log[i].ok
    ensures match e
            case Start(command, now, f, g) => AfterStart(c, command, now, f, g).1 != Some(MachineFault)
            case Stop(f) => AfterStop(c, f).1 != Some(MachineFault)
            case SetPower(percent, f) => AfterSetPower(c, percent, f).1 != Some(MachineFault)
            case _ => true
  {
  }

  // ----------------------------------------------------------------- whole runs

  /** The last command sent that is not a confirmed power setting. */
  ghost predicate LastTelling(log: seq<Sent>, i: nat) {
    && i < |log| && !(log[i].command.ClawPower? && log[i].ok)
    && forall j :: i < j < |log| ==> log[j].command.ClawPower? && log[j].ok
  }

  function StatusTold(s: Sent): Status {
    if s.command.EmergencyStop? then EmergencyStatus
    else if !s.ok then FaultStatus
    else if s.command.PlayStart? then RunningStatus
    else ReadyStatus
  }

  ghost predicate Reports(c: Controller) {
    && c.machine.lastError == (c.log != [] && !c.log[|c.log| - 1].ok)
    && (forall i: nat :: LastTelling(c.log, i) ==> c.machine.status == StatusTold(c.log[i]))
    && ((forall i: nat :: !LastTelling(c.log, i)) ==> c.machine.status == ReadyStatus)
    && c.machine.machineEnabled
  }

  lemma TellingGrows(log: seq<Sent>, s: Sent, i: nat)
    ensures LastTelling(log + [s], i) <==>
              if s.command.ClawPower? && s.ok then LastTelling(log, i) else i == |log|
  {
    if s.command.ClawPower? && s.ok && LastTelling(log, i) {
      assert forall j :: i < j < |log| ==> (log + [s])[j] == log[j];
    }
    if LastTelling(log + [s], i) && i < |log| {
      assert (log + [s])[|log|] == s;
      assert forall j :: i < j < |log| ==> (log + [s])[j] == log[j];
    }
  }

  /** Sending a command keeps the report, but for the status a call sets itself. */
  lemma ReportsGrow(c: Controller, d: Controller, s: Sent)
    requires Reports(c) && d.log == c.log + [s]
    requires d.machine.lastError == !s.ok && d.machine.machineEnabled
    requires d.machine.status == if s.command.ClawPower? && s.ok then c.machine.status else StatusTold(s)
    ensures Reports(d)
  {
    forall i: nat ensures LastTelling(d.log, i) <==>
        if s.command.ClawPower? && s.ok then LastTelling(c.log, i) else i == |c.log|
    {
      TellingGrows(c.log, s, i);
    }
    hide LastTelling;
    if !(s.command.ClawPower? && s.ok) {
      assert LastTelling(d.log, |c.log|);
    }
  }

  lemma StartReports(c: Controller, command: PlayStartCommand, now: int, f: SendFaults, g: SendFaults)
    requires Reports(c)
    ensures Reports(AfterStart(c, command, now, f, g).0)
  {
    hide AfterSend, AfterConnect, LastTelling, Reports;
    ReportsEnabled(c);
    if ValidateStart(command, c.machine).None? {
      var power := ClawPower(c.machine.clawPowerPercent);
      var (c1, powered) := Dispatch(c, power, f);
      ReportsGrow(c, c1, Sent(power, powered));
      if powered {
        var (c2, started) := Dispatch(c1, PlayStart(command.duration), g);
        var d := if started then BeginPlay(c2, command, now) else c2;
        ReportsGrow(c1, d, Sent(PlayStart(command.duration), started));
      }
    }
  }

  lemma ReportsEnabled(c: Controller)
    requires Reports(c)
    ensures c.machine.machineEnabled
  {
  }

  lemma SameReports(c: Controller, d: Controller)
    requires Reports(c) && d.log == c.log && d.machine.lastError == c.machine.lastError
    requires d.machine.status == c.machine.status && d.machine.machineEnabled == c.machine.machineEnabled
    ensures Reports(d)
  {
  }

  lemma StepReports(c: Controller, e: Event)
    requires Reports(c)
    ensures Reports(Step(c, e))
  {
    hide AfterSend, AfterConnect, Lose, AfterStart, LastTelling, Reports;
    ReportsEnabled(c);
    match e
    case ReadStatus(f) => SameReports(c, AfterStatus(c, f));
    case Start(command, now, f, g) => StartReports(c, command, now, f, g);
    case Stop(f) =>
      if Running(c) {
        ReportsGrow(c, AfterStop(c, f).0, Sent(PlayStop, AfterStop(c, f).1.None?));
      }
    case SetPower(percent, f) =>
      if ValidateClawPower(percent, c.machine).None? {
        ReportsGrow(c, AfterSetPower(c, percent, f).0, Sent(ClawPower(percent), AfterSetPower(c, percent, f).1.None?));
      }
    case Emergency(f) =>
      var d := AfterEmergency(c, f);
      ReportsGrow(c, d, d.log[|c.log|]);
    case Fire(i, f) =>
      if i < |c.timers| {
        var d := AfterTimer(c, i, f);
        if d.log == c.log {
          SameReports(c, d);
        } else {
          ReportsGrow(c, d, d.log[|c.log|]);
        }
      }
    case Loss(f) => SameReports(c, Step(c, e));
  }

  /** In every run the status is what the last telling command says: running after a
      confirmed start, ready after a confirmed stop, stopped after an emergency, and a
      fault after any failure; and an error is shown exactly while the last command of
      all failed. */
  lemma {:induction false} StatusTellsTheLog(duration: int, percent: int, a: Adapter, events: seq<Event>)
    ensures Reports(Run(Initial(duration, percent, a), events))
  {
    if events != [] {
      hide Step, Reports;
      StatusTellsTheLog(duration, percent, a, events[..|events| - 1]);
      StepReports(Run(Initial(duration, percent, a), events[..|events| - 1]), events[|events| - 1]);
    }
  }

  // ---------------------------------------------------------- without pin faults

  /** Without faults every call succeeds exactly when its arguments and the commands so
      far allow it: a start in range with no play on and no emergency sent, a stop with a
      play on, a power setting in range with no emergency sent, and an emergency always. */
  lemma CalmCallsSucceedIff(first: int, c: Controller, command: PlayStartCommand, now: int, power: int, f: SendFaults)
    requires Consistent(first, c) && Reports(c)
    requires Settled(c.adapter) && c.adapter.wires.gate == Running(c) && CalmSend(f)
    ensures AfterStart(c, command, now, f, f).1.None? <==>
              10 <= command.duration <= 180 && 0 <= command.startup <= 30 && !PlayOn(c.log) && !EmergencySent(c.log)
    ensures AfterStop(c, f).1.None? <==> PlayOn(c.log)
    ensures AfterSetPower(c, power, f).1.None? <==> 40 <= power <= 100 && !EmergencySent(c.log)
    ensures AfterEmergency(c, f).log == c.log + [Sent(EmergencyStop, true)]
  {
    hide AfterSend, AfterConnect, AfterStart, Spoken, TimersSound, LastTelling, EmergencySent, PlayOn;
    CalmStart(c, command, now, f, f);
    CalmDispatchRelease(c.(generation := c.generation + 1), PlayStop, f);
    CalmDispatchRelease(c.(generation := c.generation + 1, machine := c.machine.(emergencyStopped := true)),
                        EmergencyStop, f);
    CalmPower(c.adapter, power, f);
  }

  /** The same, over whole runs without faults. */
  lemma {:induction false} CalmRunsAnswer(duration: int, percent: int, wires: Wires, events: seq<Event>,
                                          command: PlayStartCommand, now: int, power: int, f: SendFaults)
    requires !wires.gate && CalmSend(f)
    requires forall i :: 0 <= i < |events| ==> CalmEvent(events[i])
    ensures var c := Run(Initial(duration, percent, Fresh(false, true, wires)), events);
            && (AfterStart(c, command, now, f, f).1.None? <==>
                  && 10 <= command.duration <= 180 && 0 <= command.startup <= 30
                  && !PlayOn(c.log) && !EmergencySent(c.log))
            && (AfterStop(c, f).1.None? <==> PlayOn(c.log))
            && (AfterSetPower(c, power, f).1.None? <==> 40 <= power <= 100 && !EmergencySent(c.log))
            && AfterEmergency(c, f).log == c.log + [Sent(EmergencyStop, true)]
  {
    var a := Fresh(false, true, wires);
    var c := Run(Initial(duration, percent, a), events);
    InitialConsistent(duration, percent, a);
    RunKeeps(percent, Initial(duration, percent, a), events);
    StatusTellsTheLog(duration, percent, a, events);
    GateFollowsPlay(duration, percent, wires, events);
    hide Run, Consistent, Reports, AfterStart, AfterStop, AfterSetPower, AfterEmergency, Settled;
    CalmCallsSucceedIff(percent, c, command, now, power, f);
  }
}
