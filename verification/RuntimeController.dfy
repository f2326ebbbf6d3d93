/** The controller that owns the machine state and every command sent to the
    Arduino. Each call runs under one lock, so it is one step; timers are the
    sleeping threads a play leaves behind. Times are milliseconds. */
module RuntimeController {
  import opened Prelude
  import opened GpioAdapter

  datatype Status = ReadyStatus | RunningStatus | FaultStatus | EmergencyStatus

  datatype Mode = Play | Test

  datatype Machine = Machine(
    status: Status,
    machineEnabled: bool,
    emergencyStopped: bool,
    playMode: Option<Mode>,
    playDurationSeconds: int,
    playStartedAt: Option<int>,
    playEndsAt: Option<int>,
    clawPowerPercent: int,
    arduinoConnected: bool,
    mockArduino: bool,
    lastError: bool)

  /** A sleeping auto-stop thread. */
  datatype Timer = Timer(generation: nat, deadline: int)

  datatype Sent = Sent(command: Command, ok: bool)

  datatype Controller = Controller(
    machine: Machine,
    adapter: Adapter,
    generation: nat,
    timers: seq<Timer>,
    log: seq<Sent>)

  datatype PlayStartCommand = PlayStartCommand(duration: int, startup: int, testMode: bool)

  datatype SafetyError =
    | EmergencyActive | MachineDisabled | AlreadyRunning | BadDuration | BadStartup
    | NotRunning | BadPower | MachineFault

  function InitialMachine(duration: int, percent: int): Machine {
    Machine(ReadyStatus, true, false, None, duration, None, None, percent, false, true, false)
  }

  function Initial(duration: int, percent: int, adapter: Adapter): Controller {
    Controller(InitialMachine(duration, percent), adapter, 0, [], [])
  }

  predicate Running(c: Controller) {
    c.machine.playMode.Some?
  }

  // -------------------------------------------------------------- validator

  function ValidateStart(command: PlayStartCommand, m: Machine): Option<SafetyError> {
    if m.emergencyStopped then Some(EmergencyActive)
    else if !m.machineEnabled then Some(MachineDisabled)
    else if m.playMode.Some? then Some(AlreadyRunning)
    else if !(10 <= command.duration <= 180) then Some(BadDuration)
    else if !(0 <= command.startup <= 30) then Some(BadStartup)
    else None
  }

  function ValidateStop(m: Machine): Option<SafetyError> {
    if m.playMode.None? then Some(NotRunning) else None
  }

  function ValidateClawPower(percent: int, m: Machine): Option<SafetyError> {
    if m.emergencyStopped then Some(EmergencyActive)
    else if !(40 <= percent <= 100) then Some(BadPower)
    else None
  }

  // ------------------------------------------------------------------ steps

  /** _send followed by _record_response. */
  function Dispatch(c: Controller, command: Command, f: SendFaults): (Controller, bool) {
    var (sent, ok) := AfterSend(c.adapter, command, f);
    var a := AfterConnect(sent, f.after);
    var m := c.machine.(arduinoConnected := Ready(a), mockArduino := a.mock, lastError := !ok,
                        status := if ok then c.machine.status else FaultStatus);
    (c.(machine := m, adapter := a, log := c.log + [Sent(command, ok)]), ok)
  }

  function MarkStopped(m: Machine, status: Status): Machine {
    m.(status := status, playMode := None, playStartedAt := None, playEndsAt := None)
  }

  function AfterStatus(c: Controller, f: Faults): Controller {
    var a := AfterConnect(c.adapter, f);
    c.(adapter := a, machine := c.machine.(arduinoConnected := Ready(a), mockArduino := a.mock))
  }

  function WindowMs(command: PlayStartCommand): int {
    (command.startup + command.duration) * 1000
  }

  /** What a confirmed start leaves behind: a new generation, its deadline and
      its timer. */
  function BeginPlay(c: Controller, command: PlayStartCommand, now: int): Controller {
    var ends := now + WindowMs(command);
    var m := c.machine.(status := RunningStatus,
                        playMode := Some(if command.testMode then Test else Play),
                        playDurationSeconds := command.duration,
                        playStartedAt := Some(now), playEndsAt := Some(ends));
    c.(machine := m, generation := c.generation + 1,
       timers := c.timers + [Timer(c.generation + 1, ends)])
  }

  function AfterStart(c: Controller, command: PlayStartCommand, now: int, f: SendFaults, g: SendFaults)
    : (Controller, Option<SafetyError>)
  {
    var bad := ValidateStart(command, c.machine);
    if bad.Some? then (c, bad) else
      var (c1, powered) := Dispatch(c, ClawPower(c.machine.clawPowerPercent), f);
      if !powered then (c1, Some(MachineFault)) else
        var (c2, started) := Dispatch(c1, PlayStart(command.duration), g);
        if !started then (c2, Some(MachineFault)) else
          (BeginPlay(c2, command, now), None)
  }

  function AfterStop(c: Controller, f: SendFaults): (Controller, Option<SafetyError>) {
    var bad := ValidateStop(c.machine);
    if bad.Some? then (c, bad) else
      var (d, ok) := Dispatch(c.(generation := c.generation + 1), PlayStop, f);
      if ok then (d.(machine := MarkStopped(d.machine, ReadyStatus)), None)
      else (d, Some(MachineFault))
  }

  function AfterSetPower(c: Controller, percent: int, f: SendFaults): (Controller, Option<SafetyError>) {
    var bad := ValidateClawPower(percent, c.machine);
    if bad.Some? then (c, bad) else
      var (d, ok) := Dispatch(c, ClawPower(percent), f);
      if ok then (d.(machine := d.machine.(clawPowerPercent := percent)), None)
      else (d, Some(MachineFault))
  }

  function AfterEmergency(c: Controller, f: SendFaults): Controller {
    var latched := c.(generation := c.generation + 1,
                      machine := c.machine.(emergencyStopped := true));
    var d := Dispatch(latched, EmergencyStop, f).0;
    d.(machine := MarkStopped(d.machine, EmergencyStatus))
  }

  function Without<T>(s: seq<T>, i: nat): seq<T>
    requires i < |s|
  {
    s[..i] + s[i + 1..]
  }

  /** The thread of timer `i` wakes. */
  function AfterTimer(c: Controller, i: nat, f: SendFaults): Controller
    requires i < |c.timers|
  {
    var woken := c.(timers := Without(c.timers, i));
    if c.timers[i].generation != c.generation || c.machine.playMode.None? then woken else
      var (d, ok) := Dispatch(woken, PlayStop, f);
      if ok then d.(machine := MarkStopped(d.machine, ReadyStatus)) else d
  }

  // ---------------------------------------------- the controller in its own form

  class RuntimeController {
    const arduino: GpioArduinoAdapter
    var state: Machine
    var playGeneration: nat
    var timers: seq<Timer>
    ghost var log: seq<Sent>

    ghost function State(): Controller
      reads this, arduino
    {
      Controller(state, arduino.State(), playGeneration, timers, log)
    }

    constructor (arduino: GpioArduinoAdapter, duration: int, percent: int)
      ensures this.arduino == arduino
      ensures State() == Initial(duration, percent, arduino.State())
    {
      this.arduino := arduino;
      state, playGeneration, timers, log := InitialMachine(duration, percent), 0, [], [];
    }

    method GetStatus(f: Faults) returns (snapshot: Machine)
      modifies this, arduino
      ensures State() == AfterStatus(old(State()), f) && snapshot == state
    {
      hide AfterSend, AfterConnect;
      arduino.Connect(f);
      var ready := arduino.OutputsReady();
      state := state.(arduinoConnected := ready, mockArduino := arduino.forceMock);
      return state;
    }

    method Send(command: Command, f: SendFaults) returns (ok: bool)
      modifies this, arduino
      ensures (State(), ok) == Dispatch(old(State()), command, f)
    {
      hide AfterSend, AfterConnect;
      ok := arduino.SendCommand(command, f);
      arduino.Connect(f.after);
      var ready := arduino.OutputsReady();
      state := state.(arduinoConnected := ready, mockArduino := arduino.forceMock);
      log := log + [Sent(command, ok)];
      // _record_response
      if ok {
        state := state.(lastError := false);
      } else {
        state := state.(lastError := true, status := FaultStatus);
      }
    }

    method StartPlay(command: PlayStartCommand, now: int, f: SendFaults, g: SendFaults)
      returns (error: Option<SafetyError>)
      modifies this, arduino
      ensures (State(), error) == AfterStart(old(State()), command, now, f, g)
    {
      hide AfterSend, AfterConnect;
      error := ValidateStart(command, state);
      if error.Some? { return; }
      var powered := Send(ClawPower(state.clawPowerPercent), f);
      if !powered { return Some(MachineFault); }
      var started := Send(PlayStart(command.duration), g);
      if !started { return Some(MachineFault); }
      Begin(command, now);
      return None;
    }

    method Begin(command: PlayStartCommand, now: int)
      modifies this
      ensures State() == BeginPlay(old(State()), command, now)
    {
      playGeneration := playGeneration + 1;
      state := state.(status := RunningStatus,
                      playMode := Some(if command.testMode then Test else Play),
                      playDurationSeconds := command.duration);
      var window := WindowMs(command);
      state := state.(playStartedAt := Some(now), playEndsAt := Some(now + window));
      timers := timers + [Timer(playGeneration, now + window)];
    }

    method StopPlay(f: SendFaults) returns (error: Option<SafetyError>)
      modifies this, arduino
      ensures (State(), error) == AfterStop(old(State()), f)
    {
      hide AfterSend, AfterConnect;
      error := ValidateStop(state);
      if error.Some? { return; }
      playGeneration := playGeneration + 1;
      var ok := Send(PlayStop, f);
      if !ok { return Some(MachineFault); }
      state := MarkStopped(state, ReadyStatus);
      return None;
    }

    method SetClawPower(percent: int, f: SendFaults) returns (error: Option<SafetyError>)
      modifies this, arduino
      ensures (State(), error) == AfterSetPower(old(State()), percent, f)
    {
      hide AfterSend, AfterConnect;
      error := ValidateClawPower(percent, state);
      if error.Some? { return; }
      var ok := Send(ClawPower(percent), f);
      if !ok { return Some(MachineFault); }
      state := state.(clawPowerPercent := percent);
      return None;
    }

    method EmergencyStop(f: SendFaults)
      modifies this, arduino
      ensures State() == AfterEmergency(old(State()), f)
    {
      hide AfterSend, AfterConnect;
      playGeneration := playGeneration + 1;
      state := state.(emergencyStopped := true);
      var _ := Send(Command.EmergencyStop, f);
      state := MarkStopped(state, EmergencyStatus);
    }

    method AutoStopAfterPlay(i: nat, f: SendFaults)
      requires i < |timers|
      modifies this, arduino
      ensures State() == AfterTimer(old(State()), i, f)
    {
      hide AfterSend, AfterConnect;
      var generation := timers[i].generation;
      timers := Without(timers, i);
      if generation != playGeneration || state.playMode.None? { return; }
      var ok := Send(PlayStop, f);
      if ok { state := MarkStopped(state, ReadyStatus); }
    }
  }
}
