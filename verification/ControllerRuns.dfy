/** Whole runs of the controller: any sequence of calls, timer wake-ups and
    hardware losses, in any order. */
module ControllerRuns {
  import opened Prelude
  import opened GpioAdapter
  import opened RuntimeController

  datatype Event =
    | ReadStatus(checked: Faults)
    | Start(command: PlayStartCommand, now: int, f: SendFaults, g: SendFaults)
    | Stop(f: SendFaults)
    | SetPower(percent: int, f: SendFaults)
    | Emergency(f: SendFaults)
    | Fire(timer: nat, f: SendFaults)
    | Loss(lost: Faults)

  function Step(c: Controller, e: Event): Controller {
    match e
    case ReadStatus(f) => AfterStatus(c, f)
    case Start(command, now, f, g) => AfterStart(c, command, now, f, g).0
    case Stop(f) => AfterStop(c, f).0
    case SetPower(percent, f) => AfterSetPower(c, percent, f).0
    case Emergency(f) => AfterEmergency(c, f)
    case Fire(i, f) => if i < |c.timers| then AfterTimer(c, i, f) else c
    case Loss(f) => c.(adapter := Lose(c.adapter, f))
  }

  function Run(c: Controller, events: seq<Event>): Controller {
    if events == [] then c else Step(Run(c, events[..|events| - 1]), events[|events| - 1])
  }

  // ------------------------------------------------- what a command log says

  /** A confirmed start is in force. */
  predicate PlayOn(log: seq<Sent>) {
    log != [] &&
    var s, before := log[|log| - 1], log[..|log| - 1];
    match s.command
    case PlayStart(_) => s.ok || PlayOn(before)
    case PlayStop => !s.ok && PlayOn(before)
    case EmergencyStop => false
    case ClawPower(_) => PlayOn(before)
  }

  /** Some PLAY STOP has failed since the last confirmed start. */
  predicate StopFailed(log: seq<Sent>) {
    log != [] &&
    var s, before := log[|log| - 1], log[..|log| - 1];
    match s.command
    case PlayStart(_) => !s.ok && StopFailed(before)
    case PlayStop => !s.ok || StopFailed(before)
    case _ => StopFailed(before)
  }

  predicate EmergencySent(log: seq<Sent>) {
    exists i :: 0 <= i < |log| && log[i].command.EmergencyStop?
  }

  predicate LastEmergencyFailed(log: seq<Sent>) {
    log != [] &&
    var s, before := log[|log| - 1], log[..|log| - 1];
    if s.command.EmergencyStop? then !s.ok else LastEmergencyFailed(before)
  }

  /** The percentage a start has to send: the last one confirmed. */
  function StoredPercent(first: int, log: seq<Sent>): int {
    if log == [] then first else
      var s, before := log[|log| - 1], log[..|log| - 1];
      if s.command.ClawPower? && s.ok then s.command.percent else StoredPercent(first, before)
  }

  /** The commands the controller may utter after `before`. */
  predicate Allowed(first: int, before: seq<Sent>, s: Sent) {
    && (EmergencySent(before) ==> s.command.EmergencyStop?)
    && (s.command.PlayStop? ==> PlayOn(before))
    && (s.command.PlayStart? ==>
          && !PlayOn(before)
          && before != []
          && var setup := before[..|before| - 1];
             before[|before| - 1] == Sent(ClawPower(StoredPercent(first, setup)), true))
  }

  ghost predicate Spoken(first: int, log: seq<Sent>) {
    forall i :: 0 <= i < |log| ==> Allowed(first, log[..i], log[i])
  }

  // --------------------------------------------------------------- invariant

  predicate Live(c: Controller, i: nat)
    requires i < |c.timers|
  {
    c.timers[i].generation == c.generation
  }

  ghost predicate TimersSound(c: Controller) {
    && (forall i, j :: 0 <= i < j < |c.timers| ==> c.timers[i].generation != c.timers[j].generation)
    && (forall i :: 0 <= i < |c.timers| ==> c.timers[i].generation <= c.generation)
    && (forall i :: 0 <= i < |c.timers| && c.timers[i].generation == c.generation ==>
          Running(c) && !StopFailed(c.log) && c.machine.playEndsAt == Some(c.timers[i].deadline))
    && (Running(c) && !StopFailed(c.log) ==>
          exists i :: 0 <= i < |c.timers| && c.timers[i].generation == c.generation)
  }

  ghost predicate Consistent(first: int, c: Controller) {
    && Running(c) == PlayOn(c.log)
    && c.machine.emergencyStopped == EmergencySent(c.log)
    && (c.machine.emergencyStopped ==> !Running(c))
    && c.machine.clawPowerPercent == StoredPercent(first, c.log)
    && Spoken(first, c.log)
    && TimersSound(c)
  }

  // ---------------------------------------------------------- one command sent

  lemma LogGrows(first: int, log: seq<Sent>, s: Sent)
    ensures EmergencySent(log + [s]) == (EmergencySent(log) || s.command.EmergencyStop?)
    ensures Spoken(first, log) && Allowed(first, log, s) ==> Spoken(first, log + [s])
    ensures (log + [s])[..|log|] == log
  {
    var longer := log + [s];
    assert longer[..|log|] == log;
    if EmergencySent(log) {
      var i :| 0 <= i < |log| && log[i].command.EmergencyStop?;
      assert longer[i].command.EmergencyStop?;
    }
    if s.command.EmergencyStop? {
      assert longer[|log|].command.EmergencyStop?;
    }
    if EmergencySent(longer) {
      var i :| 0 <= i < |longer| && longer[i].command.EmergencyStop?;
      assert i < |log| ==> log[i].command.EmergencyStop?;
    }
    if Spoken(first, log) && Allowed(first, log, s) {
      forall i | 0 <= i < |longer| ensures Allowed(first, longer[..i], longer[i]) {
        if i < |log| {
          assert longer[..i] == log[..i];
          assert Allowed(first, log[..i], log[i]);
        }
      }
    }
  }

  lemma StopKeeps(first: int, c: Controller, f: SendFaults)
    requires Consistent(first, c)
    ensures Consistent(first, AfterStop(c, f).0)
  {
    hide AfterSend, AfterConnect;
    if Running(c) {
      var d := Dispatch(c.(generation := c.generation + 1), PlayStop, f);
      LogGrows(first, c.log, Sent(PlayStop, d.1));
    }
  }

  /** A new generation makes every pending timer stale. */
  lemma StaleTimers(c: Controller, d: Controller)
    requires TimersSound(c) && d.timers == c.timers && d.generation == c.generation + 1
    requires Running(d) ==> StopFailed(d.log)
    ensures TimersSound(d)
  {
  }

  lemma EmergencyKeeps(first: int, c: Controller, f: SendFaults)
    requires Consistent(first, c)
    ensures Consistent(first, AfterEmergency(c, f))
  {
    hide AfterSend, AfterConnect, Spoken, EmergencySent, TimersSound;
    var latched := c.(generation := c.generation + 1,
                      machine := c.machine.(emergencyStopped := true));
    var d := Dispatch(latched, EmergencyStop, f);
    LogGrows(first, c.log, Sent(EmergencyStop, d.1));
    StaleTimers(c, AfterEmergency(c, f));
  }

  lemma SetPowerKeeps(first: int, c: Controller, percent: int, f: SendFaults)
    requires Consistent(first, c)
    ensures Consistent(first, AfterSetPower(c, percent, f).0)
  {
    hide AfterSend, AfterConnect;
    var d := Dispatch(c, ClawPower(percent), f);
    LogGrows(first, c.log, Sent(ClawPower(percent), d.1));
  }

  /** Sending a power command the controller already stores. */
  lemma PowerAgainKeeps(first: int, c: Controller, f: SendFaults)
    requires Consistent(first, c) && !c.machine.emergencyStopped
    ensures Consistent(first, Dispatch(c, ClawPower(c.machine.clawPowerPercent), f).0)
  {
    hide AfterSend, AfterConnect;
    var d := Dispatch(c, ClawPower(c.machine.clawPowerPercent), f);
    LogGrows(first, c.log, Sent(ClawPower(c.machine.clawPowerPercent), d.1));
  }

  lemma StartSendKeeps(first: int, c: Controller, seconds: int, g: SendFaults)
    requires Consistent(first, c) && !Running(c) && !c.machine.emergencyStopped
    requires c.log != [] && var setup := c.log[..|c.log| - 1];
             c.log[|c.log| - 1] == Sent(ClawPower(StoredPercent(first, setup)), true)
    ensures var (d, ok) := Dispatch(c, PlayStart(seconds), g);
            && Spoken(first, d.log)
            && EmergencySent(d.log) == EmergencySent(c.log)
            && StoredPercent(first, d.log) == StoredPercent(first, c.log)
            && PlayOn(d.log) == ok
            && (!ok ==> Consistent(first, d))
            && (ok ==> !StopFailed(d.log))
  {
    hide AfterSend, AfterConnect;
    var d := Dispatch(c, PlayStart(seconds), g);
    LogGrows(first, c.log, Sent(PlayStart(seconds), d.1));
  }

  lemma StartKeeps(first: int, c: Controller, command: PlayStartCommand, now: int, f: SendFaults, g: SendFaults)
    requires Consistent(first, c)
    ensures Consistent(first, AfterStart(c, command, now, f, g).0)
  {
    hide AfterSend, AfterConnect;
    if ValidateStart(command, c.machine).None? {
      var percent := c.machine.clawPowerPercent;
      var (c1, powered) := Dispatch(c, ClawPower(percent), f);
      PowerAgainKeeps(first, c, f);
      if powered {
        assert c1.log[..|c1.log| - 1] == c.log;
        StartSendKeeps(first, c1, command.duration, g);
        var (c2, started) := Dispatch(c1, PlayStart(command.duration), g);
        if started {
          BeginKeepsTimers(c1, c2, command, now);
        }
      }
    }
  }

  lemma BeginKeepsTimers(c1: Controller, c2: Controller, command: PlayStartCommand, now: int)
    requires TimersSound(c1) && !StopFailed(c2.log)
    requires c2.timers == c1.timers && c2.generation == c1.generation
    ensures TimersSound(BeginPlay(c2, command, now))
  {
    var b := BeginPlay(c2, command, now);
    assert b.timers[|c2.timers|].generation == b.generation;
  }

  lemma WokenTimers(c: Controller, i: nat)
    requires TimersSound(c) && i < |c.timers|
    ensures var woken := c.(timers := Without(c.timers, i));
            if Live(c, i) then forall j :: 0 <= j < |woken.timers| ==> woken.timers[j].generation < c.generation
            else TimersSound(woken)
    ensures |Without(c.timers, i)| == |c.timers| - 1
    ensures forall j, k :: 0 <= j < k < |c.timers| - 1 ==>
              Without(c.timers, i)[j].generation != Without(c.timers, i)[k].generation
  {
    var woken := c.(timers := Without(c.timers, i));
    if !Live(c, i) && Running(c) && !StopFailed(c.log) {
      var j :| 0 <= j < |c.timers| && c.timers[j].generation == c.generation;
      var k := if j < i then j else j - 1;
      assert woken.timers[k] == c.timers[j];
    }
  }

  lemma FireKeeps(first: int, c: Controller, i: nat, f: SendFaults)
    requires Consistent(first, c) && i < |c.timers|
    ensures Consistent(first, AfterTimer(c, i, f))
  {
    hide AfterSend, AfterConnect, Spoken, EmergencySent, Without;
    WokenTimers(c, i);
    var woken := c.(timers := Without(c.timers, i));
    if Live(c, i) && Running(c) {
      var d := Dispatch(woken, PlayStop, f);
      SpokenStop(first, c.log, d.1);
      LogGrows(first, c.log, Sent(PlayStop, d.1));
    }
  }

  lemma SpokenStop(first: int, log: seq<Sent>, ok: bool)
    requires PlayOn(log) && !EmergencySent(log)
    ensures Allowed(first, log, Sent(PlayStop, ok))
  {
  }

  lemma StepKeeps(first: int, c: Controller, e: Event)
    requires Consistent(first, c)
    ensures Consistent(first, Step(c, e))
  {
    hide AfterStart, AfterStop, AfterSetPower, AfterEmergency, AfterTimer, AfterConnect, Lose;
    match e
    case ReadStatus(f) =>
    case Start(command, now, f, g) => StartKeeps(first, c, command, now, f, g);
    case Stop(f) => StopKeeps(first, c, f);
    case SetPower(percent, f) => SetPowerKeeps(first, c, percent, f);
    case Emergency(f) => EmergencyKeeps(first, c, f);
    case Fire(i, f) => if i < |c.timers| { FireKeeps(first, c, i, f); }
    case Loss(f) =>
  }

  lemma {:induction false} RunKeeps(first: int, c: Controller, events: seq<Event>)
    requires Consistent(first, c)
    ensures Consistent(first, Run(c, events))
  {
    if events != [] {
      RunKeeps(first, c, events[..|events| - 1]);
      StepKeeps(first, Run(c, events[..|events| - 1]), events[|events| - 1]);
    }
  }

  lemma InitialConsistent(duration: int, percent: int, a: Adapter)
    ensures Consistent(percent, Initial(duration, percent, a))
  {
  }
}
