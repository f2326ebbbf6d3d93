/** Controller, wires and firmware together. A controller call puts a sequence of
    wire states on the line; the firmware looks at the line whenever it likes,
    between any two of them. */
module PlayProtocol {
  import opened Prelude
  import G = GpioAdapter
  import L = GpioLaws
  import R = RuntimeController
  import opened ControllerRuns
  import opened CalmCalls
  import F = Firmware
  import FR = FirmwareRuns

  /** `pending` are wire states already decided but not yet on the line; `settled`
      says that a pass has seen the line since the last call, made at `called`. The
      latest confirmed start was called at `began` for a window of `window` and is
      `due` to end. */
  datatype System = System(
    c: R.Controller,
    pending: seq<G.Wires>,
    line: G.Wires,
    fw: F.Fw,
    settled: bool,
    began: nat,
    window: int,
    due: int,
    called: nat,
    now: nat)

  datatype Move =
    | Call(e: Event, at: nat)
    | Show
    | Look(input: F.Input)

  /** Calls fail no pin and find a firmware that has looked since the last call. */
  ghost predicate MayCall(s: System, e: Event, at: nat) {
    s.pending == [] && s.settled && CalmEvent(e) && s.now <= at
  }

  /** A pass samples the gate from the line. While a command is still being written
      its three readings of the power bits can be anything. No homing fault occurs. */
  ghost predicate MayLook(s: System, input: F.Input) {
    && input.gateLow == s.line.gate
    && (s.pending == [] ==> input.edgeCode == input.endCode == G.Level(s.line.bits))
    && s.now <= input.clock.edge
    && FR.Timely(s.fw, input)
    && !F.Pass(s.fw, input).home.state.HomingFault?
  }

  ghost predicate May(s: System, m: Move) {
    match m
    case Call(e, at) => MayCall(s, e, at)
    case Show => s.pending != []
    case Look(input) => MayLook(s, input)
  }

  /** A confirmed start opens a new window. */
  function AfterCall(s: System, e: Event, at: nat): System {
    var d := Step(s.c, e);
    var shown := if |s.c.adapter.seen| <= |d.adapter.seen| then d.adapter.seen[|s.c.adapter.seen|..] else [];
    var starts := e.Start? && !R.Running(s.c) && R.Running(d);
    s.(c := d, pending := shown, settled := shown == [], called := at, now := at,
       began := if starts then at else s.began,
       window := if starts then R.WindowMs(e.command) else s.window,
       due := if starts then e.now + R.WindowMs(e.command) else s.due)
  }

  function Do(s: System, m: Move): System {
    match m
    case Call(e, at) => AfterCall(s, e, at)
    case Show => if s.pending == [] then s else s.(line := s.pending[0], pending := s.pending[1..])
    case Look(input) =>
      s.(fw := F.Pass(s.fw, input), settled := s.settled || s.pending == [], now := input.clock.store)
  }

  function Play(s: System, moves: seq<Move>): System {
    if moves == [] then s else Do(Play(s, moves[..|moves| - 1]), moves[|moves| - 1])
  }

  ghost predicate Allowed(s: System, moves: seq<Move>) {
    forall i :: 0 <= i < |moves| ==> May(Play(s, moves[..i]), moves[i])
  }

  function PowerOn(duration: int, percent: int, wires: G.Wires, t: nat): System {
    System(R.Initial(duration, percent, G.Fresh(false, true, wires)), [], wires, F.Setup(t), true, t, 0, t, t, t)
  }

  /** The plays a command log asks for, as the firmware should report them. */
  function Asked(log: seq<R.Sent>): seq<F.Session> {
    if log == [] then [] else
      var s, before := log[|log| - 1], log[..|log| - 1];
      match s.command
      case PlayStart(_) => if s.ok then Asked(before) + [F.Began] else Asked(before)
      case PlayStop => if s.ok then Asked(before) + [F.Ended(true, false)] else Asked(before)
      case EmergencyStop => if PlayOn(before) then Asked(before) + [F.Ended(false, false)] else Asked(before)
      case ClawPower(_) => Asked(before)
  }

  // ----------------------------------------------------------- one controller call

  /** What a call adds to the plays asked for, told by how it ends. */
  function News(c: R.Controller, d: R.Controller): seq<F.Session> {
    if R.Running(c) == R.Running(d) then []
    else if R.Running(d) then [F.Began]
    else [F.Ended(!d.machine.emergencyStopped, false)]
  }

  lemma AskedGrows(log: seq<R.Sent>, s: R.Sent)
    ensures Asked(log + [s]) ==
              Asked(log) + (match s.command
                            case PlayStart(_) => if s.ok then [F.Began] else []
                            case PlayStop => if s.ok then [F.Ended(true, false)] else []
                            case EmergencyStop => if PlayOn(log) then [F.Ended(false, false)] else []
                            case ClawPower(_) => [])
  {
    assert (log + [s])[..|log|] == log;
  }

  lemma StartAsks(c: R.Controller, command: R.PlayStartCommand, now: int, f: G.SendFaults, g: G.SendFaults)
    requires Settled(c.adapter) && c.adapter.wires.gate == R.Running(c) && G.CalmSend(f) && G.CalmSend(g)
    ensures var d := R.AfterStart(c, command, now, f, g).0; Asked(d.log) == Asked(c.log) + News(c, d)
  {
    hide G.AfterSend, G.AfterConnect;
    CalmStart(c, command, now, f, g);
    if R.ValidateStart(command, c.machine).None? {
      var power := R.Sent(G.ClawPower(c.machine.clawPowerPercent), true);
      AskedGrows(c.log, power);
      AskedGrows(c.log + [power], R.Sent(G.PlayStart(command.duration), true));
    }
  }

  lemma StopAsks(c: R.Controller, f: G.SendFaults)
    requires Settled(c.adapter) && G.CalmSend(f) && (R.Running(c) ==> !c.machine.emergencyStopped)
    ensures var d := R.AfterStop(c, f).0; Asked(d.log) == Asked(c.log) + News(c, d)
  {
    hide G.AfterSend, G.AfterConnect;
    CalmDispatchRelease(c.(generation := c.generation + 1), G.PlayStop, f);
    AskedGrows(c.log, R.Sent(G.PlayStop, true));
  }

  lemma FireAsks(c: R.Controller, i: nat, f: G.SendFaults)
    requires i < |c.timers| && Settled(c.adapter) && G.CalmSend(f)
    requires R.Running(c) ==> !c.machine.emergencyStopped
    ensures var d := R.AfterTimer(c, i, f); Asked(d.log) == Asked(c.log) + News(c, d)
  {
    hide G.AfterSend, G.AfterConnect;
    CalmDispatchRelease(c.(timers := R.Without(c.timers, i)), G.PlayStop, f);
    AskedGrows(c.log, R.Sent(G.PlayStop, true));
  }

  lemma EmergencyAsks(c: R.Controller, f: G.SendFaults)
    requires R.Running(c) == PlayOn(c.log)
    ensures var d := R.AfterEmergency(c, f); Asked(d.log) == Asked(c.log) + News(c, d)
  {
    hide G.AfterSend, G.AfterConnect;
    var latched := c.(generation := c.generation + 1, machine := c.machine.(emergencyStopped := true));
    AskedGrows(c.log, R.Sent(G.EmergencyStop, R.Dispatch(latched, G.EmergencyStop, f).1));
  }

  lemma PowerAsks(c: R.Controller, percent: int, f: G.SendFaults)
    ensures var d := R.AfterSetPower(c, percent, f).0; Asked(d.log) == Asked(c.log) + News(c, d)
  {
    hide G.AfterSend, G.AfterConnect;
    AskedGrows(c.log, R.Sent(G.ClawPower(percent), R.Dispatch(c, G.ClawPower(percent), f).1));
  }

  lemma CallAsks(percent: int, c: R.Controller, e: Event)
    requires Consistent(percent, c) && CalmEvent(e) && Settled(c.adapter) && c.adapter.wires.gate == R.Running(c)
    ensures Asked(Step(c, e).log) == Asked(c.log) + News(c, Step(c, e))
  {
    hide R.AfterStart, R.AfterStop, R.AfterSetPower, R.AfterEmergency, R.AfterTimer, G.AfterConnect, Asked;
    match e
    case ReadStatus(f) =>
    case Loss(f) =>
    case Start(command, now, f, g) => StartAsks(c, command, now, f, g);
    case Stop(f) => StopAsks(c, f);
    case SetPower(p, f) => PowerAsks(c, p, f);
    case Emergency(f) => EmergencyAsks(c, f);
    case Fire(i, f) => if i < |c.timers| { FireAsks(c, i, f); }
  }

  // ------------------------------------------------------------------ invariant

  /** Wire states that hold the gate at `gate`. */
  ghost predicate Hold(ws: seq<G.Wires>, gate: bool) {
    forall k :: 0 <= k < |ws| ==> ws[k].gate == gate
  }

  /** The line, or the last state still to come, moves the gate to `gate` with the
      reserved code on the bits exactly when `reserved`. */
  ghost predicate Turning(line: G.Wires, pending: seq<G.Wires>, gate: bool, reserved: bool) {
    if pending == [] then line.gate == gate && (G.Level(line.bits) == RESERVED_CODE) == reserved
    else
      var n := |pending| - 1;
      && line.gate == !gate && Hold(pending[..n], !gate)
      && pending[n].gate == gate && (G.Level(pending[n].bits) == RESERVED_CODE) == reserved
  }

  const CUT_OFF := F.Ended(false, true)

  /** The firmware tells a session as it was asked for, or tells the end of a play as
      a cut-off. */
  predicate Agreed(told: F.Session, asked: F.Session) {
    told == asked || (asked.Ended? && told == CUT_OFF)
  }

  ghost predicate AllAgreed(told: seq<F.Session>, asked: seq<F.Session>) {
    |told| == |asked| && forall i :: 0 <= i < |told| ==> Agreed(told[i], asked[i])
  }

  function Front<T>(s: seq<T>): seq<T>
    requires s != []
  {
    s[..|s| - 1]
  }

  function Last<T>(s: seq<T>): T
    requires s != []
  {
    s[|s| - 1]
  }

  /** Everything asked for has been told. */
  ghost predicate InStep(s: System) {
    var running := R.Running(s.c);
    && AllAgreed(s.fw.play.sessions, Asked(s.c.log))
    && s.fw.play.active == running && s.fw.play.previousReleased == !running
    && s.line.gate == running && Hold(s.pending, running)
  }

  /** A start is on its way. */
  ghost predicate Starting(s: System) {
    var asked := Asked(s.c.log);
    && asked != [] && Last(asked) == F.Began && AllAgreed(s.fw.play.sessions, Front(asked))
    && R.Running(s.c) && !s.fw.play.active && s.fw.play.previousReleased
    && !s.settled && Turning(s.line, s.pending, true, false)
  }

  /** A stop is on its way to a play in progress. */
  ghost predicate Stopping(s: System) {
    var asked := Asked(s.c.log);
    && asked != [] && Last(asked).Ended? && !Last(asked).cutOff && AllAgreed(s.fw.play.sessions, Front(asked))
    && !R.Running(s.c) && s.fw.play.active && !s.fw.play.previousReleased
    && !s.settled && Turning(s.line, s.pending, false, Last(asked).endPulse)
  }

  /** The firmware has cut off a play the controller still runs. */
  ghost predicate CutShort(s: System) {
    var told := s.fw.play.sessions;
    && told != [] && Last(told) == CUT_OFF && AllAgreed(Front(told), Asked(s.c.log))
    && R.Running(s.c) && !s.fw.play.active && !s.fw.play.previousReleased
    && s.line.gate && Hold(s.pending, true)
  }

  /** A stop is on its way to a play already cut off. */
  ghost predicate StoppingLate(s: System) {
    var asked := Asked(s.c.log);
    && asked != [] && Last(asked).Ended? && AllAgreed(s.fw.play.sessions, asked)
    && !R.Running(s.c) && !s.fw.play.active && !s.fw.play.previousReleased
    && !s.settled && Turning(s.line, s.pending, false, Last(asked).endPulse)
  }

  ghost predicate Agree(s: System) {
    InStep(s) || Starting(s) || Stopping(s) || CutShort(s) || StoppingLate(s)
  }

  ghost predicate Linked(percent: int, s: System) {
    && Consistent(percent, s.c)
    && Settled(s.c.adapter) && s.c.adapter.wires.gate == R.Running(s.c)
    && FR.Sound(s.fw) && !s.fw.home.state.HomingFault?
    && s.fw.now <= s.now
    && Agree(s)
  }

  /** The states a call shows turn the gate exactly when it starts or stops a play. */
  lemma CallTurns(percent: int, s: System, e: Event, at: nat)
    requires Linked(percent, s) && MayCall(s, e, at)
    ensures var d := Step(s.c, e);
            && s.c.adapter.seen <= d.adapter.seen
            && Settled(d.adapter) && d.adapter.wires.gate == R.Running(d)
            && var shown := d.adapter.seen[|s.c.adapter.seen|..];
               if R.Running(s.c) == R.Running(d) then Hold(shown, R.Running(d))
               else shown != [] && Turning(s.line, shown, R.Running(d),
                                           !R.Running(d) && !d.machine.emergencyStopped)
  {
    hide Step;
    var d := Step(s.c, e);
    CalmStep(s.c, e);
    L.PowerLevelInRange(s.c.machine.clawPowerPercent);
    var shown := d.adapter.seen[|s.c.adapter.seen|..];
    if R.Running(s.c) != R.Running(d) {
      assert shown[|shown| - 1] == d.adapter.wires;
    }
  }

  lemma CallKeeps(percent: int, s: System, e: Event, at: nat)
    requires Linked(percent, s) && MayCall(s, e, at)
    ensures Linked(percent, AfterCall(s, e, at))
  {
    hide Step, Agree;
    StepKeeps(percent, s.c, e);
    CallTurns(percent, s, e, at);
    CallAsks(percent, s.c, e);
    CallAgrees(s, Step(s.c, e), AfterCall(s, e, at));
  }

  lemma OneMore(told: seq<F.Session>, asked: seq<F.Session>, t: F.Session, a: F.Session)
    requires AllAgreed(told, asked) && Agreed(t, a)
    ensures AllAgreed(told + [t], asked + [a])
  {
  }

  lemma CallAgrees(s: System, d: R.Controller, t: System)
    requires Agree(s) && s.pending == [] && s.settled
    requires t.c == d && t.line == s.line && t.fw == s.fw && t.settled == (t.pending == [])
    requires Asked(d.log) == Asked(s.c.log) + News(s.c, d)
    requires if R.Running(s.c) == R.Running(d) then Hold(t.pending, R.Running(d))
             else t.pending != [] && Turning(s.line, t.pending, R.Running(d),
                                             !R.Running(d) && !d.machine.emergencyStopped)
    ensures Agree(t)
  {
    hide AllAgreed, Asked;
    var asked, told := Asked(s.c.log), s.fw.play.sessions;
    if R.Running(s.c) != R.Running(d) {
      assert Front(asked + News(s.c, d)) == asked;
      if CutShort(s) {
        OneMore(Front(told), asked, CUT_OFF, News(s.c, d)[0]);
        assert Front(told) + [CUT_OFF] == told;
        assert StoppingLate(t);
      }
    } else {
      assert asked + [] == asked;
    }
  }

  lemma TurningShows(line: G.Wires, pending: seq<G.Wires>, gate: bool, reserved: bool)
    requires Turning(line, pending, gate, reserved) && pending != []
    ensures Turning(pending[0], pending[1..], gate, reserved)
  {
    var n := |pending| - 1;
    if n > 0 {
      assert pending[1..][..n - 1] == pending[..n][1..];
      assert pending[..n][0] == pending[0];
    }
  }

  lemma ShowKeeps(percent: int, s: System)
    requires Linked(percent, s) && s.pending != []
    ensures Linked(percent, Do(s, Show))
  {
    hide AllAgreed, Asked, Consistent, Turning;
    if Starting(s) {
      TurningShows(s.line, s.pending, true, false);
    } else if Stopping(s) || StoppingLate(s) {
      TurningShows(s.line, s.pending, false, Last(Asked(s.c.log)).endPulse);
    }
  }

  /** When a pass would measure the play from: its start, or this edge. */
  function StartOf(f: F.Fw, input: F.Input): nat {
    if f.play.active then f.play.startedAt else input.clock.edge
  }

  /** The pass finds the gate low, of a play in progress or starting, at its limit. */
  predicate TooLate(f: F.Fw, input: F.Input) {
    && input.gateLow && (f.play.active || f.play.previousReleased)
    && input.clock.limit - StartOf(f, input) >= F.PLAY_LIMIT
  }

  /** What a pass tells. */
  function Tells(f: F.Fw, input: F.Input): seq<F.Session> {
    (if input.gateLow && f.play.previousReleased then [F.Began] else [])
    + (if TooLate(f, input) then [CUT_OFF]
       else if f.play.active && !input.gateLow then [F.Ended(F.AsksEndPulse(input), false)] else [])
  }

  lemma LookTells(f: F.Fw, input: F.Input)
    requires FR.Sound(f) && FR.Timely(f, input) && !f.home.state.HomingFault?
    requires f.play.active ==> !f.play.previousReleased
    requires input.gateLow && f.play.previousReleased ==> input.edgeCode != RESERVED_CODE
    ensures var g := F.Pass(f, input);
            && g.play.sessions == f.play.sessions + Tells(f, input)
            && g.play.active == (input.gateLow && (f.play.active || f.play.previousReleased) && !TooLate(f, input))
            && g.play.previousReleased == !input.gateLow
            && (g.play.active ==> g.play.startedAt == StartOf(f, input))
  {
    FR.MinusExact(input.clock.limit, StartOf(f, input));
  }

  lemma LookAgrees(s: System, input: F.Input, t: System)
    requires Agree(s)
    requires input.gateLow == s.line.gate
    requires s.pending == [] ==> input.edgeCode == input.endCode == G.Level(s.line.bits)
    requires t == s.(fw := t.fw, settled := s.settled || s.pending == [], now := t.now)
    requires t.fw.play.sessions == s.fw.play.sessions + Tells(s.fw, input)
    requires t.fw.play.active ==
             (input.gateLow && (s.fw.play.active || s.fw.play.previousReleased) && !TooLate(s.fw, input))
    requires t.fw.play.previousReleased == !input.gateLow
    ensures Agree(t)
  {
    hide AllAgreed, Asked;
    var asked, told := Asked(s.c.log), s.fw.play.sessions;
    var late := TooLate(s.fw, input);
    if InStep(s) && R.Running(s.c) {
      assert Front(told + [CUT_OFF]) == told;
      assert t.fw.play.sessions == if late then told + [CUT_OFF] else told;
      assert if late then CutShort(t) else InStep(t);
    } else if Starting(s) && s.line.gate {
      OneMore(told, Front(asked), F.Began, F.Began);
      assert Front(asked) + [F.Began] == asked;
      assert Front(told + [F.Began] + [CUT_OFF]) == told + [F.Began];
      assert t.fw.play.sessions == if late then told + [F.Began] + [CUT_OFF] else told + [F.Began];
      assert if late then CutShort(t) else InStep(t);
    } else if Stopping(s) && s.line.gate {
      OneMore(told, Front(asked), CUT_OFF, Last(asked));
      assert Front(asked) + [Last(asked)] == asked;
      assert t.fw.play.sessions == if late then told + [CUT_OFF] else told;
      assert if late then StoppingLate(t) else Stopping(t);
    } else if Stopping(s) {
      OneMore(told, Front(asked), Last(asked), Last(asked));
      assert Front(asked) + [Last(asked)] == asked;
      assert t.fw.play.sessions == told + [Last(asked)];
      assert InStep(t);
    } else {
      assert t.fw.play.sessions == told;
    }
  }

  lemma LookKeeps(percent: int, s: System, input: F.Input)
    requires Linked(percent, s) && MayLook(s, input)
    ensures Linked(percent, Do(s, Look(input)))
    ensures Do(s, Look(input)).fw.play.sessions == s.fw.play.sessions + Tells(s.fw, input)
  {
    FR.PassKeeps(s.fw, input);
    LookSeesStart(s, input);
    hide F.Pass, Consistent, FR.Sound;
    LookTells(s.fw, input);
    LookAgrees(s, input, Do(s, Look(input)));
  }

  /** Only a start on its way shows a fresh low gate, and never with the reserved code. */
  lemma LookSeesStart(s: System, input: F.Input)
    requires Agree(s) && MayLook(s, input)
    ensures s.fw.play.active ==> !s.fw.play.previousReleased
    ensures input.gateLow && s.fw.play.previousReleased ==> Starting(s) && input.edgeCode != RESERVED_CODE
  {
    hide AllAgreed, Asked, F.Pass;
  }

  // -------------------------------------------------------------------- theorems

  lemma AllowedPrefix(s: System, moves: seq<Move>)
    requires moves != [] && Allowed(s, moves)
    ensures Allowed(s, moves[..|moves| - 1])
    ensures May(Play(s, moves[..|moves| - 1]), moves[|moves| - 1])
  {
    var before := moves[..|moves| - 1];
    forall i | 0 <= i < |before| ensures May(Play(s, before[..i]), before[i]) {
      assert before[..i] == moves[..i];
    }
  }

  lemma {:induction false} PlayKeeps(duration: int, percent: int, wires: G.Wires, t: nat, moves: seq<Move>)
    requires !wires.gate && Allowed(PowerOn(duration, percent, wires, t), moves)
    ensures Linked(percent, Play(PowerOn(duration, percent, wires, t), moves))
  {
    var s0 := PowerOn(duration, percent, wires, t);
    if moves == [] {
      InitialConsistent(duration, percent, s0.c.adapter);
    } else {
      var before := moves[..|moves| - 1];
      AllowedPrefix(s0, moves);
      PlayKeeps(duration, percent, wires, t, before);
      match moves[|moves| - 1]
      case Call(e, at) => CallKeeps(percent, Play(s0, before), e, at);
      case Show => ShowKeeps(percent, Play(s0, before));
      case Look(input) => LookKeeps(percent, Play(s0, before), input);
    }
  }

  /** The firmware's plays are the controller's, for every window the validator
      accepts. At any moment the firmware has told the plays the commands asked for,
      one by one and in order, each end as asked or as a cut-off, but for at most the
      last event: it may have yet to see it, or it may have cut off a play that still
      runs. Once it has looked it has seen everything asked for, and if it has cut
      nothing short its play is on exactly while the controller's is. No start is ever
      read as a home request. */
  lemma {:induction false} FirmwareFollowsController(duration: int, percent: int, wires: G.Wires, t: nat,
                                                     moves: seq<Move>)
    requires !wires.gate && Allowed(PowerOn(duration, percent, wires, t), moves)
    ensures var s := Play(PowerOn(duration, percent, wires, t), moves);
            var told, asked := s.fw.play.sessions, Asked(s.c.log);
            && |asked| <= |told| + 1 && |told| <= |asked| + 1
            && (forall i :: 0 <= i < |told| && i < |asked| ==> Agreed(told[i], asked[i]))
            && (|told| > |asked| ==> R.Running(s.c) && Last(told) == CUT_OFF)
            && (s.settled ==> |told| >= |asked|)
            && (s.settled && |told| == |asked| ==> s.fw.play.active == R.Running(s.c))
            && (forall i :: 0 <= i < |told| ==> told[i] != F.HomeRequested)
  {
    var s := Play(PowerOn(duration, percent, wires, t), moves);
    PlayKeeps(duration, percent, wires, t, moves);
    hide Play, Allowed, Consistent, FR.Sound, Settled;
    AskedShape(s.c.log);
    AgreeMeans(s);
  }

  lemma AgreeMeans(s: System)
    requires Agree(s)
    requires forall i :: 0 <= i < |Asked(s.c.log)| ==> Asked(s.c.log)[i] != F.HomeRequested
    ensures var told, asked := s.fw.play.sessions, Asked(s.c.log);
            && |asked| <= |told| + 1 && |told| <= |asked| + 1
            && (forall i :: 0 <= i < |told| && i < |asked| ==> Agreed(told[i], asked[i]))
            && (|told| > |asked| ==> R.Running(s.c) && Last(told) == CUT_OFF)
            && (s.settled ==> |told| >= |asked|)
            && (s.settled && |told| == |asked| ==> s.fw.play.active == R.Running(s.c))
            && (forall i :: 0 <= i < |told| ==> told[i] != F.HomeRequested)
  {
    hide Asked, Turning;
    var told, asked := s.fw.play.sessions, Asked(s.c.log);
    forall i | 0 <= i < |told| ensures told[i] != F.HomeRequested {
      if i < |asked| {
        assert Agreed(told[i], asked[i]);
      }
    }
  }

  lemma {:induction false} AskedShape(log: seq<R.Sent>)
    ensures forall i :: 0 <= i < |Asked(log)| ==>
              Asked(log)[i] != F.HomeRequested && (Asked(log)[i].Ended? ==> !Asked(log)[i].cutOff)
  {
    if log != [] {
      AskedShape(log[..|log| - 1]);
    }
  }

  // The commands of a log that begin or end a play, by their places in the log.

  function Starts(log: seq<R.Sent>): set<nat> {
    set i: nat | i < |log| && log[i].command.PlayStart? && log[i].ok
  }

  function Stops(log: seq<R.Sent>): set<nat> {
    set i: nat | i < |log| && log[i] == R.Sent(G.PlayStop, true)
  }

  /** Entry `i` is an emergency stop sent in a play. */
  predicate HitsPlay(log: seq<R.Sent>, i: nat)
    requires i < |log|
  {
    log[i].command.EmergencyStop? && PlayOn(log[..i])
  }

  function Emergencies(log: seq<R.Sent>): set<nat> {
    set i: nat | i < |log| && HitsPlay(log, i)
  }

  lemma StartsGrow(log: seq<R.Sent>, s: R.Sent)
    ensures Starts(log + [s]) == Starts(log) + (if s.command.PlayStart? && s.ok then {|log| as nat} else {})
    ensures |Starts(log + [s])| == |Starts(log)| + (if s.command.PlayStart? && s.ok then 1 else 0)
  {
    assert |log| !in Starts(log);
  }

  lemma StopsGrow(log: seq<R.Sent>, s: R.Sent)
    ensures Stops(log + [s]) == Stops(log) + (if s == R.Sent(G.PlayStop, true) then {|log| as nat} else {})
    ensures |Stops(log + [s])| == |Stops(log)| + (if s == R.Sent(G.PlayStop, true) then 1 else 0)
  {
    assert |log| !in Stops(log);
  }

  lemma EmergenciesAppend(log: seq<R.Sent>, s: R.Sent)
    ensures Emergencies(log + [s]) ==
              Emergencies(log) + (if s.command.EmergencyStop? && PlayOn(log) then {|log| as nat} else {})
  {
    hide PlayOn, HitsPlay;
    var more, hit := Emergencies(log + [s]), if s.command.EmergencyStop? && PlayOn(log) then {|log| as nat} else {};
    forall i: nat | i in more ensures i in Emergencies(log) + hit {
      HitsPlayGrows(log, s, i);
    }
    forall i: nat | i in Emergencies(log) + hit ensures i in more {
      HitsPlayGrows(log, s, i);
    }
  }

  lemma EmergenciesGrow(log: seq<R.Sent>, s: R.Sent)
    ensures |Emergencies(log + [s])| == |Emergencies(log)| + (if s.command.EmergencyStop? && PlayOn(log) then 1 else 0)
  {
    assert |log| !in Emergencies(log);
    hide PlayOn, Emergencies;
    EmergenciesAppend(log, s);
  }

  lemma HitsPlayGrows(log: seq<R.Sent>, s: R.Sent, i: nat)
    requires i <= |log|
    ensures HitsPlay(log + [s], i) ==
              if i < |log| then HitsPlay(log, i) else s.command.EmergencyStop? && PlayOn(log)
  {
    hide PlayOn;
    assert (log + [s])[..i] == log[..i];
    assert log[..|log|] == log;
  }

  lemma CountAppends(told: seq<F.Session>, more: seq<F.Session>, what: F.Session)
    requires |more| <= 1
    ensures multiset(told + more)[what] == multiset(told)[what] + (if more == [what] then 1 else 0)
  {
  }

  /** The sessions asked for are one beginning for each confirmed start, one end with an
      end pulse for each confirmed PLAY STOP, its timer's included, and one end without
      for each emergency that hit a play. */
  lemma {:induction false} AskedCounts(log: seq<R.Sent>)
    ensures multiset(Asked(log))[F.Began] == |Starts(log)|
    ensures multiset(Asked(log))[F.Ended(true, false)] == |Stops(log)|
    ensures multiset(Asked(log))[F.Ended(false, false)] == |Emergencies(log)|
  {
    if log != [] {
      hide PlayOn, Asked, Starts, Stops, Emergencies, HitsPlay;
      var before, s := Front(log), Last(log);
      assert log == before + [s];
      AskedCounts(before);
      StartsGrow(before, s);
      StopsGrow(before, s);
      EmergenciesGrow(before, s);
      AskedAppends(before, s);
    }
  }

  lemma AskedAppends(log: seq<R.Sent>, s: R.Sent)
    ensures var asked, more := multiset(Asked(log)), multiset(Asked(log + [s]));
            && more[F.Began] == asked[F.Began] + (if s.command.PlayStart? && s.ok then 1 else 0)
            && more[F.Ended(true, false)] ==
                 asked[F.Ended(true, false)] + (if s == R.Sent(G.PlayStop, true) then 1 else 0)
            && more[F.Ended(false, false)] ==
                 asked[F.Ended(false, false)] + (if s.command.EmergencyStop? && PlayOn(log) then 1 else 0)
  {
    AskedGrows(log, s);
    hide PlayOn, Asked;
    var news := match s.command
                case PlayStart(_) => if s.ok then [F.Began] else []
                case PlayStop => if s.ok then [F.Ended(true, false)] else []
                case EmergencyStop => if PlayOn(log) then [F.Ended(false, false)] else []
                case ClawPower(_) => [];
    CountAppends(Asked(log), news, F.Began);
    CountAppends(Asked(log), news, F.Ended(true, false));
    CountAppends(Asked(log), news, F.Ended(false, false));
  }
}
