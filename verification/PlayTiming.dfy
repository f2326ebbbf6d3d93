/** When a play is cut off: exactly when its gate is still low at the firmware's
    limit, and never if timers and wires are punctual and the window fits. */
module PlayTiming {
  import opened Prelude
  import G = GpioAdapter
  import R = RuntimeController
  import opened ControllerRuns
  import opened CalmCalls
  import F = Firmware
  import FR = FirmwareRuns
  import opened PlayProtocol

  // ------------------------------------------------------------- exactly when

  /** The place of a play's end among the sessions told. */
  function EndIndex(f: F.Fw): nat {
    |f.play.sessions| + if f.play.active then 0 else 1
  }

  /** Move k is a pass that finds the gate of the i-th session's play low at the limit. */
  ghost predicate LowAtLimit(s0: System, moves: seq<Move>, k: nat, i: nat) {
    && k < |moves| && moves[k].Look?
    && var f := Play(s0, moves[..k]).fw;
       TooLate(f, moves[k].input) && i == EndIndex(f)
  }

  lemma LowAtLimitPrefix(s0: System, moves: seq<Move>, n: nat, k: nat, i: nat)
    requires k < n <= |moves|
    ensures LowAtLimit(s0, moves[..n], k, i) <==> LowAtLimit(s0, moves, k, i)
  {
    assert moves[..n][..k] == moves[..k];
  }

  /** One pass adds a cut-off exactly at the end index, and exactly when it is too late. */
  lemma LookCuts(f: F.Fw, input: F.Input, i: nat)
    requires f.play.active ==> !f.play.previousReleased
    requires |f.play.sessions| <= i
    ensures var told := f.play.sessions + Tells(f, input);
            i < |told| && told[i] == CUT_OFF <==> TooLate(f, input) && i == EndIndex(f)
  {
  }

  /** A session told is a cut-off if and only if some pass found the gate of that play
      low at the limit. */
  lemma {:induction false} CutOffIffLowAtLimit(duration: int, percent: int, wires: G.Wires, t: nat, moves: seq<Move>,
                                               i: nat)
    requires !wires.gate && PlayProtocol.Allowed(PowerOn(duration, percent, wires, t), moves)
    ensures var s0 := PowerOn(duration, percent, wires, t);
            var told := Play(s0, moves).fw.play.sessions;
            i < |told| && told[i] == CUT_OFF <==> exists k: nat :: LowAtLimit(s0, moves, k, i)
  {
    var s0 := PowerOn(duration, percent, wires, t);
    if moves != [] {
      var n := |moves| - 1;
      var s := Play(s0, moves[..n]);
      AllowedPrefix(s0, moves);
      CutOffIffLowAtLimit(duration, percent, wires, t, moves[..n], i);
      PlayKeeps(duration, percent, wires, t, moves[..n]);
      OneMoveTells(percent, s, moves[n], i);
      OneMoveLate(s0, moves, i);
    }
  }

  /** What one move changes among the sessions told. */
  lemma OneMoveTells(percent: int, s: System, m: Move, i: nat)
    requires Linked(percent, s) && May(s, m)
    ensures var told, after := s.fw.play.sessions, Do(s, m).fw.play.sessions;
            && told <= after
            && (i >= |told| ==>
                  (i < |after| && after[i] == CUT_OFF <==> m.Look? && TooLate(s.fw, m.input) && i == EndIndex(s.fw)))
  {
    if m.Look? {
      LookKeeps(percent, s, m.input);
      LookSeesStart(s, m.input);
      if i >= |s.fw.play.sessions| {
        LookCuts(s.fw, m.input, i);
      }
    }
  }

  lemma OneMoveLate(s0: System, moves: seq<Move>, i: nat)
    requires moves != []
    ensures var n := |moves| - 1;
            (exists k: nat :: LowAtLimit(s0, moves, k, i)) <==>
              (exists k: nat :: LowAtLimit(s0, moves[..n], k, i)) || LowAtLimit(s0, moves, n, i)
  {
    var n := |moves| - 1;
    forall k: nat | k < n ensures LowAtLimit(s0, moves[..n], k, i) <==> LowAtLimit(s0, moves, k, i) {
      LowAtLimitPrefix(s0, moves, n, k, i);
    }
    assert forall k: nat :: LowAtLimit(s0, moves, k, i) ==> k <= n;
    assert forall k: nat :: LowAtLimit(s0, moves[..n], k, i) ==> k < n;
    hide LowAtLimit;
  }

  // ------------------------------------------------------------ punctual runs

  /** How long, at most: a start takes until it has read the clock, a timer oversleeps,
      a decided wire state takes to appear, and a pass takes from its gate reading to
      its limit check. */
  datatype Delays = Delays(reply: nat, wake: nat, show: nat, pass: nat)

  /** No live timer is still asleep more than `wake` after its deadline. */
  ghost predicate NoneOverslept(c: R.Controller, d: Delays, now: nat) {
    forall i: nat :: i < |c.timers| && Live(c, i) ==> now <= c.timers[i].deadline + d.wake
  }

  ghost predicate PunctualMove(d: Delays, s: System, m: Move) {
    match m
    case Call(e, at) =>
      && NoneOverslept(s.c, d, at)
      && (e.Start? ==> at <= e.now <= at + d.reply)
      && (e.Fire? && e.timer < |s.c.timers| ==> s.c.timers[e.timer].deadline <= at)
    case Show => true
    case Look(input) =>
      && NoneOverslept(s.c, d, input.clock.edge)
      && (s.pending != [] ==> input.clock.edge <= s.called + d.show)
      && input.clock.limit <= input.clock.edge + d.pass
  }

  ghost predicate Punctual(d: Delays, s: System, moves: seq<Move>) {
    forall i :: 0 <= i < |moves| ==> PunctualMove(d, Play(s, moves[..i]), moves[i])
  }

  /** Startup and play, with all delays, end before the firmware's limit. */
  predicate Fits(d: Delays, window: int) {
    window + d.reply + d.wake + d.show + d.pass < F.PLAY_LIMIT
  }

  /** The gate is low neither on the line nor in anything still to come. */
  ghost predicate Low(s: System) {
    s.line.gate || exists k :: 0 <= k < |s.pending| && s.pending[k].gate
  }

  /** What punctual moves keep: the controller's end time is that of the latest start,
      no stop has failed, and while the gate is or is about to be low the latest call
      was made in time. */
  ghost predicate OnTime(d: Delays, s: System) {
    && !StopFailed(s.c.log)
    && (R.Running(s.c) ==> s.c.machine.playEndsAt == Some(s.due))
    && s.due <= s.began + d.reply + s.window
    && s.began <= s.now && s.called <= s.now
    && (Low(s) ==> s.called <= s.due + d.wake)
    && (s.fw.play.active ==> s.began <= s.fw.play.startedAt)
  }

  lemma StopFailedGrows(log: seq<R.Sent>, s: R.Sent)
    ensures StopFailed(log + [s]) == match s.command
                                     case PlayStart(_) => !s.ok && StopFailed(log)
                                     case PlayStop => !s.ok || StopFailed(log)
                                     case _ => StopFailed(log)
  {
    assert (log + [s])[..|log|] == log;
  }

  /** A running play that no stop has failed has a live timer due at its end. */
  lemma RunningIsDue(percent: int, c: R.Controller, d: Delays, now: nat)
    requires Consistent(percent, c) && R.Running(c) && !StopFailed(c.log) && NoneOverslept(c, d, now)
    ensures c.machine.playEndsAt.Some? && now <= c.machine.playEndsAt.value + d.wake
  {
    var i :| 0 <= i < |c.timers| && c.timers[i].generation == c.generation;
    assert Live(c, i);
  }

  // What a call without faults does to end times and to the record of failed stops.

  ghost predicate KeepsTime(c: R.Controller, d: R.Controller) {
    && !StopFailed(d.log)
    && (R.Running(d) ==> R.Running(c) && d.machine.playEndsAt == c.machine.playEndsAt)
  }

  lemma StartTime(c: R.Controller, command: R.PlayStartCommand, now: int, f: G.SendFaults, g: G.SendFaults)
    requires Settled(c.adapter) && c.adapter.wires.gate == R.Running(c) && G.CalmSend(f) && G.CalmSend(g)
    requires !StopFailed(c.log)
    ensures var (d, error) := R.AfterStart(c, command, now, f, g);
            && !StopFailed(d.log)
            && (if error.Some? then d == c
                else && !R.Running(c) && R.Running(d) && R.WindowMs(command) >= 0
                     && d.machine.playEndsAt == Some(now + R.WindowMs(command)))
  {
    hide G.AfterSend, G.AfterConnect;
    CalmStart(c, command, now, f, g);
    if R.ValidateStart(command, c.machine).None? {
      var power := R.Sent(G.ClawPower(c.machine.clawPowerPercent), true);
      StopFailedGrows(c.log, power);
      StopFailedGrows(c.log + [power], R.Sent(G.PlayStart(command.duration), true));
    }
  }

  lemma StopTime(c: R.Controller, f: G.SendFaults)
    requires Settled(c.adapter) && G.CalmSend(f) && !StopFailed(c.log)
    ensures KeepsTime(c, R.AfterStop(c, f).0)
  {
    hide G.AfterSend, G.AfterConnect;
    CalmDispatchRelease(c.(generation := c.generation + 1), G.PlayStop, f);
    StopFailedGrows(c.log, R.Sent(G.PlayStop, true));
  }

  lemma FireTime(c: R.Controller, i: nat, f: G.SendFaults)
    requires i < |c.timers| && Settled(c.adapter) && G.CalmSend(f) && !StopFailed(c.log)
    ensures KeepsTime(c, R.AfterTimer(c, i, f))
  {
    hide G.AfterSend, G.AfterConnect;
    CalmDispatchRelease(c.(timers := R.Without(c.timers, i)), G.PlayStop, f);
    StopFailedGrows(c.log, R.Sent(G.PlayStop, true));
  }

  lemma EmergencyTime(c: R.Controller, f: G.SendFaults)
    requires !StopFailed(c.log)
    ensures KeepsTime(c, R.AfterEmergency(c, f))
  {
    hide G.AfterSend, G.AfterConnect;
    var latched := c.(generation := c.generation + 1, machine := c.machine.(emergencyStopped := true));
    StopFailedGrows(c.log, R.Sent(G.EmergencyStop, R.Dispatch(latched, G.EmergencyStop, f).1));
  }

  lemma PowerTime(c: R.Controller, percent: int, f: G.SendFaults)
    requires !StopFailed(c.log)
    ensures KeepsTime(c, R.AfterSetPower(c, percent, f).0)
  {
    hide G.AfterSend, G.AfterConnect;
    StopFailedGrows(c.log, R.Sent(G.ClawPower(percent), R.Dispatch(c, G.ClawPower(percent), f).1));
  }

  lemma CallTime(c: R.Controller, e: Event)
    requires CalmEvent(e) && Settled(c.adapter) && c.adapter.wires.gate == R.Running(c) && !StopFailed(c.log)
    ensures var d := Step(c, e);
            if e.Start? && !R.Running(c) && R.Running(d)
            then && !StopFailed(d.log) && R.WindowMs(e.command) >= 0
                 && d.machine.playEndsAt == Some(e.now + R.WindowMs(e.command))
            else KeepsTime(c, d)
  {
    hide R.AfterStart, R.AfterStop, R.AfterSetPower, R.AfterEmergency, R.AfterTimer, G.AfterConnect, StopFailed;
    match e
    case ReadStatus(f) =>
    case Loss(f) =>
    case Start(command, now, f, g) => StartTime(c, command, now, f, g);
    case Stop(f) => StopTime(c, f);
    case SetPower(p, f) => PowerTime(c, p, f);
    case Emergency(f) => EmergencyTime(c, f);
    case Fire(i, f) => if i < |c.timers| { FireTime(c, i, f); }
  }

  lemma CallOnTime(percent: int, d: Delays, s: System, e: Event, at: nat)
    requires Linked(percent, s) && MayCall(s, e, at)
    requires OnTime(d, s) && PunctualMove(d, s, Call(e, at))
    ensures OnTime(d, AfterCall(s, e, at))
  {
    CallTime(s.c, e);
    CallTurns(percent, s, e, at);
    GateIsRunning(s);
    hide Step, Consistent, Agree, StopFailed, Turning;
    if R.Running(s.c) {
      RunningIsDue(percent, s.c, d, at);
    }
  }

  /** Once everything is on the line and seen, the gate is low exactly for a running
      play; a play told as started is then still running unless it was cut off. */
  lemma GateIsRunning(s: System)
    requires Agree(s) && s.pending == [] && s.settled
    ensures s.line.gate == R.Running(s.c)
    ensures s.fw.play.active ==> R.Running(s.c)
  {
    hide AllAgreed, Asked;
  }

  lemma ShowOnTime(d: Delays, s: System)
    requires OnTime(d, s) && s.pending != []
    ensures OnTime(d, Do(s, Show))
  {
    hide StopFailed;
    var t := Do(s, Show);
    if k :| 0 <= k < |t.pending| && t.pending[k].gate {
      assert s.pending[k + 1].gate;
    }
    if t.line.gate {
      assert s.pending[0].gate;
    }
  }

  lemma LookOnTime(percent: int, d: Delays, s: System, input: F.Input)
    requires Linked(percent, s) && MayLook(s, input) && OnTime(d, s)
    ensures OnTime(d, Do(s, Look(input)))
  {
    hide F.Pass, StopFailed, Consistent, Agree, Settled, FR.Sound;
    LookSeesStart(s, input);
    LookTells(s.fw, input);
    FR.PassKeeps(s.fw, input);
  }

  /** Where the gate is low a punctual pass comes in time. */
  lemma LowIsInTime(percent: int, d: Delays, s: System, input: F.Input)
    requires Linked(percent, s) && MayLook(s, input)
    requires OnTime(d, s) && PunctualMove(d, s, Look(input)) && s.line.gate
    ensures input.clock.limit <= s.began + d.reply + s.window + d.wake + d.show + d.pass
  {
    LowWithNothingPending(s);
    hide Consistent, Agree, StopFailed;
    if R.Running(s.c) {
      RunningIsDue(percent, s.c, d, input.clock.edge);
    }
  }

  lemma LowWithNothingPending(s: System)
    requires Agree(s) && s.line.gate
    ensures R.Running(s.c) || s.pending != []
  {
    hide AllAgreed, Asked;
  }

  lemma PunctualPrefix(d: Delays, s: System, moves: seq<Move>)
    requires moves != [] && Punctual(d, s, moves)
    ensures Punctual(d, s, moves[..|moves| - 1])
    ensures PunctualMove(d, Play(s, moves[..|moves| - 1]), moves[|moves| - 1])
  {
    var before := moves[..|moves| - 1];
    forall i | 0 <= i < |before| ensures PunctualMove(d, Play(s, before[..i]), before[i]) {
      assert before[..i] == moves[..i];
    }
  }

  lemma {:induction false} PunctualKeeps(d: Delays, duration: int, percent: int, wires: G.Wires, t: nat,
                                         moves: seq<Move>)
    requires !wires.gate && PlayProtocol.Allowed(PowerOn(duration, percent, wires, t), moves)
    requires Punctual(d, PowerOn(duration, percent, wires, t), moves)
    ensures OnTime(d, Play(PowerOn(duration, percent, wires, t), moves))
  {
    var s0 := PowerOn(duration, percent, wires, t);
    if moves != [] {
      var before, m := moves[..|moves| - 1], moves[|moves| - 1];
      AllowedPrefix(s0, moves);
      PunctualPrefix(d, s0, moves);
      PunctualKeeps(d, duration, percent, wires, t, before);
      PlayKeeps(duration, percent, wires, t, before);
      match m
      case Call(e, at) => CallOnTime(percent, d, Play(s0, before), e, at);
      case Show => ShowOnTime(d, Play(s0, before));
      case Look(input) => LookOnTime(percent, d, Play(s0, before), input);
    }
  }

  // -------------------------------------------------------------------- theorems

  /** A pass of a punctual run can find the gate low at the limit only in a play whose
      window does not fit. */
  lemma LowAtLimitMeansTooLong(d: Delays, duration: int, percent: int, wires: G.Wires, t: nat, moves: seq<Move>,
                               k: nat, i: nat)
    requires !wires.gate && PlayProtocol.Allowed(PowerOn(duration, percent, wires, t), moves)
    requires Punctual(d, PowerOn(duration, percent, wires, t), moves)
    requires LowAtLimit(PowerOn(duration, percent, wires, t), moves, k, i)
    ensures !Fits(d, Play(PowerOn(duration, percent, wires, t), moves[..k]).window)
  {
    var s0 := PowerOn(duration, percent, wires, t);
    var before := moves[..k];
    forall j | 0 <= j < k
      ensures May(Play(s0, before[..j]), before[j]) && PunctualMove(d, Play(s0, before[..j]), before[j])
    {
      assert before[..j] == moves[..j];
    }
    PunctualKeeps(d, duration, percent, wires, t, before);
    PlayKeeps(duration, percent, wires, t, before);
    LowIsInTime(percent, d, Play(s0, before), moves[k].input);
  }

  /** A play of a punctual run that is told as cut off is one whose window does not fit. */
  lemma CutOffMeansTooLong(d: Delays, duration: int, percent: int, wires: G.Wires, t: nat, moves: seq<Move>, i: nat)
    requires !wires.gate && PlayProtocol.Allowed(PowerOn(duration, percent, wires, t), moves)
    requires Punctual(d, PowerOn(duration, percent, wires, t), moves)
    requires var told := Play(PowerOn(duration, percent, wires, t), moves).fw.play.sessions;
             i < |told| && told[i] == CUT_OFF
    ensures var s0 := PowerOn(duration, percent, wires, t);
            exists k: nat :: LowAtLimit(s0, moves, k, i) && !Fits(d, Play(s0, moves[..k]).window)
  {
    var s0 := PowerOn(duration, percent, wires, t);
    CutOffIffLowAtLimit(duration, percent, wires, t, moves, i);
    var k: nat :| LowAtLimit(s0, moves, k, i);
    LowAtLimitMeansTooLong(d, duration, percent, wires, t, moves, k, i);
  }

  ghost predicate AllFit(d: Delays, moves: seq<Move>) {
    && Fits(d, 0)
    && forall i :: 0 <= i < |moves| && moves[i].Call? && moves[i].e.Start? ==> Fits(d, R.WindowMs(moves[i].e.command))
  }

  lemma {:induction false} WindowFits(d: Delays, s0: System, moves: seq<Move>)
    requires AllFit(d, moves) && Fits(d, s0.window)
    ensures Fits(d, Play(s0, moves).window)
  {
    if moves != [] {
      WindowFits(d, s0, moves[..|moves| - 1]);
    }
  }

  /** In a punctual run whose windows all fit no play is cut off: the firmware tells
      exactly the sessions asked for, but for at most the last, and once it has looked
      all of them, its play on exactly while the controller's is. */
  lemma {:induction false} FittingPlaysEndAsAsked(d: Delays, duration: int, percent: int, wires: G.Wires, t: nat,
                                                  moves: seq<Move>)
    requires !wires.gate && PlayProtocol.Allowed(PowerOn(duration, percent, wires, t), moves)
    requires Punctual(d, PowerOn(duration, percent, wires, t), moves) && AllFit(d, moves)
    ensures var s := Play(PowerOn(duration, percent, wires, t), moves);
            var told, asked := s.fw.play.sessions, Asked(s.c.log);
            && told <= asked && |asked| <= |told| + 1
            && (s.settled ==> told == asked && s.fw.play.active == R.Running(s.c))
  {
    var s0 := PowerOn(duration, percent, wires, t);
    var s := Play(s0, moves);
    forall i | 0 <= i < |s.fw.play.sessions| ensures s.fw.play.sessions[i] != CUT_OFF {
      CutOffIffLowAtLimit(duration, percent, wires, t, moves, i);
      if k: nat :| LowAtLimit(s0, moves, k, i) {
        WindowFits(d, s0, moves[..k]);
        LowAtLimitMeansTooLong(d, duration, percent, wires, t, moves, k, i);
      }
    }
    FirmwareFollowsController(duration, percent, wires, t, moves);
  }

  // ------------------------------------------------------- windows that do not fit

  /** The only starts called for are this one. */
  predicate OnlyStarts(command: R.PlayStartCommand, moves: seq<Move>) {
    forall i :: 0 <= i < |moves| && moves[i].Call? && moves[i].e.Start? ==> moves[i].e.command == command
  }

  ghost predicate Possible(d: Delays, s0: System, command: R.PlayStartCommand, moves: seq<Move>) {
    PlayProtocol.Allowed(s0, moves) && Punctual(d, s0, moves) && OnlyStarts(command, moves)
  }

  lemma OneMorePossible(d: Delays, s0: System, command: R.PlayStartCommand, moves: seq<Move>, m: Move)
    requires Possible(d, s0, command, moves) && May(Play(s0, moves), m) && PunctualMove(d, Play(s0, moves), m)
    requires m.Call? && m.e.Start? ==> m.e.command == command
    ensures Possible(d, s0, command, moves + [m]) && Play(s0, moves + [m]) == Do(Play(s0, moves), m)
  {
    hide May, PunctualMove, Do;
    var more := moves + [m];
    assert more[..|moves|] == moves;
    forall i | 0 <= i < |more|
      ensures May(Play(s0, more[..i]), more[i]) && PunctualMove(d, Play(s0, more[..i]), more[i])
    {
      if i < |moves| {
        assert more[..i] == moves[..i];
      }
    }
  }

  /** Everything still to come is shown. */
  lemma ShowAll(d: Delays, s0: System, command: R.PlayStartCommand, moves: seq<Move>, gate: bool, reserved: bool)
    returns (more: seq<Move>)
    requires Possible(d, s0, command, moves)
    requires var s := Play(s0, moves); Turning(s.line, s.pending, gate, reserved)
    ensures Possible(d, s0, command, more)
    ensures var s, t := Play(s0, moves), Play(s0, more);
            && t == s.(line := t.line, pending := [])
            && Turning(t.line, [], gate, reserved)
    decreases |Play(s0, moves).pending|
  {
    var s := Play(s0, moves);
    if s.pending == [] {
      more := moves;
    } else {
      TurningShows(s.line, s.pending, gate, reserved);
      OneMorePossible(d, s0, command, moves, Show);
      more := ShowAll(d, s0, command, moves + [Show], gate, reserved);
    }
  }

  /** A pass that reads the gate low at `t`, with `code` on the bits, and checks the
      limit at `limit`. */
  function LowInput(t: nat, limit: nat, code: F.Code): F.Input {
    F.Input(true, code, code, code, true, 0, false, false, F.Clock(t, t, limit, limit, limit, limit, limit, limit))
  }

  lemma FirstPass(f: F.Fw, t: nat, code: F.Code)
    requires FR.Sound(f) && FR.Timely(f, LowInput(t, t, code)) && f.home.state.HomingIdle?
    requires !f.play.active && f.play.previousReleased && code != RESERVED_CODE
    ensures var g := F.Pass(f, LowInput(t, t, code));
            && g.play.active && g.play.startedAt == t && g.play.sessions == f.play.sessions + [F.Began]
            && g.play.checkedAt == t && g.now == t && g.home.state.HomingIdle? && !g.play.previousReleased
  {
    LookTells(f, LowInput(t, t, code));
    FR.PassKeeps(f, LowInput(t, t, code));
  }

  lemma PassAtLimit(f: F.Fw, t: nat, limit: nat, code: F.Code)
    requires FR.Sound(f) && FR.Timely(f, LowInput(t, limit, code)) && f.home.state.HomingIdle?
    requires f.play.active && !f.play.previousReleased && limit >= f.play.startedAt + F.PLAY_LIMIT
    ensures var g := F.Pass(f, LowInput(t, limit, code));
            g.play.sessions == f.play.sessions + [CUT_OFF] && !g.home.state.HomingFault?
  {
    LookTells(f, LowInput(t, limit, code));
  }

  lemma LiveTimersAreDue(percent: int, c: R.Controller, d: Delays, now: nat)
    requires Consistent(percent, c) && c.machine.playEndsAt.Some? && now <= c.machine.playEndsAt.value + d.wake
    ensures NoneOverslept(c, d, now)
  {
  }

  /** A valid start is called, all its wire states appear and a pass sees the gate, all
      at time `t`; the start reads its clock only when its delay is over. */
  ghost predicate Under(s: System, t: nat, due: int) {
    && s.pending == [] && s.settled && s.line.gate && s.now == t
    && R.Running(s.c) && s.c.machine.playEndsAt == Some(due)
    && s.fw.play.active && !s.fw.play.previousReleased && s.fw.play.startedAt == t && s.fw.play.sessions == [F.Began]
    && s.fw.play.checkedAt == t && s.fw.now == t && s.fw.home.state.HomingIdle?
  }

  lemma StartCalled(d: Delays, duration: int, percent: int, wires: G.Wires, t: nat, command: R.PlayStartCommand)
    requires !wires.gate && R.ValidateStart(command, R.InitialMachine(duration, percent)).None?
    ensures var s0, e := PowerOn(duration, percent, wires, t), Start(command, t + d.reply, NoFaults(), NoFaults());
            var s := AfterCall(s0, e, t);
            && MayCall(s0, e, t) && PunctualMove(d, s0, Call(e, t))
            && Turning(s.line, s.pending, true, false)
            && R.Running(s.c) && s.c.machine.playEndsAt == Some(t + d.reply + R.WindowMs(command))
  {
    hide R.AfterStart, G.AfterConnect, Turning;
    var s0, e := PowerOn(duration, percent, wires, t), Start(command, t + d.reply, NoFaults(), NoFaults());
    InitialConsistent(duration, percent, s0.c.adapter);
    FR.SetupSound(t);
    assert Linked(percent, s0);
    CallTurns(percent, s0, e, t);
    StartTime(s0.c, command, t + d.reply, NoFaults(), NoFaults());
    CalmStart(s0.c, command, t + d.reply, NoFaults(), NoFaults());
    hide Consistent, FR.Sound, Agree;
  }

  lemma StartSeen(d: Delays, duration: int, percent: int, wires: G.Wires, t: nat, command: R.PlayStartCommand)
    returns (moves: seq<Move>)
    requires !wires.gate && R.ValidateStart(command, R.InitialMachine(duration, percent)).None?
    ensures var s0 := PowerOn(duration, percent, wires, t);
            && Possible(d, s0, command, moves)
            && Under(Play(s0, moves), t, t + d.reply + R.WindowMs(command))
  {
    hide Step, Turning, MayCall, F.Pass, Consistent, Agree, Settled, FR.Sound;
    var s0, e := PowerOn(duration, percent, wires, t), Start(command, t + d.reply, NoFaults(), NoFaults());
    StartCalled(d, duration, percent, wires, t, command);
    OneMorePossible(d, s0, command, [], Call(e, t));
    assert [] + [Call(e, t)] == [Call(e, t)];
    moves := ShowAll(d, s0, command, [Call(e, t)], true, false);
    var s := Play(s0, moves);
    TurnedLine(s.line, true, false);
    PlayKeeps(duration, percent, wires, t, moves);
    LiveTimersAreDue(percent, s.c, d, t);
    FirstPass(s.fw, t, G.Level(s.line.bits));
    OneMorePossible(d, s0, command, moves, Look(LowInput(t, t, G.Level(s.line.bits))));
    moves := moves + [Look(LowInput(t, t, G.Level(s.line.bits)))];
  }

  lemma FireEnds(c: R.Controller, i: nat, f: G.SendFaults)
    requires i < |c.timers| && Live(c, i) && R.Running(c) && Settled(c.adapter) && G.CalmSend(f)
    ensures !R.Running(R.AfterTimer(c, i, f))
  {
    hide G.AfterSend, G.AfterConnect;
    CalmDispatchRelease(c.(timers := R.Without(c.timers, i)), G.PlayStop, f);
  }

  /** The timer wakes as late as it may and stops the play; nothing of the stop is on
      the line yet. */
  lemma TimerStopsLate(d: Delays, duration: int, percent: int, wires: G.Wires, t: nat, command: R.PlayStartCommand,
                       moves: seq<Move>) returns (more: seq<Move>)
    requires !wires.gate && R.WindowMs(command) >= 0
    requires Possible(d, PowerOn(duration, percent, wires, t), command, moves)
    requires Under(Play(PowerOn(duration, percent, wires, t), moves), t, t + d.reply + R.WindowMs(command))
    ensures var s0, wakes := PowerOn(duration, percent, wires, t), t + d.reply + R.WindowMs(command) + d.wake;
            var s, u := Play(s0, moves), Play(s0, more);
            && Possible(d, s0, command, more)
            && u.fw == s.fw && u.line == s.line && u.pending != [] && u.called == u.now == wakes && !R.Running(u.c)
  {
    hide MayLook, Consistent, Agree, FR.Sound, Turning, R.AfterTimer;
    var s0, wakes := PowerOn(duration, percent, wires, t), t + d.reply + R.WindowMs(command) + d.wake;
    var s := Play(s0, moves);
    PlayKeeps(duration, percent, wires, t, moves);
    PunctualKeeps(d, duration, percent, wires, t, moves);
    LiveTimersAreDue(percent, s.c, d, wakes);
    var i := LiveTimer(percent, s.c);
    var e := Fire(i, NoFaults());
    FireEnds(s.c, i, NoFaults());
    CallTurns(percent, s, e, wakes);
    OneMorePossible(d, s0, command, moves, Call(e, wakes));
    more := moves + [Call(e, wakes)];
  }

  lemma LiveTimer(percent: int, c: R.Controller) returns (i: nat)
    requires Consistent(percent, c) && R.Running(c) && !StopFailed(c.log)
    ensures i < |c.timers| && Live(c, i) && c.machine.playEndsAt == Some(c.timers[i].deadline)
  {
    i :| 0 <= i < |c.timers| && c.timers[i].generation == c.generation;
  }

  /** A play told as cut off, in a punctual run of this one start. */
  ghost predicate CutsOff(d: Delays, s0: System, command: R.PlayStartCommand, moves: seq<Move>) {
    Possible(d, s0, command, moves) && CUT_OFF in Play(s0, moves).fw.play.sessions
  }

  /** A window that does not fit can be cut off: the timer wakes late, and the last pass
      before its stop shows reads the gate low and comes to the limit check late. */
  lemma LateRunIsCutOff(d: Delays, duration: int, percent: int, wires: G.Wires, t: nat, command: R.PlayStartCommand)
    returns (moves: seq<Move>)
    requires !wires.gate && R.ValidateStart(command, R.InitialMachine(duration, percent)).None?
    requires Fits(d, 0) && !Fits(d, R.WindowMs(command))
    ensures CutsOff(d, PowerOn(duration, percent, wires, t), command, moves)
  {
    hide Step, F.Pass, Consistent, Agree, FR.Sound, Turning, Settled, Asked;
    var s0 := PowerOn(duration, percent, wires, t);
    moves := StartSeen(d, duration, percent, wires, t, command);
    moves := TimerStopsLate(d, duration, percent, wires, t, command, moves);
    var s := Play(s0, moves);
    PlayKeeps(duration, percent, wires, t, moves);
    IdleTimers(percent, s.c, d, s.now + d.show);
    var read := s.now + d.show;
    PassAtLimit(s.fw, read, read + d.pass, 0);
    OneMorePossible(d, s0, command, moves, Look(LowInput(read, read + d.pass, 0)));
    moves := moves + [Look(LowInput(read, read + d.pass, 0))];
    assert Last(Play(s0, moves).fw.play.sessions) == CUT_OFF;
  }

  lemma IdleTimers(percent: int, c: R.Controller, d: Delays, now: nat)
    requires Consistent(percent, c) && !R.Running(c)
    ensures NoneOverslept(c, d, now)
  {
  }

  lemma {:induction false} WindowIsTheCommands(s0: System, command: R.PlayStartCommand, moves: seq<Move>)
    requires OnlyStarts(command, moves)
    ensures Play(s0, moves).window == s0.window || Play(s0, moves).window == R.WindowMs(command)
  {
    if moves != [] {
      WindowIsTheCommands(s0, command, moves[..|moves| - 1]);
    }
  }

  /** What a start can promise before it is made. With delays that leave room for any
      play at all, a valid start is played out in every punctual run if and only if its
      window fits: startup, play and delays together stay below 180 s. */
  lemma {:induction false} PlayedOutIffWindowFits(d: Delays, duration: int, percent: int, wires: G.Wires, t: nat,
                                                  command: R.PlayStartCommand)
    requires !wires.gate && R.ValidateStart(command, R.InitialMachine(duration, percent)).None?
    requires Fits(d, 0)
    ensures var s0 := PowerOn(duration, percent, wires, t);
            Fits(d, R.WindowMs(command)) <==> forall moves: seq<Move> :: !CutsOff(d, s0, command, moves)
  {
    var s0 := PowerOn(duration, percent, wires, t);
    if Fits(d, R.WindowMs(command)) {
      forall moves: seq<Move> ensures !CutsOff(d, s0, command, moves) {
        if CutsOff(d, s0, command, moves) {
          var told := Play(s0, moves).fw.play.sessions;
          var i: nat :| i < |told| && told[i] == CUT_OFF;
          CutOffMeansTooLong(d, duration, percent, wires, t, moves, i);
          var k: nat :| LowAtLimit(s0, moves, k, i) && !Fits(d, Play(s0, moves[..k]).window);
          WindowIsTheCommands(s0, command, moves[..k]);
        }
      }
    } else {
      var moves := LateRunIsCutOff(d, duration, percent, wires, t, command);
    }
  }

  /** Without any delay that is a window below 180 s, and a window of 180 s or more can
      be cut off while the controller still runs the play. */
  lemma LongWindowIsCutOff(duration: int, percent: int, wires: G.Wires, t: nat, command: R.PlayStartCommand)
    returns (moves: seq<Move>)
    requires !wires.gate && R.ValidateStart(command, R.InitialMachine(duration, percent)).None?
    requires R.WindowMs(command) >= F.PLAY_LIMIT
    ensures var s0, none := PowerOn(duration, percent, wires, t), Delays(0, 0, 0, 0);
            && Possible(none, s0, command, moves)
            && Play(s0, moves).fw.play.sessions == [F.Began, CUT_OFF]
            && R.Running(Play(s0, moves).c)
  {
    hide Step, F.Pass, Consistent, Agree, FR.Sound, Settled;
    var s0, none, late := PowerOn(duration, percent, wires, t), Delays(0, 0, 0, 0), t + F.PLAY_LIMIT;
    moves := StartSeen(none, duration, percent, wires, t, command);
    var s := Play(s0, moves);
    PlayKeeps(duration, percent, wires, t, moves);
    LiveTimersAreDue(percent, s.c, none, late);
    PassAtLimit(s.fw, late, late, G.Level(s.line.bits));
    OneMorePossible(none, s0, command, moves, Look(LowInput(late, late, G.Level(s.line.bits))));
    moves := moves + [Look(LowInput(late, late, G.Level(s.line.bits)))];
  }

  lemma TurnedLine(line: G.Wires, gate: bool, reserved: bool)
    requires Turning(line, [], gate, reserved)
    ensures line.gate == gate && (G.Level(line.bits) == RESERVED_CODE) == reserved
  {
  }

  // -------------------------------------------------- losses before the first pass

  /** What a loss leaves on a power wire: an undriven one floats. */
  predicate BitAfterLoss(a: G.Adapter, f: G.Faults, i: nat)
    requires i < 3
  {
    if f.lost(i + 1) then f.floats(i) else a.wires.bits[i]
  }

  /** The first pass after a loss that comes between a start and that pass: it reads
      nothing if the gate output is lost; else a home request if all three power wires
      are then high; else the start. */
  lemma FirstPassAfterLoss(a: G.Adapter, f: G.Faults, fw: F.Fw, input: F.Input)
    requires G.Ready(a) && a.wires.gate
    requires FR.Sound(fw) && FR.Timely(fw, input) && !fw.home.state.HomingFault?
    requires !fw.play.active && fw.play.previousReleased
    requires var w := G.Lose(a, f).wires; input.gateLow == w.gate && input.edgeCode == G.Level(w.bits)
    ensures var told, after := fw.play.sessions, F.Pass(fw, input).play.sessions;
            if f.lost(0) then after == told
            else if BitAfterLoss(a, f, 0) && BitAfterLoss(a, f, 1) && BitAfterLoss(a, f, 2)
            then after == told + [F.HomeRequested]
            else told + [F.Began] <= after
  {
    LossOnWires(a, f);
  }

  lemma LossOnWires(a: G.Adapter, f: G.Faults)
    requires G.Ready(a) && a.wires.gate
    ensures var w := G.Lose(a, f).wires;
            && w.gate == !f.lost(0)
            && (G.Level(w.bits) == RESERVED_CODE
                <==> BitAfterLoss(a, f, 0) && BitAfterLoss(a, f, 1) && BitAfterLoss(a, f, 2))
  {
    assert G.Lose(a, f).wires == G.WiresAfterLoss(a.start, a.power, a.wires, f);
  }

  /** Losing the three power outputs with their wires floating high turns any start
      into a home request. */
  lemma LossCanAskForHome(a: G.Adapter, fw: F.Fw, input: F.Input)
    requires G.Ready(a) && a.wires.gate
    requires FR.Sound(fw) && FR.Timely(fw, input) && !fw.home.state.HomingFault?
    requires !fw.play.active && fw.play.previousReleased
    requires input.gateLow && input.edgeCode == RESERVED_CODE
    ensures var f := G.Faults((i: nat) => i > 0, i => true, i => false, i => false, i => false);
            && G.Lose(a, f).wires.gate == input.gateLow && G.Level(G.Lose(a, f).wires.bits) == input.edgeCode
            && F.Pass(fw, input).play.sessions == fw.play.sessions + [F.HomeRequested]
  {
    var f := G.Faults((i: nat) => i > 0, i => true, i => false, i => false, i => false);
    LossOnWires(a, f);
    FirstPassAfterLoss(a, f, fw, input);
  }
}
