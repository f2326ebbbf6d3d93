/** What each dashboard request achieves, told by the request itself and by the commands
    the controller sent during it. */
module DashboardOutcomes {
  import opened Prelude
  import G = GpioAdapter
  import opened RuntimeController
  import opened ControllerRuns
  import opened CalmCalls
  import opened Dashboard

  // ------------------------------------------------------------- confirmed starts

  predicate ConfirmedStart(s: Sent) {
    s.command.PlayStart? && s.ok
  }

  /** From `c` to `d` the log grew, without a confirmed start. */
  ghost predicate NoStart(c: Controller, d: Controller) {
    c.log <= d.log && forall i :: |c.log| <= i < |d.log| ==> !ConfirmedStart(d.log[i])
  }

  /** ... with this confirmed start. */
  ghost predicate Starts(c: Controller, d: Controller, seconds: int) {
    c.log <= d.log && exists i :: |c.log| <= i < |d.log| && d.log[i] == Sent(G.PlayStart(seconds), true)
  }

  ghost predicate StartsSome(c: Controller, d: Controller) {
    c.log <= d.log && exists i :: |c.log| <= i < |d.log| && ConfirmedStart(d.log[i])
  }

  lemma NoStartTwice(c: Controller, d: Controller, e: Controller)
    requires NoStart(c, d) && NoStart(d, e)
    ensures NoStart(c, e)
  {
    forall i | |c.log| <= i < |e.log| ensures !ConfirmedStart(e.log[i]) {
      assert i < |d.log| ==> e.log[i] == d.log[i];
    }
  }

  lemma StartsAround(b: Controller, c: Controller, d: Controller, e: Controller, seconds: int)
    requires NoStart(b, c) && Starts(c, d, seconds) && NoStart(d, e)
    ensures Starts(b, e, seconds)
  {
    var i :| |c.log| <= i < |d.log| && d.log[i] == Sent(G.PlayStart(seconds), true);
    assert e.log[i] == d.log[i];
  }

  lemma NoStartIsNone(c: Controller, d: Controller)
    ensures NoStart(c, d) ==> !StartsSome(c, d)
  {
  }

  lemma StartIsSome(c: Controller, d: Controller, seconds: int)
    ensures Starts(c, d, seconds) ==> StartsSome(c, d)
  {
  }

  lemma StatusNoStart(c: Controller, f: G.Faults)
    ensures NoStart(c, AfterStatus(c, f))
  {
    hide G.AfterConnect;
  }

  lemma TimerNoStart(c: Controller, i: nat, f: G.SendFaults)
    requires i < |c.timers|
    ensures NoStart(c, AfterTimer(c, i, f))
  {
    hide G.AfterConnect, G.AfterSend;
  }

  lemma {:induction false} GapNoStart(c: Controller, events: seq<Event>)
    requires forall i :: 0 <= i < |events| ==> Background(events[i])
    ensures NoStart(c, Run(c, events))
  {
    hide AfterTimer, AfterStatus, G.Lose;
    if events != [] {
      var before := Run(c, events[..|events| - 1]);
      GapNoStart(c, events[..|events| - 1]);
      match events[|events| - 1] {
        case Fire(i, f) => if i < |before.timers| { TimerNoStart(before, i, f); }
        case ReadStatus(f) => StatusNoStart(before, f);
        case Loss(f) =>
      }
      NoStartTwice(c, before, Run(c, events));
    }
  }

  lemma StartOrNot(c: Controller, command: PlayStartCommand, now: int, f: G.SendFaults, g: G.SendFaults)
    ensures var (d, error) := AfterStart(c, command, now, f, g);
            if error.None? then Starts(c, d, command.duration) else NoStart(c, d)
  {
    hide G.AfterConnect, G.AfterSend;
    var (d, error) := AfterStart(c, command, now, f, g);
    if error.None? {
      assert d.log[|c.log| + 1] == Sent(G.PlayStart(command.duration), true);
    }
  }

  lemma RefreshNoStart(w: World, env: Env, k: nat)
    requires Fair(env)
    ensures NoStart(w.ctl, Refresh(w, env, k).ctl)
  {
    GapNoStart(w.ctl, env.gap(k));
    var c := Run(w.ctl, env.gap(k));
    StatusNoStart(c, env.check(k));
    hide AfterStatus, Run;
    NoStartTwice(w.ctl, c, AfterStatus(c, env.check(k)));
  }

  /** The duration asked for, or the nearest one allowed. */
  lemma DurationIsNearest(seconds: int)
    ensures var d := ClampDuration(seconds);
            && 10 <= d <= 180 && (10 <= seconds <= 180 ==> d == seconds)
            && (seconds < 10 ==> d == 10) && (seconds > 180 ==> d == 180)
  {
  }

  // -------------------------------------------------------------------- paid plays

  /** The controller as /api/play finds it when it starts the game. */
  function BeforeStart(w: World, env: Env): Controller {
    Run(AfterStatus(Run(w.ctl, env.gap(0)), env.check(0)), env.gap(1))
  }

  lemma BeforeStartNoStart(w: World, env: Env)
    requires Fair(env)
    ensures NoStart(w.ctl, AfterStatus(Run(w.ctl, env.gap(0)), env.check(0))) && NoStart(w.ctl, BeforeStart(w, env))
  {
    GapNoStart(w.ctl, env.gap(0));
    var a := Run(w.ctl, env.gap(0));
    StatusNoStart(a, env.check(0));
    var b := AfterStatus(a, env.check(0));
    GapNoStart(b, env.gap(1));
    hide AfterStatus, Run;
    NoStartTwice(w.ctl, a, b);
    NoStartTwice(w.ctl, b, BeforeStart(w, env));
  }

  function GameCommand(w: World, testMode: bool): PlayStartCommand {
    PlayStartCommand(ClampDuration(w.panel.playDuration), STARTUP_SECONDS, testMode)
  }

  /** The world between the start of a game and the refresh after it. */
  function AfterGame(w: World, testMode: bool, env: Env): World {
    var command := GameCommand(w, testMode);
    var (d, error) := AfterStart(BeforeStart(w, env), command, env.now, env.send(1), env.send(2));
    var p := w.panel.(playDuration := command.duration);
    w.(ctl := d, panel := if error.Some? then p else Started(p, testMode))
  }

  lemma PlayIsGame(w: World, testMode: bool, env: Env)
    requires MayPlay(w.panel, testMode)
    ensures Handle(w, PlayRoute(testMode), env) == Refresh(AfterGame(w, testMode, env), env, 3)
  {
    hide Refresh, AfterStart, AfterStatus, Run, ClampDuration, Started;
  }

  lemma PlayIsRefused(w: World, testMode: bool, env: Env)
    requires !MayPlay(w.panel, testMode)
    ensures Handle(w, PlayRoute(testMode), env) == w.(ctl := AfterStatus(Run(w.ctl, env.gap(0)), env.check(0)))
  {
    hide AfterStatus, Run;
  }

  lemma GameStartsOrNot(w: World, testMode: bool, env: Env)
    requires Fair(env) && MayPlay(w.panel, testMode)
    ensures var error := AfterStart(BeforeStart(w, env), GameCommand(w, testMode), env.now, env.send(1), env.send(2)).1;
            var v := Handle(w, PlayRoute(testMode), env);
            if error.None? then Starts(w.ctl, v.ctl, ClampDuration(w.panel.playDuration)) else NoStart(w.ctl, v.ctl)
  {
    hide Handle, AfterStart, AfterStatus, Run, Refresh, Starts, NoStart, BeforeStart, ClampDuration, MayPlay, Started;
    var c, u := BeforeStart(w, env), AfterGame(w, testMode, env);
    BeforeStartNoStart(w, env);
    StartOrNot(c, GameCommand(w, testMode), env.now, env.send(1), env.send(2));
    RefreshNoStart(u, env, 3);
    PlayIsGame(w, testMode, env);
    var v := Refresh(u, env, 3);
    if AfterStart(c, GameCommand(w, testMode), env.now, env.send(1), env.send(2)).1.None? {
      StartsAround(w.ctl, c, u.ctl, v.ctl, ClampDuration(w.panel.playDuration));
    } else {
      NoStartTwice(w.ctl, c, u.ctl);
      NoStartTwice(w.ctl, u.ctl, v.ctl);
    }
  }

  /** A play is paid for exactly when it starts: one credit less and one play of the day
      more if and only if the request was no test and the controller confirmed a start
      during it, which takes all five guards; and a start, test or not, uses up the
      photo. Otherwise nothing of these changes. */
  lemma PlayIsPaidIffStarted(w: World, testMode: bool, env: Env)
    requires Fair(env)
    ensures var v := Handle(w, PlayRoute(testMode), env);
            var started := StartsSome(w.ctl, v.ctl);
            var paid := if started && !testMode then 1 else 0;
            && v.panel.credits == w.panel.credits - paid && v.panel.playsToday == w.panel.playsToday + paid
            && v.panel.photoReady == (w.panel.photoReady && !started)
            && (started ==> && !w.panel.maintenance && w.panel.machineEnabled && w.panel.playMode.None?
                            && w.panel.photoReady && (testMode || w.panel.credits >= 1))
  {
    hide AfterStart, AfterStatus, Run, Refresh, StartsSome, NoStart, Starts, Handle, BeforeStart, ClampDuration;
    var v := Handle(w, PlayRoute(testMode), env);
    NoStartIsNone(w.ctl, v.ctl);
    if MayPlay(w.panel, testMode) {
      var u := AfterGame(w, testMode, env);
      GameStartsOrNot(w, testMode, env);
      StartIsSome(w.ctl, v.ctl, ClampDuration(w.panel.playDuration));
      PlayIsGame(w, testMode, env);
      RefreshBalance(u, env, 3);
      RefreshEndsPlay(u, env, 3);
    } else {
      BeforeStartNoStart(w, env);
      PlayIsRefused(w, testMode, env);
    }
  }

  // --------------------------------------------------------------- without faults

  ghost predicate CalmEnv(env: Env) {
    && Fair(env)
    && (forall k: nat, i :: 0 <= i < |env.gap(k)| ==> CalmEvent(env.gap(k)[i]))
    && (forall k: nat :: G.Calm(env.check(k)) && G.CalmSend(env.send(k)))
  }

  /** A controller whose outputs work and whose gate says whether it plays. */
  ghost predicate InOrder(c: Controller) {
    && Settled(c.adapter) && c.adapter.wires.gate == Running(c) && c.machine.machineEnabled
    && (c.machine.emergencyStopped ==> !Running(c))
  }

  /** Timers and status readings leave the order, the latch and the power alone. */
  ghost predicate Undisturbed(c: Controller, d: Controller) {
    && InOrder(d) && (Running(d) ==> Running(c))
    && d.machine.emergencyStopped == c.machine.emergencyStopped
    && d.machine.clawPowerPercent == c.machine.clawPowerPercent
  }

  lemma BackgroundUndisturbed(c: Controller, e: Event)
    requires InOrder(c) && Background(e) && CalmEvent(e)
    ensures Undisturbed(c, Step(c, e))
  {
    CalmStep(c, e);
    hide G.AfterConnect, G.AfterSend, G.Lose, Settled;
  }

  lemma {:induction false} GapUndisturbed(c: Controller, events: seq<Event>)
    requires InOrder(c)
    requires forall i :: 0 <= i < |events| ==> Background(events[i]) && CalmEvent(events[i])
    ensures Undisturbed(c, Run(c, events))
  {
    if events != [] {
      hide Step, Settled;
      GapUndisturbed(c, events[..|events| - 1]);
      BackgroundUndisturbed(Run(c, events[..|events| - 1]), events[|events| - 1]);
    }
  }

  lemma CheckUndisturbed(c: Controller, env: Env, k: nat)
    requires InOrder(c) && CalmEnv(env)
    ensures Undisturbed(c, Run(c, env.gap(k)))
    ensures Undisturbed(c, AfterStatus(Run(c, env.gap(k)), env.check(k)))
    ensures Running(AfterStatus(Run(c, env.gap(k)), env.check(k))) == Running(Run(c, env.gap(k)))
  {
    GapUndisturbed(c, env.gap(k));
    BackgroundUndisturbed(Run(c, env.gap(k)), ReadStatus(env.check(k)));
    hide Run, G.AfterConnect, Settled;
  }

  /** Without faults a play request that meets the five guards, on an idle machine
      without an emergency, does start a play: of the duration set, with four seconds of
      startup, in the mode asked for. */
  lemma GuardedPlayStarts(w: World, testMode: bool, env: Env)
    requires CalmEnv(env) && InOrder(w.ctl) && !Running(w.ctl) && !w.ctl.machine.emergencyStopped
    requires MayPlay(w.panel, testMode)
    ensures var v, seconds := Handle(w, PlayRoute(testMode), env), ClampDuration(w.panel.playDuration);
            && Starts(w.ctl, v.ctl, seconds)
            && (env.gap(3) == [] ==>
                  && v.panel.playMode == Some(if testMode then Test else Play)
                  && v.ctl.machine.playMode == v.panel.playMode && v.panel.playDuration == seconds
                  && v.ctl.machine.playEndsAt == Some(env.now + 1000 * (4 + seconds)))
  {
    hide AfterStart, AfterStatus, Run, Refresh, Starts, NoStart, ClampDuration, Handle, InOrder, Started;
    var command, c := GameCommand(w, testMode), BeforeStart(w, env);
    DurationIsNearest(w.panel.playDuration);
    IdleBeforeStart(w, env);
    StartSucceeds(c, command, env.now, env.send(1), env.send(2));
    GameStartsOrNot(w, testMode, env);
    if env.gap(3) == [] {
      StartSets(c, command, env.now, env.send(1), env.send(2));
      PlayIsGame(w, testMode, env);
      hide BeforeStart;
      RefreshShows(AfterGame(w, testMode, env), env, 3);
      StartedMode(w.panel.(playDuration := command.duration), testMode);
    }
  }

  lemma StartedMode(p: Panel, testMode: bool)
    ensures Started(p, testMode).playMode == Some(if testMode then Test else Play)
    ensures Started(p, testMode).playDuration == p.playDuration
  {
  }

  lemma IdleBeforeStart(w: World, env: Env)
    requires CalmEnv(env) && InOrder(w.ctl) && !Running(w.ctl) && !w.ctl.machine.emergencyStopped
    ensures var c := BeforeStart(w, env); InOrder(c) && !Running(c) && !c.machine.emergencyStopped
  {
    CheckUndisturbed(w.ctl, env, 0);
    CheckUndisturbed(AfterStatus(Run(w.ctl, env.gap(0)), env.check(0)), env, 1);
  }

  lemma StartSucceeds(c: Controller, command: PlayStartCommand, now: int, f: G.SendFaults, g: G.SendFaults)
    requires InOrder(c) && !Running(c) && !c.machine.emergencyStopped && G.CalmSend(f) && G.CalmSend(g)
    requires 10 <= command.duration <= 180 && 0 <= command.startup <= 30
    ensures AfterStart(c, command, now, f, g).1.None?
  {
    hide AfterStart;
    CalmStart(c, command, now, f, g);
  }

  /** With nothing in between a refresh shows the play the controller runs. */
  lemma RefreshShows(w: World, env: Env, k: nat)
    requires env.gap(k) == [] && Running(w.ctl)
    ensures var v := Refresh(w, env, k);
            && v.panel.playMode == w.panel.playMode && v.panel.playDuration == w.panel.playDuration
            && v.ctl.machine.playMode == w.ctl.machine.playMode && v.ctl.machine.playEndsAt == w.ctl.machine.playEndsAt
  {
    hide G.AfterConnect;
    assert Run(w.ctl, []) == w.ctl;
  }

  lemma StartSets(c: Controller, command: PlayStartCommand, now: int, f: G.SendFaults, g: G.SendFaults)
    requires AfterStart(c, command, now, f, g).1.None?
    ensures var d := AfterStart(c, command, now, f, g).0;
            && d.machine.playMode == Some(if command.testMode then Test else Play)
            && d.machine.playEndsAt == Some(now + 1000 * (command.startup + command.duration))
  {
    hide G.AfterConnect, G.AfterSend;
  }

  /** Without faults a direct start outside maintenance, on an idle machine without an
      emergency, starts a play of the duration asked for, without startup. */
  lemma DirectStartStarts(w: World, seconds: int, testMode: bool, env: Env)
    requires CalmEnv(env) && InOrder(w.ctl) && !Running(w.ctl) && !w.ctl.machine.emergencyStopped
    ensures var v := Handle(w, ApiPlayStart(seconds, testMode), env);
            if w.panel.maintenance then v == w
            else
              && Starts(w.ctl, v.ctl, ClampDuration(seconds))
              && (env.gap(2) == [] ==>
                    && v.panel.playMode == Some(if testMode then Test else Play)
                    && v.ctl.machine.playMode == v.panel.playMode && v.panel.playDuration == ClampDuration(seconds)
                    && v.ctl.machine.playEndsAt == Some(env.now + 1000 * ClampDuration(seconds)))
  {
    if !w.panel.maintenance {
      hide AfterStart, AfterStatus, Run, Refresh, Starts, NoStart, ClampDuration, Handle, InOrder;
      var command, c := PlayStartCommand(ClampDuration(seconds), 0, testMode), Run(w.ctl, env.gap(0));
      DurationIsNearest(seconds);
      CheckUndisturbed(w.ctl, env, 0);
      StartSucceeds(c, command, env.now, env.send(0), env.send(1));
      StartOrNot(c, command, env.now, env.send(0), env.send(1));
      StartSets(c, command, env.now, env.send(0), env.send(1));
      GapNoStart(w.ctl, env.gap(0));
      var d := AfterStart(c, command, env.now, env.send(0), env.send(1)).0;
      var u := w.(ctl := d, panel := w.panel.(playMode := Some(if testMode then Test else Play),
                                              playDuration := command.duration));
      DirectStartIs(w, seconds, testMode, env);
      RefreshNoStart(u, env, 2);
      StartsAround(w.ctl, c, d, Refresh(u, env, 2).ctl, command.duration);
      if env.gap(2) == [] {
        RefreshShows(u, env, 2);
      }
    } else {
      hide AfterStart, AfterStatus, Run, Refresh, Starts, NoStart, ClampDuration;
    }
  }

  lemma DirectStartIs(w: World, seconds: int, testMode: bool, env: Env)
    requires !w.panel.maintenance
    ensures var command := PlayStartCommand(ClampDuration(seconds), 0, testMode);
            var (d, error) := AfterStart(Run(w.ctl, env.gap(0)), command, env.now, env.send(0), env.send(1));
            error.None? ==>
              Handle(w, ApiPlayStart(seconds, testMode), env) ==
              Refresh(w.(ctl := d, panel := w.panel.(playMode := Some(if testMode then Test else Play),
                                                     playDuration := command.duration)), env, 2)
  {
    hide AfterStart, AfterStatus, Run, Refresh, ClampDuration;
  }

  // ------------------------------------------------------------------------- stops

  /** A status request drops a play, with its photo, exactly when the controller no longer
      runs one, and changes nothing else of these. */
  lemma StatusAgrees(w: World, env: Env)
    ensures var v := Handle(w, Status, env);
            && v.panel.playMode == (if Running(v.ctl) then w.panel.playMode else None)
            && v.panel.photoReady == (w.panel.photoReady && !(w.panel.playMode.Some? && !Running(v.ctl)))
            && v.panel.machineEnabled == v.ctl.machine.machineEnabled
            && v.panel.credits == w.panel.credits && v.panel.playsToday == w.panel.playsToday
            && v.panel.maintenance == w.panel.maintenance && v.panel.playDuration == w.panel.playDuration
  {
    hide Run, G.AfterConnect;
  }

  /** What the routes that stop a game achieve, whatever fails: nothing without a play on
      the panel; else, if their stop does not raise, both machines are idle; and if it
      does, the panel is as it was, or, for the player's stop, shows no play the
      controller does not run. */
  lemma StopsAchieve(w: World, env: Env, refreshOnError: bool)
    requires Fair(env) && TwoMachines(w)
    ensures var v := HandleStop(w, refreshOnError, env);
            if w.panel.playMode.None? then v == w
            else if StopGame(w, env, 0).1.None? then !Running(v.ctl) && v.panel.playMode.None?
            else if refreshOnError then v.panel.playMode.Some? ==> Running(v.ctl)
            else v.panel == w.panel
  {
    hide StopGame, Run, Refresh;
    StopGameKeeps(w, env, 0);
    var s := StopGame(w, env, 0).0;
    RefreshAgrees(s, env, 2);
    RefreshStaysIdle(s, env, 2);
  }

  /** A reset whose stop raises changes nothing on the panel; any other leaves it idle,
      without a photo, credits or plays. */
  lemma ResetAchieves(w: World, env: Env)
    requires Fair(env) && TwoMachines(w)
    ensures var v := Handle(w, ResetRoute, env);
            if StopGame(w, env, 0).1.Some? then v.panel == w.panel
            else && !Running(v.ctl) && v.panel.playMode.None? && !v.panel.photoReady
                 && v.panel.credits == 0 && v.panel.playsToday == 0 && v.panel.maintenance == w.panel.maintenance
  {
    hide StopGame, Run, Refresh;
    StopGameKeeps(w, env, 0);
    var s := StopGame(w, env, 0).0;
    var u := s.(panel := s.panel.(photoReady := false, credits := 0, playsToday := 0));
    RefreshAgrees(u, env, 2);
    RefreshStaysIdle(u, env, 2);
    RefreshEndsPlay(u, env, 2);
    RefreshBalance(u, env, 2);
  }

  /** Disabling with a play on the panel stops it; a stop that raises leaves the panel
      disabled, and nothing else changed. */
  lemma DisableAchieves(w: World, env: Env)
    requires Fair(env) && TwoMachines(w) && w.panel.playMode.Some?
    ensures var v := Handle(w, DisableMachine, env);
            if StopGame(w, env, 0).1.None? then !Running(v.ctl) && v.panel.playMode.None?
            else v.panel == w.panel.(machineEnabled := false)
  {
    hide StopGame, Run, Refresh;
    var off := w.(panel := w.panel.(machineEnabled := false));
    StopGameKeeps(off, env, 0);
    SameStop(w, off, env);
    var s := StopGame(off, env, 0).0;
    RefreshAgrees(s, env, 2);
    RefreshStaysIdle(s, env, 2);
  }

  lemma RefreshStaysIdle(w: World, env: Env, k: nat)
    requires Fair(env)
    ensures Running(Refresh(w, env, k).ctl) ==> Running(w.ctl)
  {
    GapOnlyStops(w.ctl, env, k);
    hide Run, G.AfterConnect;
  }

  lemma SameStop(w: World, u: World, env: Env)
    requires u.ctl == w.ctl
    ensures StopGame(u, env, 0).1 == StopGame(w, env, 0).1 && StopGame(u, env, 0).0.ctl == StopGame(w, env, 0).0.ctl
  {
    hide Run, AfterStatus, AfterStop;
  }

  /** Maintenance becomes what was asked for unless a stop it needed has raised. */
  lemma MaintenanceAchieves(w: World, enabled: bool, env: Env)
    requires Fair(env) && TwoMachines(w)
    ensures var v := Handle(w, Maintenance(enabled), env);
            if enabled && w.panel.playMode.Some? && StopGame(w, env, 0).1.Some? then v.panel == w.panel
            else v.panel.maintenance == enabled && (enabled ==> !Running(v.ctl))
  {
    hide StopGame, Run, AfterStatus, Refresh;
    StopGameKeeps(w, env, 0);
    var s := if enabled && w.panel.playMode.Some? then StopGame(w, env, 0).0 else w;
    RefreshEndsPlay(s.(panel := s.panel.(maintenance := enabled)), env, 2);
    HandleKeeps(w, Maintenance(enabled), env);
  }

  /** Without faults a stop always leaves the machine idle; it raises only if the play
      ended by itself between the question and the stop. */
  lemma CalmStopStops(w: World, env: Env, k: nat)
    requires CalmEnv(env) && InOrder(w.ctl)
    ensures var (s, error) := StopGame(w, env, k);
            && !Running(s.ctl) && InOrder(s.ctl)
            && (error.Some? ==> error == Some(NotRunning) && env.gap(k + 1) != [])
  {
    var c := AfterStatus(Run(w.ctl, env.gap(k)), env.check(k));
    CheckUndisturbed(w.ctl, env, k);
    CheckUndisturbed(c, env, k + 1);
    var d := Run(c, env.gap(k + 1));
    CalmStop(d, env.send(k + 1));
    CalmStopEnds(d, env.send(k + 1));
    assert env.gap(k + 1) == [] ==> d == c;
    hide Run, AfterStatus, AfterStop, Settled;
  }

  lemma CalmStopEnds(c: Controller, f: G.SendFaults)
    requires InOrder(c) && G.CalmSend(f)
    ensures var (d, error) := AfterStop(c, f);
            && !Running(d) && d.machine.machineEnabled == c.machine.machineEnabled
            && error == (if Running(c) then None else Some(NotRunning))
  {
    CalmDispatchRelease(c.(generation := c.generation + 1), G.PlayStop, f);
    hide G.AfterSend, G.AfterConnect, Settled;
  }

  // ---------------------------------------------------------------------- the rest

  /** Privileged actions are performed exactly under their guards, one per request. */
  lemma ActionsAchieve(w: World, env: Env)
    ensures var v := Handle(w, SystemAction, env);
            |v.actions| == |w.actions| + (if w.panel.playMode.None? && w.panel.maintenance then 1 else 0)
    ensures var v := Handle(w, KioskAction, env);
            |v.actions| == |w.actions| + (if w.panel.playMode.None? then 1 else 0)
  {
    hide Run;
  }

  /** From `p` to `q` no guard of a play has opened. */
  predicate NoneOpened(p: Panel, q: Panel) {
    && (q.photoReady ==> p.photoReady) && (q.credits <= p.credits || q.credits <= 0)
    && (p.maintenance ==> q.maintenance)
  }

  lemma RefreshOpensNone(w: World, env: Env, k: nat)
    ensures NoneOpened(w.panel, Refresh(w, env, k).panel)
  {
  }

  lemma StopOpensNone(w: World, env: Env, k: nat)
    ensures NoneOpened(w.panel, StopGame(w, env, k).0.panel)
  {
  }

  lemma PlayOpensNone(w: World, testMode: bool, env: Env)
    ensures NoneOpened(w.panel, HandlePlay(w, testMode, env).panel)
  {
    hide Run, AfterStatus, AfterStart, Refresh;
    if MayPlay(w.panel, testMode) {
      PlayIsGame(w, testMode, env);
      RefreshOpensNone(AfterGame(w, testMode, env), env, 3);
    }
  }

  lemma DirectOpensNone(w: World, env: Env)
    ensures forall seconds, testMode :: NoneOpened(w.panel, HandleApiPlayStart(w, seconds, testMode, env).panel)
    ensures NoneOpened(w.panel, HandleApiPlayStop(w, env).panel)
    ensures forall percent :: NoneOpened(w.panel, HandleApiClawPower(w, percent, env).panel)
    ensures NoneOpened(w.panel, HandleApiEmergencyStop(w, env).panel)
  {
    hide Run, AfterStart, AfterStop, AfterSetPower, AfterEmergency, AfterStatus, ClampDuration;
  }

  lemma StopsOpenNone(w: World, env: Env, refreshOnError: bool)
    ensures NoneOpened(w.panel, HandleStop(w, refreshOnError, env).panel)
    ensures NoneOpened(w.panel, HandleReset(w, env).panel)
    ensures NoneOpened(w.panel, HandleDisable(w, env).panel)
    ensures NoneOpened(w.panel, HandleMaintenance(w, true, env).panel)
    ensures w.panel.maintenance || NoneOpened(w.panel, HandleMaintenance(w, false, env).panel)
    ensures NoneOpened(w.panel.(maintenance := false), HandleMaintenance(w, false, env).panel)
  {
    hide StopGame, Refresh;
    var off := w.(panel := w.panel.(machineEnabled := false));
    StopOpensNone(w, env, 0);
    StopOpensNone(off, env, 0);
    var s, t := StopGame(w, env, 0).0, StopGame(off, env, 0).0;
    RefreshOpensNone(s, env, 2);
    RefreshOpensNone(t, env, 2);
    RefreshOpensNone(off, env, 2);
    RefreshOpensNone(s.(panel := s.panel.(photoReady := false, credits := 0, playsToday := 0)), env, 2);
    RefreshOpensNone(s.(panel := s.panel.(maintenance := true)), env, 2);
    RefreshOpensNone(w.(panel := w.panel.(maintenance := true)), env, 2);
    RefreshOpensNone(w.(panel := w.panel.(maintenance := false)), env, 2);
  }

  lemma RequestOpensNone(w: World, request: Request, env: Env)
    requires !request.PhotoTaken? && !request.CreditsEarned? && request != Maintenance(false)
    ensures NoneOpened(w.panel, Handle(w, request, env).panel)
  {
    hide Run, AfterStatus, Refresh, HandlePlay, HandleApiPlayStart, HandleApiPlayStop, HandleApiClawPower,
         HandleApiEmergencyStop, HandleStop, HandleReset, HandleDisable, HandleMaintenance;
    match request
    case PlayRoute(testMode) => PlayOpensNone(w, testMode, env);
    case ApiPlayStart(_, _) | ApiPlayStop | ApiClawPower(_) | ApiEmergencyStop => DirectOpensNone(w, env);
    case StopRoute | ResetRoute | DisableMachine | Maintenance(_) => StopsOpenNone(w, env, true);
    case StopCurrentGame => StopsOpenNone(w, env, false);
    case Status => RefreshOpensNone(w.(ctl := AfterStatus(Run(w.ctl, env.gap(0)), env.check(0))), env, 1);
    case SystemAction | KioskAction =>
  }

  /** A photo and an earned credit change just that, on the panel alone. */
  lemma PhotoAndCreditAlone(w: World, count: nat, env: Env)
    ensures var v := Handle(w, PhotoTaken, env);
            v == w.(panel := v.panel) && v.panel == w.panel.(photoReady := true)
    ensures var v := Handle(w, CreditsEarned(count), env);
            && v == w.(panel := v.panel) && v.panel.(credits := 0) == w.panel.(credits := 0)
            && v.panel.credits - w.panel.credits == count
  {
  }

  /** What can open the way to a play: a photo comes from a photo request alone, a credit
      from an earned one, and the end of maintenance from asking for it. */
  lemma WhatOpensAPlay(w: World, request: Request, env: Env)
    ensures var v := Handle(w, request, env);
            && (v.panel.photoReady && !w.panel.photoReady ==> request.PhotoTaken?)
            && (v.panel.credits > w.panel.credits && v.panel.credits > 0 ==> request.CreditsEarned?)
            && (!v.panel.maintenance && w.panel.maintenance ==> request == Maintenance(false))
  {
    hide Handle;
    match request
    case PhotoTaken => PhotoAndCreditAlone(w, 0, env);
    case CreditsEarned(count) => PhotoAndCreditAlone(w, count, env);
    case _ =>
      if request == Maintenance(false) {
        MaintenanceEnds(w, env);
      } else {
        RequestOpensNone(w, request, env);
      }
  }

  lemma MaintenanceEnds(w: World, env: Env)
    ensures NoneOpened(w.panel.(maintenance := false), Handle(w, Maintenance(false), env).panel)
  {
    hide Run, AfterStatus, Refresh, HandlePlay, HandleApiPlayStart, HandleApiPlayStop, HandleApiClawPower,
         HandleApiEmergencyStop, HandleStop, HandleReset, HandleDisable, HandleMaintenance;
    StopsOpenNone(w, env, true);
  }

  /** Without faults a power request in range and before any emergency is stored by the
      controller as it was asked for. */
  lemma PowerRequestStores(w: World, percent: int, env: Env)
    requires CalmEnv(env) && InOrder(w.ctl)
    ensures var v := Handle(w, ApiClawPower(percent), env);
            v.ctl.machine.clawPowerPercent ==
              if 40 <= percent <= 100 && !w.ctl.machine.emergencyStopped then percent
              else w.ctl.machine.clawPowerPercent
  {
    hide Run, AfterSetPower, AfterStatus, Settled;
    CheckUndisturbed(w.ctl, env, 0);
    var c := Run(w.ctl, env.gap(0));
    CalmSetPower(c, percent, env.send(0));
    PowerStored(c, percent, env.send(0));
    var d := AfterSetPower(c, percent, env.send(0)).0;
    CheckUndisturbed(d, env, 1);
  }

  lemma PowerStored(c: Controller, percent: int, f: G.SendFaults)
    requires InOrder(c) && G.CalmSend(f)
    ensures var d := AfterSetPower(c, percent, f).0;
            && d.machine.clawPowerPercent == (if 40 <= percent <= 100 && !c.machine.emergencyStopped then percent
                                              else c.machine.clawPowerPercent)
            && d.machine.machineEnabled == c.machine.machineEnabled && Running(d) == Running(c)
            && d.machine.emergencyStopped == c.machine.emergencyStopped
  {
    CalmPower(c.adapter, percent, f);
    hide G.AfterSend, G.AfterConnect, Settled;
  }

  /** An emergency request always latches and clears the panel; a direct stop that is
      confirmed clears it too. */
  lemma EmergencyAchieves(w: World, env: Env)
    requires Fair(env) && TwoMachines(w)
    ensures var v := Handle(w, ApiEmergencyStop, env);
            v.ctl.machine.emergencyStopped && !Running(v.ctl) && v.panel.playMode.None?
    ensures AfterStop(Run(w.ctl, env.gap(0)), env.send(0)).1.None? ==>
              var v := Handle(w, ApiPlayStop, env); !Running(v.ctl) && v.panel.playMode.None?
  {
    hide Run, AfterEmergency, AfterStop, G.AfterConnect;
    var c := AfterEmergency(Run(w.ctl, env.gap(0)), env.send(0));
    EmergencyLatches(Run(w.ctl, env.gap(0)), env.send(0));
    GapOnlyStops(c, env, 1);
    LatchLasts(c, env.gap(1));
    var (d, error) := AfterStop(Run(w.ctl, env.gap(0)), env.send(0));
    StopOnlyStops(Run(w.ctl, env.gap(0)), env.send(0));
    GapOnlyStops(d, env, 1);
  }

  lemma EmergencyLatches(c: Controller, f: G.SendFaults)
    ensures var d := AfterEmergency(c, f); d.machine.emergencyStopped && !Running(d)
  {
    hide G.AfterSend, G.AfterConnect;
  }

  lemma {:induction false} LatchLasts(c: Controller, events: seq<Event>)
    requires forall i :: 0 <= i < |events| ==> Background(events[i])
    ensures Run(c, events).machine.emergencyStopped == c.machine.emergencyStopped
  {
    hide G.AfterSend, G.AfterConnect, G.Lose;
    if events != [] {
      LatchLasts(c, events[..|events| - 1]);
    }
  }

  /** A refresh uses up the photo exactly when it finds the play over. */
  lemma RefreshEndsPlay(w: World, env: Env, k: nat)
    ensures var v := Refresh(w, env, k);
            && v.panel.photoReady == (w.panel.photoReady && !(w.panel.playMode.Some? && v.panel.playMode.None?))
            && v.panel.machineEnabled == v.ctl.machine.machineEnabled
            && v.panel.maintenance == w.panel.maintenance && v.panel.playDuration == w.panel.playDuration
  {
    hide Run, G.AfterConnect;
  }
}
