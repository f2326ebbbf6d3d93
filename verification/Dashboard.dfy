/** The dashboard keeps its own idea of the running play under its own lock. A
    request is one step on that lock, but between its controller calls timers may
    wake, other threads may read the status and outputs may be lost. */
module Dashboard {
  import opened Prelude
  import G = GpioAdapter
  import opened RuntimeController
  import opened ControllerRuns

  /** The dashboard's share of the state. `actions` logs each privileged action
      (power, Wi-Fi, kiosk) with whether a play was running when it ran. */
  datatype Panel = Panel(
    playMode: Option<Mode>,
    maintenance: bool,
    machineEnabled: bool,
    photoReady: bool,
    credits: int,
    playsToday: int,
    playDuration: int)

  datatype World = World(panel: Panel, ctl: Controller, actions: seq<bool>)

  /** What surrounds the k-th controller call of a request. */
  datatype Env = Env(
    gap: nat -> seq<Event>,
    check: nat -> G.Faults,
    send: nat -> G.SendFaults,
    now: int)

  /** Things that happen without the dashboard lock. */
  predicate Background(e: Event) {
    e.Fire? || e.ReadStatus? || e.Loss?
  }

  ghost predicate Fair(env: Env) {
    forall k: nat, i :: 0 <= i < |env.gap(k)| ==> Background(env.gap(k)[i])
  }

  const STARTUP_SECONDS := 4 // ready 3 + grabber start 1

  function ClampDuration(seconds: int): int {
    if seconds < 10 then 10 else if seconds > 180 then 180 else seconds
  }

  function Meanwhile(w: World, env: Env, k: nat): World {
    w.(ctl := Run(w.ctl, env.gap(k)))
  }

  // ------------------------------------------------------- building blocks

  function Forget(p: Panel): Panel {
    p.(playMode := None)
  }

  /** dashboard_state(): controller call `k`. */
  function Refresh(w: World, env: Env, k: nat): World {
    var c := AfterStatus(Run(w.ctl, env.gap(k)), env.check(k));
    var p := w.panel.(machineEnabled := c.machine.machineEnabled);
    w.(ctl := c, panel := if p.playMode.Some? && !Running(c) then p.(playMode := None, photoReady := false) else p)
  }

  /** stop_play(message): calls `k` and `k+1`. The error is a raised SafetyError. */
  function StopGame(w: World, env: Env, k: nat): (World, Option<SafetyError>) {
    var c := AfterStatus(Run(w.ctl, env.gap(k)), env.check(k));
    if Running(c) then
      var (d, error) := AfterStop(Run(c, env.gap(k + 1)), env.send(k + 1));
      (w.(ctl := d, panel := if error.Some? then w.panel else Forget(w.panel)), error)
    else (w.(ctl := c, panel := Forget(w.panel)), None)
  }

  // ---------------------------------------------------------------- requests

  datatype Request =
    | Status
    | ApiPlayStart(seconds: int, testMode: bool)
    | ApiPlayStop
    | ApiClawPower(percent: int)
    | ApiEmergencyStop
    | PlayRoute(testMode: bool)
    | StopRoute
    | ResetRoute
    | DisableMachine
    | StopCurrentGame
    | Maintenance(enabled: bool)
    | SystemAction              // reboot, poweroff or Wi-Fi connect
    | KioskAction               // exit or restart the kiosk
    | PhotoTaken
    | CreditsEarned(count: nat)

  function HandleApiPlayStart(w: World, seconds: int, testMode: bool, env: Env): World {
    if w.panel.maintenance then w else
      var duration := ClampDuration(seconds);
      var command := PlayStartCommand(duration, 0, testMode);
      var (c, error) := AfterStart(Run(w.ctl, env.gap(0)), command, env.now, env.send(0), env.send(1));
      var p := if error.Some? then w.panel
               else w.panel.(playMode := Some(if testMode then Test else Play), playDuration := duration);
      Refresh(w.(ctl := c, panel := p), env, 2)
  }

  function HandleApiPlayStop(w: World, env: Env): World {
    var (c, error) := AfterStop(Run(w.ctl, env.gap(0)), env.send(0));
    Refresh(w.(ctl := c, panel := if error.Some? then w.panel else Forget(w.panel)), env, 1)
  }

  function HandleApiClawPower(w: World, percent: int, env: Env): World {
    Refresh(w.(ctl := AfterSetPower(Run(w.ctl, env.gap(0)), percent, env.send(0)).0), env, 1)
  }

  function HandleApiEmergencyStop(w: World, env: Env): World {
    var c := AfterEmergency(Run(w.ctl, env.gap(0)), env.send(0));
    Refresh(w.(ctl := c, panel := Forget(w.panel)), env, 1)
  }

  predicate MayPlay(p: Panel, testMode: bool) {
    !p.maintenance && p.machineEnabled && p.playMode.None? && p.photoReady && (testMode || p.credits >= 1)
  }

  /** A confirmed start is charged, unless it is a test, and uses up the photo. */
  function Started(p: Panel, testMode: bool): Panel {
    p.(credits := if testMode then p.credits else p.credits - 1,
       playsToday := if testMode then p.playsToday else p.playsToday + 1,
       photoReady := false,
       playMode := Some(if testMode then Test else Play))
  }

  /** The part of /api/play past its guards. */
  function StartGame(w: World, testMode: bool, env: Env): World {
    var duration := ClampDuration(w.panel.playDuration);
    var command := PlayStartCommand(duration, STARTUP_SECONDS, testMode);
    var (d, error) := AfterStart(Run(w.ctl, env.gap(1)), command, env.now, env.send(1), env.send(2));
    var p := w.panel.(playDuration := duration);
    Refresh(w.(ctl := d, panel := if error.Some? then p else Started(p, testMode)), env, 3)
  }

  function HandlePlay(w: World, testMode: bool, env: Env): World {
    var v := w.(ctl := AfterStatus(Run(w.ctl, env.gap(0)), env.check(0)));
    if MayPlay(w.panel, testMode) then StartGame(v, testMode, env) else v
  }

  /** /api/stop and the administrator's stop: only the answer to an error differs. */
  function HandleStop(w: World, refreshOnError: bool, env: Env): World {
    if w.panel.playMode.None? then w else
      var (s, error) := StopGame(w, env, 0);
      if error.Some? && !refreshOnError then s else Refresh(s, env, 2)
  }

  /** /api/reset does not catch the error of its stop. */
  function HandleReset(w: World, env: Env): World {
    var (s, error) := StopGame(w, env, 0);
    if error.Some? then s
    else Refresh(s.(panel := s.panel.(photoReady := false, credits := 0, playsToday := 0)), env, 2)
  }

  /** /api/settings with machine_enabled false, whose stop is not caught either. */
  function HandleDisable(w: World, env: Env): World {
    var off := w.(panel := w.panel.(machineEnabled := false));
    if off.panel.playMode.None? then Refresh(off, env, 2) else
      var (s, error) := StopGame(off, env, 0);
      if error.Some? then s else Refresh(s, env, 2)
  }

  function HandleMaintenance(w: World, enabled: bool, env: Env): World {
    var (s, error) := if enabled && w.panel.playMode.Some? then StopGame(w, env, 0) else (w, None);
    if error.Some? then s
    else Refresh(s.(panel := s.panel.(maintenance := enabled)), env, 2)
  }

  /** The action runs while the lock is held; timers may wake before it does. */
  function PerformAction(w: World, env: Env): World {
    var v := Meanwhile(w, env, 0);
    v.(actions := v.actions + [Running(v.ctl)])
  }

  function HandleSystemAction(w: World, env: Env): World {
    if w.panel.playMode.Some? || !w.panel.maintenance then w else PerformAction(w, env)
  }

  function HandleKioskAction(w: World, env: Env): World {
    if w.panel.playMode.Some? then w else PerformAction(w, env)
  }

  function Handle(w: World, request: Request, env: Env): World {
    match request
    case Status => Refresh(w.(ctl := AfterStatus(Run(w.ctl, env.gap(0)), env.check(0))), env, 1)
    case ApiPlayStart(seconds, testMode) => HandleApiPlayStart(w, seconds, testMode, env)
    case ApiPlayStop => HandleApiPlayStop(w, env)
    case ApiClawPower(percent) => HandleApiClawPower(w, percent, env)
    case ApiEmergencyStop => HandleApiEmergencyStop(w, env)
    case PlayRoute(testMode) => HandlePlay(w, testMode, env)
    case StopRoute => HandleStop(w, true, env)
    case ResetRoute => HandleReset(w, env)
    case DisableMachine => HandleDisable(w, env)
    case StopCurrentGame => HandleStop(w, false, env)
    case Maintenance(enabled) => HandleMaintenance(w, enabled, env)
    case SystemAction => HandleSystemAction(w, env)
    case KioskAction => HandleKioskAction(w, env)
    case PhotoTaken => w.(panel := w.panel.(photoReady := true))
    case CreditsEarned(count) => w.(panel := w.panel.(credits := w.panel.credits + count))
  }

  // -------------------------------------------------------------- invariant

  ghost predicate TwoMachines(w: World) {
    && (Running(w.ctl) ==> w.panel.playMode.Some?)
    && (w.panel.maintenance ==> !Running(w.ctl))
    && (forall i :: 0 <= i < |w.actions| ==> !w.actions[i])
  }

  /** Nothing in the background starts a play. */
  lemma {:induction false} BackgroundOnlyStops(c: Controller, events: seq<Event>)
    requires forall i :: 0 <= i < |events| ==> Background(events[i])
    ensures Running(Run(c, events)) ==> Running(c)
    ensures Run(c, events).machine.machineEnabled == c.machine.machineEnabled
  {
    if events != [] {
      BackgroundOnlyStops(c, events[..|events| - 1]);
    }
  }

  lemma GapOnlyStops(c: Controller, env: Env, k: nat)
    requires Fair(env)
    ensures Running(Run(c, env.gap(k))) ==> Running(c)
  {
    BackgroundOnlyStops(c, env.gap(k));
  }

  lemma StopOnlyStops(c: Controller, f: G.SendFaults)
    ensures var (d, error) := AfterStop(c, f);
            (Running(d) ==> Running(c)) && (error.None? ==> !Running(d))
  {
  }

  lemma StartOnlyByStart(c: Controller, command: PlayStartCommand, now: int, f: G.SendFaults, g: G.SendFaults)
    ensures var (d, error) := AfterStart(c, command, now, f, g);
            && (error.Some? ==> Running(d) == Running(c))
            && (error.None? ==> Running(d) && !Running(c))
  {
  }

  /** A refreshed panel shows a play exactly when the controller runs one. */
  lemma RefreshAgrees(w: World, env: Env, k: nat)
    requires Fair(env) && TwoMachines(w)
    ensures var v := Refresh(w, env, k);
            TwoMachines(v) && (v.panel.playMode.Some? <==> Running(v.ctl))
  {
    GapOnlyStops(w.ctl, env, k);
  }

  lemma StopGameKeeps(w: World, env: Env, k: nat)
    requires Fair(env) && TwoMachines(w)
    ensures var (v, error) := StopGame(w, env, k);
            && TwoMachines(v)
            && (error.None? ==> !Running(v.ctl) && v.panel == Forget(w.panel))
            && (error.Some? ==> v.panel == w.panel)
            && v.actions == w.actions
  {
    GapOnlyStops(w.ctl, env, k);
    var c := AfterStatus(Run(w.ctl, env.gap(k)), env.check(k));
    GapOnlyStops(c, env, k + 1);
    StopOnlyStops(Run(c, env.gap(k + 1)), env.send(k + 1));
  }

  lemma StartsKeep(w: World, request: Request, env: Env)
    requires Fair(env) && TwoMachines(w) && (request.ApiPlayStart? || request.PlayRoute?)
    ensures TwoMachines(Handle(w, request, env))
  {
    GapOnlyStops(w.ctl, env, 0);
    match request
    case ApiPlayStart(seconds, testMode) =>
      if !w.panel.maintenance {
        var duration := ClampDuration(seconds);
        var command := PlayStartCommand(duration, 0, testMode);
        var c0 := Run(w.ctl, env.gap(0));
        StartOnlyByStart(c0, command, env.now, env.send(0), env.send(1));
        var (c, error) := AfterStart(c0, command, env.now, env.send(0), env.send(1));
        var p := if error.Some? then w.panel
                 else w.panel.(playMode := Some(if testMode then Test else Play), playDuration := duration);
        RefreshAgrees(w.(ctl := c, panel := p), env, 2);
      }
    case PlayRoute(testMode) =>
      var c := AfterStatus(Run(w.ctl, env.gap(0)), env.check(0));
      if MayPlay(w.panel, testMode) {
        GapOnlyStops(c, env, 1);
        var duration := ClampDuration(w.panel.playDuration);
        var command := PlayStartCommand(duration, STARTUP_SECONDS, testMode);
        var c1 := Run(c, env.gap(1));
        StartOnlyByStart(c1, command, env.now, env.send(1), env.send(2));
        var (d, error) := AfterStart(c1, command, env.now, env.send(1), env.send(2));
        var p := w.panel.(playDuration := duration);
        RefreshAgrees(w.(ctl := d, panel := if error.Some? then p else Started(p, testMode)), env, 3);
      }
  }

  lemma StopsKeep(w: World, request: Request, env: Env)
    requires Fair(env) && TwoMachines(w)
    requires request.StopRoute? || request.StopCurrentGame? || request.ResetRoute? || request.DisableMachine?
             || request.Maintenance?
    ensures TwoMachines(Handle(w, request, env))
  {
    hide StopGame, Refresh, Run;
    match request
    case StopRoute =>
      StopGameKeeps(w, env, 0);
      RefreshAgrees(StopGame(w, env, 0).0, env, 2);
    case StopCurrentGame =>
      StopGameKeeps(w, env, 0);
      RefreshAgrees(StopGame(w, env, 0).0, env, 2);
    case ResetRoute =>
      StopGameKeeps(w, env, 0);
      var s := StopGame(w, env, 0).0;
      RefreshAgrees(s.(panel := s.panel.(photoReady := false, credits := 0, playsToday := 0)), env, 2);
    case DisableMachine =>
      var off := w.(panel := w.panel.(machineEnabled := false));
      StopGameKeeps(off, env, 0);
      RefreshAgrees(off, env, 2);
      RefreshAgrees(StopGame(off, env, 0).0, env, 2);
    case Maintenance(enabled) =>
      StopGameKeeps(w, env, 0);
      var (s, error) := if enabled && w.panel.playMode.Some? then StopGame(w, env, 0) else (w, None);
      if error.None? {
        RefreshAgrees(s.(panel := s.panel.(maintenance := enabled)), env, 2);
      }
  }

  lemma HandleKeeps(w: World, request: Request, env: Env)
    requires Fair(env) && TwoMachines(w)
    ensures TwoMachines(Handle(w, request, env))
  {
    GapOnlyStops(w.ctl, env, 0);
    match request
    case Status => RefreshAgrees(w.(ctl := AfterStatus(Run(w.ctl, env.gap(0)), env.check(0))), env, 1);
    case ApiPlayStop =>
      var c := Run(w.ctl, env.gap(0));
      StopOnlyStops(c, env.send(0));
      var (d, error) := AfterStop(c, env.send(0));
      RefreshAgrees(w.(ctl := d, panel := if error.Some? then w.panel else Forget(w.panel)), env, 1);
    case ApiClawPower(percent) =>
      RefreshAgrees(w.(ctl := AfterSetPower(Run(w.ctl, env.gap(0)), percent, env.send(0)).0), env, 1);
    case ApiEmergencyStop =>
      var c := AfterEmergency(Run(w.ctl, env.gap(0)), env.send(0));
      RefreshAgrees(w.(ctl := c, panel := Forget(w.panel)), env, 1);
    case ApiPlayStart(_, _) => StartsKeep(w, request, env);
    case PlayRoute(_) => StartsKeep(w, request, env);
    case SystemAction =>
    case KioskAction =>
    case PhotoTaken =>
    case CreditsEarned(_) =>
    case _ => StopsKeep(w, request, env);
  }

  // ------------------------------------------------------------- whole runs

  /** What a run is made of: requests, and background events between them. */
  datatype Happening = Req(request: Request, env: Env) | Bg(event: Event)

  function Happen(w: World, h: Happening): World {
    match h
    case Req(request, env) => Handle(w, request, env)
    case Bg(e) => w.(ctl := Step(w.ctl, e))
  }

  function Live(w: World, hs: seq<Happening>): World {
    if hs == [] then w else Happen(Live(w, hs[..|hs| - 1]), hs[|hs| - 1])
  }

  ghost predicate Proper(h: Happening) {
    match h
    case Req(_, env) => Fair(env)
    case Bg(e) => Background(e)
  }

  /** Whenever the dashboard lock is free, a running controller shows on the panel,
      maintenance means an idle controller, and every privileged action so far ran
      with an idle controller. */
  lemma {:induction false} TwoMachinesAlways(panel: Panel, duration: int, percent: int, a: G.Adapter,
                                             hs: seq<Happening>)
    requires forall i :: 0 <= i < |hs| ==> Proper(hs[i])
    ensures TwoMachines(Live(World(panel, Initial(duration, percent, a), []), hs))
  {
    var w0 := World(panel, Initial(duration, percent, a), []);
    if hs != [] {
      var before := hs[..|hs| - 1];
      TwoMachinesAlways(panel, duration, percent, a, before);
      match hs[|hs| - 1]
      case Req(request, env) => HandleKeeps(Live(w0, before), request, env);
      case Bg(e) => BackgroundOnlyStops(Live(w0, before).ctl, [e]);
    }
  }

  /** A play request trades credits for plays of the day, one for one and at most one,
      and only with a photo that it uses up. */
  lemma CreditsPayForPlays(w: World, testMode: bool, env: Env)
    requires w.panel.credits >= 0
    ensures var v := Handle(w, PlayRoute(testMode), env);
            && v.panel.credits >= 0
            && v.panel.credits + v.panel.playsToday == w.panel.credits + w.panel.playsToday
            && (v.panel.playsToday != w.panel.playsToday ==>
                  && !testMode && v.panel.playsToday == w.panel.playsToday + 1
                  && w.panel.photoReady && !v.panel.photoReady)
  {
  }

  /** Credits left and plays made today. */
  function Balance(p: Panel): int {
    p.credits + p.playsToday
  }

  function Earned(h: Happening): nat {
    if h.Req? && h.request.CreditsEarned? then h.request.count else 0
  }

  function AllEarned(hs: seq<Happening>): nat {
    if hs == [] then 0 else AllEarned(hs[..|hs| - 1]) + Earned(hs[|hs| - 1])
  }

  predicate Resets(h: Happening) {
    h.Req? && h.request.ResetRoute?
  }

  lemma StopGameBalance(w: World, env: Env, k: nat)
    ensures var p := StopGame(w, env, k).0.panel; p.credits == w.panel.credits && p.playsToday == w.panel.playsToday
  {
    hide Run, AfterStatus, AfterStop;
  }

  lemma RefreshBalance(w: World, env: Env, k: nat)
    ensures var p := Refresh(w, env, k).panel; p.credits == w.panel.credits && p.playsToday == w.panel.playsToday
  {
    hide Run, AfterStatus;
  }

  lemma PlayBalance(w: World, testMode: bool, env: Env)
    requires MayPlay(w.panel, testMode)
    ensures var p := StartGame(w, testMode, env).panel;
            Balance(p) == Balance(w.panel) && (w.panel.credits >= 0 ==> p.credits >= 0)
  {
    hide Refresh, Run, AfterStart;
    var duration := ClampDuration(w.panel.playDuration);
    var command := PlayStartCommand(duration, STARTUP_SECONDS, testMode);
    var (d, error) := AfterStart(Run(w.ctl, env.gap(1)), command, env.now, env.send(1), env.send(2));
    var p := w.panel.(playDuration := duration);
    RefreshBalance(w.(ctl := d, panel := if error.Some? then p else Started(p, testMode)), env, 3);
  }

  /** The requests that stop a play without touching credits. */
  lemma StopRoutesBalance(w: World, request: Request, env: Env)
    requires request.StopRoute? || request.StopCurrentGame? || request.DisableMachine? || request.Maintenance?
    ensures var p := Handle(w, request, env).panel;
            p.credits == w.panel.credits && p.playsToday == w.panel.playsToday
  {
    hide StopGame, Refresh;
    var off := w.(panel := w.panel.(machineEnabled := false));
    StopGameBalance(w, env, 0);
    StopGameBalance(off, env, 0);
    match request
    case StopRoute => RefreshBalance(StopGame(w, env, 0).0, env, 2);
    case StopCurrentGame => RefreshBalance(StopGame(w, env, 0).0, env, 2);
    case DisableMachine =>
      RefreshBalance(off, env, 2);
      RefreshBalance(StopGame(off, env, 0).0, env, 2);
    case Maintenance(enabled) =>
      var s := if enabled && w.panel.playMode.Some? then StopGame(w, env, 0).0 else w;
      RefreshBalance(s.(panel := s.panel.(maintenance := enabled)), env, 2);
  }

  /** The requests that call the controller directly. */
  lemma ApiRoutesBalance(w: World, request: Request, env: Env)
    requires request.Status? || request.ApiPlayStart? || request.ApiPlayStop? || request.ApiClawPower?
             || request.ApiEmergencyStop?
    ensures var p := Handle(w, request, env).panel;
            p.credits == w.panel.credits && p.playsToday == w.panel.playsToday
  {
    hide Run, AfterStatus, AfterStart, AfterStop, AfterSetPower, AfterEmergency;
  }

  lemma ResetBalance(w: World, env: Env)
    ensures var p := HandleReset(w, env).panel;
            || (p.credits == w.panel.credits && p.playsToday == w.panel.playsToday)
            || (p.credits == 0 && p.playsToday == 0)
  {
    hide StopGame, Refresh;
    StopGameBalance(w, env, 0);
    var s := StopGame(w, env, 0).0;
    RefreshBalance(s.(panel := s.panel.(photoReady := false, credits := 0, playsToday := 0)), env, 2);
  }

  lemma HappenBalance(w: World, h: Happening)
    ensures var p := Happen(w, h).panel;
            && (w.panel.credits >= 0 ==> p.credits >= 0)
            && (if Resets(h) then Balance(p) == Balance(w.panel) || Balance(p) == 0
                else Balance(p) == Balance(w.panel) + Earned(h))
  {
    hide Run, AfterStatus, StartGame, HandleReset, HandleStop, HandleDisable, HandleMaintenance, HandleApiPlayStart,
         HandleApiPlayStop, HandleApiClawPower, HandleApiEmergencyStop, Refresh, Step;
    if h.Req? {
      match h.request
      case PlayRoute(testMode) =>
        if MayPlay(w.panel, testMode) {
          PlayBalance(w.(ctl := AfterStatus(Run(w.ctl, h.env.gap(0)), h.env.check(0))), testMode, h.env);
        }
      case ResetRoute => ResetBalance(w, h.env);
      case StopRoute => StopRoutesBalance(w, h.request, h.env);
      case StopCurrentGame => StopRoutesBalance(w, h.request, h.env);
      case DisableMachine => StopRoutesBalance(w, h.request, h.env);
      case Maintenance(_) => StopRoutesBalance(w, h.request, h.env);
      case SystemAction =>
      case KioskAction =>
      case PhotoTaken =>
      case CreditsEarned(_) =>
      case _ => ApiRoutesBalance(w, h.request, h.env);
    }
  }

  /** Credits are conserved: in every run they never go below zero, and over any stretch
      without a reset what is left and what was played today grow together by exactly
      the credits earned. */
  lemma {:induction false} CreditsAreConserved(w: World, hs: seq<Happening>)
    requires w.panel.credits >= 0
    ensures Live(w, hs).panel.credits >= 0
    ensures (forall i :: 0 <= i < |hs| ==> !Resets(hs[i])) ==>
              Balance(Live(w, hs).panel) == Balance(w.panel) + AllEarned(hs)
  {
    hide Happen;
    if hs != [] {
      CreditsAreConserved(w, hs[..|hs| - 1]);
      HappenBalance(Live(w, hs[..|hs| - 1]), hs[|hs| - 1]);
    }
  }
}
