/** The dashboard's request handlers in their own form: each changes the shared
    panel field by field around calls into the controller object. */
module DashboardServer {
  import opened Prelude
  import opened G = GpioAdapter
  import R = RuntimeController
  import ControllerRuns
  import opened Dashboard

  class Server {
    const controller: R.RuntimeController
    var playMode: Option<R.Mode>
    var maintenanceMode: bool
    var machineEnabled: bool
    var playerPhotoReady: bool
    var credits: int
    var playsToday: int
    var playDuration: int
    ghost var actions: seq<bool>

    ghost function State(): World
      reads this, controller, controller.arduino
    {
      World(Panel(playMode, maintenanceMode, machineEnabled, playerPhotoReady, credits, playsToday, playDuration),
            controller.State(), actions)
    }

    constructor (controller: R.RuntimeController, duration: int)
      ensures this.controller == controller
      ensures State() == World(Panel(None, false, true, false, 0, 0, duration), controller.State(), [])
    {
      this.controller := controller;
      playMode, maintenanceMode, machineEnabled, playerPhotoReady := None, false, true, false;
      credits, playsToday, playDuration, actions := 0, 0, duration, [];
    }

    /** Whatever other threads do while a request is between two controller calls. */
    method OtherThreads(events: seq<ControllerRuns.Event>)
      requires forall i :: 0 <= i < |events| ==> Background(events[i])
      modifies controller, controller.arduino
      ensures State() == old(State()).(ctl := ControllerRuns.Run(old(State()).ctl, events))
    {
      hide R.AfterStatus, R.AfterTimer, G.Lose;
      var i := 0;
      while i < |events|
        invariant 0 <= i <= |events|
        invariant controller.State() == ControllerRuns.Run(old(controller.State()), events[..i])
      {
        assert events[..i + 1][..i] == events[..i];
        match events[i] {
          case Fire(timer, f) =>
            if timer < |controller.timers| { controller.AutoStopAfterPlay(timer, f); }
          case ReadStatus(f) =>
            var _ := controller.GetStatus(f);
          case Loss(f) =>
            controller.arduino.LoseOutputs(f);
        }
        i := i + 1;
      }
      assert events[..|events|] == events;
    }

    /** dashboard_state() */
    method DashboardState(env: Env, k: nat)
      requires Fair(env)
      modifies this, controller, controller.arduino
      ensures State() == Refresh(old(State()), env, k)
    {
      OtherThreads(env.gap(k));
      var status := controller.GetStatus(env.check(k));
      machineEnabled := status.machineEnabled;
      if playMode.Some? && status.playMode.None? {
        playMode := None;
        playerPhotoReady := false;
      }
    }

    method StopPlay(env: Env, k: nat) returns (error: Option<R.SafetyError>)
      requires Fair(env)
      modifies this, controller, controller.arduino
      ensures (State(), error) == StopGame(old(State()), env, k)
    {
      OtherThreads(env.gap(k));
      var status := controller.GetStatus(env.check(k));
      if status.playMode.Some? {
        OtherThreads(env.gap(k + 1));
        error := controller.StopPlay(env.send(k + 1));
        if error.Some? { return; }
      }
      playMode := None;
      return None;
    }

    method ApiPlayStart(seconds: int, testMode: bool, env: Env)
      requires Fair(env)
      modifies this, controller, controller.arduino
      ensures State() == HandleApiPlayStart(old(State()), seconds, testMode, env)
    {
      var duration := ClampDuration(seconds);
      if maintenanceMode { return; }
      OtherThreads(env.gap(0));
      var error := controller.StartPlay(R.PlayStartCommand(duration, 0, testMode), env.now, env.send(0), env.send(1));
      if error.None? {
        playMode := Some(if testMode then R.Test else R.Play);
        playDuration := duration;
      }
      DashboardState(env, 2);
    }

    method ApiPlayStop(env: Env)
      requires Fair(env)
      modifies this, controller, controller.arduino
      ensures State() == HandleApiPlayStop(old(State()), env)
    {
      OtherThreads(env.gap(0));
      var error := controller.StopPlay(env.send(0));
      if error.None? { playMode := None; }
      DashboardState(env, 1);
    }

    method ApiClawPower(percent: int, env: Env)
      requires Fair(env)
      modifies this, controller, controller.arduino
      ensures State() == HandleApiClawPower(old(State()), percent, env)
    {
      OtherThreads(env.gap(0));
      var _ := controller.SetClawPower(percent, env.send(0));
      DashboardState(env, 1);
    }

    method ApiEmergencyStop(env: Env)
      requires Fair(env)
      modifies this, controller, controller.arduino
      ensures State() == HandleApiEmergencyStop(old(State()), env)
    {
      OtherThreads(env.gap(0));
      controller.EmergencyStop(env.send(0));
      playMode := None;
      DashboardState(env, 1);
    }

    method RecordStart(testMode: bool)
      modifies this
      ensures State() == old(State()).(panel := Started(old(State()).panel, testMode))
    {
      if !testMode {
        credits := credits - 1;
        playsToday := playsToday + 1;
      }
      playerPhotoReady := false;
      playMode := Some(if testMode then R.Test else R.Play);
    }

    method BeginGame(testMode: bool, env: Env)
      requires Fair(env)
      modifies this, controller, controller.arduino
      ensures State() == StartGame(old(State()), testMode, env)
    {
      playDuration := ClampDuration(playDuration);
      OtherThreads(env.gap(1));
      var error := controller.StartPlay(R.PlayStartCommand(playDuration, STARTUP_SECONDS, testMode), env.now,
                                        env.send(1), env.send(2));
      if error.None? { RecordStart(testMode); }
      DashboardState(env, 3);
    }

    method Play(testMode: bool, env: Env)
      requires Fair(env)
      modifies this, controller, controller.arduino
      ensures State() == HandlePlay(old(State()), testMode, env)
    {
      OtherThreads(env.gap(0));
      var _ := controller.GetStatus(env.check(0));
      if maintenanceMode || !machineEnabled || playMode.Some? || !playerPhotoReady { return; }
      if !testMode && credits < 1 { return; }
      BeginGame(testMode, env);
    }

    method Stop(refreshOnError: bool, env: Env)
      requires Fair(env)
      modifies this, controller, controller.arduino
      ensures State() == HandleStop(old(State()), refreshOnError, env)
    {
      if playMode.None? { return; }
      var error := StopPlay(env, 0);
      if error.Some? && !refreshOnError { return; }
      DashboardState(env, 2);
    }

    method Reset(env: Env)
      requires Fair(env)
      modifies this, controller, controller.arduino
      ensures State() == HandleReset(old(State()), env)
    {
      var error := StopPlay(env, 0);
      if error.Some? { return; }
      credits, playsToday, playerPhotoReady := 0, 0, false;
      DashboardState(env, 2);
    }

    method DisableMachine(env: Env)
      requires Fair(env)
      modifies this, controller, controller.arduino
      ensures State() == HandleDisable(old(State()), env)
    {
      machineEnabled := false;
      if playMode.Some? {
        var error := StopPlay(env, 0);
        if error.Some? { return; }
      }
      DashboardState(env, 2);
    }

    method Maintenance(enabled: bool, env: Env)
      requires Fair(env)
      modifies this, controller, controller.arduino
      ensures State() == HandleMaintenance(old(State()), enabled, env)
    {
      if enabled && playMode.Some? {
        var error := StopPlay(env, 0);
        if error.Some? { return; }
      }
      maintenanceMode := enabled;
      DashboardState(env, 2);
    }

    method PerformAction(env: Env)
      requires Fair(env)
      modifies this, controller, controller.arduino
      ensures State() == Dashboard.PerformAction(old(State()), env)
    {
      OtherThreads(env.gap(0));
      actions := actions + [controller.state.playMode.Some?];
    }

    method SystemAction(env: Env)
      requires Fair(env)
      modifies this, controller, controller.arduino
      ensures State() == HandleSystemAction(old(State()), env)
    {
      if playMode.Some? || !maintenanceMode { return; }
      PerformAction(env);
    }

    method KioskAction(env: Env)
      requires Fair(env)
      modifies this, controller, controller.arduino
      ensures State() == HandleKioskAction(old(State()), env)
    {
      if playMode.Some? { return; }
      PerformAction(env);
    }
  }
}
