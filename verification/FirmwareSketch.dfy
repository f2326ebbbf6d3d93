/** The sketch in its own form: global variables changed pin by pin, grouped into
    one object per output they drive. Stepper and buzzer pins are not part of the
    model; a homing step is recorded in `steps` and a pass through the button and
    stick code in `controls`. */
module FirmwareSketch {
  import opened Prelude
  import opened Firmware

  /** The linear actuator and its two relays. */
  class LinearActuator {
    var linearMotorState: Linear
    var upRelay: bool
    var downRelay: bool
    ghost var relayLog: seq<Relays>

    ghost function State(): Actuator
      reads this
    {
      Actuator(linearMotorState, Relays(upRelay, downRelay), relayLog)
    }

    constructor ()
      ensures State() == Actuator(LinearStopped, Relays(false, false), [])
    {
      linearMotorState, upRelay, downRelay, relayLog := LinearStopped, false, false, [];
    }

    method WriteUp(on: bool)
      modifies this
      ensures State() == WriteRelays(old(State()), on, old(downRelay))
    {
      upRelay := on;
      relayLog := relayLog + [Relays(upRelay, downRelay)];
    }

    method WriteDown(on: bool)
      modifies this
      ensures State() == WriteRelays(old(State()), old(upRelay), on)
    {
      downRelay := on;
      relayLog := relayLog + [Relays(upRelay, downRelay)];
    }

    method Stop()
      modifies this
      ensures State() == LinearStop(old(State()))
    {
      WriteUp(false);
      WriteDown(false);
      linearMotorState := LinearStopped;
    }

    method MoveUp()
      modifies this
      ensures State() == LinearMoveUp(old(State()))
    {
      if linearMotorState == LinearUp { return; }
      WriteDown(false);
      WriteUp(true);
      linearMotorState := LinearUp;
    }

    method MoveDown()
      modifies this
      ensures State() == LinearMoveDown(old(State()))
    {
      if linearMotorState == LinearDown { return; }
      WriteUp(false);
      WriteDown(true);
      linearMotorState := LinearDown;
    }
  }

  /** The grabber output D5 and its pulse counter. */
  class GrabberOutput {
    var grabberPulseActive: bool
    var timeUpGrabberPulseActive: bool
    var grabberPulseState: bool
    var grabberPulseToggles: nat
    var lastGrabberPulse: nat
    var pwm: nat
    ghost var pulsedAt: nat
    ghost var writes: seq<Drive>
    ghost var disturbed: bool
    ghost var ended: seq<EndPulse>

    ghost function State(): Grabber
      reads this
    {
      Grabber(grabberPulseActive, timeUpGrabberPulseActive, grabberPulseState, grabberPulseToggles,
              lastGrabberPulse, pwm, pulsedAt, writes, disturbed, ended)
    }

    constructor ()
      ensures State() == Grabber(false, false, false, 0, 0, 0, 0, [], false, [])
    {
      grabberPulseActive, timeUpGrabberPulseActive, grabberPulseState := false, false, false;
      grabberPulseToggles, lastGrabberPulse, pwm := 0, 0, 0;
      pulsedAt, writes, disturbed, ended := 0, [], false, [];
    }

    /** startGrabberPulse and startTimeUpGrabberPulse. */
    method Begin(timeUp: bool, t: nat)
      modifies this
      ensures State() == StartPulse(old(State()), timeUp, t)
    {
      grabberPulseActive := true;
      timeUpGrabberPulseActive := timeUp;
      grabberPulseState := true;
      grabberPulseToggles := 1;
      lastGrabberPulse := Millis(t);
      pwm := FULL_PWM;
      pulsedAt, writes, disturbed := t, [Drive(t, FULL_PWM)], false;
    }

    method Update(checked: nat, stored: nat) returns (active: bool)
      modifies this
      ensures State() == UpdatePulse(old(State()), checked, stored)
      ensures active == grabberPulseActive
    {
      if !grabberPulseActive { return false; }
      if Minus(Millis(checked), lastGrabberPulse) >= PULSE_INTERVAL {
        lastGrabberPulse := Millis(stored);
        grabberPulseState := !grabberPulseState;
        grabberPulseToggles := grabberPulseToggles + 1;
        pwm := if grabberPulseState then FULL_PWM else 0;
        pulsedAt, writes := stored, writes + [Drive(stored, pwm)];
        if grabberPulseToggles >= PULSE_TOGGLES {
          if timeUpGrabberPulseActive { ended := ended + [EndPulse(writes, disturbed)]; }
          grabberPulseActive := false;
          timeUpGrabberPulseActive := false;
          grabberPulseState := false;
          pwm := 0;
        }
      }
      return grabberPulseActive;
    }

    method Off(t: nat)
      modifies this
      ensures State() == SwitchOff(old(State()), t)
    {
      pwm := 0;
      writes := writes + [Drive(t, 0)];
    }

    method Hold(value: nat)
      modifies this
      ensures State() == old(State()).(pwm := value)
    {
      pwm := value;
    }

    method Reset()
      modifies this
      ensures State() == Clear(old(State()))
    {
      pwm := 0;
      grabberPulseActive := false;
      grabberPulseState := false;
      grabberPulseToggles := 0;
    }
  }

  class Sketch {
    const grabber: GrabberOutput
    const actuator: LinearActuator
    var dashboardPlayActive: bool
    var previousDashboardStart: bool // true is HIGH, released
    var dashboardPlayStarted: nat
    var homingState: Homing
    var homingAxisStarted: nat
    ghost var startedAt: nat
    ghost var checkedAt: nat
    ghost var sessions: seq<Session>
    ghost var controls: seq<Control>
    ghost var axisAt: nat
    ghost var steps: seq<HomeStep>
    ghost var now: nat

    ghost function State(): Fw
      reads this, grabber, actuator
    {
      Fw(PlayGate(dashboardPlayActive, previousDashboardStart, dashboardPlayStarted, startedAt, checkedAt,
                  sessions, controls),
         grabber.State(),
         Home(homingState, homingAxisStarted, axisAt, steps),
         actuator.State(),
         now)
    }

    constructor (ghost t: nat)
      ensures State() == Setup(t)
      ensures fresh(grabber) && fresh(actuator)
    {
      grabber := new GrabberOutput();
      actuator := new LinearActuator();
      dashboardPlayActive, previousDashboardStart, dashboardPlayStarted := false, true, 0;
      homingState, homingAxisStarted := HomingIdle, 0;
      startedAt, checkedAt, sessions, controls := 0, t, [], [];
      axisAt, steps, now := 0, [], t;
    }

    method BeginHoming(t: nat)
      modifies this, grabber, actuator
      ensures State() == StartHoming(old(State()), t)
    {
      actuator.Stop();
      grabber.Off(t);
      homingState := HomingY;
      homingAxisStarted := Millis(t);
      axisAt := t;
    }

    method UpdateHoming(atHome: bool, checked: nat)
      modifies this
      ensures State() == old(State()).(home := UpdateHome(old(State()).home, atHome, checked))
    {
      if homingState == HomingY {
        if atHome {
          homingState := HomingComplete;
          return;
        }
        if Minus(Millis(checked), homingAxisStarted) >= HOMING_TIMEOUT {
          homingState := HomingFault;
          return;
        }
        steps := steps + [HomeStep(Y_HOME_DIRECTION, atHome, checked - axisAt)];
        return;
      }
      if homingState == HomingComplete {
        homingState := HomingIdle;
      }
    }

    method HandleStartEdge(input: Input)
      modifies this, grabber, actuator
      ensures State() == OnEdge(old(State()), input)
    {
      if previousDashboardStart && input.gateLow && homingState != HomingFault {
        if input.edgeCode == RESERVED_CODE {
          dashboardPlayActive := false;
          sessions, grabber.disturbed := sessions + [HomeRequested], true;
          BeginHoming(input.clock.home);
        } else {
          dashboardPlayActive := true;
          dashboardPlayStarted := Millis(input.clock.edge);
          startedAt, sessions := input.clock.edge, sessions + [Began];
          grabber.Begin(false, input.clock.pulse);
        }
      }
    }

    method HandleEnd(input: Input)
      modifies this, grabber, actuator
      ensures State() == OnLimit(old(State()), input)
    {
      if dashboardPlayActive &&
         (!input.gateLow || Minus(Millis(input.clock.limit), dashboardPlayStarted) >= PLAY_LIMIT) {
        if !input.gateLow && input.endCode == RESERVED_CODE {
          grabber.Begin(true, input.clock.timeUp);
        }
        dashboardPlayActive := false;
        sessions := sessions + [Ended(AsksEndPulse(input), input.gateLow)];
        BeginHoming(input.clock.home);
      }
    }

    method HandleClosedGate(input: Input)
      modifies this, grabber, actuator
      ensures State() == WhileClosed(old(State()), input)
    {
      actuator.Stop();
      if grabber.timeUpGrabberPulseActive {
        var _ := grabber.Update(input.clock.toggle, input.clock.store);
        return;
      }
      if homingState != HomingIdle {
        UpdateHoming(input.atHome, input.clock.check);
        return;
      }
      grabber.Reset();
    }

    method HandleControls(input: Input)
      modifies this, grabber, actuator
      ensures State() == OnControl(old(State()), input)
    {
      controls := controls + [Control(input.gateLow, input.clock.limit - startedAt, grabber.writes)];
      grabber.Hold(if input.grab then HoldPwm(input.holdCode) else 0);
      if input.remoteOn {
        if input.stick > DEAD_ZONE {
          actuator.MoveUp();
        } else if input.stick < -DEAD_ZONE {
          actuator.MoveDown();
        } else {
          actuator.Stop();
        }
      } else {
        actuator.Stop();
      }
    }

    method Loop(input: Input)
      modifies this, grabber, actuator
      ensures State() == Pass(old(State()), input)
    {
      HandleStartEdge(input);
      HandleEnd(input);
      previousDashboardStart := !input.gateLow;
      checkedAt, now := input.clock.limit, input.clock.store;
      if !dashboardPlayActive {
        HandleClosedGate(input);
        return;
      }
      var busy := grabber.Update(input.clock.toggle, input.clock.store);
      if busy { return; }
      HandleControls(input);
    }
  }
}
