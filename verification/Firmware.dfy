/** The Arduino sketch: one `loop()` pass as a function of the firmware state and
    of everything the pass samples. Module FirmwareSketch performs the pass
    statement by statement. */
module Firmware {
  import opened Prelude

  const WRAP: nat := 0x1_0000_0000
  const PLAY_LIMIT: nat := 180000
  const HOMING_TIMEOUT: nat := 60000
  const PULSE_INTERVAL: nat := 1000
  const PULSE_TOGGLES: nat := 6
  const FULL_PWM: nat := 255
  const DEAD_ZONE: int := 25
  const Y_HOME_DIRECTION := true // HIGH

  type Code = n: nat | n < 8

  function Millis(t: nat): nat {
    t % WRAP
  }

  /** Unsigned 32-bit subtraction. */
  function Minus(a: nat, b: nat): nat {
    (a - b) % WRAP
  }

  // ------------------------------------------------------------ actuator relays

  datatype Linear = LinearStopped | LinearUp | LinearDown

  datatype Relays = Relays(up: bool, down: bool)

  /** `log` is every state the two relay pins have been in. */
  datatype Actuator = Actuator(state: Linear, relays: Relays, log: seq<Relays>)

  function WriteRelays(a: Actuator, up: bool, down: bool): Actuator {
    a.(relays := Relays(up, down), log := a.log + [Relays(up, down)])
  }

  function LinearStop(a: Actuator): Actuator {
    var b := WriteRelays(a, false, a.relays.down);
    WriteRelays(b, false, false).(state := LinearStopped)
  }

  function LinearMoveUp(a: Actuator): Actuator {
    if a.state.LinearUp? then a else
      var b := WriteRelays(a, a.relays.up, false);
      WriteRelays(b, true, b.relays.down).(state := LinearUp)
  }

  function LinearMoveDown(a: Actuator): Actuator {
    if a.state.LinearDown? then a else
      var b := WriteRelays(a, false, a.relays.down);
      WriteRelays(b, b.relays.up, true).(state := LinearDown)
  }

  // ------------------------------------------------------------- grabber pulses

  /** A write of `pwm` to the grabber output D5. */
  datatype Drive = Drive(at: nat, pwm: nat)

  /** A finished end pulse; `disturbed` if a home request arrived during it. */
  datatype EndPulse = EndPulse(writes: seq<Drive>, disturbed: bool)

  /** `at` is the true time behind `last`; `writes` are the writes to D5 since the
      latest pulse began, hold output aside. */
  datatype Grabber = Grabber(active: bool, timeUp: bool, on: bool, toggles: nat, last: nat, pwm: nat,
                             at: nat, writes: seq<Drive>, disturbed: bool, ended: seq<EndPulse>)

  function HoldPwm(code: Code): nat {
    var percent := 40 + code * 10;
    (if percent > 100 then 100 else percent) * 255 / 100
  }

  function StartPulse(g: Grabber, timeUp: bool, t: nat): Grabber {
    Grabber(true, timeUp, true, 1, Millis(t), FULL_PWM, t, [Drive(t, FULL_PWM)], false, g.ended)
  }

  function UpdatePulse(g: Grabber, checked: nat, stored: nat): Grabber {
    if g.active && Minus(Millis(checked), g.last) >= PULSE_INTERVAL then
      var pwm := if g.on then 0 else FULL_PWM;
      var writes := g.writes + [Drive(stored, pwm)];
      if g.toggles + 1 >= PULSE_TOGGLES
      then Grabber(false, false, false, g.toggles + 1, Millis(stored), 0, stored, writes, g.disturbed,
                   if g.timeUp then g.ended + [EndPulse(writes, g.disturbed)] else g.ended)
      else Grabber(true, g.timeUp, !g.on, g.toggles + 1, Millis(stored), pwm, stored, writes, g.disturbed,
                   g.ended)
    else g
  }

  /** The D5 write in startHoming. */
  function SwitchOff(g: Grabber, t: nat): Grabber {
    g.(pwm := 0, writes := g.writes + [Drive(t, 0)])
  }

  /** What an idle pass does to the grabber. */
  function Clear(g: Grabber): Grabber {
    g.(pwm := 0, active := false, on := false, toggles := 0)
  }

  // ---------------------------------------------------------------------- homing

  datatype Homing = HomingIdle | HomingY | HomingComplete | HomingFault

  /** `elapsed` is the true time since homing of the axis began. */
  datatype HomeStep = HomeStep(direction: bool, atHome: bool, elapsed: int)

  datatype Home = Home(state: Homing, started: nat, at: nat, steps: seq<HomeStep>)

  function StartHome(h: Home, t: nat): Home {
    Home(HomingY, Millis(t), t, h.steps)
  }

  function UpdateHome(h: Home, atHome: bool, checked: nat): Home {
    match h.state
    case HomingY =>
      if atHome then h.(state := HomingComplete)
      else if Minus(Millis(checked), h.started) >= HOMING_TIMEOUT then h.(state := HomingFault)
      else h.(steps := h.steps + [HomeStep(Y_HOME_DIRECTION, atHome, checked - h.at)])
    case HomingComplete => h.(state := HomingIdle)
    case _ => h
  }

  // ------------------------------------------------------------------- one pass

  /** `Ended(endPulse, cutOff)`: a play ended, with an end pulse requested or not,
      by the 180 s limit or by the gate. */
  datatype Session = Began | HomeRequested | Ended(endPulse: bool, cutOff: bool)

  /** A pass that reached the button and remote control code: how the gate read,
      the true time since the play began, and the pulse it came after. */
  datatype Control = Control(gateLow: bool, elapsed: int, pulse: seq<Drive>)

  /** `startedAt` is the true time behind `started`, `checkedAt` that of the last
      limit check. */
  datatype PlayGate = PlayGate(active: bool, previousReleased: bool, started: nat, startedAt: nat,
                               checkedAt: nat, sessions: seq<Session>, controls: seq<Control>)

  /** `now` is the end of the last pass. */
  datatype Fw = Fw(play: PlayGate, grabber: Grabber, home: Home, actuator: Actuator, now: nat)

  /** Successive readings of the clock in one pass, unwrapped. */
  datatype Clock = Clock(edge: nat, pulse: nat, limit: nat, timeUp: nat, home: nat,
                         check: nat, toggle: nat, store: nat)

  predicate Ordered(c: Clock) {
    c.edge <= c.pulse <= c.limit <= c.timeUp <= c.home <= c.check <= c.toggle <= c.store
  }

  /** What one pass samples. The power bits are read up to three times. */
  datatype Input = Input(gateLow: bool, edgeCode: Code, endCode: Code, holdCode: Code,
                         atHome: bool, stick: int, remoteOn: bool, grab: bool, clock: Clock)

  /** The state setup() leaves behind at time `t`. */
  function Setup(t: nat): Fw {
    Fw(PlayGate(false, true, 0, 0, t, [], []),
       Grabber(false, false, false, 0, 0, 0, 0, [], false, []),
       Home(HomingIdle, 0, 0, []),
       Actuator(LinearStopped, Relays(false, false), []),
       t)
  }

  function StartHoming(f: Fw, t: nat): Fw {
    f.(actuator := LinearStop(f.actuator), grabber := SwitchOff(f.grabber, t), home := StartHome(f.home, t))
  }

  function OnEdge(f: Fw, input: Input): Fw {
    var c := input.clock;
    if f.play.previousReleased && input.gateLow && !f.home.state.HomingFault? then
      if input.edgeCode == RESERVED_CODE
      then StartHoming(f.(play := f.play.(active := false, sessions := f.play.sessions + [HomeRequested]),
                          grabber := f.grabber.(disturbed := true)), c.home)
      else f.(play := f.play.(active := true, started := Millis(c.edge), startedAt := c.edge,
                              sessions := f.play.sessions + [Began]),
              grabber := StartPulse(f.grabber, false, c.pulse))
    else f
  }

  predicate PlayOver(play: PlayGate, input: Input) {
    play.active && (!input.gateLow || Minus(Millis(input.clock.limit), play.started) >= PLAY_LIMIT)
  }

  predicate AsksEndPulse(input: Input) {
    !input.gateLow && input.endCode == RESERVED_CODE
  }

  function OnLimit(f: Fw, input: Input): Fw {
    if PlayOver(f.play, input) then
      var endPulse := AsksEndPulse(input);
      StartHoming(f.(grabber := if endPulse then StartPulse(f.grabber, true, input.clock.timeUp) else f.grabber,
                     play := f.play.(active := false,
                                     sessions := f.play.sessions + [Ended(endPulse, input.gateLow)])),
                  input.clock.home)
    else f
  }

  /** The part of a pass that decides whether a play is on. */
  function Gate(f: Fw, input: Input): Fw {
    var g := OnLimit(OnEdge(f, input), input);
    g.(play := g.play.(previousReleased := !input.gateLow, checkedAt := input.clock.limit),
       now := input.clock.store)
  }

  function WhileClosed(f: Fw, input: Input): Fw {
    var g := f.(actuator := LinearStop(f.actuator));
    if f.grabber.timeUp
    then g.(grabber := UpdatePulse(f.grabber, input.clock.toggle, input.clock.store))
    else if !f.home.state.HomingIdle?
    then g.(home := UpdateHome(f.home, input.atHome, input.clock.check))
    else g.(grabber := Clear(f.grabber))
  }

  function Steer(a: Actuator, input: Input): Actuator {
    if !input.remoteOn then LinearStop(a)
    else if input.stick > DEAD_ZONE then LinearMoveUp(a)
    else if input.stick < -DEAD_ZONE then LinearMoveDown(a)
    else LinearStop(a)
  }

  function OnControl(f: Fw, input: Input): Fw {
    var note := Control(input.gateLow, input.clock.limit - f.play.startedAt, f.grabber.writes);
    f.(grabber := f.grabber.(pwm := if input.grab then HoldPwm(input.holdCode) else 0),
       play := f.play.(controls := f.play.controls + [note]),
       actuator := Steer(f.actuator, input))
  }

  function WhilePlaying(f: Fw, input: Input): Fw {
    var g := f.(grabber := UpdatePulse(f.grabber, input.clock.toggle, input.clock.store));
    if g.grabber.active then g else OnControl(g, input)
  }

  function Pass(f: Fw, input: Input): Fw {
    var g := Gate(f, input);
    if g.play.active then WhilePlaying(g, input) else WhileClosed(g, input)
  }

  /** The pass starts no earlier than the last one ended. */
  predicate InOrder(f: Fw, input: Input) {
    Ordered(input.clock) && f.now <= input.clock.edge
  }
}
