/** Every run of the sketch: any samples, any gate and switch behaviour, and a
    clock that wraps every 2^32 milliseconds. */
module FirmwareRuns {
  import opened Firmware

  function Loop(f: Fw, inputs: seq<Input>): Fw {
    if inputs == [] then f else Pass(Loop(f, inputs[..|inputs| - 1]), inputs[|inputs| - 1])
  }

  /** Passes follow each other in time, with less than 2^32 - 180000 ms between
      their limit checks. */
  predicate Timely(f: Fw, input: Input) {
    InOrder(f, input) && input.clock.limit < f.play.checkedAt + WRAP - PLAY_LIMIT
  }

  ghost predicate AllTimely(f: Fw, inputs: seq<Input>) {
    forall i :: 0 <= i < |inputs| ==> Timely(Loop(f, inputs[..i]), inputs[i])
  }

  lemma TimelyPrefix(f: Fw, inputs: seq<Input>)
    requires inputs != [] && AllTimely(f, inputs)
    ensures AllTimely(f, inputs[..|inputs| - 1])
    ensures Timely(Loop(f, inputs[..|inputs| - 1]), inputs[|inputs| - 1])
  {
    var before := inputs[..|inputs| - 1];
    forall i | 0 <= i < |before| ensures Timely(Loop(f, before[..i]), before[i]) {
      assert before[..i] == inputs[..i];
    }
  }

  lemma MinusExact(a: nat, b: nat)
    requires b <= a
    ensures Minus(Millis(a), Millis(b)) <= a - b
    ensures a - b < WRAP ==> Minus(Millis(a), Millis(b)) == a - b
  {
  }

  // -------------------------------------------------------------------- relays

  predicate Apart(a: Actuator) {
    && (a.state.LinearStopped? ==> a.relays == Relays(false, false))
    && (a.state.LinearUp? ==> a.relays == Relays(true, false))
    && (a.state.LinearDown? ==> a.relays == Relays(false, true))
    && (forall r :: r in a.log ==> !(r.up && r.down))
  }

  lemma StopApart(a: Actuator)
    requires Apart(a)
    ensures Apart(LinearStop(a))
  {
  }

  lemma SteerApart(a: Actuator, input: Input)
    requires Apart(a)
    ensures Apart(Steer(a, input))
  {
  }

  // -------------------------------------------------------------------- pulses

  function Wave(i: int): nat {
    if i % 2 == 0 then FULL_PWM else 0
  }

  /** The first `n` writes of a startup pulse: alternately full and off, at least
      a second apart. */
  ghost predicate StartWave(writes: seq<Drive>, n: nat) {
    && |writes| == n
    && (forall i :: 0 <= i < n ==> writes[i].pwm == Wave(i))
    && (forall i :: 0 <= i < n - 1 ==> writes[i].at + PULSE_INTERVAL <= writes[i + 1].at)
  }

  /** An end pulse after `n` toggles: homing switches the first ON phase off at
      once, in the same pass, so the second write is already an extra OFF. */
  ghost predicate EndWave(writes: seq<Drive>, n: nat) {
    && n >= 1 && |writes| == n + 1
    && writes[0].pwm == FULL_PWM && writes[1].pwm == 0
    && (forall i :: 2 <= i <= n ==> writes[i].pwm == Wave(i - 1))
    && (n >= 2 ==> writes[0].at + PULSE_INTERVAL <= writes[2].at)
    && (forall i :: 3 <= i <= n ==> writes[i - 1].at + PULSE_INTERVAL <= writes[i].at)
  }

  ghost predicate Starting(g: Grabber) {
    && !g.timeUp && 1 <= g.toggles <= PULSE_TOGGLES
    && g.active == (g.toggles < PULSE_TOGGLES)
    && g.on == (g.toggles % 2 == 1)
    && (g.active ==> g.pwm == Wave(g.toggles - 1))
    && StartWave(g.writes, g.toggles)
    && g.at == g.writes[g.toggles - 1].at
  }

  ghost predicate Ending(g: Grabber) {
    && g.active && 1 <= g.toggles < PULSE_TOGGLES
    && g.on == (g.toggles % 2 == 1)
    && (!g.disturbed ==>
          && EndWave(g.writes, g.toggles)
          && g.pwm == g.writes[g.toggles].pwm
          && g.at == (if g.toggles == 1 then g.writes[0].at else g.writes[g.toggles].at))
  }

  ghost predicate EndedWell(g: Grabber) {
    forall p :: p in g.ended && !p.disturbed ==> EndWave(p.writes, PULSE_TOGGLES)
  }

  lemma StartWaveGrows(writes: seq<Drive>, n: nat, t: nat)
    requires StartWave(writes, n) && n >= 1 && writes[n - 1].at + PULSE_INTERVAL <= t
    ensures StartWave(writes + [Drive(t, Wave(n))], n + 1)
  {
  }

  lemma EndWaveGrows(writes: seq<Drive>, n: nat, t: nat)
    requires EndWave(writes, n) && (if n == 1 then writes[0].at else writes[n].at) + PULSE_INTERVAL <= t
    ensures EndWave(writes + [Drive(t, Wave(n))], n + 1)
  {
  }

  lemma StartPulseGoesOn(g: Grabber, checked: nat, stored: nat)
    requires Starting(g) && g.last == Millis(g.at) && g.at <= checked <= stored
    ensures var h := UpdatePulse(g, checked, stored);
            Starting(h) && h.last == Millis(h.at) && h.at <= stored && h.ended == g.ended
  {
    MinusExact(checked, g.at);
    if g.active && Minus(Millis(checked), g.last) >= PULSE_INTERVAL {
      StartWaveGrows(g.writes, g.toggles, stored);
    }
  }

  lemma EndPulseGoesOn(g: Grabber, checked: nat, stored: nat)
    requires Ending(g) && EndedWell(g) && g.timeUp && g.last == Millis(g.at) && g.at <= checked <= stored
    ensures var h := UpdatePulse(g, checked, stored);
            && EndedWell(h) && h.last == Millis(h.at) && h.at <= stored
            && (if h.timeUp then Ending(h) else h.pwm == 0)
  {
    MinusExact(checked, g.at);
    if !g.disturbed && Minus(Millis(checked), g.last) >= PULSE_INTERVAL {
      EndWaveGrows(g.writes, g.toggles, stored);
    }
  }

  // ---------------------------------------------------------------- whole passes

  ghost predicate GrabberSound(f: Fw, now: nat) {
    var g := f.grabber;
    && g.last == Millis(g.at)
    && EndedWell(g)
    && (f.play.active ==> Starting(g))
    && (g.timeUp ==> Ending(g) && f.home.state.HomingY? && !f.play.active)
    && (f.play.active || g.timeUp ==> g.at <= now)
    && (!f.play.active && !g.timeUp && !f.home.state.HomingIdle? ==> g.pwm == 0)
    && (f.home.state.HomingFault? ==> !f.play.active && !g.timeUp)
  }

  ghost predicate ControlsSound(controls: seq<Control>) {
    forall c :: c in controls ==>
      c.gateLow && c.elapsed < PLAY_LIMIT && StartWave(c.pulse, PULSE_TOGGLES)
  }

  ghost predicate Sound(f: Fw) {
    && Apart(f.actuator)
    && GrabberSound(f, f.now)
    && ControlsSound(f.play.controls)
    && f.play.started == Millis(f.play.startedAt)
    && f.play.checkedAt <= f.now
    && (f.play.active ==> f.play.startedAt <= f.play.checkedAt < f.play.startedAt + PLAY_LIMIT)
  }

  lemma EdgeKeeps(f: Fw, input: Input)
    requires Sound(f) && Timely(f, input)
    ensures var g := OnEdge(f, input);
            && Apart(g.actuator) && GrabberSound(g, input.clock.limit)
            && g.play.controls == f.play.controls
            && g.play.started == Millis(g.play.startedAt)
            && (g.play.active ==> g.play.startedAt <= input.clock.limit < g.play.startedAt + WRAP)
  {
    StopApart(f.actuator);
  }

  lemma LimitKeeps(f: Fw, input: Input)
    requires Apart(f.actuator) && GrabberSound(f, input.clock.limit) && Ordered(input.clock)
    requires f.play.started == Millis(f.play.startedAt)
    requires f.play.active ==> f.play.startedAt <= input.clock.limit < f.play.startedAt + WRAP
    ensures var g := OnLimit(f, input);
            && Apart(g.actuator) && GrabberSound(g, input.clock.timeUp)
            && g.play.controls == f.play.controls
            && g.play.started == f.play.started && g.play.startedAt == f.play.startedAt
            && (g.play.active ==> input.gateLow && input.clock.limit < g.play.startedAt + PLAY_LIMIT && f.play.active)
  {
    if f.play.active {
      MinusExact(input.clock.limit, f.play.startedAt);
      StopApart(f.actuator);
    }
  }

  lemma GateKeeps(f: Fw, input: Input)
    requires Sound(f) && Timely(f, input)
    ensures var g := Gate(f, input);
            && Sound(g) && GrabberSound(g, input.clock.timeUp)
            && g.play.checkedAt == input.clock.limit && g.now == input.clock.store
            && (g.play.active ==> input.gateLow)
  {
    EdgeKeeps(f, input);
    LimitKeeps(OnEdge(f, input), input);
  }

  lemma PassKeeps(f: Fw, input: Input)
    requires Sound(f) && Timely(f, input)
    ensures Sound(Pass(f, input))
    ensures Pass(f, input).play.checkedAt == input.clock.limit && Pass(f, input).now == input.clock.store
  {
    GateKeeps(f, input);
    var g := Gate(f, input);
    StopApart(g.actuator);
    SteerApart(g.actuator, input);
    if g.play.active {
      StartPulseGoesOn(g.grabber, input.clock.toggle, input.clock.store);
    } else if g.grabber.timeUp {
      EndPulseGoesOn(g.grabber, input.clock.toggle, input.clock.store);
    }
  }

  lemma SetupSound(t: nat)
    ensures Sound(Setup(t))
  {
  }

  lemma {:induction false} LoopSound(t: nat, inputs: seq<Input>)
    requires AllTimely(Setup(t), inputs)
    ensures Sound(Loop(Setup(t), inputs))
  {
    if inputs == [] {
      SetupSound(t);
    } else {
      TimelyPrefix(Setup(t), inputs);
      LoopSound(t, inputs[..|inputs| - 1]);
      PassKeeps(Loop(Setup(t), inputs[..|inputs| - 1]), inputs[|inputs| - 1]);
    }
  }
}
