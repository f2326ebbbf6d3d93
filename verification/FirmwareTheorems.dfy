/** What every run of the sketch keeps. */
module FirmwareTheorems {
  import opened Prelude
  import opened Firmware
  import opened FirmwareRuns

  // ------------------------------------------------------------------ play bound

  /** A pass that reaches the buttons and the remote saw the gate low, came less
      than 180 s after the play's start edge, and came after the whole startup
      pulse. */
  lemma {:induction false} ControlOnlyWithinPlay(t: nat, inputs: seq<Input>, c: Control)
    requires AllTimely(Setup(t), inputs) && c in Loop(Setup(t), inputs).play.controls
    ensures c.gateLow && c.elapsed < PLAY_LIMIT
    ensures StartWave(c.pulse, PULSE_TOGGLES) && LongPhases(c.pulse, 0) == 3
  {
    LoopSound(t, inputs);
    StartWaveHasThree(c.pulse);
  }

  /** A play whose gate stays low is cut off by exactly the 180 s limit, neither
      earlier nor later, and then no end pulse is asked for; a play whose gate is
      released ends in that pass, with an end pulse exactly if the bits read 111.
      Either way homing begins in that pass and the actuator stands still. */
  lemma {:induction false} PlayEndsExactly(t: nat, inputs: seq<Input>, input: Input)
    requires AllTimely(Setup(t), inputs) && Timely(Loop(Setup(t), inputs), input)
    requires Loop(Setup(t), inputs).play.active
    ensures var f := Loop(Setup(t), inputs);
            var g := Pass(f, input);
            && (g.play.active <==> input.gateLow && input.clock.limit - f.play.startedAt < PLAY_LIMIT)
            && g.play.sessions == f.play.sessions
                + (if g.play.active then []
                   else [Ended(!input.gateLow && input.endCode == RESERVED_CODE, input.gateLow)])
            && (!g.play.active ==>
                  && !g.home.state.HomingIdle? && g.home.at == input.clock.home
                  && g.actuator.relays == Relays(false, false))
  {
    LoopSound(t, inputs);
    var f := Loop(Setup(t), inputs);
    MinusExact(input.clock.limit, f.play.startedAt);
    ActiveMeansGateSeenLow(t, inputs);
  }

  lemma ActiveMeansGateSeenLow(t: nat, inputs: seq<Input>)
    requires AllTimely(Setup(t), inputs) && Loop(Setup(t), inputs).play.active
    ensures !Loop(Setup(t), inputs).play.previousReleased
  {
    if inputs != [] {
      TimelyPrefix(Setup(t), inputs);
      LoopSound(t, inputs[..|inputs| - 1]);
      GateKeeps(Loop(Setup(t), inputs[..|inputs| - 1]), inputs[|inputs| - 1]);
    }
  }

  /** The number of ON phases of D5, from write `k` on, that last a second or more. */
  function LongPhases(writes: seq<Drive>, k: nat): nat
    decreases |writes| - k
  {
    if k + 1 >= |writes| then 0
    else (if writes[k].pwm == FULL_PWM && writes[k].at + PULSE_INTERVAL <= writes[k + 1].at then 1 else 0)
         + LongPhases(writes, k + 1)
  }

  lemma StartWaveHasThree(writes: seq<Drive>)
    requires StartWave(writes, PULSE_TOGGLES)
    ensures LongPhases(writes, 0) == 3
  {
    assert LongPhases(writes, 4) == 1;
    assert LongPhases(writes, 2) == 2;
  }

  lemma EndWaveHasTwo(writes: seq<Drive>)
    requires EndWave(writes, PULSE_TOGGLES)
    ensures LongPhases(writes, 0) == if writes[0].at + PULSE_INTERVAL <= writes[1].at then 3 else 2
  {
    assert writes[5].pwm == FULL_PWM && writes[3].pwm == FULL_PWM;
    assert LongPhases(writes, 5) == 1;
    assert LongPhases(writes, 3) == 2;
    assert LongPhases(writes, 1) == 2;
  }

  /** Every completed end pulse that no home request disturbed is full on for a
      second or more in only two phases, unless the one pass that both starts it and
      switches it off for homing took a second in between. */
  lemma {:induction false} EndPulseHasTwo(t: nat, inputs: seq<Input>, p: EndPulse)
    requires AllTimely(Setup(t), inputs) && p in Loop(Setup(t), inputs).grabber.ended && !p.disturbed
    ensures EndWave(p.writes, PULSE_TOGGLES)
    ensures LongPhases(p.writes, 0) == if p.writes[0].at + PULSE_INTERVAL <= p.writes[1].at then 3 else 2
  {
    LoopSound(t, inputs);
    EndWaveHasTwo(p.writes);
  }

  /** In the very pass that starts an end pulse D5 is off again. */
  lemma EndPulseStartsDark(f: Fw, input: Input)
    requires Sound(f) && Timely(f, input)
    requires f.play.active && f.play.previousReleased == false && AsksEndPulse(input)
    ensures var g := Pass(f, input);
            && g.grabber.pwm == 0 && !g.play.active
            && g.play.sessions == f.play.sessions + [Ended(true, false)]
            && (input.clock.toggle < input.clock.timeUp + PULSE_INTERVAL ==> g.grabber.timeUp && g.grabber.on)
  {
    PassKeeps(f, input);
    MinusExact(input.clock.toggle, input.clock.timeUp);
  }

  // ------------------------------------------------------------ relays and faults

  /** The two actuator relays are never on together, between any two writes. */
  lemma {:induction false} RelaysNeverBoth(t: nat, inputs: seq<Input>, i: nat)
    requires AllTimely(Setup(t), inputs) && i < |Loop(Setup(t), inputs).actuator.log|
    ensures var r := Loop(Setup(t), inputs).actuator.log[i]; !(r.up && r.down)
  {
    LoopSound(t, inputs);
  }

  /** What a homing fault freezes. */
  predicate FrozenBy(f: Fw, g: Fw) {
    && g.home == f.home
    && !g.play.active && g.play.sessions == f.play.sessions && g.play.controls == f.play.controls
    && g.grabber.pwm == 0 && g.actuator.relays == Relays(false, false)
  }

  lemma FaultFreezesPass(f: Fw, input: Input)
    requires Sound(f) && Timely(f, input) && f.home.state.HomingFault?
    ensures FrozenBy(f, Pass(f, input))
  {
  }

  /** A homing fault lasts: from then on no play, no homing step, D5 and both
      relays off. */
  lemma {:induction false} FaultLasts(f: Fw, inputs: seq<Input>)
    requires Sound(f) && f.home.state.HomingFault? && inputs != [] && AllTimely(f, inputs)
    ensures FrozenBy(f, Loop(f, inputs)) && Sound(Loop(f, inputs))
  {
    var before := inputs[..|inputs| - 1];
    TimelyPrefix(f, inputs);
    if before != [] {
      FaultLasts(f, before);
    }
    PassKeeps(Loop(f, before), inputs[|inputs| - 1]);
    FaultFreezesPass(Loop(f, before), inputs[|inputs| - 1]);
  }

  // ---------------------------------------------------------------------- homing

  /** What the wrapping clock can promise of a step. */
  predicate StepTimed(s: HomeStep) {
    s.direction == Y_HOME_DIRECTION && !s.atHome && 0 <= s.elapsed && s.elapsed % WRAP < HOMING_TIMEOUT
  }

  ghost predicate StepsTimed(h: Home) {
    h.started == Millis(h.at) && forall s :: s in h.steps ==> StepTimed(s)
  }

  lemma HomeStepTimed(h: Home, atHome: bool, checked: nat)
    requires StepsTimed(h) && h.at <= checked
    ensures StepsTimed(UpdateHome(h, atHome, checked)) && UpdateHome(h, atHome, checked).at == h.at
  {
    assert Minus(Millis(checked), h.started) == (checked - h.at) % WRAP;
  }

  lemma PassStepsTimed(f: Fw, input: Input)
    requires StepsTimed(f.home) && f.home.at <= f.now && InOrder(f, input)
    ensures var g := Pass(f, input); StepsTimed(g.home) && g.home.at <= g.now
  {
    var g := Gate(f, input);
    assert StepsTimed(g.home) && g.home.at <= input.clock.check;
    HomeStepTimed(g.home, input.atHome, input.clock.check);
  }

  lemma {:induction false} LoopStepsTimed(t: nat, inputs: seq<Input>)
    requires AllTimely(Setup(t), inputs)
    ensures var g := Loop(Setup(t), inputs); StepsTimed(g.home) && g.home.at <= g.now
  {
    if inputs != [] {
      TimelyPrefix(Setup(t), inputs);
      LoopStepsTimed(t, inputs[..|inputs| - 1]);
      PassStepsTimed(Loop(Setup(t), inputs[..|inputs| - 1]), inputs[|inputs| - 1]);
    }
  }

  /** In every run every homing step goes towards home with the switch open, and it
      comes within 60 s of true time if and only if it comes within one period of the
      wrapping clock. */
  lemma {:induction false} HomingStepExactly(t: nat, inputs: seq<Input>, s: HomeStep)
    requires AllTimely(Setup(t), inputs) && s in Loop(Setup(t), inputs).home.steps
    ensures s.direction && !s.atHome && 0 <= s.elapsed
    ensures s.elapsed < HOMING_TIMEOUT <==> s.elapsed < WRAP
  {
    LoopStepsTimed(t, inputs);
    assert StepTimed(s);
  }

  /** Half a period of the clock, a gap between passes that is still timely. */
  const HALF: nat := 0x8000_0000

  function PassInput(t: nat, gateLow: bool, code: Code): Input {
    Input(gateLow, code, code, code, false, 0, false, false, Clock(t, t, t, t, t, t, t, t))
  }

  lemma TimelyAppend(f: Fw, inputs: seq<Input>, input: Input)
    requires AllTimely(f, inputs) && Timely(Loop(f, inputs), input)
    ensures AllTimely(f, inputs + [input]) && Loop(f, inputs + [input]) == Pass(Loop(f, inputs), input)
  {
    hide Pass, Timely;
    var more := inputs + [input];
    assert more[..|inputs|] == inputs;
    forall i | 0 <= i < |more| ensures Timely(Loop(f, more[..i]), more[i]) {
      if i < |inputs| {
        assert more[..i] == inputs[..i];
      }
    }
  }

  /** Time `t`, homing waits since time 0 for an end pulse with `n` toggles so far. */
  predicate Waiting(f: Fw, n: nat, t: nat) {
    && !f.play.active && f.play.previousReleased && f.play.checkedAt == t && f.now == t
    && f.home == Home(HomingY, 0, 0, [])
    && f.grabber.active == f.grabber.timeUp == (n < PULSE_TOGGLES)
    && f.grabber.toggles == n && f.grabber.last == Millis(t)
  }

  /** A play that is started and stopped at once leaves its end pulse running. */
  lemma PulseBegins()
    ensures var f := Pass(Setup(0), PassInput(0, true, 0));
            && Timely(Setup(0), PassInput(0, true, 0))
            && Timely(f, PassInput(0, false, RESERVED_CODE))
            && Waiting(Pass(f, PassInput(0, false, RESERVED_CODE)), 1, 0)
  {
  }

  /** Half a period later the pulse toggles once. */
  lemma PulseToggles(f: Fw, n: nat, t: nat)
    requires Waiting(f, n, t) && n < PULSE_TOGGLES
    ensures Timely(f, PassInput(t + HALF, false, 0))
    ensures Waiting(Pass(f, PassInput(t + HALF, false, 0)), n + 1, t + HALF)
  {
    MinusExact(t + HALF, t);
  }

  /** Once the pulse is over the pass homes. */
  lemma HomesAtLast(f: Fw, t: nat)
    requires Waiting(f, PULSE_TOGGLES, t) && (t + HALF) % WRAP == 0
    ensures Timely(f, PassInput(t + HALF, false, 0))
    ensures Pass(f, PassInput(t + HALF, false, 0)).home.steps == [HomeStep(Y_HOME_DIRECTION, false, t + HALF)]
  {
  }

  lemma PulseRun(n: nat) returns (inputs: seq<Input>)
    requires 1 <= n <= PULSE_TOGGLES
    ensures AllTimely(Setup(0), inputs) && Waiting(Loop(Setup(0), inputs), n, (n - 1) * HALF)
  {
    hide Pass, Timely;
    if n == 1 {
      var start, stop := PassInput(0, true, 0), PassInput(0, false, RESERVED_CODE);
      PulseBegins();
      TimelyAppend(Setup(0), [], start);
      assert [] + [start] == [start];
      TimelyAppend(Setup(0), [start], stop);
      inputs := [start] + [stop];
    } else {
      var before := PulseRun(n - 1);
      var t := (n - 2) * HALF;
      PulseToggles(Loop(Setup(0), before), n - 1, t);
      TimelyAppend(Setup(0), before, PassInput(t + HALF, false, 0));
      inputs := before + [PassInput(t + HALF, false, 0)];
    }
  }

  /** A run that takes a homing step three clock periods late: a play started and
      stopped at once, five passes of its end pulse half a period apart, and one more. */
  lemma LateHomingStep() returns (inputs: seq<Input>)
    ensures AllTimely(Setup(0), inputs)
    ensures Loop(Setup(0), inputs).home.steps == [HomeStep(Y_HOME_DIRECTION, false, 3 * WRAP)]
  {
    hide Pass, Timely;
    var t := 5 * HALF;
    inputs := PulseRun(PULSE_TOGGLES);
    HomesAtLast(Loop(Setup(0), inputs), t);
    TimelyAppend(Setup(0), inputs, PassInput(t + HALF, false, 0));
    inputs := inputs + [PassInput(t + HALF, false, 0)];
  }

  /** About three days: no gap between passes reaches it. */
  const GAP: nat := 0x1000_0000

  predicate Frequent(f: Fw, input: Input) {
    Timely(f, input) && input.clock.store < f.now + GAP
  }

  ghost predicate AllFrequent(f: Fw, inputs: seq<Input>) {
    forall i :: 0 <= i < |inputs| ==> Frequent(Loop(f, inputs[..i]), inputs[i])
  }

  ghost predicate StepsSound(steps: seq<HomeStep>) {
    forall s :: s in steps ==> s.direction == Y_HOME_DIRECTION && !s.atHome && 0 <= s.elapsed < HOMING_TIMEOUT
  }

  const SLACK: nat := PULSE_INTERVAL + 2 * GAP

  /** How far homing can lag behind: an end pulse of at most five toggles comes
      first. */
  ghost predicate HomeTimed(h: Home, g: Grabber, now: nat) {
    && h.started == Millis(h.at)
    && (g.timeUp ==> g.at <= now < g.at + PULSE_INTERVAL + GAP && g.at <= h.at + (g.toggles - 1) * SLACK)
    && (h.state.HomingY? ==> h.at <= now)
  }

  ghost predicate HomeSound(f: Fw) {
    && HomeTimed(f.home, f.grabber, f.now)
    && (f.home.state.HomingY? && !f.play.active && !f.grabber.timeUp ==>
          f.now < f.home.at + HOMING_TIMEOUT + 5 * SLACK + GAP)
    && StepsSound(f.home.steps)
  }

  lemma GateHomeTimed(f: Fw, input: Input)
    requires Sound(f) && HomeSound(f) && Frequent(f, input)
    ensures var g := Gate(f, input);
            && g.home.started == Millis(g.home.at)
            && (g.grabber.timeUp ==> g.grabber.at <= input.clock.store < g.grabber.at + SLACK
                                     && g.grabber.at <= g.home.at + (g.grabber.toggles - 1) * SLACK)
            && (g.home.state.HomingY? && !g.play.active ==> g.home.at <= input.clock.check)
            && (g.home.state.HomingY? && !g.play.active && !g.grabber.timeUp ==>
                  input.clock.check < g.home.at + HOMING_TIMEOUT + 5 * SLACK + 2 * GAP)
            && g.home.steps == f.home.steps
  {
  }

  lemma StepSound(h: Home, atHome: bool, checked: nat)
    requires StepsSound(h.steps) && h.started == Millis(h.at) && h.at <= checked < h.at + WRAP
    ensures var k := UpdateHome(h, atHome, checked);
            && StepsSound(k.steps) && k.started == Millis(k.at) && k.at == h.at
            && (k.state.HomingY? ==> checked < h.at + HOMING_TIMEOUT || !h.state.HomingY?)
  {
    MinusExact(checked, h.at);
  }

  lemma TogglesTimed(g: Grabber, h: Home, checked: nat, stored: nat)
    requires g.active && g.timeUp && 1 <= g.toggles < PULSE_TOGGLES && g.last == Millis(g.at)
    requires g.at <= checked < g.at + PULSE_INTERVAL + 2 * GAP && checked <= stored < checked + GAP
    requires stored < g.at + SLACK
    requires g.at <= h.at + (g.toggles - 1) * SLACK
    ensures var k := UpdatePulse(g, checked, stored);
            && (k.timeUp ==> k.at <= stored < k.at + PULSE_INTERVAL + GAP && k.at <= h.at + (k.toggles - 1) * SLACK)
            && stored < h.at + 5 * SLACK + HOMING_TIMEOUT + GAP
  {
    MinusExact(checked, g.at);
  }

  lemma ClosedHomeSound(g: Fw, input: Input)
    requires GrabberSound(g, input.clock.timeUp) && Ordered(input.clock) && !g.play.active
    requires input.clock.store < input.clock.edge + GAP && g.now == input.clock.store
    requires g.home.started == Millis(g.home.at) && StepsSound(g.home.steps)
    requires g.grabber.timeUp ==> input.clock.store < g.grabber.at + SLACK
                                  && g.grabber.at <= g.home.at + (g.grabber.toggles - 1) * SLACK
    requires g.home.state.HomingY? ==> g.home.at <= input.clock.check
    requires g.home.state.HomingY? && !g.grabber.timeUp ==>
               input.clock.check < g.home.at + HOMING_TIMEOUT + 5 * SLACK + 2 * GAP
    ensures HomeSound(WhileClosed(g, input))
  {
    if g.grabber.timeUp {
      TogglesTimed(g.grabber, g.home, input.clock.toggle, input.clock.store);
    } else if g.home.state.HomingY? {
      StepSound(g.home, input.atHome, input.clock.check);
    }
  }

  lemma OpenHomeSound(g: Fw, input: Input)
    requires g.play.active && !g.grabber.timeUp && StepsSound(g.home.steps)
    requires g.home.started == Millis(g.home.at) && (g.home.state.HomingY? ==> g.home.at <= g.now)
    ensures HomeSound(WhilePlaying(g, input))
  {
  }

  lemma PassHomeSound(f: Fw, input: Input)
    requires Sound(f) && HomeSound(f) && Frequent(f, input)
    ensures HomeSound(Pass(f, input))
  {
    GateKeeps(f, input);
    GateHomeTimed(f, input);
    var g := Gate(f, input);
    if g.play.active {
      GateOpensOnTime(f, input);
      OpenHomeSound(g, input);
    } else {
      ClosedHomeSound(g, input);
    }
  }

  lemma GateOpensOnTime(f: Fw, input: Input)
    requires Sound(f) && HomeSound(f) && Frequent(f, input) && Gate(f, input).play.active
    ensures var g := Gate(f, input); !g.grabber.timeUp && (g.home.state.HomingY? ==> g.home.at <= g.now)
  {
    GateKeeps(f, input);
  }

  lemma {:induction false} HomeStepsSound(t: nat, inputs: seq<Input>)
    requires AllFrequent(Setup(t), inputs)
    ensures Sound(Loop(Setup(t), inputs)) && HomeSound(Loop(Setup(t), inputs))
  {
    if inputs != [] {
      var before := inputs[..|inputs| - 1];
      forall i | 0 <= i < |before| ensures Frequent(Loop(Setup(t), before[..i]), before[i]) {
        assert before[..i] == inputs[..i];
        assert Frequent(Loop(Setup(t), inputs[..i]), inputs[i]);
      }
      HomeStepsSound(t, before);
      assert Frequent(Loop(Setup(t), before), inputs[|inputs| - 1]);
      PassKeeps(Loop(Setup(t), before), inputs[|inputs| - 1]);
      PassHomeSound(Loop(Setup(t), before), inputs[|inputs| - 1]);
    }
  }

  /** Every homing step goes towards home, is taken with the home switch open,
      and comes less than 60 s after homing began. */
  lemma {:induction false} HomingStepIsSafe(t: nat, inputs: seq<Input>, s: HomeStep)
    requires AllFrequent(Setup(t), inputs) && s in Loop(Setup(t), inputs).home.steps
    ensures s.direction && !s.atHome && 0 <= s.elapsed < HOMING_TIMEOUT
  {
    HomeStepsSound(t, inputs);
  }
}
