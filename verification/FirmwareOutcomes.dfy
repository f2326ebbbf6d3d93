/** What single passes of the sketch do, told by their own inputs: when a play begins,
    how homing ends, and what the outputs do. */
module FirmwareOutcomes {
  import opened Prelude
  import opened Firmware
  import opened FirmwareRuns
  import opened FirmwareTheorems

  // --------------------------------------------------------------------- sessions

  /** A low gate after a released one, without a homing fault. */
  predicate FreshEdge(f: Fw, input: Input) {
    f.play.previousReleased && input.gateLow && !f.home.state.HomingFault?
  }

  /** What one pass tells, from any state a run reaches: a fresh edge is a home request
      for code 111 and else begins a play; a play ends by the gate or by the limit. */
  lemma PassTells(f: Fw, input: Input)
    requires Sound(f) && Timely(f, input)
    requires f.play.active ==> !f.play.previousReleased
    ensures var g := Pass(f, input);
            var begins := FreshEdge(f, input) && input.edgeCode != RESERVED_CODE;
            var asksHome := FreshEdge(f, input) && input.edgeCode == RESERVED_CODE;
            var start := if begins then input.clock.edge else f.play.startedAt;
            var on := begins || f.play.active;
            var late := input.clock.limit - start >= PLAY_LIMIT;
            && g.play.sessions == f.play.sessions
                 + (if asksHome then [HomeRequested] else if begins then [Began] else [])
                 + (if on && (!input.gateLow || late)
                    then [Ended(!input.gateLow && input.endCode == RESERVED_CODE, input.gateLow)] else [])
            && g.play.active == (on && input.gateLow && !late)
            && (g.play.active ==> g.play.startedAt == start)
            && g.play.previousReleased == !input.gateLow
            && (begins && g.play.active ==> g.grabber.writes[..1] == [Drive(input.clock.pulse, FULL_PWM)])
  {
    if f.play.active {
      MinusExact(input.clock.limit, f.play.startedAt);
    } else {
      MinusExact(input.clock.limit, input.clock.edge);
    }
  }

  // ---------------------------------------------------------------------- homing

  /** A pass with nothing to do but home: no play is on or begins, no home request
      comes, and no end pulse is running. */
  predicate Rests(f: Fw, input: Input) {
    !f.play.active && !f.grabber.timeUp && !FreshEdge(f, input)
  }

  /** How long ago homing began, as the clock tells it. */
  function HomingFor(f: Fw, input: Input): nat {
    (input.clock.check - f.home.at) % WRAP
  }

  /** A resting pass ends homing when the switch is active, at once and whatever the
      time; one resting pass later the machine is idle. An idle or faulty machine stays
      so, and no pass of these takes a step. */
  lemma SwitchEndsHoming(f: Fw, input: Input)
    requires Rests(f, input) && (f.home.state.HomingY? ==> input.atHome)
    ensures Pass(f, input).home == f.home.(state := match f.home.state
                                                    case HomingY => HomingComplete
                                                    case HomingComplete => HomingIdle
                                                    case HomingIdle => HomingIdle
                                                    case HomingFault => HomingFault)
  {
  }

  /** With the switch open it is a fault when the time is up, and else one more step. */
  lemma OpenSwitchHomes(f: Fw, input: Input)
    requires Rests(f, input) && f.home.state.HomingY? && !input.atHome && f.home.started == Millis(f.home.at)
    ensures var h, k := f.home, Pass(f, input).home;
            if HomingFor(f, input) >= HOMING_TIMEOUT then k == h.(state := HomingFault)
            else k == h.(steps := h.steps + [HomeStep(true, false, input.clock.check - h.at)])
  {
    assert Minus(Millis(input.clock.check), f.home.started) == HomingFor(f, input);
  }

  /** A play, an end pulse and an idle machine leave homing alone. */
  lemma HomingWaits(f: Fw, input: Input)
    requires !f.home.state.HomingFault?
    requires f.play.active || f.grabber.timeUp || f.home.state.HomingIdle?
    requires !FreshEdge(f, input) || input.edgeCode != RESERVED_CODE
    requires var g := Pass(f, input); g.play.active || |g.play.sessions| == |f.play.sessions|
    ensures Pass(f, input).home == f.home
  {
  }

  /** A play that ends and a home request begin homing anew in that very pass, with the
      relays off and D5 off, unless the request came in the middle of an end pulse. */
  lemma EndBeginsHoming(f: Fw, input: Input)
    requires Sound(f) && Timely(f, input)
    requires var g := Pass(f, input); !g.play.active && |g.play.sessions| > |f.play.sessions|
    ensures var g := Pass(f, input);
            && g.home.at == input.clock.home && g.home.started == Millis(input.clock.home)
            && !g.home.state.HomingIdle? && g.actuator.relays == Relays(false, false)
            && (!f.grabber.timeUp ==> g.grabber.pwm == 0)
  {
    GateKeeps(f, input);
    PassKeeps(f, input);
  }

  /** In every run a pass brings a homing fault if and only if it homes, samples the
      switch open, and the time is up. */
  lemma {:induction false} FaultIff(t: nat, inputs: seq<Input>, input: Input)
    requires AllTimely(Setup(t), inputs) && !Loop(Setup(t), inputs).home.state.HomingFault?
    ensures var f := Loop(Setup(t), inputs);
            var g := Gate(f, input);
            Pass(f, input).home.state.HomingFault? <==>
              && !g.play.active && !g.grabber.timeUp && g.home.state.HomingY?
              && !input.atHome && HomingFor(g, input) >= HOMING_TIMEOUT
  {
    LoopStepsTimed(t, inputs);
    FaultOfPass(Loop(Setup(t), inputs), input);
  }

  lemma FaultOfPass(f: Fw, input: Input)
    requires !f.home.state.HomingFault? && f.home.started == Millis(f.home.at)
    ensures Pass(f, input).home.state.HomingFault? <==>
              var g := Gate(f, input);
              && !g.play.active && !g.grabber.timeUp && g.home.state.HomingY?
              && !input.atHome && HomingFor(g, input) >= HOMING_TIMEOUT
  {
    var g := Gate(f, input);
    assert g.home.started == Millis(g.home.at);
    assert Minus(Millis(input.clock.check), g.home.started) == HomingFor(g, input);
  }

  lemma RestingPassIsQuiet(f: Fw, input: Input)
    requires Rests(f, input)
    ensures var g := Pass(f, input);
            && g.play.sessions == f.play.sessions && !g.play.active && !g.grabber.timeUp
            && g.play.previousReleased == !input.gateLow
  {
  }

  /** A homing machine that samples its switch active is idle two passes later, without
      another step and without a fault, and takes the next start. */
  lemma {:induction false} HomingArrives(t: nat, inputs: seq<Input>, first: Input, second: Input, start: Input)
    requires AllTimely(Setup(t), inputs)
    requires var f := Loop(Setup(t), inputs); Rests(f, first) && f.home.state.HomingY?
    requires first.atHome && !first.gateLow && !second.gateLow && start.gateLow && start.edgeCode != RESERVED_CODE
    requires start.clock.limit < start.clock.edge + PLAY_LIMIT
    requires Timely(Loop(Setup(t), inputs), first) && Timely(Loop(Setup(t), inputs + [first]), second)
    requires Timely(Loop(Setup(t), inputs + [first] + [second]), start)
    ensures var f, k := Loop(Setup(t), inputs), Loop(Setup(t), inputs + [first] + [second]);
            && k.home == f.home.(state := HomingIdle)
            && var g := Loop(Setup(t), inputs + [first] + [second] + [start]);
               g.play.active && g.play.sessions == f.play.sessions + [Began]
  {
    var f := Loop(Setup(t), inputs);
    TimelyAppend(Setup(t), inputs, first);
    TimelyAppend(Setup(t), inputs + [first], second);
    TimelyAppend(Setup(t), inputs + [first] + [second], start);
    LoopSound(t, inputs + [first] + [second]);
    hide Pass, Timely, Sound, Loop;
    var g := Pass(f, first);
    RestingPassIsQuiet(f, first);
    SwitchEndsHoming(f, first);
    var k := Pass(g, second);
    assert Rests(g, second);
    RestingPassIsQuiet(g, second);
    SwitchEndsHoming(g, second);
    PassTells(k, start);
  }

  // ---------------------------------------------------------------------- pulses

  /** The pass goes on with what is on: a play whose gate is low and whose time is not
      up, or no play and the gate released. */
  predicate CarriesOn(f: Fw, input: Input) {
    if f.play.active
    then input.gateLow && !f.play.previousReleased && input.clock.limit < f.play.startedAt + PLAY_LIMIT
    else !input.gateLow
  }

  predicate Pulsing(f: Fw) {
    f.grabber.active && (f.play.active || f.grabber.timeUp)
  }

  /** The current phase of the pulse has lasted its second, as the clock tells it. */
  predicate Due(f: Fw, input: Input) {
    (input.clock.toggle - f.grabber.at) % WRAP >= 1000
  }

  lemma PlayCarriesOn(f: Fw, input: Input)
    requires Sound(f) && Timely(f, input) && CarriesOn(f, input)
    ensures Gate(f, input).grabber == f.grabber && Gate(f, input).home == f.home
    ensures var g := Pass(f, input);
            && g.play.active == f.play.active && g.play.startedAt == f.play.startedAt
            && g.play.sessions == f.play.sessions && g.play.previousReleased == !input.gateLow
  {
    if f.play.active {
      MinusExact(input.clock.limit, f.play.startedAt);
    }
  }

  /** Of a pulse, startup or end, a pass makes the next toggle if and only if it is due,
      off and on in turn, and the sixth is the last. */
  lemma PulseStep(f: Fw, input: Input)
    requires Sound(f) && Timely(f, input) && CarriesOn(f, input) && Pulsing(f)
    ensures var g, h := f.grabber, Pass(f, input).grabber;
            if !Due(f, input) then h == g
            else
              && h.toggles == g.toggles + 1 && h.at == input.clock.store
              && h.writes == g.writes + [Drive(input.clock.store, if g.toggles % 2 == 1 then 0 else 255)]
              && h.active == (h.toggles < 6) && h.timeUp == (g.timeUp && h.toggles < 6)
    ensures f.grabber.timeUp ==> Pass(f, input).home == f.home
  {
    PlayCarriesOn(f, input);
    SameSound(f);
    hide Gate, Sound, Steer;
    assert Minus(Millis(input.clock.toggle), f.grabber.last) == (input.clock.toggle - f.grabber.at) % WRAP by {
      hide *;
      WrappedDifference(input.clock.toggle, f.grabber.at);
    }
  }

  lemma SameSound(f: Fw)
    requires Sound(f) && Pulsing(f)
    ensures f.grabber.last == Millis(f.grabber.at) && 1 <= f.grabber.toggles < 6
    ensures f.grabber.on == (f.grabber.toggles % 2 == 1)
  {
  }

  lemma WrappedDifference(a: nat, b: nat)
    ensures Minus(Millis(a), Millis(b)) == (a - b) % WRAP
  {
  }

  /** Every pass carries on, and finds the next toggle due. */
  ghost predicate AllDue(f: Fw, inputs: seq<Input>) {
    forall i :: 0 <= i < |inputs| ==> CarriesOn(Loop(f, inputs[..i]), inputs[i]) && Due(Loop(f, inputs[..i]), inputs[i])
  }

  lemma DuePrefix(f: Fw, inputs: seq<Input>)
    requires inputs != [] && AllDue(f, inputs)
    ensures AllDue(f, inputs[..|inputs| - 1])
    ensures var g, last := Loop(f, inputs[..|inputs| - 1]), inputs[|inputs| - 1]; CarriesOn(g, last) && Due(g, last)
  {
    var before := inputs[..|inputs| - 1];
    forall i | 0 <= i < |before|
      ensures CarriesOn(Loop(f, before[..i]), before[i]) && Due(Loop(f, before[..i]), before[i])
    {
      assert before[..i] == inputs[..i];
    }
  }

  /** As many passes as there are toggles left end the pulse, and no fewer. */
  lemma {:induction false} PulseEnds(f: Fw, inputs: seq<Input>)
    requires Sound(f) && AllTimely(f, inputs) && Pulsing(f) && AllDue(f, inputs)
    requires f.grabber.toggles + |inputs| <= 6
    ensures var g := Loop(f, inputs);
            && Sound(g) && g.grabber.toggles == f.grabber.toggles + |inputs|
            && g.grabber.active == (g.grabber.toggles < 6)
            && g.grabber.timeUp == (f.grabber.timeUp && g.grabber.toggles < 6)
            && g.play.active == f.play.active && g.play.sessions == f.play.sessions
            && (f.grabber.timeUp ==> g.home == f.home)
            && (inputs == [] || g.play.previousReleased == !inputs[|inputs| - 1].gateLow)
  {
    if inputs == [] {
      PulseIsShort(f);
    } else {
      hide Sound, Pass, Timely, CarriesOn, Due;
      var before, last := inputs[..|inputs| - 1], inputs[|inputs| - 1];
      TimelyPrefix(f, inputs);
      DuePrefix(f, inputs);
      PulseEnds(f, before);
      PassKeeps(Loop(f, before), last);
      PlayCarriesOn(Loop(f, before), last);
      PulseStep(Loop(f, before), last);
    }
  }

  lemma PulseIsShort(f: Fw)
    requires Sound(f) && Pulsing(f)
    ensures 1 <= f.grabber.toggles < 6
  {
  }

  /** A play comes home. After the pass that ends it with an end pulse, the toggles that
      are left, each when it is due, and then two passes, the first with the switch
      active, leave the machine idle and ready: without a fault and without a step. */
  lemma {:induction false} PlayComesHome(f: Fw, end: Input, pulses: seq<Input>, first: Input, second: Input)
    requires Sound(f) && Timely(f, end) && f.play.active && !f.play.previousReleased
    requires !end.gateLow && end.endCode == RESERVED_CODE
    requires var g := Pass(f, end);
             AllTimely(g, pulses) && AllDue(g, pulses) && g.grabber.toggles + |pulses| == 6
    requires !first.gateLow && first.atHome && !second.gateLow
    requires var g := Loop(Pass(f, end), pulses); Timely(g, first) && Timely(Pass(g, first), second)
    ensures var g := Pass(Pass(Loop(Pass(f, end), pulses), first), second);
            && g.home.state.HomingIdle? && g.home.steps == f.home.steps
            && !g.play.active && g.play.previousReleased
            && g.play.sessions == f.play.sessions + [Ended(true, false)]
  {
    var g := Pass(f, end);
    PassKeeps(f, end);
    EndingPass(f, end);
    hide Sound, Pass, Timely, CarriesOn, Due, AllTimely, AllDue;
    PulseEnds(g, pulses);
    var h := Loop(g, pulses);
    RestingPassIsQuiet(h, first);
    SwitchEndsHoming(h, first);
    var k := Pass(h, first);
    RestingPassIsQuiet(k, second);
    SwitchEndsHoming(k, second);
  }

  lemma EndingPass(f: Fw, end: Input)
    requires Sound(f) && Timely(f, end) && f.play.active && !f.play.previousReleased
    requires !end.gateLow && end.endCode == RESERVED_CODE
    ensures var g := Pass(f, end);
            && g.play.sessions == f.play.sessions + [Ended(true, false)] && !g.play.active && g.play.previousReleased
            && g.home.state.HomingY? && g.home.steps == f.home.steps && g.grabber.timeUp && Pulsing(g)
  {
  }

  // --------------------------------------------------------------------- outputs

  /** In every run a pass that ends outside a play leaves both relays off, and D5 off
      too unless it is in the middle of an end pulse. */
  lemma {:induction false} OutsidePlayAllOff(t: nat, inputs: seq<Input>, input: Input)
    requires AllTimely(Setup(t), inputs) && Timely(Loop(Setup(t), inputs), input)
    requires !Pass(Loop(Setup(t), inputs), input).play.active
    ensures var g := Pass(Loop(Setup(t), inputs), input);
            g.actuator.relays == Relays(false, false) && (!g.grabber.timeUp ==> g.grabber.pwm == 0)
  {
    var f := Loop(Setup(t), inputs);
    LoopSound(t, inputs);
    GateKeeps(f, input);
    PassKeeps(f, input);
  }

  /** In a play a pass reaches the buttons and the remote if and only if the startup
      pulse is over; until then it leaves the actuator alone. */
  lemma ControlsReachedIff(f: Fw, input: Input)
    requires Sound(f) && Timely(f, input) && Pass(f, input).play.active
    ensures var g := Pass(f, input);
            if g.grabber.active then g.play.controls == f.play.controls && g.actuator == f.actuator
            else |g.play.controls| == |f.play.controls| + 1 && g.play.controls[..|f.play.controls|] == f.play.controls
  {
    GateKeeps(f, input);
  }

  /** What the controls do: D5 holds with the strength on the power bits while the
      grabber switch is on; the actuator goes up for a stick above the dead zone, down
      below it, and stands still inside it or without the remote. */
  lemma ControlsDo(f: Fw, input: Input)
    requires Sound(f) && Timely(f, input)
    requires var g := Pass(f, input); g.play.active && |g.play.controls| > |f.play.controls|
    ensures var g := Pass(f, input);
            && (!input.grab ==> g.grabber.pwm == 0)
            && (input.grab ==>
                  g.grabber.pwm == (if input.holdCode >= 6 then 255 else (40 + input.holdCode * 10) * 255 / 100))
            && g.actuator.relays.up == (input.remoteOn && input.stick > 25)
            && g.actuator.relays.down == (input.remoteOn && input.stick < -25)
  {
    GateKeeps(f, input);
    SteerApart(Gate(f, input).actuator, input);
  }
}
