/** The recommendation engine: how long the current situation has lasted decides what
    it advises. Times are wall-clock seconds. */
module RecommendationEngine {
  import opened Prelude

  datatype GameState = IDLE | PLAYER_PRESENT | PLAYING | ERROR | Other

  /** What one evaluation reads. Unreadable stands for an input that raises: the
      engine then reports a degraded system and tracks nothing. */
  datatype Reading =
    | Unreadable
    | Reading(state: GameState, fault: bool, lastError: bool, visionUnavailable: bool, connected: bool, now: real)

  datatype Config = Config(playerReady: real, idleDemo: real, arduinoTimeout: real)

  datatype Advice =
    | SYSTEM_DEGRADED | CHECK_CAMERA | CHECK_ARDUINO
    | READY_TO_START | START_DEMO_MODE | WAIT_FOR_PLAYER | NO_ACTION

  /** The three conditions whose durations are tracked. */
  datatype Watch = Present | Idle | Disconnected

  predicate Holds(w: Watch, r: Reading)
    requires r.Reading?
  {
    match w
    case Present => r.state == PLAYER_PRESENT
    case Idle => r.state == IDLE
    case Disconnected => !r.connected
  }

  function Tracked(since: Option<real>, holds: bool, now: real): Option<real> {
    if !holds then None else if since.None? then Some(now) else since
  }

  /** `now - (since or now)`: a start at exactly 0.0 counts as no start. */
  function ElapsedSince(since: Option<real>, now: real): real {
    if since.Some? && since.value != 0.0 then now - since.value else 0.0
  }

  /** _select_recommendation once the durations are tracked. */
  function Select(config: Config, r: Reading, present: Option<real>, idle: Option<real>, gone: Option<real>): Advice
    requires r.Reading?
  {
    if r.state == ERROR || r.fault || r.lastError then SYSTEM_DEGRADED
    else if r.visionUnavailable then CHECK_CAMERA
    else if gone.Some? && r.now - gone.value >= config.arduinoTimeout then CHECK_ARDUINO
    else if r.state == PLAYER_PRESENT then
      if ElapsedSince(present, r.now) >= config.playerReady then READY_TO_START else WAIT_FOR_PLAYER
    else if r.state == IDLE then
      if ElapsedSince(idle, r.now) >= config.idleDemo then START_DEMO_MODE else WAIT_FOR_PLAYER
    else NO_ACTION
  }

  /** The tracked start of a condition after a whole history of readings. */
  function Since(history: seq<Reading>, w: Watch): Option<real> {
    if history == [] then None else
      var r, before := history[|history| - 1], Since(history[..|history| - 1], w);
      if r.Unreadable? then before else Tracked(before, Holds(w, r), r.now)
  }

  /** The advice for the last reading of a history. */
  function Advise(config: Config, history: seq<Reading>): Advice
    requires history != []
  {
    var r := history[|history| - 1];
    if r.Unreadable? then SYSTEM_DEGRADED
    else Select(config, r, Since(history, Present), Since(history, Idle), Since(history, Disconnected))
  }

  // -------------------------------------------------------- unbroken runs

  /** The condition held at reading k and at every readable one since. */
  ghost predicate Unbroken(history: seq<Reading>, k: nat, w: Watch) {
    && k < |history| && history[k].Reading?
    && forall i :: k <= i < |history| && history[i].Reading? ==> Holds(w, history[i])
  }

  /** Some unbroken run of the condition has lasted this long at time `now`. */
  ghost predicate Lasted(history: seq<Reading>, w: Watch, now: real, seconds: real) {
    exists k: nat :: Unbroken(history, k, w) && now - history[k].now >= seconds
  }

  ghost predicate InOrder(history: seq<Reading>) {
    forall i, j :: 0 <= i < j < |history| && history[i].Reading? && history[j].Reading? ==>
      history[i].now <= history[j].now
  }

  ghost predicate AfterEpoch(history: seq<Reading>) {
    forall i :: 0 <= i < |history| && history[i].Reading? ==> history[i].now > 0.0
  }

  /** The tracked start is the time of the first reading of the longest unbroken run,
      and there is none exactly when the condition does not hold now. */
  lemma {:induction false} SinceIsRunStart(history: seq<Reading>, w: Watch) returns (start: nat)
    ensures Since(history, w).None? ==> forall k: nat :: !Unbroken(history, k, w)
    ensures Since(history, w).Some? ==> Unbroken(history, start, w) && history[start].now == Since(history, w).value
    ensures Since(history, w).Some? ==> forall k: nat :: Unbroken(history, k, w) ==> start <= k
  {
    start := 0;
    if history != [] {
      var n := |history| - 1;
      var before, r := history[..n], history[n];
      start := SinceIsRunStart(before, w);
      if r.Reading? && Holds(w, r) && Since(before, w).None? {
        start := n;
      }
      forall k: nat | Unbroken(history, k, w) && k < n ensures Unbroken(before, k, w) {
      }
    }
  }

  lemma LastedIffSince(history: seq<Reading>, w: Watch, now: real, seconds: real)
    requires InOrder(history)
    ensures Lasted(history, w, now, seconds) <==> Since(history, w).Some? && now - Since(history, w).value >= seconds
  {
    var start := SinceIsRunStart(history, w);
    if Since(history, w).Some? && now - Since(history, w).value >= seconds {
      assert Unbroken(history, start, w) && now - history[start].now >= seconds;
    }
  }

  lemma StartedAfterEpoch(history: seq<Reading>, w: Watch)
    requires AfterEpoch(history)
    ensures Since(history, w).Some? ==> Since(history, w).value > 0.0
  {
    var start := SinceIsRunStart(history, w);
  }

  lemma HoldsNow(history: seq<Reading>, w: Watch)
    requires history != [] && history[|history| - 1].Reading?
    ensures Since(history, w).Some? <==> Holds(w, history[|history| - 1])
  {
  }

  /** Nothing of higher priority than the player's state is reported. */
  ghost predicate Undisturbed(config: Config, history: seq<Reading>)
    requires history != []
  {
    var r := history[|history| - 1];
    && r.Reading? && r.state != ERROR && !r.fault && !r.lastError && !r.visionUnavailable
    && !Lasted(history, Disconnected, r.now, config.arduinoTimeout)
  }

  /** The duration-based advice says exactly what it claims about the whole history:
      "ready to start" if and only if the player has been there in an unbroken run of
      readings spanning the configured time, "demo" likewise for an idle machine, and
      the check of the controller likewise for the lost connection. */
  lemma AdviceIsAboutUnbrokenRuns(config: Config, history: seq<Reading>)
    requires history != [] && InOrder(history) && AfterEpoch(history)
    ensures var r := history[|history| - 1];
            && (Advise(config, history) == READY_TO_START <==>
                  && Undisturbed(config, history) && r.state == PLAYER_PRESENT
                  && Lasted(history, Present, r.now, config.playerReady))
            && (Advise(config, history) == START_DEMO_MODE <==>
                  Undisturbed(config, history) && r.state == IDLE && Lasted(history, Idle, r.now, config.idleDemo))
            && (Advise(config, history) == CHECK_ARDUINO <==>
                  && r.Reading? && r.state != ERROR && !r.fault && !r.lastError && !r.visionUnavailable
                  && Lasted(history, Disconnected, r.now, config.arduinoTimeout))
  {
    var r := history[|history| - 1];
    if r.Reading? {
      LastedIffSince(history, Present, r.now, config.playerReady);
      LastedIffSince(history, Idle, r.now, config.idleDemo);
      LastedIffSince(history, Disconnected, r.now, config.arduinoTimeout);
      StartedAfterEpoch(history, Present);
      StartedAfterEpoch(history, Idle);
      HoldsNow(history, Present);
      HoldsNow(history, Idle);
    }
  }

  /** The rest of the advice: a fault, or a reading that raises, degrades the system; a
      blind camera comes next; a player or an idle machine not yet there for its time
      is waited for; and every other state needs nothing. */
  lemma OtherAdvice(config: Config, history: seq<Reading>)
    requires history != [] && InOrder(history) && AfterEpoch(history)
    ensures var r, advice := history[|history| - 1], Advise(config, history);
            var degraded := r.Unreadable? || r.state == ERROR || r.fault || r.lastError;
            && (advice == SYSTEM_DEGRADED <==> degraded)
            && (advice == CHECK_CAMERA <==> !degraded && r.visionUnavailable)
            && (advice == WAIT_FOR_PLAYER <==>
                  && Undisturbed(config, history)
                  && ((r.state == PLAYER_PRESENT && !Lasted(history, Present, r.now, config.playerReady))
                      || (r.state == IDLE && !Lasted(history, Idle, r.now, config.idleDemo))))
            && (advice == NO_ACTION <==> Undisturbed(config, history) && r.state in {PLAYING, Other})
  {
    AdviceIsAboutUnbrokenRuns(config, history);
    hide Lasted, Since;
  }

  // ----------------------------------------------------------- in its own form

  class RecommendationEngine {
    const config: Config
    var playerPresentSince: Option<real>
    var idleSince: Option<real>
    var arduinoDisconnectedSince: Option<real>
    ghost var history: seq<Reading>

    ghost predicate Valid()
      reads this
    {
      && playerPresentSince == Since(history, Present)
      && idleSince == Since(history, Idle)
      && arduinoDisconnectedSince == Since(history, Disconnected)
    }

    constructor (config: Config)
      ensures Valid() && history == [] && this.config == config
    {
      this.config := config;
      playerPresentSince, idleSince, arduinoDisconnectedSince, history := None, None, None, [];
    }

    method TrackDurations(r: Reading)
      requires Valid() && r.Reading?
      modifies this
      ensures Valid() && history == old(history) + [r]
    {
      assert (history + [r])[..|history|] == history;
      if r.state == PLAYER_PRESENT {
        if playerPresentSince == None {
          playerPresentSince := Some(r.now);
        }
      } else {
        playerPresentSince := None;
      }
      if r.state == IDLE {
        if idleSince == None {
          idleSince := Some(r.now);
        }
      } else {
        idleSince := None;
      }
      if !r.connected {
        if arduinoDisconnectedSince == None {
          arduinoDisconnectedSince := Some(r.now);
        }
      } else {
        arduinoDisconnectedSince := None;
      }
      history := history + [r];
    }

    method Evaluate(r: Reading) returns (advice: Advice)
      requires Valid()
      modifies this
      ensures Valid() && history == old(history) + [r]
      ensures advice == Advise(config, history)
    {
      if r.Unreadable? {
        assert (history + [r])[..|history|] == history;
        history := history + [r];
        return SYSTEM_DEGRADED;
      }
      TrackDurations(r);
      if r.state == ERROR || r.fault || r.lastError {
        return SYSTEM_DEGRADED;
      }
      if r.visionUnavailable {
        return CHECK_CAMERA;
      }
      if arduinoDisconnectedSince.Some? {
        var elapsed := r.now - arduinoDisconnectedSince.value;
        if elapsed >= config.arduinoTimeout {
          return CHECK_ARDUINO;
        }
      }
      if r.state == PLAYER_PRESENT {
        var presentFor := ElapsedSince(playerPresentSince, r.now);
        return if presentFor >= config.playerReady then READY_TO_START else WAIT_FOR_PLAYER;
      }
      if r.state == IDLE {
        var idleFor := ElapsedSince(idleSince, r.now);
        return if idleFor >= config.idleDemo then START_DEMO_MODE else WAIT_FOR_PLAYER;
      }
      return NO_ACTION;
    }
  }
}
