/** The game state engine: detections and the controller's status become one state of
    the game. Times are wall-clock seconds. */
module GameStateEngine {
  import opened Prelude

  datatype Object = Object(kind: string, confidence: real, bbox: seq<real>)

  datatype Zone = Zone(xMin: real, yMin: real, xMax: real, yMax: real)

  datatype Config = Config(presence: int, idleTimeout: real, confidence: real, zone: Zone, timeout: real)

  /** The controller's status; `fault` is a fault status or a last error. */
  datatype Runtime = Runtime(fault: bool, emergency: bool, running: bool, playMode: bool,
                             endsAt: Option<real>, startedAt: Option<real>)

  /** What one evaluation reads. Unreadable stands for an input that raises. */
  datatype Reading =
    | Unreadable
    | Reading(runtime: Runtime, objects: seq<Object>, stamped: bool, grab: bool, now: real)

  /** The state reported and what it was concluded from. */
  datatype Outcome =
    | RUNTIME_ERROR | TIMEOUT | GRABBING | PRIZE_DETECTED | PLAYING
    | PLAYER_COUNT_CHANGED | PLAYER_SEEN | PLAYER_RECENT | DETECTION_UNAVAILABLE | IDLE

  /** _last_person_seen_at and _last_player_count */
  datatype Tracker = Tracker(seen: Option<real>, count: nat)

  predicate Contains(z: Zone, bbox: seq<real>) {
    && |bbox| >= 4
    && z.xMin <= (bbox[0] + bbox[2]) / 2.0 <= z.xMax
    && z.yMin <= (bbox[1] + bbox[3]) / 2.0 <= z.yMax
  }

  function CountPlayers(objects: seq<Object>, confidence: real): nat {
    if objects == [] then 0
    else
      (if objects[0].confidence >= confidence && objects[0].kind == "person" then 1 else 0)
      + CountPlayers(objects[1..], confidence)
  }

  predicate PrizeInZone(objects: seq<Object>, confidence: real, zone: Zone) {
    exists i :: 0 <= i < |objects| && IsPrize(objects[i], confidence, zone)
  }

  predicate IsPrize(o: Object, confidence: real, zone: Zone) {
    o.confidence >= confidence && o.kind == "teddy bear" && Contains(zone, o.bbox)
  }

  /** A missing time and the time 0.0 are both "not set". */
  predicate TimedOut(config: Config, r: Runtime, now: real) {
    && r.running
    && (|| (r.endsAt.Some? && r.endsAt.value != 0.0 && now >= r.endsAt.value)
        || (r.startedAt.Some? && r.startedAt.value != 0.0 && now - r.startedAt.value >= config.timeout))
  }

  /** What decides before anyone is counted. */
  function Overriding(config: Config, r: Reading): Option<Outcome>
    requires r.Reading?
  {
    if r.runtime.fault || r.runtime.emergency then Some(RUNTIME_ERROR)
    else if TimedOut(config, r.runtime, r.now) then Some(TIMEOUT)
    else if r.grab then Some(GRABBING)
    else if PrizeInZone(r.objects, config.confidence, config.zone) then Some(PRIZE_DETECTED)
    else if r.runtime.running || r.runtime.playMode then Some(PLAYING)
    else None
  }

  function Players(config: Config, r: Reading): nat
    requires r.Reading?
  {
    CountPlayers(r.objects, config.confidence)
  }

  /** Whether `players` people are reported at once, and as what. */
  function Shown(config: Config, players: nat, earlier: nat): Option<Outcome> {
    if players == 0 then None
    else if earlier > 0 && players != earlier then Some(PLAYER_COUNT_CHANGED)
    else if players >= config.presence then Some(PLAYER_SEEN)
    else None
  }

  /** The evaluation of a reading in which people are counted. */
  function Counted(config: Config, t: Tracker, r: Reading): (Tracker, Outcome)
    requires r.Reading?
  {
    var players := Players(config, r);
    var seen := if players > 0 then Some(r.now) else t.seen;
    var count := if players > 0 then players else t.count;
    var shown := Shown(config, players, t.count);
    if shown.Some? then (Tracker(seen, count), shown.value)
    else if seen.Some? && r.now - seen.value < config.idleTimeout then (Tracker(seen, count), PLAYER_RECENT)
    else (Tracker(seen, 0), if r.stamped then IDLE else DETECTION_UNAVAILABLE)
  }

  function Evaluated(config: Config, t: Tracker, r: Reading): (Tracker, Outcome) {
    if r.Unreadable? then (t, RUNTIME_ERROR)
    else if Overriding(config, r).Some? then (t, Overriding(config, r).value)
    else Counted(config, t, r)
  }

  function Track(config: Config, history: seq<Reading>): Tracker {
    if history == [] then Tracker(None, 0)
    else Evaluated(config, Track(config, history[..|history| - 1]), history[|history| - 1]).0
  }

  /** What reading i of a history was reported as. */
  function Reported(config: Config, history: seq<Reading>, i: nat): Outcome
    requires i < |history|
  {
    Evaluated(config, Track(config, history[..i]), history[i]).1
  }

  // ------------------------------------------------------------ whole history

  /** People were counted at reading i. */
  predicate CountingAt(config: Config, history: seq<Reading>, i: nat)
    requires i < |history|
  {
    history[i].Reading? && Overriding(config, history[i]).None?
  }

  /** ... and somebody was there. */
  predicate PersonAt(config: Config, history: seq<Reading>, i: nat)
    requires i < |history|
  {
    CountingAt(config, history, i) && Players(config, history[i]) > 0
  }

  ghost predicate InOrder(history: seq<Reading>) {
    forall i, j :: 0 <= i < j < |history| && history[i].Reading? && history[j].Reading? ==>
      history[i].now <= history[j].now
  }

  predicate Empty(o: Outcome) {
    o == IDLE || o == DETECTION_UNAVAILABLE
  }

  /** The tracked time is that of the last counted person. */
  lemma {:induction false} SeenIsLastPerson(config: Config, history: seq<Reading>) returns (k: nat)
    ensures Track(config, history).seen.None? ==> forall i :: 0 <= i < |history| ==> !PersonAt(config, history, i)
    ensures Track(config, history).seen.Some? ==> k < |history| && PersonAt(config, history, k)
    ensures Track(config, history).seen.Some? ==> history[k].now == Track(config, history).seen.value
    ensures Track(config, history).seen.Some? ==> forall i :: k < i < |history| ==> !PersonAt(config, history, i)
  {
    k := 0;
    if history != [] {
      var n := |history| - 1;
      var before := history[..n];
      k := SeenIsLastPerson(config, before);
      if PersonAt(config, history, n) {
        k := n;
      }
      assert forall i :: 0 <= i < n ==> before[i] == history[i];
      assert forall i :: 0 <= i < n ==> PersonAt(config, before, i) == PersonAt(config, history, i);
    }
  }

  /** Reading k is the last with a person, and nothing since it was reported empty. */
  ghost predicate LastShown(config: Config, history: seq<Reading>, k: nat) {
    && k < |history| && PersonAt(config, history, k)
    && (forall i :: k < i < |history| ==> !PersonAt(config, history, i))
    && (forall i :: k <= i < |history| ==> !Empty(Reported(config, history, i)))
  }

  lemma PrefixesAgree(config: Config, history: seq<Reading>, n: nat)
    requires n <= |history|
    ensures forall i :: 0 <= i < n ==> PersonAt(config, history[..n], i) == PersonAt(config, history, i)
    ensures forall i :: 0 <= i < n ==> Reported(config, history[..n], i) == Reported(config, history, i)
  {
    forall i | 0 <= i < n ensures Reported(config, history[..n], i) == Reported(config, history, i) {
      assert history[..n][..i] == history[..i];
    }
  }

  lemma LastShownGrows(config: Config, history: seq<Reading>, k: nat)
    requires history != []
    ensures var n := |history| - 1;
            LastShown(config, history, k) <==>
              && !Empty(Reported(config, history, n))
              && if PersonAt(config, history, n) then k == n else LastShown(config, history[..n], k)
  {
    var n := |history| - 1;
    PrefixesAgree(config, history, n);
    if k < n && LastShown(config, history, k) {
      assert PersonAt(config, history[..n], k);
    }
  }

  lemma CountGrows(config: Config, t: Tracker, r: Reading)
    ensures var (after, outcome) := Evaluated(config, t, r);
            after.count ==
              if Empty(outcome) then 0
              else if r.Reading? && Overriding(config, r).None? && Players(config, r) > 0 then Players(config, r)
              else t.count
  {
  }

  /** The tracked count is the number of people last shown, and zero if there is none. */
  lemma {:induction false} CountIsLastShown(config: Config, history: seq<Reading>) returns (k: nat)
    ensures Track(config, history).count > 0 ==> LastShown(config, history, k)
    ensures forall i: nat :: LastShown(config, history, i) ==>
              Players(config, history[i]) == Track(config, history).count
  {
    k := 0;
    if history != [] {
      var n := |history| - 1;
      k := CountIsLastShown(config, history[..n]);
      CountGrows(config, Track(config, history[..n]), history[n]);
      if PersonAt(config, history, n) {
        k := n;
      }
      LastShownGrows(config, history, k);
      forall i: nat | LastShown(config, history, i)
        ensures Players(config, history[i]) == Track(config, history).count
      {
        LastShownGrows(config, history, i);
      }
    }
  }

  /** "Idle" (or, without a detection, "detection unavailable") is reported exactly
      when people were counted now, nobody is reported at once, and every reading ever
      that counted a person is at least the idle timeout old. */
  lemma IdleMeansNobodyLately(config: Config, history: seq<Reading>)
    requires history != [] && InOrder(history)
    ensures var n := |history| - 1;
            Empty(Reported(config, history, n)) <==>
              && CountingAt(config, history, n)
              && Shown(config, Players(config, history[n]), Track(config, history[..n]).count).None?
              && forall i :: 0 <= i <= n && PersonAt(config, history, i) ==>
                   history[n].now - history[i].now >= config.idleTimeout
  {
    var n := |history| - 1;
    var k := SeenIsLastPerson(config, history);
    if CountingAt(config, history, n) {
      assert Track(config, history) == Counted(config, Track(config, history[..n]), history[n]).0;
    }
  }

  /** With a positive timeout a person in view is never "idle", shown at once or not. */
  lemma IdleWithPositiveTimeout(config: Config, history: seq<Reading>)
    requires history != [] && InOrder(history) && config.idleTimeout > 0.0
    ensures var n := |history| - 1;
            Empty(Reported(config, history, n)) <==>
              && CountingAt(config, history, n)
              && forall i :: 0 <= i <= n && PersonAt(config, history, i) ==>
                   history[n].now - history[i].now >= config.idleTimeout
  {
    IdleMeansNobodyLately(config, history);
    var n := |history| - 1;
    if PersonAt(config, history, n) {
      assert history[n].now - history[n].now < config.idleTimeout;
    }
  }

  /** A changed number of players is reported exactly when the people counted now
      differ in number from those last shown, with no empty report in between. */
  lemma ChangeIsAgainstLastShown(config: Config, history: seq<Reading>)
    requires history != []
    ensures var n := |history| - 1;
            Reported(config, history, n) == PLAYER_COUNT_CHANGED <==>
              && PersonAt(config, history, n)
              && exists k: nat :: LastShown(config, history[..n], k)
                                  && Players(config, history[k]) != Players(config, history[n])
  {
    var n := |history| - 1;
    var k := CountIsLastShown(config, history[..n]);
    if CountingAt(config, history, n) && Track(config, history[..n]).count > 0 {
      assert Players(config, history[..n][k]) == Players(config, history[k]);
    }
  }

  // ----------------------------------------------------------- each report alone

  ghost predicate Faulty(r: Reading) {
    r.Unreadable? || r.runtime.fault || r.runtime.emergency
  }

  /** A running play is past its end, or has lasted as long as a play may. */
  ghost predicate Overdue(config: Config, r: Reading)
    requires r.Reading?
  {
    && r.runtime.running
    && ((exists end: real :: r.runtime.endsAt == Some(end) && end != 0.0 && end <= r.now)
        || (exists start: real :: r.runtime.startedAt == Some(start) && start != 0.0
                                  && start + config.timeout <= r.now))
  }

  /** Some teddy bear, seen clearly enough, has the middle of its box in the zone. */
  ghost predicate PrizeSeen(config: Config, r: Reading)
    requires r.Reading?
  {
    exists o :: o in r.objects && o.kind == "teddy bear" && config.confidence <= o.confidence && |o.bbox| >= 4
                && 2.0 * config.zone.xMin <= o.bbox[0] + o.bbox[2] <= 2.0 * config.zone.xMax
                && 2.0 * config.zone.yMin <= o.bbox[1] + o.bbox[3] <= 2.0 * config.zone.yMax
  }

  lemma PrizeSeenIff(config: Config, r: Reading)
    requires r.Reading?
    ensures PrizeSeen(config, r) <==> PrizeInZone(r.objects, config.confidence, config.zone)
  {
    if PrizeInZone(r.objects, config.confidence, config.zone) {
      var i :| 0 <= i < |r.objects| && IsPrize(r.objects[i], config.confidence, config.zone);
      assert r.objects[i] in r.objects;
    }
  }

  lemma OverdueIff(config: Config, r: Reading)
    requires r.Reading?
    ensures Overdue(config, r) <==> TimedOut(config, r.runtime, r.now)
  {
  }

  /** A fault hides everything, an overdue play all but a fault, a grab all but these,
      a prize all but these three, and a play whatever people there are. People are
      counted exactly when there is none of the five. */
  lemma FirstThingTold(config: Config, history: seq<Reading>)
    requires history != []
    ensures var n := |history| - 1;
            var r, told := history[n], Reported(config, history, n);
            && (told == RUNTIME_ERROR <==> Faulty(r))
            && (told == TIMEOUT <==> !Faulty(r) && Overdue(config, r))
            && (told == GRABBING <==> !Faulty(r) && !Overdue(config, r) && r.grab)
            && (told == PRIZE_DETECTED <==> !Faulty(r) && !Overdue(config, r) && !r.grab && PrizeSeen(config, r))
            && (told == PLAYING <==>
                  && !Faulty(r) && !Overdue(config, r) && !r.grab && !PrizeSeen(config, r)
                  && (r.runtime.running || r.runtime.playMode))
            && (CountingAt(config, history, n) <==>
                  told !in {RUNTIME_ERROR, TIMEOUT, GRABBING, PRIZE_DETECTED, PLAYING})
  {
    var r := history[|history| - 1];
    if r.Reading? {
      hide Overdue, PrizeSeen, TimedOut, PrizeInZone;
      OverdueIff(config, r);
      PrizeSeenIff(config, r);
    }
  }

  ghost function PeopleIn(config: Config, objects: seq<Object>): set<nat> {
    set i: nat | i < |objects| && objects[i].kind == "person" && config.confidence <= objects[i].confidence
  }

  lemma PeopleSplit(config: Config, objects: seq<Object>, rest: seq<Object>, moved: set<nat>)
    requires objects != [] && rest == objects[1..] && moved == set i | i in PeopleIn(config, rest) :: i + 1
    ensures PeopleIn(config, objects) - {0} == moved
  {
    forall i | i in PeopleIn(config, objects) && i > 0 ensures i in moved {
      assert rest[i - 1] == objects[i] && i - 1 in PeopleIn(config, rest);
    }
  }

  lemma {:induction false} PlayersAreCounted(config: Config, objects: seq<Object>)
    ensures CountPlayers(objects, config.confidence) == |PeopleIn(config, objects)|
  {
    if objects != [] {
      var rest := objects[1..];
      var moved := set i | i in PeopleIn(config, rest) :: i + 1;
      PlayersAreCounted(config, rest);
      SameSize(PeopleIn(config, rest), moved);
      PeopleSplit(config, objects, rest, moved);
    }
  }

  lemma {:induction false} SameSize(a: set<nat>, b: set<nat>)
    requires b == set i | i in a :: i + 1
    ensures |b| == |a|
  {
    if a != {} {
      var x :| x in a;
      var others := set i | i in a - {x} :: i + 1;
      assert forall y :: y in b - {x + 1} <==> y in others by {
        assert forall y :: y in others <==> y > 0 && y - 1 in a - {x};
        assert forall y :: y in b <==> y > 0 && y - 1 in a;
      }
      assert b - {x + 1} == others;
      SameSize(a - {x}, b - {x + 1});
    }
  }

  /** The number of people in view at reading i. */
  ghost function InView(config: Config, history: seq<Reading>, i: nat): nat
    requires i < |history| && history[i].Reading?
  {
    |PeopleIn(config, history[i].objects)|
  }

  /** When people are counted: enough of them in view, their number not told as
      changed, are reported as seen; otherwise anyone counted within the idle timeout,
      now included, still counts as present; and only then does it matter whether
      there has been a detection at all. */
  lemma PeopleTold(config: Config, history: seq<Reading>)
    requires history != [] && InOrder(history) && CountingAt(config, history, |history| - 1)
    ensures var n := |history| - 1;
            var r, told := history[n], Reported(config, history, n);
            && (told == PLAYER_SEEN <==>
                  told != PLAYER_COUNT_CHANGED && InView(config, history, n) >= config.presence
                  && InView(config, history, n) > 0)
            && (told == PLAYER_RECENT <==>
                  && told !in {PLAYER_COUNT_CHANGED, PLAYER_SEEN}
                  && exists i :: 0 <= i <= n && CountingAt(config, history, i) && InView(config, history, i) > 0
                                 && r.now - history[i].now < config.idleTimeout)
            && (told == IDLE <==> told !in {PLAYER_COUNT_CHANGED, PLAYER_SEEN, PLAYER_RECENT} && r.stamped)
            && (told == DETECTION_UNAVAILABLE <==>
                  told !in {PLAYER_COUNT_CHANGED, PLAYER_SEEN, PLAYER_RECENT} && !r.stamped)
  {
    var n := |history| - 1;
    forall i | 0 <= i <= n && CountingAt(config, history, i)
      ensures Players(config, history[i]) == InView(config, history, i)
    {
      PlayersAreCounted(config, history[i].objects);
    }
    var k := SeenIsLastPerson(config, history);
    var t := Track(config, history);
    assert (t, Reported(config, history, n)) == Counted(config, Track(config, history[..n]), history[n]);
    if t.seen.Some? {
      assert CountingAt(config, history, k) && InView(config, history, k) > 0;
    }
    forall i | 0 <= i <= n && CountingAt(config, history, i) && InView(config, history, i) > 0
      ensures t.seen.Some? && history[i].now <= t.seen.value
    {
      assert PersonAt(config, history, i);
    }
    hide Overriding, Track, InView, CountPlayers;
  }

  // ----------------------------------------------------------- in its own form

  class GameStateEngine {
    const config: Config
    var lastPersonSeenAt: Option<real>
    var lastPlayerCount: nat
    ghost var history: seq<Reading>

    ghost predicate Valid()
      reads this
    {
      Tracker(lastPersonSeenAt, lastPlayerCount) == Track(config, history)
    }

    constructor (config: Config)
      ensures Valid() && history == [] && this.config == config
    {
      this.config := config;
      lastPersonSeenAt, lastPlayerCount, history := None, 0, [];
    }

    /** The part of the evaluation that counts people. */
    method Watch(r: Reading) returns (outcome: Outcome)
      requires r.Reading?
      modifies this`lastPersonSeenAt, this`lastPlayerCount
      ensures (Tracker(lastPersonSeenAt, lastPlayerCount), outcome)
              == Counted(config, old(Tracker(lastPersonSeenAt, lastPlayerCount)), r)
    {
      var players := CountPlayers(r.objects, config.confidence);
      if players > 0 {
        lastPersonSeenAt := Some(r.now);
        var previous := lastPlayerCount;
        lastPlayerCount := players;
        if previous > 0 && players != previous {
          return PLAYER_COUNT_CHANGED;
        }
        if players >= config.presence {
          return PLAYER_SEEN;
        }
      }
      if lastPersonSeenAt.Some? {
        var elapsed := r.now - lastPersonSeenAt.value;
        if elapsed < config.idleTimeout {
          return PLAYER_RECENT;
        }
      }
      lastPlayerCount := 0;
      return if r.stamped then IDLE else DETECTION_UNAVAILABLE;
    }

    method Evaluate(r: Reading) returns (outcome: Outcome)
      requires Valid()
      modifies this
      ensures Valid() && history == old(history) + [r]
      ensures outcome == Reported(config, history, |history| - 1)
    {
      assert (history + [r])[..|history|] == history;
      history := history + [r];
      if r.Unreadable? {
        return RUNTIME_ERROR;
      }
      var overriding := Overriding(config, r);
      if overriding.Some? {
        return overriding.value;
      }
      outcome := Watch(r);
    }
  }
}
