/** The bounded event store: newest-first events, the key each was added under,
    and the set of keys still present. */
module AnalyticsStore {
  import opened Prelude

  /** The timestamp text of an event: empty, a point in time, or not ISO 8601. */
  datatype Stamp = Missing | Instant(t: int) | Malformed

  datatype Event = Event(
    category: string,
    kind: string,
    source: string,
    session: Option<string>,
    confidence: Option<real>,
    stamp: Stamp)

  /** A key is optional, and an empty one counts as none. */
  type Key = Option<string>

  predicate Real(key: Key) {
    key.Some? && key.value != ""
  }

  datatype Store = Store(events: seq<Event>, keys: seq<Key>, present: set<string>, capacity: nat)

  ghost function RealKeys(keys: seq<Key>): set<string> {
    set i | 0 <= i < |keys| && Real(keys[i]) :: keys[i].value
  }

  ghost predicate KeysDistinct(keys: seq<Key>) {
    forall i, j :: 0 <= i < j < |keys| && Real(keys[i]) ==> keys[i] != keys[j]
  }

  ghost predicate Valid(s: Store) {
    && 1 <= s.capacity
    && |s.events| == |s.keys| <= s.capacity
    && KeysDistinct(s.keys)
    && s.present == RealKeys(s.keys)
  }

  // --------------------------------------------------------------------- add

  /** appendleft on a bounded deque. */
  function Prepend<T>(x: T, xs: seq<T>, capacity: nat): seq<T>
    requires 1 <= capacity && |xs| <= capacity
  {
    [x] + if |xs| == capacity then xs[..capacity - 1] else xs
  }

  predicate Known(s: Store, key: Key) {
    Real(key) && key.value in s.present
  }

  ghost function Add(s: Store, e: Event, key: Key): Store
    requires Valid(s)
  {
    if Known(s, key) then s else
      var keys := Prepend(key, s.keys, s.capacity);
      Store(Prepend(e, s.events, s.capacity), keys, RealKeys(keys), s.capacity)
  }

  lemma AddKeepsValid(s: Store, e: Event, key: Key)
    requires Valid(s)
    ensures Valid(Add(s, e, key))
  {
    if !Known(s, key) {
      forall j | 0 <= j < |s.keys| && Real(s.keys[j]) ensures s.keys[j] != key {
        assert s.keys[j].value in RealKeys(s.keys);
      }
    }
  }

  // ------------------------------------------------------------------- query

  datatype Filter = Filter(
    category: Option<string>,
    kind: Option<string>,
    source: Option<string>,
    session: Option<string>,
    minConfidence: Option<real>,
    start: Option<int>,
    end: Option<int>)

  /** A text filter that is absent or empty accepts everything. */
  predicate Accepts(wanted: Option<string>, actual: string) {
    wanted.None? || wanted.value == "" || actual == wanted.value
  }

  predicate AcceptsSession(wanted: Option<string>, actual: Option<string>) {
    wanted.None? || wanted.value == "" || actual == wanted
  }

  predicate Matches(f: Filter, e: Event) {
    && Accepts(f.category, e.category)
    && Accepts(f.kind, e.kind)
    && Accepts(f.source, e.source)
    && AcceptsSession(f.session, e.session)
    && (f.minConfidence.Some? ==> e.confidence.Some? && e.confidence.value >= f.minConfidence.value)
    && (f.start.Some? && e.stamp.Instant? ==> e.stamp.t >= f.start.value)
    && (f.end.Some? && e.stamp.Instant? ==> e.stamp.t <= f.end.value)
  }

  function Matching(f: Filter, events: seq<Event>): seq<Event> {
    if events == [] then [] else
      var rest := Matching(f, events[..|events| - 1]);
      if Matches(f, events[|events| - 1]) then rest + [events[|events| - 1]] else rest
  }

  datatype QueryError = BadLimit | StartAfterEnd | BadTimestamp

  function Take<T>(xs: seq<T>, n: nat): seq<T> {
    if |xs| <= n then xs else xs[..n]
  }

  lemma {:induction false} MatchingMonotone(f: Filter, events: seq<Event>, n: nat)
    requires n <= |events|
    ensures Matching(f, events[..n]) <= Matching(f, events)
    decreases |events| - n
  {
    if n < |events| {
      assert events[..n + 1][..n] == events[..n];
      MatchingMonotone(f, events, n + 1);
    } else {
      assert events[..n] == events;
    }
  }

  /** Once `limit` events match, every longer front has that many as well. */
  lemma FullFromHere(f: Filter, events: seq<Event>, n: nat, limit: nat)
    requires n <= |events| && |Matching(f, events[..n])| >= limit
    ensures Matching(f, events[..n]) <= Matching(f, events)
    ensures forall k :: n <= k <= |events| ==> |Matching(f, events[..k])| >= limit
  {
    MatchingMonotone(f, events, n);
    forall k | n <= k <= |events| ensures |Matching(f, events[..k])| >= limit {
      assert events[..k][..n] == events[..n];
      MatchingMonotone(f, events[..k], n);
    }
  }

  // -------------------------------------------------- the store in its own form

  class AnalyticsStore {
    var events: seq<Event>
    var eventKeys: seq<Key>
    var dedupeKeys: set<string>
    const maxEvents: nat

    ghost function State(): Store
      reads this
    {
      Store(events, eventKeys, dedupeKeys, maxEvents)
    }

    constructor (maxEvents: nat)
      requires 1 <= maxEvents
      ensures State() == Store([], [], {}, maxEvents) && Valid(State())
    {
      this.maxEvents := maxEvents;
      events, eventKeys, dedupeKeys := [], [], {};
    }

    method AddEvent(e: Event, key: Key) returns (added: bool)
      requires Valid(State())
      modifies this
      ensures Valid(State()) && State() == Add(old(State()), e, key)
      ensures added == !Known(old(State()), key)
    {
      if Real(key) && key.value in dedupeKeys { return false; }
      AddKeepsValid(State(), e, key);
      ghost var before := eventKeys;
      if |events| == maxEvents {
        var oldest := eventKeys[|eventKeys| - 1];
        if oldest.Some? { dedupeKeys := dedupeKeys - {oldest.value}; }
      }
      events := Prepend(e, events, maxEvents);
      eventKeys := Prepend(key, eventKeys, maxEvents);
      if Real(key) { dedupeKeys := dedupeKeys + {key.value}; }
      PresentAfterAdd(before, key, maxEvents, dedupeKeys);
      return true;
    }

    /** The first `limit` matches, or an error: a malformed timestamp raises only
        when it is met before the list is full. */
    method Query(f: Filter, limit: int) returns (r: Result<seq<Event>, QueryError>)
      ensures r == Err(BadLimit) <==> !(1 <= limit <= 1000)
      ensures r == Err(StartAfterEnd) <==>
                1 <= limit <= 1000 && f.start.Some? && f.end.Some? && f.start.value > f.end.value
      ensures r.Ok? ==> 1 <= limit && r.value == Take(Matching(f, events), limit)
      ensures r == Err(BadTimestamp) <==>
                && 1 <= limit <= 1000
                && !(f.start.Some? && f.end.Some? && f.start.value > f.end.value)
                && exists k :: 0 <= k < |events| && events[k].stamp.Malformed? && |Matching(f, events[..k])| < limit
    {
      hide Matches;
      if limit < 1 || limit > 1000 { return Err(BadLimit); }
      if f.start.Some? && f.end.Some? && f.start.value > f.end.value { return Err(StartAfterEnd); }
      var matches := [];
      var i := 0;
      while i < |events|
        invariant 0 <= i <= |events|
        invariant matches == Matching(f, events[..i]) && |matches| < limit
        invariant forall k :: 0 <= k < i ==> !events[k].stamp.Malformed?
      {
        if events[i].stamp.Malformed? {
          assert |Matching(f, events[..i])| < limit;
          return Err(BadTimestamp);
        }
        assert events[..i + 1][..i] == events[..i];
        if Matches(f, events[i]) {
          matches := matches + [events[i]];
          if |matches| >= limit {
            FullFromHere(f, events, i + 1, limit);
            return Ok(matches);
          }
        }
        i := i + 1;
      }
      assert events[..i] == events;
      return Ok(matches);
    }
  }

  /** Discarding the evicted key and adding the new one keeps the set exact. */
  lemma PresentAfterAdd(before: seq<Key>, key: Key, capacity: nat, now: set<string>)
    requires 1 <= capacity && |before| <= capacity && KeysDistinct(before)
    requires Real(key) ==> key.value !in RealKeys(before)
    requires var dropped := if |before| == capacity && before[capacity - 1].Some?
                            then {before[capacity - 1].value} else {};
             now == RealKeys(before) - dropped + (if Real(key) then {key.value} else {})
    ensures now == RealKeys(Prepend(key, before, capacity))
  {
    var after := Prepend(key, before, capacity);
    forall v | v in now ensures v in RealKeys(after) {
      if Real(key) && v == key.value {
        assert after[0] == key;
      } else {
        var i :| 0 <= i < |before| && Real(before[i]) && before[i].value == v;
        assert after[i + 1] == before[i];
      }
    }
    forall v | v in RealKeys(after) ensures v in now {
      var i :| 0 <= i < |after| && Real(after[i]) && after[i].value == v;
      if i > 0 {
        assert before[i - 1] == after[i];
      }
    }
  }
}
