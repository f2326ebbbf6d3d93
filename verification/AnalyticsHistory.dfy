/** What the bounded store holds after any run of adds. */
module AnalyticsHistory {
  import opened Prelude
  import opened AnalyticsStore
  import opened AnalyticsCollector

  datatype Entry = Entry(event: Event, key: Key)

  /** The events with their keys, newest first. */
  function Entries(s: Store): seq<Entry>
    requires |s.events| == |s.keys|
  {
    seq(|s.events|, i requires 0 <= i < |s.events| => Entry(s.events[i], s.keys[i]))
  }

  /** An unknown key puts its event at the head of the store, with its key beside it, and
      everything else moves back by one, the oldest out of a full store. A known key
      changes nothing; a key that is absent or empty is never known. */
  lemma AddPutsFirst(s: Store, e: Event, key: Key)
    requires Valid(s)
    ensures var t := Add(s, e, key);
            && Valid(t) && t.capacity == s.capacity
            && (Known(s, key) <==> Real(key) && key in s.keys)
            && (if Known(s, key) then t == s
                else
                  && |t.events| == (if |s.events| == s.capacity then s.capacity else |s.events| + 1)
                  && Entries(t)[0] == Entry(e, key) && Entries(t)[1..] == Entries(s)[..|t.events| - 1])
  {
    AddKeepsValid(s, e, key);
    if Real(key) && key in s.keys {
      var i :| 0 <= i < |s.keys| && s.keys[i] == key;
      assert s.keys[i].value in RealKeys(s.keys);
    }
  }

  ghost function AddEach(capacity: nat, adds: seq<Entry>): (s: Store)
    requires 1 <= capacity
    ensures Valid(s) && s.capacity == capacity
  {
    if adds == [] then Store([], [], {}, capacity)
    else
      var before, last := AddEach(capacity, adds[..|adds| - 1]), adds[|adds| - 1];
      AddKeepsValid(before, last.event, last.key);
      Add(before, last.event, last.key)
  }

  /** An add is accepted unless its key is a real one that the store still holds. */
  ghost predicate AcceptedAt(capacity: nat, adds: seq<Entry>, i: nat)
    requires 1 <= capacity && i < |adds|
  {
    !(Real(adds[i].key) && adds[i].key in AddEach(capacity, adds[..i]).keys)
  }

  /** The accepted adds, newest first. */
  ghost function Accepted(capacity: nat, adds: seq<Entry>, n: nat): seq<Entry>
    requires 1 <= capacity && n <= |adds|
  {
    if n == 0 then []
    else if AcceptedAt(capacity, adds, n - 1) then [adds[n - 1]] + Accepted(capacity, adds, n - 1)
    else Accepted(capacity, adds, n - 1)
  }

  lemma AcceptedPrefix(capacity: nat, adds: seq<Entry>, m: nat, n: nat)
    requires 1 <= capacity && n <= m <= |adds|
    ensures Accepted(capacity, adds[..m], n) == Accepted(capacity, adds, n)
  {
    if n > 0 {
      AcceptedPrefix(capacity, adds, m, n - 1);
      assert adds[..m][..n - 1] == adds[..n - 1];
    }
  }

  /** After any run of adds the store holds the newest accepted events with their own
      keys, newest first, as many as fit. */
  lemma {:induction false} StoreHoldsNewest(capacity: nat, adds: seq<Entry>)
    requires 1 <= capacity
    ensures Entries(AddEach(capacity, adds)) == Take(Accepted(capacity, adds, |adds|), capacity)
  {
    if adds != [] {
      var n := |adds| - 1;
      StoreHoldsNewest(capacity, adds[..n]);
      AcceptedPrefix(capacity, adds, n, n);
      AddPutsFirst(AddEach(capacity, adds[..n]), adds[n].event, adds[n].key);
      TakeGrows(adds[n], Accepted(capacity, adds, n), capacity);
    }
  }

  lemma TakeGrows<T>(x: T, xs: seq<T>, n: nat)
    requires 1 <= n
    ensures var held := Take(xs, n);
            Take([x] + xs, n) == [x] + (if |held| == n then held[..n - 1] else held)
  {
  }

  // ----------------------------------------------------------- what a filter asks

  const EVERYTHING := Filter(None, None, None, None, None, None, None)

  /** A filter asks for all that each of its parts asks for alone; an absent part, and
      an empty text, asks for nothing; an event without a usable time passes every
      time bound, and one without a confidence no confidence bound. */
  lemma FilterMeaning(f: Filter, e: Event)
    ensures Matches(EVERYTHING, e)
    ensures Matches(f, e) <==>
              && Matches(EVERYTHING.(category := f.category), e) && Matches(EVERYTHING.(kind := f.kind), e)
              && Matches(EVERYTHING.(source := f.source), e) && Matches(EVERYTHING.(session := f.session), e)
              && Matches(EVERYTHING.(minConfidence := f.minConfidence), e)
              && Matches(EVERYTHING.(start := f.start), e) && Matches(EVERYTHING.(end := f.end), e)
    ensures forall x: string :: Matches(EVERYTHING.(category := Some(x)), e) <==> x in {"", e.category}
    ensures forall x: string :: Matches(EVERYTHING.(kind := Some(x)), e) <==> x in {"", e.kind}
    ensures forall x: string :: Matches(EVERYTHING.(source := Some(x)), e) <==> x in {"", e.source}
    ensures forall x: string :: Matches(EVERYTHING.(session := Some(x)), e) <==> x == "" || Some(x) == e.session
    ensures forall x: real :: Matches(EVERYTHING.(minConfidence := Some(x)), e) <==>
              e.confidence.Some? && x <= e.confidence.value
    ensures forall x: int :: Matches(EVERYTHING.(start := Some(x)), e) <==> (e.stamp.Instant? ==> x <= e.stamp.t)
    ensures forall x: int :: Matches(EVERYTHING.(end := Some(x)), e) <==> (e.stamp.Instant? ==> e.stamp.t <= x)
  {
  }

  /** What matches is the subsequence of events that match, in the store's order. */
  lemma {:induction false} MatchingIsSubsequence(f: Filter, events: seq<Event>) returns (at: seq<nat>)
    ensures |at| == |Matching(f, events)|
    ensures forall k :: 0 <= k < |at| ==> at[k] < |events| && Matching(f, events)[k] == events[at[k]]
    ensures forall j, k :: 0 <= j < k < |at| ==> at[j] < at[k]
    ensures forall i: nat :: i < |events| ==> (Matches(f, events[i]) <==> i in at)
  {
    at := [];
    if events != [] {
      var n := |events| - 1;
      at := MatchingIsSubsequence(f, events[..n]);
      if Matches(f, events[n]) {
        var before := at;
        at := before + [n];
        assert forall i: nat :: i in at <==> i in before || i == n;
      }
    }
  }

  // -------------------------------------------------------------- a first collect

  function EntriesOf(items: seq<Item>): (r: seq<Entry>)
    ensures |r| == |items|
  {
    seq(|items|, i requires 0 <= i < |items| => Entry(items[i].event, Some(items[i].key)))
  }

  /** The keys of the items are all different, and the store holds none of them. */
  ghost predicate Unseen(s: Store, items: seq<Item>) {
    && Keyed(items)
    && (forall i :: 0 <= i < |items| ==> Some(items[i].key) !in s.keys)
    && (forall i, j :: 0 <= i < j < |items| ==> items[i].key != items[j].key)
  }

  lemma NewestEntry(items: seq<Item>)
    requires items != []
    ensures var most, last := items[..|items| - 1], items[|items| - 1];
            EntriesOf(Reversed(items)) == [Entry(last.event, Some(last.key))] + EntriesOf(Reversed(most))
  {
  }

  lemma KeyFrom(added: seq<Entry>, s: Store, t: Store, key: Key) returns (i: nat)
    requires |s.events| == |s.keys| && |t.events| == |t.keys|
    requires Entries(t) == added + Entries(s) && key in t.keys
    ensures key in s.keys || (i < |added| && added[i].key == key)
  {
    i :| i < |t.keys| && t.keys[i] == key;
    assert Entries(t)[i].key == key;
    assert i >= |added| ==> (added + Entries(s))[i] == Entries(s)[i - |added|];
  }

  lemma KeyOfItem(items: seq<Item>, i: nat)
    requires i < |items|
    ensures EntriesOf(Reversed(items))[i].key == Some(items[|items| - 1 - i].key)
  {
  }

  lemma {:induction false} UnseenAreAdded(s: Store, items: seq<Item>)
    requires Valid(s) && Unseen(s, items) && |s.events| + |items| <= s.capacity
    ensures Entries(AddAll(s, items).0) == EntriesOf(Reversed(items)) + Entries(s)
  {
    hide Add, Known, Reversed, EntriesOf, KeysOf, KeysDistinct, RealKeys;
    if items == [] {
      assert EntriesOf(Reversed(items)) + Entries(s) == Entries(s);
    } else {
      var most, last := items[..|items| - 1], items[|items| - 1];
      UnseenAreAdded(s, most);
      var t := AddAll(s, most).0;
      if Some(last.key) in t.keys {
        var i := KeyFrom(EntriesOf(Reversed(most)), s, t, Some(last.key));
        KeyOfItem(most, i);
        assert false;
      }
      AddPutsFirst(t, last.event, Some(last.key));
      var added := Entries(AddAll(s, items).0);
      assert added == [added[0]] + added[1..];
      NewestEntry(items);
    }
  }

  lemma ReplayNewestFirst(s: Sources)
    ensures EntriesOf(Reversed(Replay(s)))
            == EntriesOf(s.recommendations) + EntriesOf(s.games)
               + if s.detection.Some? then EntriesOf([s.detection.value]) else []
  {
    hide Reversed;
    var first := if s.detection.Some? then [s.detection.value] else [];
    assert Replay(s) == first + Reversed(s.games) + Reversed(s.recommendations);
    var replayed := Reversed(Replay(s));
    assert replayed == s.recommendations + s.games + first;
  }

  function StatusEntry(c: Collector, s: Sources): seq<Entry> {
    if c.last != Some(s.fingerprint) then [Entry(s.status, None)] else []
  }

  lemma StatusFirst(c: Collector, s: Sources)
    requires Valid(c.store) && |c.store.events| < c.store.capacity
    ensures |AfterRuntime(c, s).store.events| <= |c.store.events| + 1
    ensures Entries(AfterRuntime(c, s).store) == StatusEntry(c, s) + Entries(c.store)
  {
    hide Add, Known, KeysDistinct, RealKeys;
    AddPutsFirst(c.store, s.status, None);
    var d := Entries(AfterRuntime(c, s).store);
    if c.last != Some(s.fingerprint) {
      assert d == [d[0]] + d[1..];
    } else {
      assert d == StatusEntry(c, s) + Entries(c.store);
    }
  }

  lemma StatusLeavesUnseen(c: Collector, s: Sources, items: seq<Item>)
    requires Valid(c.store) && Unseen(c.store, items)
    ensures Unseen(AfterRuntime(c, s).store, items)
  {
  }

  /** A collect of sources that are all new puts, newest first, the recommendations at
      the head of the store, behind them the game states, both in the order of their
      own histories, then the detection, then the runtime event if the status has
      changed since the last collect, and then all that was there. */
  lemma FirstCollect(c: Collector, s: Sources)
    requires Valid(c.store) && Unseen(c.store, Replay(s)) && |c.store.events| + 1 + |Replay(s)| <= c.store.capacity
    ensures Entries(AfterCollect(c, s).store)
            == EntriesOf(s.recommendations) + EntriesOf(s.games)
               + (if s.detection.Some? then EntriesOf([s.detection.value]) else [])
               + StatusEntry(c, s)
               + Entries(c.store)
  {
    hide Entries, EntriesOf, Reversed, Replay, AfterRuntime, StatusEntry, Unseen, KeysDistinct, RealKeys;
    var d := AfterRuntime(c, s).store;
    StatusFirst(c, s);
    StatusLeavesUnseen(c, s, Replay(s));
    UnseenAreAdded(d, Replay(s));
    ReplayNewestFirst(s);
  }
}
