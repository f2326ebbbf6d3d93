/** The collector replays overlapping histories into the bounded store, relying on
    keys to add nothing twice. */
module AnalyticsCollector {
  import opened Prelude
  import opened AnalyticsStore

  /** An event with the key it is added under, never empty. */
  datatype Item = Item(event: Event, key: string)

  predicate Keyed(items: seq<Item>) {
    forall i :: 0 <= i < |items| ==> items[i].key != ""
  }

  /** One reading of all sources. `games` and `recommendations` are newest first. */
  datatype Sources = Sources(
    fingerprint: string,
    status: Event,
    detection: Option<Item>,
    games: seq<Item>,
    recommendations: seq<Item>)

  function Reversed<T>(s: seq<T>): (r: seq<T>)
    ensures |r| == |s| && forall i :: 0 <= i < |s| ==> r[i] == s[|s| - 1 - i]
  {
    if s == [] then [] else [s[|s| - 1]] + Reversed(s[..|s| - 1])
  }

  /** The items of one collect, in the order they are added. */
  function Replay(s: Sources): seq<Item> {
    (if s.detection.Some? then [s.detection.value] else []) + Reversed(s.games) + Reversed(s.recommendations)
  }

  ghost function KeysOf(items: seq<Item>): set<string> {
    set i | 0 <= i < |items| :: items[i].key
  }

  // ------------------------------------------------------------- adding items

  /** The store after adding `items` in order, and the keys that were really added,
      newest first. */
  ghost function AddAll(s: Store, items: seq<Item>): (r: (Store, seq<Key>))
    requires Valid(s)
    ensures Valid(r.0) && r.0.capacity == s.capacity
  {
    if items == [] then (s, []) else
      var (t, added) := AddAll(s, items[..|items| - 1]);
      var last := items[|items| - 1];
      AddKeepsValid(t, last.event, Some(last.key));
      (Add(t, last.event, Some(last.key)), if Known(t, Some(last.key)) then added else [Some(last.key)] + added)
  }

  /** `added` heads the store, and holds only keys from `known`. */
  ghost predicate Heads(s: Store, added: seq<Key>, known: set<string>) {
    added <= s.keys && forall i :: 0 <= i < |added| ==> Real(added[i]) && added[i].value in known
  }

  lemma {:induction false} DistinctFit(keys: seq<Key>, known: set<string>)
    requires KeysDistinct(keys)
    requires forall i :: 0 <= i < |keys| ==> Real(keys[i]) && keys[i].value in known
    ensures |keys| <= |known|
  {
    if keys != [] {
      var n := |keys| - 1;
      var rest := known - {keys[n].value};
      forall i | 0 <= i < n ensures keys[i].value in rest {
        assert keys[i] != keys[n];
      }
      DistinctFit(keys[..n], rest);
    }
  }

  /** Adding one more key of `known` keeps all the earlier ones at the head: the
      store cannot be full of them unless it knows the new one. */
  lemma AddOnTop(s: Store, added: seq<Key>, known: set<string>, e: Event, key: string)
    requires Valid(s) && Heads(s, added, known) && |known| <= s.capacity
    requires key != "" && key in known && !Known(s, Some(key))
    ensures Heads(Add(s, e, Some(key)), [Some(key)] + added, known)
  {
    var more := [Some(key)] + added;
    forall j | 0 <= j < |added| ensures added[j] != Some(key) {
      assert s.keys[j].value in RealKeys(s.keys);
    }
    forall i, j | 0 <= i < j < |more| ensures more[i] != more[j] {
      if i > 0 {
        assert s.keys[i - 1] == more[i] && s.keys[j - 1] == more[j];
      }
    }
    DistinctFit(more, known);
    var t := Add(s, e, Some(key));
    forall i | 0 <= i < |more| ensures t.keys[i] == more[i] {
    }
  }

  lemma {:induction false} AddAllOnTop(s: Store, items: seq<Item>, before: seq<Key>, known: set<string>)
    requires Valid(s) && Keyed(items) && KeysOf(items) <= known && |known| <= s.capacity
    requires Heads(s, before, known)
    ensures var (t, added) := AddAll(s, items); Heads(t, added + before, known)
  {
    if items == [] {
      assert [] + before == before;
    } else {
      var most, last := items[..|items| - 1], items[|items| - 1];
      assert last.key in KeysOf(items);
      assert forall i :: 0 <= i < |most| ==> most[i].key in KeysOf(items);
      AddAllOnTop(s, most, before, known);
      var (t, added) := AddAll(s, most);
      if !Known(t, Some(last.key)) {
        AddOnTop(t, added + before, known, last.event, last.key);
        assert [Some(last.key)] + (added + before) == ([Some(last.key)] + added) + before;
      }
    }
  }

  /** Nothing added means nothing changed, and every key was there. */
  lemma {:induction false} NothingAdded(s: Store, items: seq<Item>)
    requires Valid(s) && Keyed(items)
    ensures AddAll(s, items).1 == [] <==> KeysOf(items) <= s.present
    ensures AddAll(s, items).1 == [] ==> AddAll(s, items).0 == s
  {
    if items != [] {
      var most, last := items[..|items| - 1], items[|items| - 1];
      NothingAdded(s, most);
      assert KeysOf(items) == KeysOf(most) + {last.key} by {
        assert items[|items| - 1].key == last.key;
        forall k | k in KeysOf(most) ensures k in KeysOf(items) {
          var i :| 0 <= i < |most| && most[i].key == k;
          assert items[i].key == k;
        }
        forall k | k in KeysOf(items) ensures k in KeysOf(most) + {last.key} {
          var i :| 0 <= i < |items| && items[i].key == k;
          assert i < |most| ==> most[i].key == k;
        }
      }
    }
  }

  // ----------------------------------------------------------- whole collects

  datatype Collector = Collector(store: Store, last: Option<string>)

  /** _collect_runtime: at most one event, without a key. */
  ghost function AfterRuntime(c: Collector, s: Sources): (d: Collector)
    requires Valid(c.store)
    ensures Valid(d.store) && d.last == Some(s.fingerprint) && d.store.capacity == c.store.capacity
  {
    if c.last == Some(s.fingerprint) then c else
      AddKeepsValid(c.store, s.status, None);
      Collector(Add(c.store, s.status, None), Some(s.fingerprint))
  }

  ghost function AfterCollect(c: Collector, s: Sources): (d: Collector)
    requires Valid(c.store)
    ensures Valid(d.store) && d.last == Some(s.fingerprint) && d.store.capacity == c.store.capacity
  {
    var d := AfterRuntime(c, s);
    d.(store := AddAll(d.store, Replay(s)).0)
  }

  /** The keys one collect adds, newest first. */
  ghost function AddedBy(c: Collector, s: Sources): seq<Key>
    requires Valid(c.store)
  {
    AddAll(AfterRuntime(c, s).store, Replay(s)).1
  }

  /** A collect that changes nothing at all. */
  ghost predicate Quiet(c: Collector, s: Sources)
    requires Valid(c.store)
  {
    c.last == Some(s.fingerprint) && AddedBy(c, s) == []
  }

  ghost function Collects(c: Collector, s: Sources, m: nat): (d: Collector)
    requires Valid(c.store)
    ensures Valid(d.store) && d.store.capacity == c.store.capacity
    ensures m > 0 ==> d.last == Some(s.fingerprint)
  {
    if m == 0 then c else AfterCollect(Collects(c, s, m - 1), s)
  }

  /** All keys added by the first `m` collects, newest first. */
  ghost function AddedByAll(c: Collector, s: Sources, m: nat): seq<Key>
    requires Valid(c.store)
  {
    if m == 0 then [] else AddedBy(Collects(c, s, m - 1), s) + AddedByAll(c, s, m - 1)
  }

  ghost function SourceKeys(s: Sources): set<string> {
    KeysOf(Replay(s))
  }

  lemma {:induction false} AddedStayOnTop(c: Collector, s: Sources, m: nat)
    requires Valid(c.store) && Keyed(Replay(s)) && |SourceKeys(s)| <= c.store.capacity
    ensures Heads(Collects(c, s, m).store, AddedByAll(c, s, m), SourceKeys(s))
  {
    if m > 0 {
      AddedStayOnTop(c, s, m - 1);
      var d := Collects(c, s, m - 1);
      if m == 1 {
        AddAllOnTop(AfterRuntime(d, s).store, Replay(s), [], SourceKeys(s));
      } else {
        AddAllOnTop(d.store, Replay(s), AddedByAll(c, s, m - 1), SourceKeys(s));
      }
    }
  }

  /** With room for every source key, no key is ever added twice, so at most as many
      keyed additions as there are keys happen over any number of collects. */
  lemma EachKeyOnce(c: Collector, s: Sources, m: nat)
    requires Valid(c.store) && Keyed(Replay(s)) && |SourceKeys(s)| <= c.store.capacity
    ensures var added := AddedByAll(c, s, m);
            && |added| <= |SourceKeys(s)|
            && forall i, j :: 0 <= i < j < |added| ==> added[i] != added[j]
  {
    AddedStayOnTop(c, s, m);
    var t, added := Collects(c, s, m).store, AddedByAll(c, s, m);
    forall i, j | 0 <= i < j < |added| ensures added[i] != added[j] {
      assert t.keys[i] == added[i] && t.keys[j] == added[j];
    }
    DistinctFit(added, SourceKeys(s));
  }

  lemma QuietLasts(c: Collector, s: Sources)
    requires Valid(c.store) && Keyed(Replay(s)) && Quiet(c, s)
    ensures AfterCollect(c, s) == c
  {
    NothingAdded(c.store, Replay(s));
  }

  lemma {:induction false} LoudAdds(c: Collector, s: Sources, m: nat)
    requires Valid(c.store)
    requires forall k: nat :: 0 < k < m ==> !Quiet(Collects(c, s, k), s)
    ensures |AddedByAll(c, s, m)| >= m - 1
  {
    if m > 1 {
      LoudAdds(c, s, m - 1);
      assert !Quiet(Collects(c, s, m - 1), s);
    }
  }

  lemma {:induction false} QuietForever(c: Collector, s: Sources, k: nat, m: nat)
    requires Valid(c.store) && Keyed(Replay(s)) && k <= m && Quiet(Collects(c, s, k), s)
    ensures Collects(c, s, m) == Collects(c, s, k)
  {
    if k < m {
      QuietForever(c, s, k, m - 1);
      QuietLasts(Collects(c, s, k), s);
    }
  }

  lemma SettlesWithRoom(c: Collector, s: Sources, m: nat)
    requires Valid(c.store) && Keyed(Replay(s)) && |SourceKeys(s)| <= c.store.capacity
    requires m >= |SourceKeys(s)| + 1
    ensures Quiet(Collects(c, s, m), s)
  {
    hide Quiet, AddedByAll, Collects, SourceKeys;
    var n := |SourceKeys(s)|;
    EachKeyOnce(c, s, n + 2);
    if forall k: nat :: 0 < k < n + 2 ==> !Quiet(Collects(c, s, k), s) {
      LoudAdds(c, s, n + 2);
    }
    var k: nat :| 0 < k < n + 2 && Quiet(Collects(c, s, k), s);
    QuietForever(c, s, k, m);
  }

  lemma QuietNeedsRoom(c: Collector, s: Sources)
    requires Valid(c.store) && Keyed(Replay(s)) && Quiet(c, s)
    ensures |SourceKeys(s)| <= c.store.capacity
  {
    NothingAdded(c.store, Replay(s));
    RealKeysFit(c.store.keys);
    SubsetFits(SourceKeys(s), c.store.present);
  }

  ghost predicate SettledAfter(c: Collector, s: Sources, m: nat)
    requires Valid(c.store)
  {
    Quiet(Collects(c, s, m), s)
  }

  /** Repeated collects settle, after at most one more than the number of source
      keys, exactly when the store has room for all of them. */
  lemma CollectsSettleIff(c: Collector, s: Sources)
    requires Valid(c.store) && Keyed(Replay(s))
    ensures |SourceKeys(s)| <= c.store.capacity <==> exists m: nat :: SettledAfter(c, s, m)
    ensures |SourceKeys(s)| <= c.store.capacity ==>
              forall m: nat :: m >= |SourceKeys(s)| + 1 ==> SettledAfter(c, s, m)
  {
    if |SourceKeys(s)| <= c.store.capacity {
      forall m: nat | m >= |SourceKeys(s)| + 1 ensures SettledAfter(c, s, m) {
        SettlesWithRoom(c, s, m);
      }
      assert SettledAfter(c, s, |SourceKeys(s)| + 1);
    } else {
      forall m: nat ensures !SettledAfter(c, s, m) {
        if SettledAfter(c, s, m) {
          QuietNeedsRoom(Collects(c, s, m), s);
        }
      }
    }
  }

  lemma {:induction false} RealKeysFit(keys: seq<Key>)
    ensures |RealKeys(keys)| <= |keys|
  {
    if keys == [] {
      assert RealKeys(keys) == {};
    } else {
      var n := |keys| - 1;
      RealKeysFit(keys[..n]);
      var last := if Real(keys[n]) then {keys[n].value} else {};
      assert RealKeys(keys) <= RealKeys(keys[..n]) + last by {
        forall v | v in RealKeys(keys) ensures v in RealKeys(keys[..n]) + last {
          var i :| 0 <= i < |keys| && Real(keys[i]) && keys[i].value == v;
          assert i < n ==> keys[..n][i] == keys[i];
        }
      }
      SubsetFits(RealKeys(keys), RealKeys(keys[..n]) + last);
    }
  }

  lemma SubsetFits(a: set<string>, b: set<string>)
    requires a <= b
    ensures |a| <= |b|
  {
    assert b == a + (b - a);
  }

  /** If the first collect evicts nothing, the second already adds nothing. */
  lemma NoEvictionSettlesAtOnce(c: Collector, s: Sources)
    requires Valid(c.store) && Keyed(Replay(s))
    requires var d := AfterRuntime(c, s);
             |AfterCollect(c, s).store.keys| == |d.store.keys| + |AddedBy(c, s)|
    ensures Quiet(AfterCollect(c, s), s)
  {
    var d := AfterRuntime(c, s);
    GrowsWithoutEviction(d.store, Replay(s));
    NothingAdded(AfterCollect(c, s).store, Replay(s));
  }

  /** One add either leaves the store, evicts a key, or grows it by the new key. */
  lemma GrowsByOne(s: Store, e: Event, key: string)
    requires Valid(s) && Real(Some(key))
    ensures var t := Add(s, e, Some(key));
            && Valid(t)
            && (Known(s, Some(key)) ==> t == s && key in t.present)
            && (!Known(s, Some(key)) ==> |t.keys| <= |s.keys| + 1)
            && (!Known(s, Some(key)) && |t.keys| == |s.keys| + 1 ==> key in t.present && s.present <= t.present)
  {
    AddKeepsValid(s, e, Some(key));
    var t := Add(s, e, Some(key));
    if !Known(s, Some(key)) && |t.keys| == |s.keys| + 1 {
      assert t.keys[0] == Some(key);
      forall k | k in s.present ensures k in t.present {
        var i :| 0 <= i < |s.keys| && Real(s.keys[i]) && s.keys[i].value == k;
        assert t.keys[i + 1] == s.keys[i];
      }
    }
  }

  lemma KeysOfLast(items: seq<Item>)
    requires items != []
    ensures KeysOf(items) <= KeysOf(items[..|items| - 1]) + {items[|items| - 1].key}
  {
    var most, last := items[..|items| - 1], items[|items| - 1];
    forall k | k in KeysOf(items) ensures k in KeysOf(most) + {last.key} {
      var i :| 0 <= i < |items| && items[i].key == k;
      assert i < |most| ==> most[i].key == k;
    }
  }

  lemma {:induction false} GrowsWithoutEviction(s: Store, items: seq<Item>)
    requires Valid(s) && Keyed(items)
    ensures var (t, added) := AddAll(s, items);
            && |t.keys| <= |s.keys| + |added|
            && (|t.keys| == |s.keys| + |added| ==> KeysOf(items) <= t.present && s.present <= t.present)
  {
    hide Valid, Known, KeysOf, Add;
    if items != [] {
      var most, last := items[..|items| - 1], items[|items| - 1];
      GrowsWithoutEviction(s, most);
      GrowsByOne(AddAll(s, most).0, last.event, last.key);
      KeysOfLast(items);
    } else {
      NoKeys();
    }
  }

  lemma NoKeys()
    ensures KeysOf([]) == {}
  {
  }

  // ------------------------------------------------- two collects can differ

  ghost function AddItem(s: Store, x: Item): (Store, seq<Key>)
    requires Valid(s)
  {
    (Add(s, x.event, Some(x.key)), if Known(s, Some(x.key)) then [] else [Some(x.key)])
  }

  lemma AddTwo(s: Store, a: Item, b: Item)
    requires Valid(s)
    ensures var (t, k1) := AddItem(s, a);
            && Valid(t)
            && var (u, k2) := AddItem(t, b);
               AddAll(s, [a, b]) == (u, k2 + k1)
  {
    AddKeepsValid(s, a.event, Some(a.key));
    var two := [a, b];
    var one := two[..1];
    assert one[..0] == [] && one[0] == a;
    assert AddAll(s, one).0 == AddItem(s, a).0;
    var k1 := AddAll(s, one).1;
    assert k1 == AddItem(s, a).1 by {
      assert [Some(a.key)] + [] == [Some(a.key)];
    }
    assert [] + k1 == k1;
  }

  /** A full store of two that knows `a`, as its oldest key, but not `b`. */
  lemma MissingKeyEvicts(s: Store, a: Item, b: Item, x: string)
    requires Valid(s) && s.capacity == 2 && s.keys == [Some(x), Some(a.key)]
    requires x != "" && a.key != "" && b.key != "" && b.key != x && b.key != a.key && x != a.key
    ensures AddAll(s, [a, b]).1 == [Some(b.key)]
    ensures AddAll(s, [a, b]).0.keys == [Some(b.key), Some(x)]
  {
    assert s.keys[1].value in RealKeys(s.keys);
    AddTwo(s, a, b);
  }

  lemma MissingKeyReturns(s: Store, a: Item, b: Item, x: string)
    requires Valid(s) && s.capacity == 2 && s.keys == [Some(b.key), Some(x)]
    requires x != "" && a.key != "" && b.key != "" && a.key != x && b.key != a.key
    ensures AddAll(s, [a, b]).1 == [Some(a.key)]
  {
    AddTwo(s, a, b);
    var t := AddItem(s, a).0;
    assert t.keys[1] == Some(b.key);
    assert t.keys[1].value in RealKeys(t.keys);
  }

  /** Two collects in a row need not agree, even with room for all keys: adding a
      missing key can evict one found present a moment before, which the next
      collect adds again. */
  lemma SecondCollectCanStillAdd(c: Collector, s: Sources, a: Item, b: Item, x: string)
    requires Valid(c.store) && c.store.capacity == 2 && c.store.keys == [Some(x), Some(a.key)]
    requires x != "" && a.key != "" && b.key != "" && b.key != x && b.key != a.key && x != a.key
    requires c.last == Some(s.fingerprint) && Replay(s) == [a, b]
    ensures AddedBy(c, s) == [Some(b.key)] && AddedBy(AfterCollect(c, s), s) == [Some(a.key)]
  {
    MissingKeyEvicts(c.store, a, b, x);
    MissingKeyReturns(AfterCollect(c, s).store, a, b, x);
  }
}
