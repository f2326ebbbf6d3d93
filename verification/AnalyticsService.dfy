/** The collector in its own form: loops over the caches, adding to the store
    object. */
module AnalyticsService {
  import opened Prelude
  import S = AnalyticsStore
  import opened AnalyticsCollector

  class AnalyticsService {
    const store: S.AnalyticsStore
    var lastRuntimeFingerprint: Option<string>

    ghost function State(): Collector
      reads this, store
    {
      Collector(store.State(), lastRuntimeFingerprint)
    }

    constructor (store: S.AnalyticsStore)
      ensures this.store == store && State() == Collector(store.State(), None)
    {
      this.store := store;
      lastRuntimeFingerprint := None;
    }

    method CollectRuntime(s: Sources)
      requires S.Valid(store.State())
      modifies this, store
      ensures S.Valid(store.State()) && State() == AfterRuntime(old(State()), s)
    {
      if Some(s.fingerprint) == lastRuntimeFingerprint { return; }
      lastRuntimeFingerprint := Some(s.fingerprint);
      var _ := store.AddEvent(s.status, None);
    }

    /** Adds a newest-first history, oldest first. */
    method ReplayHistory(items: seq<Item>)
      requires S.Valid(store.State())
      modifies store
      ensures S.Valid(store.State()) && store.State() == AddAll(old(store.State()), Reversed(items)).0
    {
      hide Reversed, S.Valid, S.Add;
      ghost var order := Reversed(items);
      var i := |items|;
      while i > 0
        invariant 0 <= i <= |items| && S.Valid(store.State())
        invariant store.State() == AddAll(old(store.State()), order[..|items| - i]).0
      {
        i := i - 1;
        ghost var done := |items| - i;
        assert order[..done][..done - 1] == order[..done - 1] && order[done - 1] == items[i];
        var _ := store.AddEvent(items[i].event, Some(items[i].key));
      }
      assert order[..|items|] == order;
    }

    method Collect(s: Sources)
      requires S.Valid(store.State())
      modifies this, store
      ensures S.Valid(store.State()) && State() == AfterCollect(old(State()), s)
    {
      CollectRuntime(s);
      ghost var start := store.State();
      ghost var first := if s.detection.Some? then [s.detection.value] else [];
      if s.detection.Some? {
        assert first[..0] == [];
        var _ := store.AddEvent(s.detection.value.event, Some(s.detection.value.key));
      }
      assert store.State() == AddAll(start, first).0;
      ReplayHistory(s.games);
      AddAllJoins(start, first, Reversed(s.games));
      ReplayHistory(s.recommendations);
      AddAllJoins(start, first + Reversed(s.games), Reversed(s.recommendations));
    }
  }

  lemma {:induction false} AddAllJoins(s: S.Store, xs: seq<Item>, ys: seq<Item>)
    requires S.Valid(s)
    ensures AddAll(AddAll(s, xs).0, ys).0 == AddAll(s, xs + ys).0
  {
    if ys == [] {
      assert xs + ys == xs;
    } else {
      var most := ys[..|ys| - 1];
      AddAllJoins(s, xs, most);
      assert (xs + ys)[..|xs + ys| - 1] == xs + most;
    }
  }
}
