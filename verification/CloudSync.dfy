/** Cloud synchronisation: a client that is thrown away on every error, a retry
    throttle, and a health record. Each operation is one atomic call. Times are
    seconds of the monotonic clock. */
module CloudSync {
  import opened Prelude

  /** What is fixed for a machine; `sdk` says whether a client factory exists. */
  datatype Config = Config(configured: bool, sdk: bool, retrySeconds: real)

  datatype Reply = Rows | NoRows | Raised(category: string)

  datatype Op = Connect | ValidateSchema | UpdateStatus | FetchStatus

  /** One call and all it meets: the clock when the throttle is consulted, the clock
      when a failure is recorded, the error of the client factory if it raises, the
      reply to the query, and the reply to the insert an update may fall back to. */
  datatype Call = Call(op: Op, check: real, later: real, factory: Option<string>, reply: Reply, insert: Reply)

  datatype Event = FactoryCall(at: real) | Failed(at: real) | Succeeded

  datatype Health = Health(connected: bool, lastError: Option<string>, failures: nat, retries: nat)

  datatype Cloud = Cloud(connected: bool, retryAfter: real, health: Health, log: seq<Event>)

  const INITIAL := Cloud(false, 0.0, Health(false, None, 0, 0), [])

  function Delay(config: Config): real {
    if config.retrySeconds > 0.0 then config.retrySeconds else 0.0
  }

  function AfterSuccess(s: Cloud): Cloud {
    s.(health := Health(true, None, 0, s.health.retries), log := s.log + [Succeeded])
  }

  /** _schedule_retry, the client being gone */
  function AfterFailure(config: Config, s: Cloud, category: string, at: real): Cloud {
    Cloud(false, at + Delay(config), Health(false, Some(category), s.health.failures + 1, s.health.retries + 1),
          s.log + [Failed(at)])
  }

  function AfterConnect(config: Config, s: Cloud, c: Call): (Cloud, bool) {
    if s.connected then (s, true)
    else if c.check < s.retryAfter then (s, false)
    else if !config.configured then (AfterFailure(config, s, "not_configured", c.later), false)
    else if !config.sdk then (AfterFailure(config, s, "sdk_unavailable", c.later), false)
    else
      var called := s.(log := s.log + [FactoryCall(c.check)]);
      match c.factory
      case Some(category) => (AfterFailure(config, called, category, c.later), false)
      case None => (AfterSuccess(called.(connected := true, retryAfter := 0.0)), true)
  }

  /** The query of an operation, on a connected client. */
  function AfterQuery(config: Config, s: Cloud, c: Call): (Cloud, bool) {
    match c.op
    case Connect => (s, true)
    case ValidateSchema =>
      if c.reply.Raised? then (AfterFailure(config, s, c.reply.category, c.later), false)
      else (AfterSuccess(s), true)
    case UpdateStatus =>
      if c.reply.Raised? then (AfterFailure(config, s, c.reply.category, c.later), false)
      else if c.reply.NoRows? && c.insert.Raised? then (AfterFailure(config, s, c.insert.category, c.later), false)
      else (AfterSuccess(s.(retryAfter := 0.0)), true)
    case FetchStatus =>
      match c.reply
      case Raised(category) => (AfterFailure(config, s, category, c.later), false)
      case NoRows => (s.(health := s.health.(connected := true, lastError := Some("record_not_found"))), false)
      case Rows => (AfterSuccess(s), true)
  }

  function AfterCall(config: Config, s: Cloud, c: Call): (Cloud, bool) {
    var (connected, ok) := AfterConnect(config, s, c);
    if ok then AfterQuery(config, connected, c) else (connected, false)
  }

  function Run(config: Config, calls: seq<Call>): Cloud {
    if calls == [] then INITIAL
    else AfterCall(config, Run(config, calls[..|calls| - 1]), calls[|calls| - 1]).0
  }

  /** The clock never runs backwards, within a call or between calls. */
  ghost predicate Monotone(calls: seq<Call>) {
    && (forall i :: 0 <= i < |calls| ==> 0.0 <= calls[i].check <= calls[i].later)
    && (forall i, j :: 0 <= i < j < |calls| ==> calls[i].later <= calls[j].check)
  }

  // ----------------------------------------------------------------- what holds

  function FailuresSince(log: seq<Event>): nat {
    if log == [] then 0
    else match log[|log| - 1]
         case Failed(_) => FailuresSince(log[..|log| - 1]) + 1
         case Succeeded => 0
         case FactoryCall(_) => FailuresSince(log[..|log| - 1])
  }

  function AllFailures(log: seq<Event>): nat {
    if log == [] then 0
    else AllFailures(log[..|log| - 1]) + if log[|log| - 1].Failed? then 1 else 0
  }

  /** The time before which no factory call may follow this log. */
  function Barred(config: Config, log: seq<Event>): real {
    if log == [] then 0.0
    else if log[|log| - 1].Failed? then log[|log| - 1].at + Delay(config)
    else Barred(config, log[..|log| - 1])
  }

  ghost predicate FailedBy(log: seq<Event>, now: real) {
    forall i :: 0 <= i < |log| && log[i].Failed? ==> log[i].at <= now
  }

  /** No failure so far bars a factory call at `now`. */
  ghost predicate Clear(config: Config, log: seq<Event>, now: real) {
    forall i :: 0 <= i < |log| && log[i].Failed? ==> log[i].at + Delay(config) <= now
  }

  ghost predicate Throttled(config: Config, log: seq<Event>) {
    forall i, j :: 0 <= i < j < |log| && log[i].Failed? && log[j].FactoryCall? ==>
      log[i].at + Delay(config) <= log[j].at
  }

  /** What every call keeps, seen at clock time `now`. */
  ghost predicate Sound(config: Config, s: Cloud, now: real) {
    && s.health.connected == s.connected
    && s.health.failures == FailuresSince(s.log)
    && s.health.retries == AllFailures(s.log)
    && Throttled(config, s.log) && FailedBy(s.log, now)
    && (if s.connected then Clear(config, s.log, now) else s.retryAfter == Barred(config, s.log))
  }

  lemma {:induction false} BarredIsClear(config: Config, log: seq<Event>, last: real, now: real)
    requires FailedBy(log, last) && Ordered(log) && 0.0 <= now
    ensures Barred(config, log) <= now <==> Clear(config, log, now)
  {
    if log != [] {
      var before := log[..|log| - 1];
      if log[|log| - 1].Failed? {
      } else {
        assert forall i :: 0 <= i < |before| ==> before[i] == log[i];
        BarredIsClear(config, before, last, now);
      }
    }
  }

  ghost predicate Ordered(log: seq<Event>) {
    forall i, j :: 0 <= i < j < |log| && log[i].Failed? && log[j].Failed? ==> log[i].at <= log[j].at
  }

  lemma Grow(config: Config, log: seq<Event>, e: Event)
    ensures FailuresSince(log + [e]) ==
              if e.Failed? then FailuresSince(log) + 1 else if e.Succeeded? then 0 else FailuresSince(log)
    ensures AllFailures(log + [e]) == AllFailures(log) + (if e.Failed? then 1 else 0)
    ensures Barred(config, log + [e]) == (if e.Failed? then e.at + Delay(config) else Barred(config, log))
  {
    assert (log + [e])[..|log|] == log;
  }

  lemma RetryKeeps(config: Config, s: Cloud, category: string, now: real, at: real)
    requires Sound(config, s, now) && Ordered(s.log) && now <= at
    ensures Sound(config, AfterFailure(config, s, category, at), at)
    ensures Ordered(AfterFailure(config, s, category, at).log)
  {
    Grow(config, s.log, Failed(at));
    hide Barred, FailuresSince, AllFailures;
  }

  lemma SuccessKeeps(config: Config, s: Cloud, now: real)
    requires s.connected && Throttled(config, s.log) && Clear(config, s.log, now)
    requires FailedBy(s.log, now) && Ordered(s.log)
    requires s.health.retries == AllFailures(s.log)
    ensures Sound(config, AfterSuccess(s), now) && Ordered(AfterSuccess(s).log)
  {
    Grow(config, s.log, Succeeded);
    hide Barred, FailuresSince, AllFailures;
  }

  lemma CallKeepsLog(config: Config, log: seq<Event>, now: real, at: real)
    requires Throttled(config, log) && FailedBy(log, now) && Ordered(log) && now <= at
    requires Clear(config, log, at)
    ensures var longer := log + [FactoryCall(at)];
            Throttled(config, longer) && FailedBy(longer, at) && Ordered(longer) && Clear(config, longer, at)
  {
  }

  /** A factory call is made only when no failure bars it. */
  lemma FactoryKeeps(config: Config, s: Cloud, now: real, at: real)
    requires Sound(config, s, now) && Ordered(s.log) && !s.connected && 0.0 <= now <= at && s.retryAfter <= at
    ensures var called := s.(log := s.log + [FactoryCall(at)]);
            && Sound(config, called, at) && Ordered(called.log) && Clear(config, called.log, at)
  {
    hide Barred, FailuresSince, AllFailures, Throttled, FailedBy, Ordered, Clear;
    BarredIsClear(config, s.log, now, at);
    Grow(config, s.log, FactoryCall(at));
    CallKeepsLog(config, s.log, now, at);
  }

  lemma ConnectKeeps(config: Config, s: Cloud, c: Call, now: real)
    requires Sound(config, s, now) && Ordered(s.log) && 0.0 <= now <= c.check <= c.later
    ensures var (t, ok) := AfterConnect(config, s, c);
            Sound(config, t, c.later) && Ordered(t.log) && ok == t.connected
  {
    if !s.connected && s.retryAfter <= c.check {
      if !config.configured {
        RetryKeeps(config, s, "not_configured", now, c.later);
      } else if !config.sdk {
        RetryKeeps(config, s, "sdk_unavailable", now, c.later);
      } else {
        FactoryKeeps(config, s, now, c.check);
        var called := s.(log := s.log + [FactoryCall(c.check)]);
        match c.factory {
          case Some(category) => RetryKeeps(config, called, category, c.check, c.later);
          case None => SuccessKeeps(config, called.(connected := true, retryAfter := 0.0), c.later);
        }
      }
    }
  }

  lemma ReplyKeeps(config: Config, s: Cloud, now: real, later: real)
    requires Sound(config, s, now) && Ordered(s.log) && s.connected && now <= later
    ensures Sound(config, s, later)
    ensures Sound(config, AfterSuccess(s), later) && Ordered(AfterSuccess(s).log)
    ensures Sound(config, AfterSuccess(s.(retryAfter := 0.0)), later)
  {
    hide Barred, Ordered;
    SuccessKeeps(config, s, later);
    SuccessKeeps(config, s.(retryAfter := 0.0), later);
  }

  lemma NotFoundKeeps(config: Config, s: Cloud, now: real)
    requires Sound(config, s, now) && s.connected
    ensures Sound(config, s.(health := s.health.(connected := true, lastError := Some("record_not_found"))), now)
  {
  }

  lemma QueryKeeps(config: Config, s: Cloud, c: Call, now: real)
    requires Sound(config, s, now) && Ordered(s.log) && s.connected && now <= c.later
    ensures var t := AfterQuery(config, s, c).0; Sound(config, t, c.later) && Ordered(t.log)
  {
    hide Sound, Ordered, AfterFailure;
    ReplyKeeps(config, s, now, c.later);
    NotFoundKeeps(config, s, c.later);
    if c.op != Connect && c.reply.Raised? {
      RetryKeeps(config, s, c.reply.category, now, c.later);
    } else if c.op == UpdateStatus && c.reply.NoRows? && c.insert.Raised? {
      RetryKeeps(config, s, c.insert.category, now, c.later);
    }
  }

  lemma {:induction false} RunKeeps(config: Config, calls: seq<Call>, now: real)
    requires Monotone(calls) && 0.0 <= now && (calls != [] ==> calls[|calls| - 1].later <= now)
    ensures Sound(config, Run(config, calls), now) && Ordered(Run(config, calls).log)
  {
    if calls != [] {
      var c, before := calls[|calls| - 1], calls[..|calls| - 1];
      RunKeeps(config, before, c.check);
      var s := Run(config, before);
      ConnectKeeps(config, s, c, c.check);
      var (t, ok) := AfterConnect(config, s, c);
      if ok {
        QueryKeeps(config, t, c, c.later);
      }
    }
  }

  // -------------------------------------------------------------------- theorems

  /** After a failure at time t the client factory is left alone until
      t + max(0, retry_seconds), whatever operations are called in between. */
  lemma FactoryIsThrottled(config: Config, calls: seq<Call>, i: nat, j: nat)
    requires Monotone(calls)
    requires var log := Run(config, calls).log; i < j < |log| && log[i].Failed? && log[j].FactoryCall?
    ensures var log := Run(config, calls).log;
            log[i].at <= log[j].at && log[i].at + config.retrySeconds <= log[j].at
  {
    RunKeeps(config, calls, if calls == [] then 0.0 else calls[|calls| - 1].later);
  }

  /** Every failure so far is at least the configured retry time old. */
  ghost predicate Rested(config: Config, log: seq<Event>, now: real) {
    forall i :: 0 <= i < |log| && log[i].Failed? ==> log[i].at + config.retrySeconds <= now
  }

  lemma RestedIff(config: Config, calls: seq<Call>, c: Call)
    requires Monotone(calls + [c])
    ensures var s := Run(config, calls);
            !s.connected ==> (s.retryAfter <= c.check <==> Rested(config, s.log, c.check))
  {
    assert (calls + [c])[|calls|] == c;
    assert forall i :: 0 <= i < |calls| ==> (calls + [c])[i] == calls[i];
    RunKeeps(config, calls, c.check);
    BarredIsClear(config, Run(config, calls).log, c.check, c.check);
  }

  /** The throttle lifts exactly then: a disconnected service that can call the factory
      does so if and only if every failure is at least the retry time old. */
  lemma ThrottleLiftsOnTime(config: Config, calls: seq<Call>, c: Call)
    requires Monotone(calls + [c]) && config.configured && config.sdk
    ensures var s, t := Run(config, calls), AfterCall(config, Run(config, calls), c).0;
            (exists k :: |s.log| <= k < |t.log| && t.log[k].FactoryCall?)
            <==> !s.connected && Rested(config, s.log, c.check)
  {
    RestedIff(config, calls, c);
    hide Run, Rested;
    var s, t := Run(config, calls), AfterCall(config, Run(config, calls), c).0;
    if !s.connected && s.retryAfter <= c.check {
      assert t.log[|s.log|] == FactoryCall(c.check);
    }
  }

  /** The error a call's own query ends in: that of its first statement, or, when an
      update finds nothing to update, that of the insert in its place. */
  function QueryError(c: Call): Option<string> {
    if c.op == Connect then None
    else if c.reply.Raised? then Some(c.reply.category)
    else if c.op == UpdateStatus && c.reply.NoRows? && c.insert.Raised? then Some(c.insert.category)
    else None
  }

  /** What the factory stage of a disconnected service ends in. */
  function ClientError(config: Config, c: Call): Option<string> {
    if !config.configured then Some("not_configured")
    else if !config.sdk then Some("sdk_unavailable")
    else c.factory
  }

  /** What every call answers, after any run. While a failure is too recent nothing
      happens. Otherwise the call succeeds exactly when it has or gets a client, its
      query raises nothing, and, for a fetch, there is a record. The first error
      disconnects, becomes the last error and is counted; a missing record is neither
      a success nor a failure. */
  lemma CallAnswers(config: Config, calls: seq<Call>, c: Call)
    requires Monotone(calls + [c])
    ensures var s := Run(config, calls);
            var (t, ok) := AfterCall(config, s, c);
            if !s.connected && !Rested(config, s.log, c.check) then !ok && t == s
            else if !s.connected && ClientError(config, c).Some? then
              && !ok && !t.connected && t.log != [] && t.log[|t.log| - 1] == Failed(c.later)
              && t.health == Health(false, ClientError(config, c), s.health.failures + 1, s.health.retries + 1)
            else
              var earlier := if s.connected then s.health.failures else 0;
              if QueryError(c).Some? then
                && !ok && !t.connected && t.log != [] && t.log[|t.log| - 1] == Failed(c.later)
                && t.health == Health(false, QueryError(c), earlier + 1, s.health.retries + 1)
              else if c.op == FetchStatus && c.reply.NoRows? then
                !ok && t.connected && t.health == Health(true, Some("record_not_found"), earlier, s.health.retries)
              else
                && ok && t.connected
                && if s.connected && c.op == Connect then t == s
                   else t.health == Health(true, None, 0, s.health.retries)
  {
    assert (calls + [c])[|calls|] == c;
    assert forall i :: 0 <= i < |calls| ==> (calls + [c])[i] == calls[i];
    RunKeeps(config, calls, c.check);
    RestedIff(config, calls, c);
    hide Run, Rested;
  }

  /** The health record tells the truth about the client and about the failures. */
  lemma HealthTellsTheTruth(config: Config, calls: seq<Call>)
    requires Monotone(calls)
    ensures var s := Run(config, calls);
            && s.health.connected == s.connected
            && s.health.failures == FailuresSince(s.log)
            && s.health.retries == AllFailures(s.log)
  {
    RunKeeps(config, calls, if calls == [] then 0.0 else calls[|calls| - 1].later);
  }

  // ----------------------------------------------------------- in its own form

  class SupabaseClient {
    var connected: bool

    constructor ()
      ensures !connected
    {
      connected := false;
    }

    method Disconnect()
      modifies this
      ensures !connected
    {
      connected := false;
    }

    /** The factory either delivers a client or raises. */
    method Connect(config: Config, factory: Option<string>) returns (error: Option<string>)
      modifies this
      ensures error == if old(connected) then None
                       else if !config.configured then Some("not_configured")
                       else if !config.sdk then Some("sdk_unavailable")
                       else factory
      ensures connected == error.None?
    {
      if connected {
        return None;
      }
      if !config.configured {
        return Some("not_configured");
      }
      if !config.sdk {
        return Some("sdk_unavailable");
      }
      connected := factory.None?;
      return factory;
    }
  }

  class CloudHealthTracker {
    var connected: bool
    var lastError: Option<string>
    var consecutiveFailureCount: nat
    var retryCount: nat

    function State(): Health
      reads this
    {
      Health(connected, lastError, consecutiveFailureCount, retryCount)
    }

    constructor ()
      ensures State() == INITIAL.health
    {
      connected, lastError, consecutiveFailureCount, retryCount := false, None, 0, 0;
    }

    method Update(connected: bool, lastError: Option<string>)
      modifies this
      ensures State() == old(State()).(connected := connected, lastError := lastError)
    {
      this.connected, this.lastError := connected, lastError;
    }

    method Success()
      modifies this
      ensures State() == Health(true, None, 0, old(retryCount))
    {
      Update(true, None);
      consecutiveFailureCount := 0;
    }

    method Failure(category: string)
      modifies this
      ensures State() == Health(false, Some(category), old(consecutiveFailureCount) + 1, old(retryCount) + 1)
    {
      connected, lastError := false, Some(category);
      consecutiveFailureCount := consecutiveFailureCount + 1;
      retryCount := retryCount + 1;
    }
  }

  class CloudSyncService {
    const config: Config
    const client: SupabaseClient
    const health: CloudHealthTracker
    var retryAfter: real
    ghost var log: seq<Event>

    ghost function State(): Cloud
      reads this, client, health
    {
      Cloud(client.connected, retryAfter, health.State(), log)
    }

    constructor (config: Config)
      ensures State() == INITIAL && this.config == config && fresh(client) && fresh(health)
    {
      this.config := config;
      client := new SupabaseClient();
      health := new CloudHealthTracker();
      retryAfter, log := 0.0, [];
    }

    /** The client is gone; the next attempt has to wait. */
    method ScheduleRetry(category: string, at: real)
      requires !client.connected
      modifies this, health
      ensures State() == AfterFailure(config, old(State()), category, at)
    {
      retryAfter := at + Delay(config);
      health.Failure(category);
      log := log + [Failed(at)];
    }

    method Succeed()
      modifies this, health
      ensures State() == AfterSuccess(old(State()))
    {
      health.Success();
      log := log + [Succeeded];
    }

    method Connect(c: Call) returns (ok: bool)
      modifies this, client, health
      ensures (State(), ok) == AfterConnect(config, old(State()), c)
    {
      if client.connected {
        return true;
      }
      if c.check < retryAfter {
        return false;
      }
      var error := client.Connect(config, c.factory);
      if config.configured && config.sdk {
        log := log + [FactoryCall(c.check)];
      }
      if error.None? {
        retryAfter := 0.0;
        Succeed();
        return true;
      }
      ScheduleRetry(error.value, c.later);
      return false;
    }

    method ValidateSchema(c: Call) returns (ok: bool)
      requires c.op == Op.ValidateSchema
      modifies this, client, health
      ensures (State(), ok) == AfterCall(config, old(State()), c)
    {
      ok := Connect(c);
      if !ok {
        return;
      }
      if c.reply.Raised? {
        client.Disconnect();
        ScheduleRetry(c.reply.category, c.later);
        return false;
      }
      Succeed();
    }

    method UpdateMachineStatus(c: Call) returns (ok: bool)
      requires c.op == UpdateStatus
      modifies this, client, health
      ensures (State(), ok) == AfterCall(config, old(State()), c)
    {
      ok := Connect(c);
      if !ok {
        return;
      }
      var reply := c.reply;
      if reply.NoRows? {
        reply := c.insert;
      }
      if reply.Raised? {
        client.Disconnect();
        ScheduleRetry(reply.category, c.later);
        return false;
      }
      retryAfter := 0.0;
      Succeed();
    }

    method FetchMachineStatus(c: Call) returns (ok: bool)
      requires c.op == FetchStatus
      modifies this, client, health
      ensures (State(), ok) == AfterCall(config, old(State()), c)
    {
      ok := Connect(c);
      if !ok {
        return;
      }
      match c.reply {
        case Raised(category) =>
          client.Disconnect();
          ScheduleRetry(category, c.later);
          return false;
        case NoRows =>
          health.Update(true, Some("record_not_found"));
          return false;
        case Rows =>
          Succeed();
      }
    }
  }
}
