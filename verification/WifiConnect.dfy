/** connect_network: back the configuration up, replace it, activate it, wait for
    the association, and roll back on any failure. Every write, command and poll
    may fail, a write even after it has replaced the file. */
module WifiConnect {
  import opened Prelude
  import opened WifiConfig

  /** atomic_write raises before the replace, or after it, or not at all. */
  datatype WriteOutcome = Written | RaisedBefore | RaisedAfter

  predicate Replaced(w: WriteOutcome) {
    !w.RaisedBefore?
  }

  /** A status command: the parsed key=value lines, or an exception. */
  datatype Reply = Status(fields: map<string, string>) | Raised

  predicate Joined(r: Reply) {
    && r.Status?
    && "wpa_state" in r.fields && r.fields["wpa_state"] == "COMPLETED"
    && "id_str" in r.fields && r.fields["id_str"] == MANAGED_ID
  }

  /** Everything the call meets outside itself. */
  datatype Env = Env(
    first: Reply,
    backupWrite: WriteOutcome,
    configWrite: WriteOutcome,
    reconfigures: bool,
    polls: nat -> Reply,
    sleepRaises: nat -> bool,
    restoreWrite: WriteOutcome,
    rollbackReconfigures: bool)

  datatype ConnectError =
    | BadConfig(reason: ConfigError)
    | StatusFailed | BackupFailed | ActivationFailed | AssociationTimedOut
    | RestoreFailed | RollbackNotActivated

  /** The polling loop from attempt `i` on: None once joined. */
  function Polling(env: Env, attempts: nat, i: nat): Option<ConnectError>
    decreases attempts - i
  {
    if i >= attempts then Some(AssociationTimedOut)
    else if env.polls(i).Raised? then Some(ActivationFailed)
    else if Joined(env.polls(i)) then None
    else if env.sleepRaises(i) then Some(ActivationFailed)
    else Polling(env, attempts, i + 1)
  }

  /** Poll `k` is made and finds the network joined: every poll from `i` up to it was
      answered without that, and the sleep after it worked. */
  ghost predicate JoinedAt(env: Env, attempts: nat, i: nat, k: nat) {
    && i <= k < attempts && Joined(env.polls(k))
    && forall j: nat :: i <= j < k ==> env.polls(j).Status? && !Joined(env.polls(j)) && !env.sleepRaises(j)
  }

  lemma {:induction false} PollingSawJoin(env: Env, attempts: nat, i: nat)
    ensures Polling(env, attempts, i).None? <==> exists k: nat :: JoinedAt(env, attempts, i, k)
    decreases attempts - i
  {
    if i < attempts {
      PollingSawJoin(env, attempts, i + 1);
      if Joined(env.polls(i)) {
        assert JoinedAt(env, attempts, i, i);
      } else if Polling(env, attempts, i).None? {
        var k: nat :| JoinedAt(env, attempts, i + 1, k);
        assert JoinedAt(env, attempts, i, k);
      } else {
        forall k: nat | JoinedAt(env, attempts, i, k) ensures JoinedAt(env, attempts, i + 1, k) {
        }
      }
    }
  }

  /** Everything from the configuration write to the association. */
  function Activation(env: Env, attempts: nat): Option<ConnectError> {
    if !env.configWrite.Written? || !env.reconfigures then Some(ActivationFailed)
    else Polling(env, attempts, 0)
  }

  predicate AlreadyJoined(original: string, updated: string, env: Env) {
    updated == original && Joined(env.first)
  }

  /** The whole call with a configuration that can be updated. */
  function Outcome(original: string, updated: string, attempts: nat, env: Env): Result<(), ConnectError> {
    if AlreadyJoined(original, updated, env) then Ok(())
    else if updated == original && env.first.Raised? then Err(StatusFailed)
    else if !env.backupWrite.Written? then Err(BackupFailed)
    else
      var failure := Activation(env, attempts);
      if failure.None? then Ok(())
      else if !env.restoreWrite.Written? then Err(RestoreFailed)
      else if !env.rollbackReconfigures then Err(RollbackNotActivated)
      else Err(failure.value)
  }

  /** The two files after some replace. */
  datatype Point = Point(config: string, backup: Option<string>)

  /** The file a machine would boot from is the old one or the new one, and the old
      one is never lost. */
  predicate Recoverable(p: Point, original: string, updated: string) {
    && (p.config == original || p.config == updated)
    && (p.config != original ==> p.backup == Some(original))
  }

  class WifiHelper {
    var config: string
    var backup: Option<string>
    ghost var points: seq<Point>
    var calls: nat

    constructor (config: string, backup: Option<string>)
      ensures this.config == config && this.backup == backup && points == [] && calls == 0
    {
      this.config, this.backup, points, calls := config, backup, [], 0;
    }

    method WriteBackup(content: string, w: WriteOutcome) returns (ok: bool)
      modifies `backup, `points
      ensures ok == w.Written?
      ensures backup == if Replaced(w) then Some(content) else old(backup)
      ensures points == if Replaced(w) then old(points) + [Point(config, backup)] else old(points)
    {
      if Replaced(w) {
        backup := Some(content);
        points := points + [Point(config, backup)];
      }
      return w.Written?;
    }

    method WriteConfig(content: string, w: WriteOutcome) returns (ok: bool)
      modifies `config, `points
      ensures ok == w.Written?
      ensures config == if Replaced(w) then content else old(config)
      ensures points == if Replaced(w) then old(points) + [Point(config, backup)] else old(points)
    {
      if Replaced(w) {
        config := content;
        points := points + [Point(config, backup)];
      }
      return w.Written?;
    }

    /** Write, reconfigure, poll: the body of the try block. */
    method Activate(updated: string, attempts: nat, env: Env) returns (failure: Option<ConnectError>)
      modifies `config, `points, `calls
      ensures failure == Activation(env, attempts)
      ensures config == if Replaced(env.configWrite) then updated else old(config)
      ensures points == if Replaced(env.configWrite) then old(points) + [Point(config, backup)] else old(points)
      ensures calls <= old(calls) + attempts + 1
    {
      var ok := WriteConfig(updated, env.configWrite);
      if !ok { return Some(ActivationFailed); }
      calls := calls + 1;
      if !env.reconfigures { return Some(ActivationFailed); }
      var i := 0;
      while i < attempts
        modifies `calls
        invariant 0 <= i <= attempts && calls == old(calls) + 1 + i
        invariant Polling(env, attempts, 0) == Polling(env, attempts, i)
      {
        calls := calls + 1;
        if env.polls(i).Raised? { return Some(ActivationFailed); }
        if Joined(env.polls(i)) { return None; }
        if env.sleepRaises(i) { return Some(ActivationFailed); }
        i := i + 1;
      }
      return Some(AssociationTimedOut);
    }

    /** The call once `updated` is known. An error leaves the original in place
        unless the new file was written and the restoring replace did not happen. */
    method Transact(updated: string, attempts: nat, env: Env) returns (r: Result<(), ConnectError>)
      modifies this
      ensures r == Outcome(old(config), updated, attempts, env)
      ensures calls <= old(calls) + attempts + 3
      ensures old(points) <= points
      ensures forall k :: |old(points)| <= k < |points| ==> Recoverable(points[k], old(config), updated)
      ensures r.Ok? ==> config == updated
      ensures r.Err? ==>
                (config == old(config) <==>
                   || updated == old(config) || !env.backupWrite.Written?
                   || !Replaced(env.configWrite) || Replaced(env.restoreWrite))
      ensures r.Err? ==> config == old(config) || (config == updated && backup == Some(old(config)))
    {
      var original := config;
      if updated == original {
        calls := calls + 1;
        if env.first.Raised? { return Err(StatusFailed); }
        if Joined(env.first) { return Ok(()); }
      }
      var saved := WriteBackup(original, env.backupWrite);
      if !saved { return Err(BackupFailed); }
      var failure := Activate(updated, attempts, env);
      if failure.None? { return Ok(()); }
      var restored := WriteConfig(original, env.restoreWrite);
      if !restored { return Err(RestoreFailed); }
      calls := calls + 1;
      if !env.rollbackReconfigures { return Err(RollbackNotActivated); }
      return Err(failure.value);
    }

    method Connect(n: Network, attempts: nat, env: Env) returns (r: Result<(), ConnectError>)
      modifies this
      ensures calls <= old(calls) + attempts + 3
      ensures old(points) <= points
      ensures match Update(old(config), n)
              case Err(reason) =>
                r == Err(BadConfig(reason)) && config == old(config) && backup == old(backup) && points == old(points)
              case Ok(updated) =>
                && r == Outcome(old(config), updated, attempts, env)
                && (forall k :: |old(points)| <= k < |points| ==> Recoverable(points[k], old(config), updated))
                && (r.Ok? ==> config == updated)
                && (r.Err? ==> config == old(config) || (config == updated && backup == Some(old(config))))
    {
      var update := Update(config, n);
      if update.Err? { return Err(BadConfig(update.error)); }
      r := Transact(update.value, attempts, env);
    }
  }

  /** A call succeeds if and only if it has itself observed the managed network
      COMPLETED: at once, the file being right already, or in a poll it really made,
      after everything before it had worked. */
  lemma SuccessWasObserved(original: string, updated: string, attempts: nat, env: Env)
    ensures Outcome(original, updated, attempts, env).Ok? <==>
              || (updated == original && Joined(env.first))
              || (&& (updated == original ==> env.first.Status?)
                  && env.backupWrite.Written? && env.configWrite.Written? && env.reconfigures
                  && exists k: nat :: JoinedAt(env, attempts, 0, k))
  {
    PollingSawJoin(env, attempts, 0);
  }

  /** With a rollback that works, the errors left are those of the attempt itself. */
  lemma TimeoutMeansNeverJoined(original: string, updated: string, attempts: nat, env: Env)
    requires Outcome(original, updated, attempts, env) == Err(AssociationTimedOut)
    ensures forall k: nat :: k < attempts ==> env.polls(k).Status? && !Joined(env.polls(k))
  {
    PollingRefused(env, attempts, 0);
  }

  lemma {:induction false} PollingRefused(env: Env, attempts: nat, i: nat)
    requires Polling(env, attempts, i) == Some(AssociationTimedOut)
    ensures forall k: nat :: i <= k < attempts ==> env.polls(k).Status? && !Joined(env.polls(k))
    decreases attempts - i
  {
    if i < attempts {
      PollingRefused(env, attempts, i + 1);
    }
  }

  /** Interrupted anywhere, a call leaves a configuration that can be updated again. */
  lemma EveryPointIsUsable(original: string, n: Network, p: Point, other: Network)
    requires WellFormed(original) && Update(original, n).Ok?
    requires Recoverable(p, original, Update(original, n).value)
    ensures WellFormed(p.config) && Update(p.config, other).Ok?
    ensures Update(p.config, other) == Update(original, other)
  {
    LastUpdateWins(original, n, other);
    LastUpdateWins(original, other, other);
  }

  /** The attempt itself failed: the file was not written, not taken up, or no poll
      reached the network. */
  ghost predicate AttemptFailed(env: Env, attempts: nat) {
    !(env.configWrite.Written? && env.reconfigures && exists k: nat :: JoinedAt(env, attempts, 0, k))
  }

  /** Which error a call ends with, told by what it met. */
  lemma ErrorTells(original: string, updated: string, attempts: nat, env: Env)
    ensures var r := Outcome(original, updated, attempts, env);
            var asked := updated == original;
            var went := !(asked && (env.first.Raised? || Joined(env.first))) && env.backupWrite.Written?;
            var failed := went && AttemptFailed(env, attempts);
            && (r == Err(StatusFailed) <==> asked && env.first.Raised?)
            && (r == Err(BackupFailed) <==>
                  !(asked && (env.first.Raised? || Joined(env.first))) && !env.backupWrite.Written?)
            && (r == Err(RestoreFailed) <==> failed && !env.restoreWrite.Written?)
            && (r == Err(RollbackNotActivated) <==>
                  failed && env.restoreWrite.Written? && !env.rollbackReconfigures)
            && (r == Err(AssociationTimedOut) <==>
                  && went && env.restoreWrite.Written? && env.rollbackReconfigures
                  && env.configWrite.Written? && env.reconfigures
                  && forall k: nat :: k < attempts ==>
                       env.polls(k).Status? && !Joined(env.polls(k)) && !env.sleepRaises(k))
  {
    PollingSawJoin(env, attempts, 0);
    PollingTimesOut(env, attempts, 0);
  }

  lemma {:induction false} PollingTimesOut(env: Env, attempts: nat, i: nat)
    ensures Polling(env, attempts, i) == Some(AssociationTimedOut) <==>
              forall k: nat :: i <= k < attempts ==>
                env.polls(k).Status? && !Joined(env.polls(k)) && !env.sleepRaises(k)
    ensures Polling(env, attempts, i) in {None, Some(AssociationTimedOut), Some(ActivationFailed)}
    decreases attempts - i
  {
    if i < attempts {
      PollingTimesOut(env, attempts, i + 1);
    }
  }

  /** The network waited for is the one the block names. */
  lemma WaitsForTheBlock(n: Network, r: Reply)
    requires Joined(r)
    ensures r.Status? && "wpa_state" in r.fields && r.fields["wpa_state"] == "COMPLETED" && "id_str" in r.fields
    ensures ManagedBlock(n) == Join(BlockLines(n, r.fields["id_str"]))
  {
    BlockIsLines(n);
  }
}
