/** Administrator login with a sliding-window lockout per client. Times are real
    seconds. */
module AdminAuth {
  const MAX_ATTEMPTS: nat := 5
  const WINDOW := 300.0

  /** How a login ended. */
  datatype Verdict = Accepted | Wrong | Refused(retryAfter: int)

  /** A login that was made: by whom, when, and how it ended. */
  datatype Entry = Entry(client: string, at: real, verdict: Verdict)

  datatype Auth = Auth(attempts: map<string, seq<real>>, log: seq<Entry>)

  function Attempts(a: Auth, client: string): seq<real> {
    if client in a.attempts then a.attempts[client] else []
  }

  function Prune(times: seq<real>, now: real): seq<real> {
    if times != [] && times[0] <= now - WINDOW then Prune(times[1..], now) else times
  }

  /** max(1, int(window - (now - oldest))) */
  function RetryAfter(oldest: real, now: real): int {
    var left := (WINDOW - (now - oldest)).Floor;
    if left < 1 then 1 else left
  }

  function VerdictFor(kept: seq<real>, correct: bool, now: real): Verdict {
    if |kept| >= MAX_ATTEMPTS then Refused(RetryAfter(kept[0], now))
    else if correct then Accepted
    else Wrong
  }

  function AfterVerdict(kept: seq<real>, v: Verdict, now: real): seq<real> {
    match v
    case Accepted => []
    case Wrong => kept + [now]
    case Refused(_) => kept
  }

  /** authenticate: `correct` says whether the PIN matches. */
  function Authenticate(a: Auth, client: string, correct: bool, now: real): (Auth, Verdict) {
    var kept := Prune(Attempts(a, client), now);
    var v := VerdictFor(kept, correct, now);
    (Auth(a.attempts[client := AfterVerdict(kept, v, now)], a.log + [Entry(client, now, v)]), v)
  }

  // -------------------------------------------------------------- whole history

  /** All wrong PINs of a client since its last success, refusals not counted. */
  function Failures(log: seq<Entry>, client: string): seq<real> {
    if log == [] then [] else
      var e, before := log[|log| - 1], Failures(log[..|log| - 1], client);
      if e.client != client then before else HistoryAfter(before, e.verdict, e.at)
  }

  function HistoryAfter(all: seq<real>, v: Verdict, at: real): seq<real> {
    match v
    case Accepted => []
    case Wrong => all + [at]
    case Refused(_) => all
  }

  /** Those newer than the window. */
  function Recent(times: seq<real>, now: real): seq<real> {
    if times == [] then [] else
      var before := Recent(times[..|times| - 1], now);
      if times[|times| - 1] > now - WINDOW then before + [times[|times| - 1]] else before
  }

  ghost predicate Sorted(times: seq<real>) {
    forall i, j :: 0 <= i < j < |times| ==> times[i] <= times[j]
  }

  /** At most five in any window: the sixth after any comes 300 s later. */
  ghost predicate SpacedOut(times: seq<real>) {
    forall i, j :: 0 <= i && i + MAX_ATTEMPTS <= j < |times| ==> times[i] + WINDOW <= times[j]
  }

  /** The pruned deque is the tail of the history whose missing part is expired. */
  ghost predicate TailOf(kept: seq<real>, all: seq<real>, now: real) {
    && |kept| <= |all| && kept == all[|all| - |kept|..]
    && (forall i :: 0 <= i < |all| - |kept| ==> all[i] <= now - WINDOW)
    && |kept| <= MAX_ATTEMPTS
  }

  /** What holds of one client's failures and deque once nothing lies after `now`. */
  ghost predicate SoundTimes(kept: seq<real>, all: seq<real>, now: real) {
    && Sorted(all) && SpacedOut(all)
    && (forall i :: 0 <= i < |all| ==> all[i] <= now)
    && TailOf(kept, all, now)
  }

  ghost predicate Sound(a: Auth, now: real) {
    forall client: string :: SoundTimes(Attempts(a, client), Failures(a.log, client), now)
  }

  lemma {:induction false} RecentOfTail(kept: seq<real>, all: seq<real>, earlier: real, now: real)
    requires Sorted(all) && TailOf(kept, all, earlier) && earlier <= now
    ensures Prune(kept, now) == Recent(all, now)
    ensures TailOf(Prune(kept, now), all, now)
    decreases |kept|
  {
    if kept != [] && kept[0] <= now - WINDOW {
      assert kept[1..] == all[|all| - |kept[1..]|..];
      RecentOfTail(kept[1..], all, now, now);
    } else {
      RecentSplits(all, |all| - |kept|, now);
    }
  }

  /** Recent of a sorted list is what remains after its expired front. */
  lemma {:induction false} RecentSplits(all: seq<real>, k: nat, now: real)
    requires k <= |all|
    requires forall i :: 0 <= i < k ==> all[i] <= now - WINDOW
    requires forall i :: k <= i < |all| ==> all[i] > now - WINDOW
    ensures Recent(all, now) == all[k..]
  {
    if all != [] {
      var n := |all| - 1;
      if k <= n {
        RecentSplits(all[..n], k, now);
        assert all[..n][k..] + [all[n]] == all[k..];
      } else {
        RecentSplits(all[..n], n, now);
        assert all[k..] == [] && all[..n][n..] == [];
      }
    }
  }

  lemma LogGrows(log: seq<Entry>, e: Entry, client: string)
    ensures Failures(log + [e], client) ==
              if e.client != client then Failures(log, client)
              else HistoryAfter(Failures(log, client), e.verdict, e.at)
  {
    assert (log + [e])[..|log|] == log;
  }

  lemma WrongKeepsSpacing(kept: seq<real>, all: seq<real>, now: real)
    requires Sorted(all) && SpacedOut(all) && TailOf(kept, all, now) && |kept| < MAX_ATTEMPTS
    requires forall i :: 0 <= i < |all| ==> all[i] <= now
    ensures Sorted(all + [now]) && SpacedOut(all + [now]) && TailOf(kept + [now], all + [now], now)
  {
    var more := all + [now];
    forall i, j | 0 <= i && i + MAX_ATTEMPTS <= j < |more| ensures more[i] + WINDOW <= more[j] {
      if j == |all| {
        assert i < |all| - |kept|;
      }
    }
    assert (kept + [now]) == more[|more| - |kept + [now]|..];
  }

  lemma RecentGrows(all: seq<real>, now: real)
    ensures Recent(all + [now], now) == Recent(all, now) + [now]
  {
    assert (all + [now])[..|all|] == all;
  }

  lemma OnWrong(kept: seq<real>, all: seq<real>, now: real)
    requires SoundTimes(kept, all, now) && |kept| < MAX_ATTEMPTS && kept == Recent(all, now)
    ensures SoundTimes(kept + [now], all + [now], now)
    ensures kept + [now] == Recent(all + [now], now)
  {
    WrongKeepsSpacing(kept, all, now);
    RecentGrows(all, now);
  }

  lemma Pruned(kept: seq<real>, all: seq<real>, earlier: real, now: real)
    requires SoundTimes(kept, all, earlier) && earlier <= now
    ensures SoundTimes(Prune(kept, now), all, now) && Prune(kept, now) == Recent(all, now)
  {
    RecentOfTail(kept, all, earlier, now);
  }

  /** One login, seen by the client's own times. */
  lemma VerdictKeeps(kept: seq<real>, all: seq<real>, v: Verdict, now: real)
    requires SoundTimes(kept, all, now) && kept == Recent(all, now)
    requires v == Wrong ==> |kept| < MAX_ATTEMPTS
    ensures SoundTimes(AfterVerdict(kept, v, now), HistoryAfter(all, v, now), now)
    ensures AfterVerdict(kept, v, now) == Recent(HistoryAfter(all, v, now), now)
  {
    if v == Wrong {
      OnWrong(kept, all, now);
    }
  }

  /** One login by `client`, seen by the times of `other`. */
  lemma LoginKeeps(a: Auth, client: string, correct: bool, earlier: real, now: real, other: string)
    requires SoundTimes(Attempts(a, other), Failures(a.log, other), earlier) && earlier <= now
    ensures var b := Authenticate(a, client, correct, now).0;
            SoundTimes(Attempts(b, other), Failures(b.log, other), now)
  {
    var v := Authenticate(a, client, correct, now).1;
    LogGrows(a.log, Entry(client, now, v), other);
    if other == client {
      Pruned(Attempts(a, client), Failures(a.log, client), earlier, now);
      VerdictKeeps(Prune(Attempts(a, client), now), Failures(a.log, client), v, now);
    }
  }

  lemma AuthenticateKeeps(a: Auth, client: string, correct: bool, earlier: real, now: real)
    requires Sound(a, earlier) && earlier <= now
    ensures Sound(Authenticate(a, client, correct, now).0, now)
  {
    var b := Authenticate(a, client, correct, now).0;
    forall other: string ensures SoundTimes(Attempts(b, other), Failures(b.log, other), now) {
      assert SoundTimes(Attempts(a, other), Failures(a.log, other), earlier);
      LoginKeeps(a, client, correct, earlier, now, other);
    }
  }

  /** A request to log in. */
  datatype Try = Try(client: string, correct: bool, at: real)

  function Tries(tries: seq<Try>): Auth {
    if tries == [] then Auth(map[], [])
    else
      var t := tries[|tries| - 1];
      Authenticate(Tries(tries[..|tries| - 1]), t.client, t.correct, t.at).0
  }

  ghost predicate InOrder(tries: seq<Try>) {
    forall i, j :: 0 <= i < j < |tries| ==> tries[i].at <= tries[j].at
  }

  lemma {:induction false} TriesSound(tries: seq<Try>, now: real)
    requires InOrder(tries) && forall i :: 0 <= i < |tries| ==> tries[i].at <= now
    ensures Sound(Tries(tries), now)
  {
    if tries != [] {
      var t, before := tries[|tries| - 1], tries[..|tries| - 1];
      TriesSound(before, t.at);
      AuthenticateKeeps(Tries(before), t.client, t.correct, t.at, t.at);
      LaterStillSound(Tries(tries), t.at, now);
    }
  }

  lemma LaterStillSound(a: Auth, earlier: real, now: real)
    requires Sound(a, earlier) && earlier <= now
    ensures Sound(a, now)
  {
  }

  // -------------------------------------------------------------------- theorems

  /** The lockout is exactly the statement about the whole history: a login is
      refused, right PIN or not, if and only if the client has five failures newer
      than the window since its last success; and the deque kept is those failures. */
  lemma {:induction false} LockoutRefinesHistory(tries: seq<Try>, client: string, correct: bool, now: real)
    requires InOrder(tries) && forall i :: 0 <= i < |tries| ==> tries[i].at <= now
    ensures var a := Tries(tries);
            var recent := Recent(Failures(a.log, client), now);
            var (b, v) := Authenticate(a, client, correct, now);
            && |recent| <= MAX_ATTEMPTS
            && (v.Refused? <==> |recent| == MAX_ATTEMPTS)
            && (v.Accepted? <==> |recent| < MAX_ATTEMPTS && correct)
            && Attempts(b, client) == Recent(Failures(b.log, client), now)
  {
    var a := Tries(tries);
    TriesSound(tries, now);
    assert SoundTimes(Attempts(a, client), Failures(a.log, client), now);
    var v := Authenticate(a, client, correct, now).1;
    Pruned(Attempts(a, client), Failures(a.log, client), now, now);
    VerdictKeeps(Prune(Attempts(a, client), now), Failures(a.log, client), v, now);
    LogGrows(a.log, Entry(client, now, v), client);
  }

  /** Login i was a wrong PIN of this client, less than 300 s ago, and the client has not
      logged in successfully since. */
  ghost predicate HeldAgainst(log: seq<Entry>, client: string, now: real, i: nat) {
    && i < |log| && log[i].client == client && log[i].verdict.Wrong? && log[i].at > now - 300.0
    && forall j :: i < j < |log| && log[j].client == client ==> !log[j].verdict.Accepted?
  }

  ghost function Held(log: seq<Entry>, client: string, now: real): set<nat> {
    set i: nat | i < |log| && HeldAgainst(log, client, now, i)
  }

  lemma HeldGrows(log: seq<Entry>, e: Entry, client: string, now: real)
    ensures Held(log + [e], client, now) ==
              if e.client != client || e.verdict.Refused? then Held(log, client, now)
              else if e.verdict.Accepted? then {}
              else Held(log, client, now) + if e.at > now - 300.0 then {|log|} else {}
  {
    var longer := log + [e];
    assert longer[|log|] == e;
    forall i: nat | i < |log|
      ensures HeldAgainst(longer, client, now, i) <==>
                HeldAgainst(log, client, now, i) && (e.client == client ==> !e.verdict.Accepted?)
    {
      assert longer[i] == log[i];
      if HeldAgainst(longer, client, now, i) {
        assert forall j :: i < j < |log| ==> longer[j] == log[j];
      }
    }
  }

  lemma RecentGrowsBy(log: seq<Entry>, e: Entry, client: string, now: real)
    ensures var recent := Recent(Failures(log, client), now);
            Recent(Failures(log + [e], client), now) ==
              if e.client != client || e.verdict.Refused? then recent
              else if e.verdict.Accepted? then []
              else if e.at > now - 300.0 then recent + [e.at] else recent
  {
    LogGrows(log, e, client);
    hide Failures;
    var all := Failures(log, client);
    assert (all + [e.at])[..|all|] == all;
  }

  lemma {:induction false} RecentAreHeld(log: seq<Entry>, client: string, now: real)
    ensures |Recent(Failures(log, client), now)| == |Held(log, client, now)|
  {
    hide Recent, HeldAgainst;
    if log == [] {
      NoneHeld(client, now);
    } else {
      var n := |log| - 1;
      assert log[..n] + [log[n]] == log;
      RecentAreHeld(log[..n], client, now);
      RecentGrowsBy(log[..n], log[n], client, now);
      HeldGrows(log[..n], log[n], client, now);
      hide Failures;
      assert n !in Held(log[..n], client, now);
    }
  }

  lemma NoneHeld(client: string, now: real)
    ensures Recent(Failures([], client), now) == [] && Held([], client, now) == {}
  {
  }

  /** Told by the log alone: a login is refused, right PIN or not, if and only if five
      wrong PINs are held against the client; else it is accepted if and only if the PIN
      is right; and other clients do not matter. */
  lemma {:induction false} RefusedIffFiveHeld(tries: seq<Try>, client: string, correct: bool, now: real)
    requires InOrder(tries) && forall i :: 0 <= i < |tries| ==> tries[i].at <= now
    ensures var a := Tries(tries);
            var (b, v) := Authenticate(a, client, correct, now);
            var held := |Held(a.log, client, now)|;
            && held <= 5 && (v.Refused? <==> held == 5) && (v.Accepted? <==> held < 5 && correct)
            && (v.Wrong? <==> held < 5 && !correct) && b.log == a.log + [Entry(client, now, v)]
  {
    LockoutRefinesHistory(tries, client, correct, now);
    RecentAreHeld(Tries(tries).log, client, now);
  }

  /** Between successes, no window of 300 s holds more than five failures. */
  lemma FiveFailuresPerWindow(tries: seq<Try>, client: string, i: nat)
    requires InOrder(tries)
    requires var all := Failures(Tries(tries).log, client); i + MAX_ATTEMPTS < |all|
    ensures var all := Failures(Tries(tries).log, client); all[i] + WINDOW <= all[i + MAX_ATTEMPTS]
  {
    TriesSound(tries, tries[|tries| - 1].at);
  }

  /** What remains of a refusal given at `now`. */
  function Remaining(kept: seq<real>, now: real): real
    requires kept != []
  {
    WINDOW - (now - kept[0])
  }

  predicate Whole(x: real) {
    x.Floor as real == x
  }

  lemma RefusalEnds(kept: seq<real>, now: real, again: real, correct: bool)
    requires |kept| == MAX_ATTEMPTS && kept[0] > now - WINDOW && now <= again
    ensures VerdictFor(Prune(kept, again), correct, again).Refused? <==> again < now + Remaining(kept, now)
    ensures var r, left := RetryAfter(kept[0], now), Remaining(kept, now);
            r >= 1 && left < r as real + 1.0 && (r as real <= left || r == 1)
    ensures RetryAfter(kept[0], now) as real == Remaining(kept, now) <==> Whole(Remaining(kept, now))
  {
    PruneHead(kept, again);
  }

  /** A refused client that stays quiet is refused until the remaining time is over
      and not a moment longer; the announced time is that time without its fraction, but
      at least one second, so it is that time exactly when it is a whole number of
      seconds, as with an integer clock it always is. */
  lemma {:induction false} RetryAfterIsExact(tries: seq<Try>, client: string, correct: bool, now: real,
                                                   again: real, correctAgain: bool)
    requires InOrder(tries) && (forall i :: 0 <= i < |tries| ==> tries[i].at <= now) && now <= again
    requires Authenticate(Tries(tries), client, correct, now).1.Refused?
    ensures var (b, v) := Authenticate(Tries(tries), client, correct, now);
            var kept := Attempts(b, client);
            && kept != []
            && (Authenticate(b, client, correctAgain, again).1.Refused? <==> again < now + Remaining(kept, now))
            && (v.retryAfter as real == Remaining(kept, now) <==> Whole(Remaining(kept, now)))
            && v.retryAfter >= 1 && Remaining(kept, now) < v.retryAfter as real + 1.0
            && (v.retryAfter as real <= Remaining(kept, now) || v.retryAfter == 1)
            && Remaining(kept, now) == 300.0 - (now - kept[0]) && |kept| == 5
  {
    var times := Attempts(Tries(tries), client);
    TriesSound(tries, now);
    assert SoundTimes(times, Failures(Tries(tries).log, client), now);
    PruneHead(times, now);
    RefusalEnds(Prune(times, now), now, again, correctAgain);
  }

  lemma {:induction false} PruneHead(times: seq<real>, now: real)
    ensures |Prune(times, now)| <= |times|
    ensures times != [] ==> (|Prune(times, now)| == |times| <==> times[0] > now - WINDOW)
    ensures Prune(times, now) != [] ==> Prune(times, now)[0] > now - WINDOW
  {
    if times != [] && times[0] <= now - WINDOW {
      PruneHead(times[1..], now);
    }
  }

  // ----------------------------------------------------------- in its own form

  class LoginGuard {
    var attempts: map<string, seq<real>>
    ghost var log: seq<Entry>

    ghost function State(): Auth
      reads this
    {
      Auth(attempts, log)
    }

    constructor ()
      ensures State() == Auth(map[], [])
    {
      attempts, log := map[], [];
    }

    method Login(client: string, correct: bool, now: real) returns (accepted: bool, retryAfter: int)
      modifies this
      ensures var (b, v) := Authenticate(old(State()), client, correct, now);
              && State() == b
              && accepted == v.Accepted?
              && retryAfter == if v.Refused? then v.retryAfter else 0
    {
      var times := if client in attempts then attempts[client] else [];
      while times != [] && times[0] <= now - WINDOW
        invariant Prune(times, now) == Prune(Attempts(old(State()), client), now)
        decreases |times|
      {
        times := times[1..];
      }
      if |times| >= MAX_ATTEMPTS {
        attempts := attempts[client := times];
        retryAfter := RetryAfter(times[0], now);
        log := log + [Entry(client, now, Refused(retryAfter))];
        return false, retryAfter;
      }
      if !correct {
        attempts := attempts[client := times + [now]];
        log := log + [Entry(client, now, Wrong)];
        return false, 0;
      }
      attempts := attempts[client := []];
      log := log + [Entry(client, now, Accepted)];
      return true, 0;
    }
  }
}
