/** The detection consumer: it waits for a frame it has not seen, keeps a pause
    between inferences, and always looks at the newest frame. Times are whole
    milliseconds of the monotonic clock. */
module DetectionService {
  import opened Prelude
  import opened FrameQueue

  /** One run of the detector: the frame whose arrival woke the consumer, the frame
      it used, the slot as last read before it started, and when it ran. */
  datatype Inference = Inference(woke: Frame, used: Frame, slot: Option<Frame>, start: nat, end: nat)

  /** Everything the consumer does not control: the other threads' acts before each
      of its queue accesses, how long each step takes, when it is told to stop, and
      how much later than asked a pause ends. */
  datatype World = World(acts: (nat, nat) -> seq<Act>, takes: (nat, nat) -> nat,
                         stops: nat -> bool, interrupts: nat -> bool)

  ghost predicate Genuine(x: Inference, puts: seq<Frame>) {
    && x.woke in puts && x.used in puts
    && x.woke.sequence <= x.used.sequence
    && (x.slot.Some? ==> x.used == x.slot.value)
    && x.start <= x.end
  }

  ghost predicate Increasing(log: seq<Inference>) {
    forall i, j :: 0 <= i < j < |log| ==> log[i].used.sequence < log[j].used.sequence
  }

  ghost predicate Paced(log: seq<Inference>, interval: nat) {
    forall i :: 0 < i < |log| ==> log[i - 1].end + interval <= log[i].start
  }

  /** What is true of the inferences made so far, given the frames put so far. */
  ghost predicate Sound(log: seq<Inference>, puts: seq<Frame>, interval: nat) {
    && (forall i :: 0 <= i < |log| ==> Genuine(log[i], puts))
    && Increasing(log) && Paced(log, interval)
    && (log != [] ==> log[|log| - 1].used.sequence <= |puts|)
  }

  /** A round in which no other thread touches the slot. */
  predicate Quiet(world: World, round: nat) {
    world.acts(round, 0) == [] && world.acts(round, 1) == [] && world.acts(round, 2) == []
  }

  /** The newest frame, if it has not been cleared, has been inferred. */
  ghost predicate CaughtUp(log: seq<Inference>, latest: Option<Frame>) {
    latest.Some? ==> log != [] && log[|log| - 1].used == latest.value
  }

  lemma SameNumberSameFrame(f: Frame, g: Frame, puts: seq<Frame>)
    requires f in puts && g in puts && f.sequence == g.sequence
    requires forall i :: 0 <= i < |puts| ==> puts[i].sequence == i + 1
    ensures f == g
  {
  }

  function Appended(log: seq<Inference>, done: Option<Inference>): seq<Inference> {
    if done.None? then log else log + [done.value]
  }

  function LastOf(log: seq<Inference>): Option<nat> {
    if log == [] then None else Some(log[|log| - 1].used.sequence)
  }

  lemma SoundStays(log: seq<Inference>, puts: seq<Frame>, more: seq<Frame>, interval: nat)
    requires puts <= more && Sound(log, puts, interval)
    ensures Sound(log, more, interval)
  {
    forall f: Frame | f in puts ensures f in more {
      var i :| 0 <= i < |puts| && puts[i] == f;
      assert more[i] == f;
    }
  }

  lemma NothingInferred(puts: seq<Frame>, interval: nat)
    ensures Sound([], puts, interval)
  {
  }

  /** The last frame used was already put, so its number is at most theirs. */
  lemma LastWasPut(log: seq<Inference>, puts: seq<Frame>, interval: nat)
    requires log != [] && Sound(log, puts, interval)
    ensures LastOf(log).value <= |puts|
  {
  }

  lemma SoundGrows(log: seq<Inference>, x: Inference, puts: seq<Frame>, interval: nat)
    requires Sound(log, puts, interval) && Genuine(x, puts) && x.used.sequence <= |puts|
    requires log != [] ==> log[|log| - 1].used.sequence < x.used.sequence
    requires log != [] ==> log[|log| - 1].end + interval <= x.start
    ensures Sound(log + [x], puts, interval)
  {
  }

  class DetectionService {
    const frames: FrameQueue
    const interval: nat

    constructor (frames: FrameQueue, interval: nat)
      ensures this.frames == frames && this.interval == interval
    {
      this.frames, this.interval := frames, interval;
    }

    /** latest() or otherwise */
    method Newest(otherwise: Frame) returns (frame: Frame)
      requires frames.Valid() && otherwise in frames.puts
      ensures frame == if frames.latest.Some? then frames.latest.value else otherwise
      ensures frame in frames.puts && otherwise.sequence <= frame.sequence <= |frames.puts|
    {
      frame := if frames.latest.Some? then frames.latest.value else otherwise;
    }

    /** The other threads run, then the slot is read again. */
    method Renew(acts: seq<Act>, otherwise: Frame) returns (frame: Frame)
      requires frames.Valid() && otherwise in frames.puts
      modifies frames
      ensures frames.Valid() && old(frames.puts) <= frames.puts
      ensures frame in frames.puts && otherwise.sequence <= frame.sequence <= |frames.puts|
      ensures frame == if frames.latest.Some? then frames.latest.value else otherwise
      ensures acts == [] ==> frames.latest == old(frames.latest)
    {
      frames.Others(acts);
      assert otherwise in frames.puts by {
        var i :| 0 <= i < |old(frames.puts)| && old(frames.puts)[i] == otherwise;
        assert frames.puts[i] == otherwise;
      }
      frame := Newest(otherwise);
    }

    /** What one round does with the frame that woke it: None when the pause is
        interrupted. */
    method Infer(world: World, round: nat, woke: Frame, lastAt: nat, woken: nat) returns (done: Option<Inference>)
      requires frames.Valid() && woke in frames.puts && lastAt <= woken
      modifies frames
      ensures frames.Valid() && old(frames.puts) <= frames.puts
      ensures done.Some? ==> Genuine(done.value, frames.puts) && done.value.woke == woke
      ensures done.Some? ==> done.value.used.sequence <= |frames.puts|
      ensures done.Some? ==> lastAt + interval <= done.value.start
      ensures done.Some? ==>
                var ready := woken + world.takes(round, 1);
                && done.value.start == (if ready - lastAt >= interval then ready
                                        else lastAt + interval + world.takes(round, 2))
                && done.value.end == done.value.start + world.takes(round, 3)
      ensures done.None? ==> world.interrupts(round)
      ensures Quiet(world, round) ==> frames.latest == old(frames.latest)
      ensures done.Some? && frames.latest.Some? ==> done.value.used == frames.latest.value
    {
      var used := Renew(world.acts(round, 1), woke);
      var slot := frames.latest;
      var now := woken + world.takes(round, 1);
      var elapsed := now - lastAt;
      if elapsed < interval {
        if world.interrupts(round) {
          return None;
        }
        now := now + (interval - elapsed) + world.takes(round, 2);
        ghost var earlier := frames.puts;
        used := Renew(world.acts(round, 2), used);
        slot := frames.latest;
        assert woke in frames.puts by {
          var i :| 0 <= i < |earlier| && earlier[i] == woke;
          assert frames.puts[i] == woke;
        }
      }
      done := Some(Inference(woke, used, slot, now, now + world.takes(round, 3)));
    }

    lemma NothingUnseen(log: seq<Inference>)
      requires frames.Valid() && Sound(log, frames.puts, interval)
      requires frames.latest.Some? && Some(frames.latest.value.sequence) == LastOf(log)
      ensures CaughtUp(log, frames.latest)
    {
      SameNumberSameFrame(log[|log| - 1].used, frames.latest.value, frames.puts);
    }

    /** One round of the loop, with the log so far at hand. */
    method Round(world: World, round: nat, ghost log: seq<Inference>, last: Option<nat>, lastAt: nat, now: nat)
      returns (done: Option<Inference>, stopped: bool)
      requires frames.Valid() && Sound(log, frames.puts, interval)
      requires last == LastOf(log) && lastAt <= now && (log != [] ==> lastAt == log[|log| - 1].end)
      modifies frames
      ensures frames.Valid() && old(frames.puts) <= frames.puts
      ensures Sound(Appended(log, done), frames.puts, interval)
      ensures stopped ==> world.interrupts(round)
      ensures Quiet(world, round) && !stopped ==> CaughtUp(Appended(log, done), frames.latest)
    {
      hide Sound, Genuine, FrameQueue.Valid;
      frames.Others(world.acts(round, 0));
      SoundStays(log, old(frames.puts), frames.puts, interval);
      var frame := frames.WaitForNext(last);
      if frame.None? {
        if frames.latest.Some? {
          NothingUnseen(log);
        }
        return None, false;
      }
      ghost var seen := frames.puts;
      done := Infer(world, round, frame.value, lastAt, now + world.takes(round, 0));
      stopped := done.None?;
      SoundStays(log, seen, frames.puts, interval);
      if !stopped {
        if log != [] {
          LastWasPut(log, seen, interval);
        }
        SoundGrows(log, done.value, frames.puts, interval);
      }
    }

    /** The consumer thread over any number of rounds. Whatever the other threads do
        and however long things take, the frames inferred are frames really put, in
        strictly increasing order; each is at least as new as the frame that woke the
        consumer, and the newest one in the slot unless the slot had been cleared;
        inferences are at least the interval apart; and unless it is told to stop, one
        round without new frames leaves no frame unseen. */
    method Run(world: World, began: nat, rounds: nat) returns (log: seq<Inference>)
      requires frames.Valid()
      modifies frames
      ensures frames.Valid() && old(frames.puts) <= frames.puts
      ensures Sound(log, frames.puts, interval)
      ensures 0 < rounds && Quiet(world, rounds - 1)
              && (forall r :: 0 <= r < rounds ==> !world.stops(r) && !world.interrupts(r))
              ==> CaughtUp(log, frames.latest)
    {
      hide Sound, Genuine, FrameQueue.Valid;
      log := [];
      NothingInferred(frames.puts, interval);
      var last: Option<nat> := None;
      var lastAt: nat, now: nat, round := 0, began, 0;
      while round < rounds && !world.stops(round)
        invariant frames.Valid() && old(frames.puts) <= frames.puts
        invariant Sound(log, frames.puts, interval)
        invariant last == LastOf(log) && lastAt <= now && (log != [] ==> lastAt == log[|log| - 1].end)
        invariant round <= rounds
        invariant 0 < round && Quiet(world, round - 1) ==> CaughtUp(log, frames.latest)
      {
        var done, stopped := Round(world, round, log, last, lastAt, now);
        log := Appended(log, done);
        if stopped {
          return;
        }
        now := now + world.takes(round, 0);
        if done.Some? {
          last, lastAt, now := Some(done.value.used.sequence), done.value.end, done.value.end;
        }
        round := round + 1;
      }
    }
  }
}
