/** The latest-frame queue between the camera and the detector: one slot, one
    counter, any number of producers. */
module FrameQueue {
  import opened Prelude

  datatype Frame = Frame(data: seq<bv8>, timestamp: real, sequence: nat)

  /** What another thread may do while it holds the queue's lock. */
  datatype Act = Put(data: seq<bv8>, timestamp: real) | Clear

  /** The frames that a list of acts numbers, after `before` earlier ones. */
  function Numbered(acts: seq<Act>, before: nat): seq<Frame> {
    if acts == [] then []
    else match acts[0]
         case Put(data, timestamp) => [Frame(data, timestamp, before + 1)] + Numbered(acts[1..], before + 1)
         case Clear => Numbered(acts[1..], before)
  }

  class FrameQueue {
    var latest: Option<Frame>
    var sequence: nat
    /** Every frame put so far, oldest first. */
    ghost var puts: seq<Frame>

    /** Frame number n is the n-th frame put, and the slot can only hold the last. */
    ghost predicate Valid()
      reads this
    {
      && sequence == |puts|
      && (forall i :: 0 <= i < |puts| ==> puts[i].sequence == i + 1)
      && (latest.Some? ==> puts != [] && latest.value == puts[|puts| - 1])
    }

    constructor ()
      ensures Valid() && latest == None && puts == []
    {
      latest, sequence, puts := None, 0, [];
    }

    method Put(data: seq<bv8>, timestamp: real) returns (frame: Frame)
      requires Valid()
      modifies this
      ensures Valid() && latest == Some(frame)
      ensures puts == old(puts) + [frame] && frame.data == data && frame.timestamp == timestamp
    {
      sequence := sequence + 1;
      frame := Frame(data, timestamp, sequence);
      latest, puts := Some(frame), puts + [frame];
    }

    method Clear()
      requires Valid()
      modifies this
      ensures Valid() && latest == None && puts == old(puts)
    {
      latest := None;
    }

    /** A consumer that has seen frame `last` waits for another one. By the time the
        lock is regained the slot may have been filled and cleared any number of
        times; what counts is the slot then. A wait that times out finds nothing. */
    method WaitForNext(last: Option<nat>) returns (frame: Option<Frame>)
      requires Valid()
      ensures frame.Some? ==> latest == frame && Some(frame.value.sequence) != last
      ensures frame.Some? ==> frame.value in puts && frame.value.sequence == |puts|
      ensures frame.None? ==> latest.None? || Some(latest.value.sequence) == last
    {
      if latest.None? {
        return None;
      }
      if last.Some? && latest.value.sequence == last.value {
        return None;
      }
      return latest;
    }

    /** Whatever the other threads do while the consumer does not hold the lock. */
    method Others(acts: seq<Act>)
      requires Valid()
      modifies this
      ensures Valid() && puts == old(puts) + Numbered(acts, |old(puts)|)
      ensures old(puts) <= puts
      ensures acts == [] ==> latest == old(latest)
    {
      for i := 0 to |acts|
        invariant Valid() && i <= |acts| && old(puts) <= puts
        invariant puts + Numbered(acts[i..], |puts|) == old(puts) + Numbered(acts, |old(puts)|)
        invariant i == 0 ==> latest == old(latest)
      {
        assert acts[i..][0] == acts[i] && acts[i..][1..] == acts[i + 1..];
        match acts[i] {
          case Put(data, timestamp) => var _ := Put(data, timestamp);
          case Clear => Clear();
        }
      }
    }
  }
}
