/** The camera worker's buffer loop: cutting JPEG frames (SOI to the next EOI,
    section B.1.1.3 of ITU-T T.81) out of a byte stream that arrives in chunks. */
module FrameSplitter {
  import opened Prelude

  const MARK: Byte := 0xFF
  const SOI: Byte := 0xD8
  const EOI: Byte := 0xD9
  const CHUNK := 32768
  const LIMIT := 4 * 1024 * 1024

  predicate MarkAt(s: seq<Byte>, code: Byte, i: int) {
    0 <= i && i + 1 < |s| && s[i] == MARK && s[i + 1] == code
  }

  /** bytearray.find of FF followed by `code`. */
  function Find(s: seq<Byte>, code: Byte, start: nat): (i: int)
    ensures i == -1 || (start <= i && MarkAt(s, code, i) && forall j :: start <= j < i ==> !MarkAt(s, code, j))
    ensures i == -1 ==> forall j :: start <= j ==> !MarkAt(s, code, j)
    decreases |s| - start
  {
    if start >= |s| then -1 else if MarkAt(s, code, start) then start else Find(s, code, start + 1)
  }

  /** Bounds of a frame: bytes lo to hi. */
  datatype Cut = Cut(lo: nat, hi: nat)

  function NextFrame(s: seq<Byte>): (c: Option<Cut>)
    ensures c.Some? ==> c.value.lo + 4 <= c.value.hi <= |s|
  {
    var start := Find(s, SOI, 0);
    var end := Find(s, EOI, start + 2);
    if start < 0 || end < 0 then None else Some(Cut(start, end + 2))
  }

  /** The greedy split of a whole byte string whose first byte is number `base` of
      the stream: all its frames, and where they lie. */
  function Cuts(s: seq<Byte>, base: nat): seq<Cut>
    decreases |s|
  {
    var c := NextFrame(s);
    if c.None? then []
    else [Cut(base + c.value.lo, base + c.value.hi)] + Cuts(s[c.value.hi..], base + c.value.hi)
  }

  function Rest(s: seq<Byte>): seq<Byte>
    decreases |s|
  {
    var c := NextFrame(s);
    if c.None? then s else Rest(s[c.value.hi..])
  }

  function Frames(s: seq<Byte>): seq<seq<Byte>>
    decreases |s|
  {
    var c := NextFrame(s);
    if c.None? then [] else [s[c.value.lo..c.value.hi]] + Frames(s[c.value.hi..])
  }

  // ---------------------------------------------------------- arriving in chunks

  /** Bytes left over a chunk: all of them, or the last two of an overlong rest. */
  function Keep(rest: seq<Byte>): (kept: seq<Byte>)
    ensures |kept| <= LIMIT
  {
    if |rest| > LIMIT then rest[|rest| - 2..] else rest
  }

  function Buffer(chunks: seq<seq<Byte>>): (b: seq<Byte>)
    ensures |b| <= LIMIT
  {
    if chunks == [] then []
    else Keep(Rest(Buffer(chunks[..|chunks| - 1]) + chunks[|chunks| - 1]))
  }

  function Emitted(chunks: seq<seq<Byte>>): seq<seq<Byte>> {
    if chunks == [] then []
    else
      var before := chunks[..|chunks| - 1];
      Emitted(before) + Frames(Buffer(before) + chunks[|chunks| - 1])
  }

  function Stream(chunks: seq<seq<Byte>>): seq<Byte> {
    if chunks == [] then [] else Stream(chunks[..|chunks| - 1]) + chunks[|chunks| - 1]
  }

  /** The overlong rest is never met, so nothing is discarded. */
  ghost predicate NoDiscard(chunks: seq<seq<Byte>>) {
    forall k :: 0 <= k < |chunks| ==> |Rest(Buffer(chunks[..k]) + chunks[k])| <= LIMIT
  }

  /** No prefix of the stream leaves an overlong rest: a fact about the bytes, not
      about their chunking. */
  ghost predicate NeverOverlong(s: seq<Byte>) {
    forall n :: 0 <= n <= |s| ==> |Rest(s[..n])| <= LIMIT
  }

  // ---------------------------------------------------------------- splitting laws

  lemma {:induction false} FindStable(a: seq<Byte>, b: seq<Byte>, code: Byte, start: nat)
    requires Find(a, code, start) != -1
    ensures Find(a + b, code, start) == Find(a, code, start)
    decreases |a| - start
  {
    assert MarkAt(a, code, start) == MarkAt(a + b, code, start) || start + 1 >= |a|;
    if !MarkAt(a, code, start) {
      FindStable(a, b, code, start + 1);
    }
  }

  lemma NextFrameStable(a: seq<Byte>, b: seq<Byte>)
    requires NextFrame(a).Some?
    ensures NextFrame(a + b) == NextFrame(a)
  {
    FindStable(a, b, SOI, 0);
    FindStable(a, b, EOI, Find(a, SOI, 0) + 2);
  }

  /** Splitting what is left of `a` together with `b` finishes the split of both. */
  lemma {:induction false} SplitInTwo(a: seq<Byte>, b: seq<Byte>)
    ensures Frames(a + b) == Frames(a) + Frames(Rest(a) + b)
    ensures Rest(a + b) == Rest(Rest(a) + b)
    decreases |a|
  {
    var c := NextFrame(a);
    if c.Some? {
      NextFrameStable(a, b);
      var hi := c.value.hi;
      assert (a + b)[hi..] == a[hi..] + b;
      assert (a + b)[c.value.lo..hi] == a[c.value.lo..hi];
      SplitInTwo(a[hi..], b);
    }
  }

  lemma NoDiscardBefore(chunks: seq<seq<Byte>>)
    requires chunks != [] && NoDiscard(chunks)
    ensures NoDiscard(chunks[..|chunks| - 1])
  {
    var before := chunks[..|chunks| - 1];
    forall k | 0 <= k < |before| ensures |Rest(Buffer(before[..k]) + before[k])| <= LIMIT {
      assert before[..k] == chunks[..k];
    }
  }

  lemma {:induction false} ChunksSplitStream(chunks: seq<seq<Byte>>)
    requires NoDiscard(chunks)
    ensures Emitted(chunks) == Frames(Stream(chunks)) && Buffer(chunks) == Rest(Stream(chunks))
  {
    if chunks != [] {
      var before, last := chunks[..|chunks| - 1], chunks[|chunks| - 1];
      NoDiscardBefore(chunks);
      ChunksSplitStream(before);
      SplitInTwo(Stream(before), last);
    }
  }

  /** However the same bytes are chunked, while nothing is discarded the same
      frames come out: the greedy split of the whole stream. */
  lemma ChunkingDoesNotMatter(one: seq<seq<Byte>>, other: seq<seq<Byte>>)
    requires Stream(one) == Stream(other) && NoDiscard(one) && NoDiscard(other)
    ensures Emitted(one) == Emitted(other) == Frames(Stream(one))
    ensures Buffer(one) == Buffer(other)
  {
    ChunksSplitStream(one);
    ChunksSplitStream(other);
  }

  /** A stream that never leaves an overlong rest is never cut short by a discard,
      whatever the chunks. */
  lemma {:induction false} NeverOverlongNeverDiscards(chunks: seq<seq<Byte>>)
    requires NeverOverlong(Stream(chunks))
    ensures NoDiscard(chunks)
  {
    if chunks != [] {
      var before, last := chunks[..|chunks| - 1], chunks[|chunks| - 1];
      var s, t := Stream(before), Stream(chunks);
      forall n | 0 <= n <= |s| ensures |Rest(s[..n])| <= LIMIT {
        assert s[..n] == t[..n];
      }
      NeverOverlongNeverDiscards(before);
      ChunksSplitStream(before);
      SplitInTwo(s, last);
      assert t[..|t|] == t;
      forall k | 0 <= k < |chunks| ensures |Rest(Buffer(chunks[..k]) + chunks[k])| <= LIMIT {
        if k < |before| {
          assert before[..k] == chunks[..k];
          assert |Rest(Buffer(before[..k]) + before[k])| <= LIMIT;
        }
      }
    }
  }

  /** The stream one byte at a time. */
  function Bytewise(s: seq<Byte>): seq<seq<Byte>> {
    if s == [] then [] else Bytewise(s[..|s| - 1]) + [[s[|s| - 1]]]
  }

  lemma StreamGrows(chunks: seq<seq<Byte>>, last: seq<Byte>)
    ensures Stream(chunks + [last]) == Stream(chunks) + last
  {
    assert (chunks + [last])[..|chunks|] == chunks;
  }

  lemma {:induction false} BytewiseIsStream(s: seq<Byte>)
    ensures |Bytewise(s)| == |s| && Stream(Bytewise(s)) == s
  {
    if s != [] {
      hide Stream;
      var n := |s| - 1;
      BytewiseIsStream(s[..n]);
      StreamGrows(Bytewise(s[..n]), [s[n]]);
      assert s[..n] + [s[n]] == s;
    }
  }

  lemma NeverOverlongGrows(s: seq<Byte>)
    requires s != [] && NeverOverlong(s[..|s| - 1]) && |Rest(s)| <= LIMIT
    ensures NeverOverlong(s)
  {
    hide Rest;
    forall m | 0 <= m <= |s| ensures |Rest(s[..m])| <= LIMIT {
      if m < |s| {
        assert s[..|s| - 1][..m] == s[..m];
      } else {
        assert s[..m] == s;
      }
    }
  }

  /** While nothing is discarded the buffer is the rest, and it is never overlong. */
  lemma BytewiseRest(s: seq<Byte>)
    requires NoDiscard(Bytewise(s))
    ensures |Rest(s)| <= LIMIT
  {
    ChunksSplitStream(Bytewise(s));
    BytewiseIsStream(s);
    hide NoDiscard, Rest, Frames, Emitted, Bytewise, Stream;
  }

  lemma {:induction false} BytewiseSeesAll(s: seq<Byte>)
    requires NoDiscard(Bytewise(s))
    ensures NeverOverlong(s)
  {
    if s == [] {
      assert Rest([]) == [];
    } else {
      var n := |s| - 1;
      BytewiseIsStream(s);
      assert Bytewise(s)[..n] == Bytewise(s[..n]);
      hide Rest, NeverOverlong, NoDiscard, Bytewise;
      NoDiscardBefore(Bytewise(s));
      BytewiseSeesAll(s[..n]);
      BytewiseRest(s);
      NeverOverlongGrows(s);
    }
  }

  ghost predicate NeverCut(s: seq<Byte>) {
    forall chunks: seq<seq<Byte>> :: Stream(chunks) == s ==> NoDiscard(chunks)
  }

  /** A stream is safe from discards under every chunking if and only if no front of
      it leaves an overlong rest; arriving byte by byte is the hardest case. */
  lemma NeverCutIffNeverOverlong(s: seq<Byte>)
    ensures NeverCut(s) <==> NeverOverlong(s)
    ensures NoDiscard(Bytewise(s)) <==> NeverOverlong(s)
  {
    BytewiseIsStream(s);
    if NoDiscard(Bytewise(s)) {
      BytewiseSeesAll(s);
    }
    if NeverOverlong(s) {
      forall chunks: seq<seq<Byte>> | Stream(chunks) == s ensures NoDiscard(chunks) {
        NeverOverlongNeverDiscards(chunks);
      }
    }
  }

  // ------------------------------------------------ frames, discards or not

  /** Starts FF D8, ends FF D9, with no earlier FF D9 from offset 2 on. */
  ghost predicate IsFrame(f: seq<Byte>) {
    && |f| >= 4
    && MarkAt(f, SOI, 0) && MarkAt(f, EOI, |f| - 2)
    && forall j :: 2 <= j < |f| - 2 ==> !MarkAt(f, EOI, j)
  }

  /** `cuts` place `frames` in `s` one after the other, from `from` on. */
  ghost predicate Placed(frames: seq<seq<Byte>>, cuts: seq<Cut>, s: seq<Byte>, from: nat, to: nat) {
    && |cuts| == |frames| && from <= to <= |s|
    && (forall i :: 0 <= i < |cuts| ==>
          from <= cuts[i].lo <= cuts[i].hi <= to && frames[i] == s[cuts[i].lo..cuts[i].hi] && IsFrame(frames[i]))
    && (forall i, j :: 0 <= i < j < |cuts| ==> cuts[i].hi <= cuts[j].lo)
  }

  lemma NextIsFrame(s: seq<Byte>)
    requires NextFrame(s).Some?
    ensures var c := NextFrame(s).value; IsFrame(s[c.lo..c.hi])
  {
    var c := NextFrame(s).value;
    var f := s[c.lo..c.hi];
    forall j | 2 <= j < |f| - 2 ensures !MarkAt(f, EOI, j) {
      assert !MarkAt(s, EOI, c.lo + j);
    }
  }

  lemma PlacedThenPlaced(f: seq<seq<Byte>>, c: seq<Cut>, g: seq<seq<Byte>>, d: seq<Cut>, s: seq<Byte>,
                         from: nat, mid: nat, to: nat)
    requires Placed(f, c, s, from, mid) && Placed(g, d, s, mid, to)
    ensures Placed(f + g, c + d, s, from, to)
  {
    hide IsFrame;
  }

  lemma PlacedFurther(f: seq<seq<Byte>>, c: seq<Cut>, s: seq<Byte>, to: nat, further: nat)
    requires Placed(f, c, s, 0, to) && to <= further <= |s|
    ensures Placed(f, c, s, 0, further)
  {
  }

  lemma {:induction false} RestIsSuffix(s: seq<Byte>)
    ensures |Rest(s)| <= |s| && Rest(s) == s[|s| - |Rest(s)|..]
    decreases |s|
  {
    var c := NextFrame(s);
    if c.Some? {
      RestIsSuffix(s[c.value.hi..]);
    }
  }

  lemma FirstFramePlaced(s: seq<Byte>, base: nat, whole: seq<Byte>)
    requires base + |s| <= |whole| && whole[base..base + |s|] == s && NextFrame(s).Some?
    ensures var c := NextFrame(s).value;
            && Placed([s[c.lo..c.hi]], [Cut(base + c.lo, base + c.hi)], whole, base, base + c.hi)
            && whole[base + c.hi..base + c.hi + |s[c.hi..]|] == s[c.hi..]
  {
    var c := NextFrame(s).value;
    NextIsFrame(s);
    SubSlice(whole, base, s, c.lo, c.hi);
    SubSlice(whole, base, s, c.hi, |s|);
    assert s[c.hi..] == s[c.hi..|s|];
  }

  lemma SubSlice(whole: seq<Byte>, base: nat, s: seq<Byte>, lo: nat, hi: nat)
    requires base + |s| <= |whole| && whole[base..base + |s|] == s && lo <= hi <= |s|
    ensures whole[base + lo..base + hi] == s[lo..hi]
  {
    forall k | 0 <= k < hi - lo ensures whole[base + lo..base + hi][k] == s[lo..hi][k] {
      assert whole[base..base + |s|][lo + k] == s[lo + k];
    }
  }

  ghost predicate SplitPlaced(s: seq<Byte>, base: nat, whole: seq<Byte>) {
    |Rest(s)| <= |s| && Placed(Frames(s), Cuts(s, base), whole, base, base + |s| - |Rest(s)|)
  }

  lemma NextFramePlaced(s: seq<Byte>, base: nat, whole: seq<Byte>)
    requires base + |s| <= |whole| && whole[base..base + |s|] == s && NextFrame(s).Some?
    requires var hi := NextFrame(s).value.hi; SplitPlaced(s[hi..], base + hi, whole)
    ensures SplitPlaced(s, base, whole)
  {
    hide NextFrame, Placed;
    var lo, hi := NextFrame(s).value.lo, NextFrame(s).value.hi;
    FirstFramePlaced(s, base, whole);
    PlacedThenPlaced([s[lo..hi]], [Cut(base + lo, base + hi)], Frames(s[hi..]), Cuts(s[hi..], base + hi),
                     whole, base, base + hi, base + |s| - |Rest(s)|);
  }

  lemma {:induction false} SplitPlaces(s: seq<Byte>, base: nat, whole: seq<Byte>)
    requires base + |s| <= |whole| && whole[base..base + |s|] == s
    ensures SplitPlaced(s, base, whole)
    decreases |s|
  {
    hide NextFrame;
    var c := NextFrame(s);
    if c.Some? {
      hide SplitPlaced;
      FirstFramePlaced(s, base, whole);
      SplitPlaces(s[c.value.hi..], base + c.value.hi, whole);
      NextFramePlaced(s, base, whole);
    }
  }

  lemma PlacedInLonger(f: seq<seq<Byte>>, c: seq<Cut>, s: seq<Byte>, more: seq<Byte>, to: nat)
    requires Placed(f, c, s, 0, to)
    ensures Placed(f, c, s + more, 0, to)
  {
    forall i | 0 <= i < |c| ensures f[i] == (s + more)[c[i].lo..c[i].hi] {
      assert (s + more)[c[i].lo..c[i].hi] == s[c[i].lo..c[i].hi];
    }
  }

  /** One chunk: `b` is what was buffered at the end of the stream so far. */
  lemma ChunkPlaces(s: seq<Byte>, b: seq<Byte>, chunk: seq<Byte>, f: seq<seq<Byte>>, placed: seq<Cut>)
    requires |b| <= |s| && b == s[|s| - |b|..]
    requires Placed(f, placed, s, 0, |s| - |b|)
    ensures var kept := Keep(Rest(b + chunk));
            && |kept| <= |s + chunk| && kept == (s + chunk)[|s + chunk| - |kept|..]
            && Placed(f + Frames(b + chunk), placed + Cuts(b + chunk, |s| - |b|), s + chunk, 0, |s + chunk| - |kept|)
  {
    hide Placed, Frames, Cuts, Rest;
    var base, t, whole := |s| - |b|, b + chunk, s + chunk;
    assert whole[base..base + |t|] == t;
    PlacedInLonger(f, placed, s, chunk, base);
    SplitPlaces(t, base, whole);
    RestIsSuffix(t);
    var rest := Rest(t);
    PlacedThenPlaced(f, placed, Frames(t), Cuts(t, base), whole, 0, base, base + |t| - |rest|);
    assert rest == whole[|whole| - |rest|..];
    PlacedFurther(f + Frames(t), placed + Cuts(t, base), whole, base + |t| - |rest|, |whole| - |Keep(rest)|);
  }

  /** `cuts` place the frames emitted so far in the stream, before the buffered bytes. */
  ghost predicate Sliced(chunks: seq<seq<Byte>>, cuts: seq<Cut>) {
    var s, b := Stream(chunks), Buffer(chunks);
    |b| <= |s| && b == s[|s| - |b|..] && Placed(Emitted(chunks), cuts, s, 0, |s| - |b|)
  }

  lemma NextChunk(before: seq<seq<Byte>>, last: seq<Byte>)
    ensures Stream(before + [last]) == Stream(before) + last
    ensures Buffer(before + [last]) == Keep(Rest(Buffer(before) + last))
    ensures Emitted(before + [last]) == Emitted(before) + Frames(Buffer(before) + last)
  {
    assert (before + [last])[..|before|] == before;
  }

  lemma NextChunkSliced(before: seq<seq<Byte>>, last: seq<Byte>, placed: seq<Cut>)
    requires Sliced(before, placed)
    ensures Sliced(before + [last], placed + Cuts(Buffer(before) + last, |Stream(before)| - |Buffer(before)|))
  {
    hide Placed, Frames, Cuts, Rest, Keep;
    NextChunk(before, last);
    hide Stream, Buffer, Emitted;
    ChunkPlaces(Stream(before), Buffer(before), last, Emitted(before), placed);
  }

  /** In every run, discards included, the frames are well-formed, disjoint slices
      of the stream in stream order, all before the bytes still buffered. */
  lemma {:induction false} FramesAreSlices(chunks: seq<seq<Byte>>) returns (cuts: seq<Cut>)
    ensures Sliced(chunks, cuts)
  {
    if chunks == [] {
      cuts := [];
    } else {
      hide Sliced;
      var before, last := chunks[..|chunks| - 1], chunks[|chunks| - 1];
      var placed := FramesAreSlices(before);
      NextChunkSliced(before, last, placed);
      assert chunks == before + [last];
      cuts := placed + Cuts(Buffer(before) + last, |Stream(before)| - |Buffer(before)|);
    }
  }

  // ------------------------------------------------------- the loop in its own form

  /** The inner loop: cut frames off the front until there is none. */
  method DrainBuffer(received: seq<Byte>) returns (frames: seq<seq<Byte>>, buffer: seq<Byte>)
    ensures frames == Frames(received) && buffer == Keep(Rest(received))
  {
    frames, buffer := [], received;
    while true
      invariant frames + Frames(buffer) == Frames(received)
      invariant Rest(buffer) == Rest(received)
      decreases |buffer|
    {
      var start := Find(buffer, SOI, 0);
      var end := Find(buffer, EOI, start + 2);
      if start < 0 || end < 0 {
        if |buffer| > LIMIT {
          buffer := buffer[|buffer| - 2..];
        }
        return;
      }
      assert [buffer[start..end + 2]] + Frames(buffer[end + 2..]) == Frames(buffer);
      frames := frames + [buffer[start..end + 2]];
      buffer := buffer[end + 2..];
    }
  }

  /** The buffer loop. `peak` is the longest the buffer ever was. */
  method SplitChunks(chunks: seq<seq<Byte>>) returns (frames: seq<seq<Byte>>, peak: nat)
    requires forall i :: 0 <= i < |chunks| ==> |chunks[i]| <= CHUNK
    ensures frames == Emitted(chunks)
    ensures peak <= LIMIT + CHUNK
    ensures NoDiscard(chunks) ==> frames == Frames(Stream(chunks))
  {
    frames, peak := [], 0;
    var buffer: seq<Byte> := [];
    var i := 0;
    while i < |chunks|
      invariant 0 <= i <= |chunks| && peak <= LIMIT + CHUNK
      invariant buffer == Buffer(chunks[..i]) && frames == Emitted(chunks[..i])
    {
      assert chunks[..i + 1][..i] == chunks[..i];
      buffer := buffer + chunks[i];
      peak := if |buffer| > peak then |buffer| else peak;
      var found;
      found, buffer := DrainBuffer(buffer);
      frames := frames + found;
      i := i + 1;
    }
    assert chunks[..i] == chunks;
    if NoDiscard(chunks) {
      ChunksSplitStream(chunks);
    }
  }
}
