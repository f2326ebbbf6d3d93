/** The frames that are cut off are the right ones: a byte string has exactly one
    greedy split, told by its markers alone, and it is the one computed. */
module GreedySplit {
  import opened Prelude
  import opened FrameSplitter

  /** From `from` on, `c` starts at the first SOI and ends with the first EOI after it. */
  ghost predicate IsCut(s: seq<Byte>, from: nat, c: Cut) {
    && from <= c.lo && c.lo + 4 <= c.hi <= |s|
    && MarkAt(s, SOI, c.lo) && (forall i :: from <= i < c.lo ==> !MarkAt(s, SOI, i))
    && MarkAt(s, EOI, c.hi - 2) && (forall j :: c.lo + 2 <= j < c.hi - 2 ==> !MarkAt(s, EOI, j))
  }

  /** From `from` on there is no SOI with an EOI after it. */
  ghost predicate NoFrame(s: seq<Byte>, from: nat) {
    forall i, j :: from <= i && i + 2 <= j && MarkAt(s, SOI, i) ==> !MarkAt(s, EOI, j)
  }

  function EndBefore(from: nat, cuts: seq<Cut>, k: nat): nat
    requires k <= |cuts|
  {
    if k == 0 then from else cuts[k - 1].hi
  }

  /** Each cut is the next one, and after the last there is none. */
  ghost predicate Greedy(s: seq<Byte>, from: nat, cuts: seq<Cut>) {
    && (forall k :: 0 <= k < |cuts| ==> IsCut(s, EndBefore(from, cuts, k), cuts[k]))
    && NoFrame(s, EndBefore(from, cuts, |cuts|))
  }

  lemma OneNextCut(s: seq<Byte>, from: nat, c: Cut, d: Cut)
    requires IsCut(s, from, c) && IsCut(s, from, d)
    ensures c == d
  {
  }

  lemma CutIsFrame(s: seq<Byte>, from: nat, c: Cut)
    requires IsCut(s, from, c)
    ensures !NoFrame(s, from)
  {
  }

  lemma {:induction false} SameSoFar(s: seq<Byte>, from: nat, a: seq<Cut>, b: seq<Cut>, k: nat)
    requires Greedy(s, from, a) && Greedy(s, from, b) && k <= |a| && k <= |b|
    ensures a[..k] == b[..k]
  {
    hide IsCut, NoFrame;
    if k > 0 {
      SameSoFar(s, from, a, b, k - 1);
      assert k > 1 ==> a[..k - 1][k - 2] == b[..k - 1][k - 2];
      OneNextCut(s, EndBefore(from, a, k - 1), a[k - 1], b[k - 1]);
    }
  }

  /** There is at most one greedy split. */
  lemma GreedyIsUnique(s: seq<Byte>, from: nat, a: seq<Cut>, b: seq<Cut>)
    requires Greedy(s, from, a) && Greedy(s, from, b)
    ensures a == b
  {
    hide IsCut, NoFrame;
    var n := if |a| <= |b| then |a| else |b|;
    SameSoFar(s, from, a, b, n);
    assert n > 0 ==> a[..n][n - 1] == b[..n][n - 1];
    if n < |a| {
      CutIsFrame(s, EndBefore(from, a, n), a[n]);
    } else if n < |b| {
      CutIsFrame(s, EndBefore(from, b, n), b[n]);
    }
  }

  lemma MarkInSuffix(s: seq<Byte>, from: nat, code: Byte, i: int)
    requires from <= |s| && 0 <= i
    ensures MarkAt(s[from..], code, i) <==> MarkAt(s, code, from + i)
  {
  }

  lemma NextCut(s: seq<Byte>, from: nat)
    requires from <= |s|
    ensures var c := NextFrame(s[from..]);
            if c.Some? then IsCut(s, from, Cut(from + c.value.lo, from + c.value.hi)) else NoFrame(s, from)
  {
    forall code: Byte, i: int | 0 <= i ensures MarkAt(s[from..], code, i) <==> MarkAt(s, code, from + i) {
      MarkInSuffix(s, from, code, i);
    }
    var c := NextFrame(s[from..]);
    if c.Some? {
      forall i | from <= i < from + c.value.lo ensures !MarkAt(s, SOI, i) {
        assert !MarkAt(s[from..], SOI, i - from);
      }
      forall j | from + c.value.lo + 2 <= j < from + c.value.hi - 2 ensures !MarkAt(s, EOI, j) {
        assert !MarkAt(s[from..], EOI, j - from);
      }
    } else {
      forall i, j | from <= i && i + 2 <= j && MarkAt(s, SOI, i) ensures !MarkAt(s, EOI, j) {
        NothingFound(s[from..], i - from, j - from);
      }
    }
  }

  lemma NothingFound(s: seq<Byte>, i: nat, j: nat)
    requires NextFrame(s).None? && MarkAt(s, SOI, i) && i + 2 <= j
    ensures !MarkAt(s, EOI, j)
  {
    var start := Find(s, SOI, 0);
    assert start <= i;
  }

  lemma Prefixed(s: seq<Byte>, from: nat, c: Cut, cuts: seq<Cut>)
    requires IsCut(s, from, c) && Greedy(s, c.hi, cuts)
    ensures Greedy(s, from, [c] + cuts)
  {
    hide IsCut, NoFrame;
    forall k | 0 <= k < |[c] + cuts| ensures IsCut(s, EndBefore(from, [c] + cuts, k), ([c] + cuts)[k]) {
      if k > 0 {
        assert IsCut(s, EndBefore(c.hi, cuts, k - 1), cuts[k - 1]);
      }
    }
  }

  lemma NoCuts(s: seq<Byte>, from: nat)
    requires NoFrame(s, from)
    ensures Greedy(s, from, [])
  {
  }

  lemma SplitStep(s: seq<Byte>, from: nat)
    requires from <= |s|
    ensures var c := NextFrame(s[from..]);
            if c.None? then Cuts(s[from..], from) == [] && Rest(s[from..]) == s[from..] && LastEnd(s, from) == from
            else
              var hi := from + c.value.hi;
              && Cuts(s[from..], from) == [Cut(from + c.value.lo, hi)] + Cuts(s[hi..], hi)
              && Rest(s[from..]) == Rest(s[hi..]) && LastEnd(s, from) == LastEnd(s, hi)
  {
    hide NextFrame;
    var c := NextFrame(s[from..]);
    if c.Some? {
      assert s[from..][c.value.hi..] == s[from + c.value.hi..];
    }
  }

  /** One step of the split, seen from byte `from` of the whole. */
  lemma GreedyStep(s: seq<Byte>, from: nat)
    requires from <= |s|
    requires var c := NextFrame(s[from..]);
             c.Some? ==> Greedy(s, from + c.value.hi, Cuts(s[from + c.value.hi..], from + c.value.hi))
    ensures Greedy(s, from, Cuts(s[from..], from))
  {
    hide NextFrame, IsCut, NoFrame, Cuts, Rest, LastEnd, Greedy;
    NextCut(s, from);
    SplitStep(s, from);
    var c := NextFrame(s[from..]);
    if c.None? {
      NoCuts(s, from);
    } else {
      var hi := from + c.value.hi;
      Prefixed(s, from, Cut(from + c.value.lo, hi), Cuts(s[hi..], hi));
    }
  }

  lemma {:induction false} CutsFrom(s: seq<Byte>, from: nat)
    requires from <= |s|
    ensures Greedy(s, from, Cuts(s[from..], from))
    decreases |s| - from
  {
    hide NextFrame, Cuts, Greedy;
    var c := NextFrame(s[from..]);
    if c.Some? {
      CutsFrom(s, from + c.value.hi);
    }
    GreedyStep(s, from);
  }

  lemma {:induction false} RestFrom(s: seq<Byte>, from: nat)
    requires from <= |s|
    ensures Rest(s[from..]) == s[LastEnd(s, from)..]
    decreases |s| - from
  {
    SplitStep(s, from);
    hide NextFrame, Cuts, Rest, LastEnd;
    var c := NextFrame(s[from..]);
    if c.Some? {
      RestFrom(s, from + c.value.hi);
    }
  }

  /** Where the last cut ends. */
  function LastEnd(s: seq<Byte>, from: nat): (end: nat)
    requires from <= |s|
    ensures end <= |s|
    decreases |s| - from
  {
    var c := NextFrame(s[from..]);
    if c.None? then from else LastEnd(s, from + c.value.hi)
  }

  lemma {:induction false} LastEndIsLastCut(s: seq<Byte>, from: nat)
    requires from <= |s|
    ensures var cuts := Cuts(s[from..], from); LastEnd(s, from) == EndBefore(from, cuts, |cuts|)
    decreases |s| - from
  {
    hide NextFrame;
    var c := NextFrame(s[from..]);
    if c.Some? {
      var hi := from + c.value.hi;
      assert s[from..][c.value.hi..] == s[hi..];
      LastEndIsLastCut(s, hi);
    }
  }

  /** The split of any byte string is its only greedy one: no SOI is passed over, each
      frame ends with the first EOI, the frames are the bytes cut, and what is left
      holds no frame. */
  lemma SplitIsTheGreedyOne(s: seq<Byte>, cuts: seq<Cut>)
    ensures Greedy(s, 0, cuts) <==> cuts == Cuts(s, 0)
    ensures |Frames(s)| == |Cuts(s, 0)|
    ensures forall k :: 0 <= k < |Frames(s)| ==>
              Cuts(s, 0)[k].lo <= Cuts(s, 0)[k].hi <= |s| && Frames(s)[k] == s[Cuts(s, 0)[k].lo..Cuts(s, 0)[k].hi]
    ensures NoFrame(Rest(s), 0)
  {
    assert s[0..] == s;
    CutsFrom(s, 0);
    RestFrom(s, 0);
    LastEndIsLastCut(s, 0);
    SplitPlaces(s, 0, s);
    if Greedy(s, 0, cuts) {
      GreedyIsUnique(s, 0, cuts, Cuts(s, 0));
    }
    NoFrameInSuffix(s, LastEnd(s, 0));
  }

  lemma NoFrameInSuffix(s: seq<Byte>, from: nat)
    requires from <= |s| && NoFrame(s, from)
    ensures NoFrame(s[from..], 0)
  {
    forall i, j | 0 <= i && i + 2 <= j && MarkAt(s[from..], SOI, i) ensures !MarkAt(s[from..], EOI, j) {
      MarkInSuffix(s, from, SOI, i);
      MarkInSuffix(s, from, EOI, j);
    }
  }

  /** A discard keeps just the two last bytes, so a marker whose first byte has already
      arrived is still found; nothing shorter than the limit is touched. */
  lemma DiscardKeepsSplitMarker(rest: seq<Byte>, next: seq<Byte>, code: Byte)
    ensures var kept := Keep(rest);
            && (if |rest| > LIMIT then |kept| == 2 else kept == rest)
            && (rest != [] ==>
                  (MarkAt(rest + next, code, |rest| - 1) <==> MarkAt(kept + next, code, |kept| - 1)))
  {
  }
}
