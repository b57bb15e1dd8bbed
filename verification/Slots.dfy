/** Free-slot search over Google Calendar busy periods: the greedy sweep and the grid count.
  * Times are integers; periods may be unsorted, nested, overlapping, empty or inverted. */
module Slots {
  import opened Sorting

  datatype Busy = Busy(start: int, end: int)

  /** The overlap test of _count_free_slots. */
  predicate Overlaps(b: Busy, t: int, step: int) {
    b.start < t + step && b.end > t
  }

  /** [t, t + step) overlaps no busy period. */
  predicate Free(busy: seq<Busy>, t: int, step: int) {
    forall k :: 0 <= k < |busy| ==> !Overlaps(busy[k], t, step)
  }

  // ------------------------------------------------------------- earliest free start

  ghost predicate IsEarliestFree(busy: seq<Busy>, from: int, step: int, t: int) {
    from <= t && Free(busy, t, step) && forall u :: from <= u < t ==> !Free(busy, u, step)
  }

  const BY_START: Busy -> int := (b: Busy) => b.start

  lemma SortKeepsFree(s: seq<Busy>, t: int, step: int)
    ensures Free(SortBy(BY_START, s), t, step) <==> Free(s, t, step)
  {
    SortMembers(BY_START, s);
    var r := SortBy(BY_START, s);
    assert forall k :: 0 <= k < |s| ==> s[k] in r;
    assert forall k :: 0 <= k < |r| ==> r[k] in s;
  }

  /** The sweep returns the least start at or after the range start that is free. */
  method FindNextFreeStart(from: int, busyPeriods: seq<Busy>, step: int) returns (cursor: int)
    ensures IsEarliestFree(busyPeriods, from, step, cursor)
  {
    var busy := SortBy(BY_START, busyPeriods);
    StartsAscend(busyPeriods);
    cursor := from;
    for i := 0 to |busy|
      invariant from <= cursor && NoneFree(busy, from, cursor, step)
      invariant forall k :: 0 <= k < i ==> busy[k].end <= cursor
    {
      if cursor + step <= busy[i].start {
        GapIsFree(busy, cursor, step, i);
        SweepDone(from, busyPeriods, busy, step, cursor);
        return;
      }
      if cursor < busy[i].end {
        SkipsBusy(busy, from, cursor, step, i);
        cursor := busy[i].end;
      }
    }
    GapIsFree(busy, cursor, step, |busy|);
    SweepDone(from, busyPeriods, busy, step, cursor);
  }

  predicate Ascending(busy: seq<Busy>) {
    forall i, j :: 0 <= i < j < |busy| ==> busy[i].start <= busy[j].start
  }

  lemma StartsAscend(busyPeriods: seq<Busy>)
    ensures Ascending(SortBy(BY_START, busyPeriods))
  {
    var busy := SortBy(BY_START, busyPeriods);
    SortSorts(BY_START, busyPeriods);
    assert forall i, j :: 0 <= i < j < |busy| ==> BY_START(busy[i]) <= BY_START(busy[j]);
  }

  /** Everything before i has ended, and everything from i on starts late enough. */
  lemma GapIsFree(busy: seq<Busy>, cursor: int, step: int, i: nat)
    requires i <= |busy| && Ascending(busy) && forall k :: 0 <= k < i ==> busy[k].end <= cursor
    requires i < |busy| ==> cursor + step <= busy[i].start
    ensures Free(busy, cursor, step)
  {
  }

  ghost predicate NoneFree(busy: seq<Busy>, from: int, to: int, step: int) {
    forall u :: from <= u < to ==> !Free(busy, u, step)
  }

  lemma SkipsBusy(busy: seq<Busy>, from: int, cursor: int, step: int, i: nat)
    requires i < |busy| && NoneFree(busy, from, cursor, step) && busy[i].start < cursor + step
    ensures NoneFree(busy, from, busy[i].end, step)
  {
    forall u | cursor <= u < busy[i].end
      ensures !Free(busy, u, step)
    {
      assert Overlaps(busy[i], u, step);
    }
  }

  lemma SweepDone(from: int, busyPeriods: seq<Busy>, busy: seq<Busy>, step: int, t: int)
    requires busy == SortBy(BY_START, busyPeriods) && from <= t && Free(busy, t, step)
    requires NoneFree(busy, from, t, step)
    ensures IsEarliestFree(busyPeriods, from, step, t)
  {
    forall u: int
      ensures Free(busy, u, step) <==> Free(busyPeriods, u, step)
    {
      SortKeepsFree(busyPeriods, u, step);
    }
  }

  // -------------------------------------------------------------------- the slot grid

  predicate OnGrid(from: int, to: int, step: int, t: int)
    requires step > 0
  {
    from <= t && (t - from) % step == 0 && t + step <= to
  }

  /** Brute force: every grid slot that is free. */
  function FreeSlots(from: int, to: int, busy: seq<Busy>, step: int): set<int>
    requires step > 0
  {
    set t | from <= t < to && OnGrid(from, to, step, t) && Free(busy, t, step)
  }

  function FreeSlotsBefore(from: int, to: int, busy: seq<Busy>, step: int, cursor: int): set<int>
    requires step > 0
  {
    set t | from <= t < cursor && OnGrid(from, to, step, t) && Free(busy, t, step)
  }

  lemma MultipleIsFar(d: int, step: int)
    requires step > 0
    ensures d >= 1 ==> d * step >= step
    ensures d <= -1 ==> d * step <= -step
  {
    if d >= 1 {
      assert (d - 1) * step >= 0;
    }
    if d <= -1 {
      assert (-d - 1) * step >= 0;
    }
  }

  lemma GridGap(from: int, step: int, cursor: int, t: int)
    requires step > 0 && (cursor - from) % step == 0 && (t - from) % step == 0 && cursor <= t < cursor + step
    ensures t == cursor
  {
    var a, b := (cursor - from) / step, (t - from) / step;
    assert cursor - from == a * step && t - from == b * step;
    assert (b - a) * step == b * step - a * step;
    MultipleIsFar(b - a, step);
  }

  lemma NextOnGrid(from: int, step: int, cursor: int)
    requires step > 0 && (cursor - from) % step == 0
    ensures (cursor + step - from) % step == 0
  {
    var x := cursor - from + step;
    var a, q, r := (cursor - from) / step, x / step, x % step;
    assert cursor - from == a * step && x == q * step + r;
    assert (a + 1 - q) * step == a * step + step - q * step;
    MultipleIsFar(a + 1 - q, step);
  }

  lemma GridStep(from: int, to: int, busy: seq<Busy>, step: int, cursor: int)
    requires step > 0 && from <= cursor && (cursor - from) % step == 0 && cursor + step <= to
    ensures FreeSlotsBefore(from, to, busy, step, cursor + step)
            == FreeSlotsBefore(from, to, busy, step, cursor) + if Free(busy, cursor, step) then {cursor} else {}
  {
    forall t | cursor <= t < cursor + step && OnGrid(from, to, step, t)
      ensures t == cursor
    {
      GridGap(from, step, cursor, t);
    }
  }

  /** The count is the number of free grid slots. */
  method CountFreeSlots(from: int, to: int, busy: seq<Busy>, step: int) returns (count: nat)
    requires step > 0
    ensures count == |FreeSlots(from, to, busy, step)|
  {
    count := 0;
    var cursor := from;
    assert FreeSlotsBefore(from, to, busy, step, from) == {};
    assert (cursor - from) % step == 0 % step == 0;
    while cursor + step <= to
      invariant from <= cursor && (cursor - from) % step == 0
      invariant count == |FreeSlotsBefore(from, to, busy, step, cursor)|
    {
      GridStep(from, to, busy, step, cursor);
      NextOnGrid(from, step, cursor);
      if Free(busy, cursor, step) {
        count := count + 1;
      }
      cursor := cursor + step;
    }
    assert FreeSlotsBefore(from, to, busy, step, cursor) == FreeSlots(from, to, busy, step) by {
      forall t | cursor <= t && OnGrid(from, to, step, t)
        ensures false
      {
      }
    }
  }

  // -------------------------------------------------------------- the two together

  /** A positive count means the earliest start fits the range and precedes every free
    * grid slot. */
  lemma PositiveCountFits(from: int, to: int, busy: seq<Busy>, step: int, t: int)
    requires step > 0 && IsEarliestFree(busy, from, step, t)
    ensures forall u :: u in FreeSlots(from, to, busy, step) ==> t <= u
    ensures |FreeSlots(from, to, busy, step)| > 0 ==> t + step <= to
  {
    var slots := FreeSlots(from, to, busy, step);
    if |slots| > 0 {
      var u :| u in slots;
      assert OnGrid(from, to, step, u) && t <= u;
    }
  }

  /** The converse holds for the ranges that end late enough exactly if the earliest start
    * lies on the grid. */
  lemma FittingStartCounts(from: int, busy: seq<Busy>, step: int, t: int)
    requires step > 0 && IsEarliestFree(busy, from, step, t)
    ensures (forall to :: t + step <= to ==> |FreeSlots(from, to, busy, step)| > 0) <==> (t - from) % step == 0
  {
    if (t - from) % step == 0 {
      forall to | t + step <= to
        ensures |FreeSlots(from, to, busy, step)| > 0
      {
        assert t in FreeSlots(from, to, busy, step);
      }
    } else {
      var slots := FreeSlots(from, t + step, busy, step);
      assert forall u :: u in slots ==> t <= u && u + step <= t + step;
      assert slots == {};
    }
  }

  /** The converse fails off the grid: 10 is free for 30 within [0, 60) though no grid slot is. */
  lemma OffGridStart()
    ensures var busy := [Busy(0, 10), Busy(45, 50)];
            IsEarliestFree(busy, 0, 30, 10) && 10 + 30 <= 60 && |FreeSlots(0, 60, busy, 30)| == 0
  {
    var busy := [Busy(0, 10), Busy(45, 50)];
    forall u | 0 <= u < 10
      ensures !Free(busy, u, 30)
    {
      assert Overlaps(busy[0], u, 30);
    }
    forall t | t in FreeSlots(0, 60, busy, 30)
      ensures false
    {
      assert t == 0 || t == 30;
      assert Overlaps(busy[0], 0, 30) && Overlaps(busy[1], 30, 30);
    }
    assert FreeSlots(0, 60, busy, 30) == {};
  }

  /** Another busy period never raises the count nor moves the start earlier. */
  lemma BusierIsNoBetter(from: int, to: int, busy: seq<Busy>, more: Busy, step: int, t: int, u: int)
    requires step > 0 && IsEarliestFree(busy, from, step, t) && IsEarliestFree(busy + [more], from, step, u)
    ensures t <= u
    ensures |FreeSlots(from, to, busy + [more], step)| <= |FreeSlots(from, to, busy, step)|
  {
    forall v: int
      ensures Free(busy + [more], v, step) ==> Free(busy, v, step)
    {
      assert forall k :: 0 <= k < |busy| ==> (busy + [more])[k] == busy[k];
    }
    SubsetSize(FreeSlots(from, to, busy + [more], step), FreeSlots(from, to, busy, step));
  }

  lemma {:induction false} SubsetSize(a: set<int>, b: set<int>)
    requires a <= b
    ensures |a| <= |b|
  {
    assert b == a + (b - a);
  }
}
