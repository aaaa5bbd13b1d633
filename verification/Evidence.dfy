// Evidence exports and timelines: interval arithmetic over recorded segments
// and the export job machine (nvr/evidence.py, nvr/nvr_service.py).

// ---------- Coverage and timeline ----------

module Coverage {
  import opened Options

  // A half-open stretch of time in milliseconds.
  datatype Span = Span(from: int, to: int) {
    predicate Has(x: int) { from <= x < to }
  }

  predicate Sorted(rows: seq<Span>)
  {
    forall i, j :: 0 <= i < j < |rows| ==> rows[i].from <= rows[j].from
  }

  predicate Within(spans: seq<Span>, start: int, end: int)
  {
    forall i :: 0 <= i < |spans| ==> start <= spans[i].from < spans[i].to <= end
  }

  ghost predicate Covers(spans: seq<Span>, x: int)
  {
    exists i :: 0 <= i < |spans| && spans[i].Has(x)
  }

  predicate Meet(a: Span, b: Span)
  {
    a.from < b.to && b.from < a.to
  }

  ghost predicate Overlapping(spans: seq<Span>)
  {
    exists i, j :: 0 <= i < j < |spans| && Meet(spans[i], spans[j])
  }

  function Max(a: int, b: int): int { if a < b then b else a }
  function Min(a: int, b: int): int { if a < b then a else b }

  function Clip(row: Span, start: int, end: int): Span
  {
    Span(Max(start, row.from), Min(end, row.to))
  }

  // The parts of the rows inside [start, end), empty ones dropped.
  function Clipped(rows: seq<Span>, start: int, end: int): seq<Span>
  {
    if rows == [] then []
    else
      var last := Clip(rows[|rows| - 1], start, end);
      Clipped(rows[..|rows| - 1], start, end) + if last.from < last.to then [last] else []
  }

  // The latest end among the spans, or `start`.
  function Reach(spans: seq<Span>, start: int): int
  {
    if spans == [] then start else Max(Reach(spans[..|spans| - 1], start), spans[|spans| - 1].to)
  }

  ghost predicate StartBy(spans: seq<Span>, x: int)
  {
    forall i :: 0 <= i < |spans| ==> spans[i].from <= x
  }

  lemma StartByLater(spans: seq<Span>, x: int, y: int)
    requires StartBy(spans, x) && x <= y
    ensures StartBy(spans, y)
  {
  }

  lemma ShapeSnoc(spans: seq<Span>, next: Span, start: int, end: int)
    requires Sorted(spans) && Within(spans, start, end) && StartBy(spans, next.from)
    requires start <= next.from < next.to <= end
    ensures Sorted(spans + [next]) && Within(spans + [next], start, end) && StartBy(spans + [next], next.from)
  {
  }

  lemma SortedBefore(rows: seq<Span>)
    requires Sorted(rows) && rows != []
    ensures Sorted(rows[..|rows| - 1])
    ensures |rows| > 1 ==> rows[|rows| - 2].from <= rows[|rows| - 1].from
  {
  }

  lemma {:induction false} ClippedShape(rows: seq<Span>, start: int, end: int)
    requires Sorted(rows)
    ensures var c := Clipped(rows, start, end);
      && Sorted(c) && Within(c, start, end)
      && if rows == [] then c == [] else StartBy(c, Max(start, rows[|rows| - 1].from))
  {
    if rows != [] {
      SortedBefore(rows);
      hide Sorted;
      hide Within;
      hide StartBy;
      var before, next := rows[..|rows| - 1], Clip(rows[|rows| - 1], start, end);
      ClippedShape(before, start, end);
      var c := Clipped(before, start, end);
      if before == [] {
        NothingStarts(next.from);
      } else {
        StartByLater(c, Max(start, before[|before| - 1].from), next.from);
      }
      if next.from < next.to {
        ShapeSnoc(c, next, start, end);
      }
    }
  }

  lemma NothingStarts(x: int)
    ensures StartBy([], x)
  {
  }

  lemma {:induction false} ReachBounds(spans: seq<Span>, start: int)
    ensures start <= Reach(spans, start)
    ensures forall i :: 0 <= i < |spans| ==> spans[i].to <= Reach(spans, start)
    ensures forall i :: 0 <= i < |spans| && spans[i].from < spans[i].to && start <= spans[i].from
              ==> start < Reach(spans, start)
    ensures Reach(spans, start) == start || exists i :: 0 <= i < |spans| && spans[i].to == Reach(spans, start)
  {
    if spans != [] {
      ReachBounds(spans[..|spans| - 1], start);
      assert spans[|spans| - 1].to <= Reach(spans, start);
    }
  }

  // ---------- The clipped parts against the rows ----------

  // Two different rows share an instant of the range.
  ghost predicate Shares(rows: seq<Span>, start: int, end: int)
  {
    exists i, j, x :: 0 <= i < j < |rows| && start <= x < end && rows[i].Has(x) && rows[j].Has(x)
  }

  lemma ClipHas(row: Span, start: int, end: int, x: int)
    requires start <= x < end
    ensures Clip(row, start, end).Has(x) <==> row.Has(x)
  {
  }

  // An instant of the range is in a clipped part exactly if it is in a row.
  lemma {:induction false} ClippedCovers(rows: seq<Span>, start: int, end: int, x: int)
    requires start <= x < end
    ensures Covers(Clipped(rows, start, end), x) <==> Covers(rows, x)
  {
    if rows != [] {
      hide Clip; hide Covers;
      var before, last := rows[..|rows| - 1], rows[|rows| - 1];
      ClippedCovers(before, start, end, x);
      ClipHas(last, start, end, x);
      CoversSnoc(before, last, x);
      CoversSnoc(Clipped(before, start, end), Clip(last, start, end), x);
      assert rows == before + [last];
      if Clip(last, start, end).from >= Clip(last, start, end).to {
        assert Clipped(rows, start, end) == Clipped(before, start, end);
      }
    }
  }

  lemma SharesSnoc(rows: seq<Span>, row: Span, start: int, end: int)
    ensures Shares(rows + [row], start, end) <==>
            Shares(rows, start, end) || exists x :: start <= x < end && row.Has(x) && Covers(rows, x)
  {
    var longer := rows + [row];
    if Shares(rows, start, end) {
      var i, j, x :| 0 <= i < j < |rows| && start <= x < end && rows[i].Has(x) && rows[j].Has(x);
      assert longer[i].Has(x) && longer[j].Has(x);
    }
    if x :| start <= x < end && row.Has(x) && Covers(rows, x) {
      var i :| 0 <= i < |rows| && rows[i].Has(x);
      assert longer[i].Has(x) && longer[|rows|].Has(x);
    }
    if Shares(longer, start, end) {
      var i, j, x :| 0 <= i < j < |longer| && start <= x < end && longer[i].Has(x) && longer[j].Has(x);
      if j < |rows| {
        assert rows[i].Has(x) && rows[j].Has(x);
      } else {
        assert rows[i].Has(x);
      }
    }
  }

  lemma OverlappingSnoc(spans: seq<Span>, next: Span, start: int, end: int)
    requires Within(spans, start, end) && start <= next.from < next.to <= end
    ensures Overlapping(spans + [next]) <==>
            Overlapping(spans) || exists x :: start <= x < end && next.Has(x) && Covers(spans, x)
  {
    var longer := spans + [next];
    if Overlapping(spans) {
      var i, j :| 0 <= i < j < |spans| && Meet(spans[i], spans[j]);
      assert Meet(longer[i], longer[j]);
    }
    if x :| start <= x < end && next.Has(x) && Covers(spans, x) {
      var i :| 0 <= i < |spans| && spans[i].Has(x);
      assert Meet(longer[i], longer[|spans|]);
    }
    if Overlapping(longer) {
      var i, j :| 0 <= i < j < |longer| && Meet(longer[i], longer[j]);
      if j < |spans| {
        assert Meet(spans[i], spans[j]);
      } else {
        var x := Max(spans[i].from, next.from);
        assert spans[i].Has(x) && next.Has(x);
      }
    }
  }

  // Two clipped parts intersect exactly if two rows share an instant of the
  // range.
  lemma {:induction false} ClippedShares(rows: seq<Span>, start: int, end: int)
    requires Sorted(rows)
    ensures Overlapping(Clipped(rows, start, end)) <==> Shares(rows, start, end)
  {
    if rows != [] {
      var before, last := rows[..|rows| - 1], rows[|rows| - 1];
      SortedBefore(rows);
      ClippedShares(before, start, end);
      ClippedShape(before, start, end);
      SharesSnoc(before, last, start, end);
      assert rows == before + [last];
      hide Overlapping; hide Shares; hide Sorted; hide Covers;
      var c, next := Clipped(before, start, end), Clip(last, start, end);
      forall x | start <= x < end ensures (next.Has(x) <==> last.Has(x)) && (Covers(c, x) <==> Covers(before, x)) {
        ClipHas(last, start, end, x);
        ClippedCovers(before, start, end, x);
      }
      if next.from < next.to {
        ClipInside(last, start, end);
        OverlappingSnoc(c, next, start, end);
      } else {
        assert Clipped(rows, start, end) == c;
      }
    }
  }

  lemma ClipInside(row: Span, start: int, end: int)
    ensures start <= Clip(row, start, end).from && Clip(row, start, end).to <= end
  {
  }

  // The loop of coverage. `previous_end` is 0 when it is still unset: the
  // source treats the number 0 like None, and every end is positive.
  method Compute(rows: seq<Span>, start: int, end: int)
    returns (intervals: seq<Span>, gaps: seq<Span>, overlap: bool)
    requires Sorted(rows) && 0 <= start <= end
    ensures intervals == Clipped(rows, start, end)
    ensures Within(intervals, start, end) && Within(gaps, start, end) && Sorted(gaps) && !Overlapping(gaps)
    ensures forall x :: start <= x < end ==> (Covers(intervals, x) <==> Covers(rows, x))
    ensures forall x :: start <= x < end ==> (Covers(gaps, x) <==> !Covers(rows, x))
    ensures overlap <==> Shares(rows, start, end)
    ensures overlap <==> Overlapping(intervals)
  {
    hide So; hide Shares; hide GapsSoFar; hide Overlapping; hide Covers; hide Sorted; hide Within; hide Clipped;
    intervals, gaps, overlap := [], [], false;
    NothingYet(start, end);
    var cursor := start;
    var previousEnd := 0;
    for n := 0 to |rows|
      invariant So(rows[..n], intervals, gaps, overlap, start, end, cursor)
      invariant start <= cursor && if intervals == [] then cursor == start else start < cursor
      invariant previousEnd == if intervals == [] then 0 else cursor
    {
      Absorb(rows, n, intervals, gaps, overlap, start, end, cursor);
      var left, right := Max(start, rows[n].from), Min(end, rows[n].to);
      if left < right {
        if previousEnd != 0 && left < previousEnd {
          overlap := true;
        }
        if cursor < left {
          gaps := gaps + [Span(cursor, left)];
        }
        intervals := intervals + [Span(left, right)];
        cursor := Max(cursor, right);
        previousEnd := if previousEnd == 0 then right else Max(previousEnd, right);
      }
    }
    assert rows[..|rows|] == rows;
    Finish(rows, intervals, gaps, overlap, start, end, cursor);
    forall x | start <= x < end ensures Covers(intervals, x) <==> Covers(rows, x) {
      ClippedCovers(rows, start, end, x);
    }
    ClippedShares(rows, start, end);
    if cursor < end {
      gaps := gaps + [Span(cursor, end)];
    }
  }

  // What holds after the rows seen so far.
  ghost predicate So(rows: seq<Span>, intervals: seq<Span>, gaps: seq<Span>, overlap: bool, start: int, end: int,
                     cursor: int)
  {
    && intervals == Clipped(rows, start, end)
    && cursor == Reach(intervals, start) && start <= cursor <= end
    && (intervals != [] ==> start < cursor)
    && GapsSoFar(intervals, gaps, start, cursor)
    && (overlap <==> Overlapping(intervals))
  }

  lemma NothingYet(start: int, end: int)
    requires start <= end
    ensures So([], [], [], false, start, end, start)
  {
  }

  lemma ClippedSnoc(rows: seq<Span>, n: nat, start: int, end: int)
    requires n < |rows|
    ensures var next := Clip(rows[n], start, end);
      Clipped(rows[..n + 1], start, end) == Clipped(rows[..n], start, end) + if next.from < next.to then [next] else []
  {
    assert rows[..n + 1][..n] == rows[..n];
  }

  lemma ReachSnoc(spans: seq<Span>, next: Span, start: int)
    ensures Reach(spans + [next], start) == Max(Reach(spans, start), next.to)
  {
    assert (spans + [next])[..|spans|] == spans;
  }

  // One turn of the loop.
  lemma Absorb(rows: seq<Span>, n: nat, intervals: seq<Span>, gaps: seq<Span>, overlap: bool, start: int, end: int,
               cursor: int)
    requires Sorted(rows) && n < |rows| && So(rows[..n], intervals, gaps, overlap, start, end, cursor)
    ensures var next := Clip(rows[n], start, end);
      if next.from < next.to then
        So(rows[..n + 1], intervals + [next], if cursor < next.from then gaps + [Span(cursor, next.from)] else gaps,
           overlap || (intervals != [] && next.from < cursor), start, end, Max(cursor, next.to))
      else So(rows[..n + 1], intervals, gaps, overlap, start, end, cursor)
  {
    hide Overlapping; hide GapsSoFar; hide Sorted; hide Within; hide Clipped; hide Reach; hide StartBy;
    var next := Clip(rows[n], start, end);
    ClippedSnoc(rows, n, start, end);
    ReachSnoc(intervals, next, start);
    if next.from < next.to {
      ShapeGrows(rows, n, start, end);
      OverlapGrows(intervals, next, start);
      GapsGrow(intervals, gaps, next, start, cursor);
    }
  }

  lemma Finish(rows: seq<Span>, intervals: seq<Span>, gaps: seq<Span>, overlap: bool, start: int, end: int, cursor: int)
    requires Sorted(rows) && So(rows, intervals, gaps, overlap, start, end, cursor)
    ensures var all := if cursor < end then gaps + [Span(cursor, end)] else gaps;
      && Within(intervals, start, end) && Within(all, start, end) && Sorted(all) && !Overlapping(all)
      && (forall x :: start <= x < end ==> (Covers(all, x) <==> !Covers(intervals, x)))
      && intervals == Clipped(rows, start, end) && (overlap <==> Overlapping(intervals))
  {
    hide Overlapping; hide Covers; hide GapsSoFar; hide Sorted;
    ClippedShape(rows, start, end);
    if cursor < end {
      LastGap(intervals, gaps, start, cursor, end);
    }
    GapsAreExact(intervals, if cursor < end then gaps + [Span(cursor, end)] else gaps, start, end);
  }

  lemma SortedUpTo(rows: seq<Span>, n: nat)
    requires Sorted(rows) && n < |rows|
    ensures Sorted(rows[..n]) && (n > 0 ==> rows[..n][n - 1].from <= rows[n].from)
  {
  }

  lemma WithinReach(spans: seq<Span>, start: int, end: int)
    requires Within(spans, start, end)
    ensures Within(spans, start, Reach(spans, start))
  {
    ReachBounds(spans, start);
  }

  lemma ShapeGrows(rows: seq<Span>, n: nat, start: int, end: int)
    requires n < |rows| && Sorted(rows)
    requires Clip(rows[n], start, end).from < Clip(rows[n], start, end).to
    ensures var c := Clipped(rows[..n], start, end);
      var next := Clip(rows[n], start, end);
      Sorted(c + [next]) && Within(c, start, Reach(c, start)) && start <= next.from && StartBy(c, next.from)
  {
    SortedUpTo(rows, n);
    hide Clipped;
    hide Sorted;
    hide Within;
    hide StartBy;
    var c, next := Clipped(rows[..n], start, end), Clip(rows[n], start, end);
    ClippedShape(rows[..n], start, end);
    WithinReach(c, start, end);
    if n == 0 {
      NothingStarts(next.from);
    } else {
      StartByLater(c, Max(start, rows[..n][n - 1].from), next.from);
    }
    ShapeSnoc(c, next, start, end);
  }

  lemma GapsAreExact(intervals: seq<Span>, gaps: seq<Span>, start: int, end: int)
    requires GapsSoFar(intervals, gaps, start, end)
    ensures Within(gaps, start, end) && Sorted(gaps) && !Overlapping(gaps)
    ensures forall x :: start <= x < end ==> (Covers(gaps, x) <==> !Covers(intervals, x))
  {
  }

  // The gaps below the cursor are exactly what the intervals leave open.
  ghost predicate GapsSoFar(intervals: seq<Span>, gaps: seq<Span>, start: int, cursor: int)
  {
    && Within(gaps, start, cursor)
    && (forall i, j :: 0 <= i < j < |gaps| ==> gaps[i].to <= gaps[j].from)
    && forall x :: start <= x < cursor ==> (Covers(gaps, x) <==> !Covers(intervals, x))
  }

  lemma CoversSnoc(spans: seq<Span>, s: Span, x: int)
    ensures Covers(spans + [s], x) <==> Covers(spans, x) || s.Has(x)
  {
    var longer := spans + [s];
    if Covers(spans, x) {
      var i :| 0 <= i < |spans| && spans[i].Has(x);
      assert longer[i].Has(x);
    }
    if s.Has(x) {
      assert longer[|spans|].Has(x);
    }
  }

  lemma GapsGrow(intervals: seq<Span>, gaps: seq<Span>, next: Span, start: int, cursor: int)
    requires GapsSoFar(intervals, gaps, start, cursor) && cursor == Reach(intervals, start)
    requires start <= next.from < next.to
    requires StartBy(intervals, next.from)
    ensures GapsSoFar(intervals + [next], if cursor < next.from then gaps + [Span(cursor, next.from)] else gaps,
                      start, Max(cursor, next.to))
  {
    ReachBounds(intervals, start);
    var longer := if cursor < next.from then gaps + [Span(cursor, next.from)] else gaps;
    forall x | start <= x < Max(cursor, next.to) ensures Covers(longer, x) <==> !Covers(intervals + [next], x) {
      CoversSnoc(intervals, next, x);
      CoversSnoc(gaps, Span(cursor, next.from), x);
    }
  }

  lemma LastGap(intervals: seq<Span>, gaps: seq<Span>, start: int, cursor: int, end: int)
    requires GapsSoFar(intervals, gaps, start, cursor) && cursor == Reach(intervals, start) && start <= cursor < end
    ensures GapsSoFar(intervals, gaps + [Span(cursor, end)], start, end)
  {
    ReachBounds(intervals, start);
    forall x | start <= x < end ensures Covers(gaps + [Span(cursor, end)], x) <==> !Covers(intervals, x) {
      CoversSnoc(gaps, Span(cursor, end), x);
    }
  }

  // A new last interval overlaps an earlier one exactly when it starts
  // before their reach.
  lemma OverlapGrows(intervals: seq<Span>, next: Span, start: int)
    requires Sorted(intervals + [next]) && Within(intervals, start, Reach(intervals, start)) && next.from < next.to
    ensures Overlapping(intervals + [next])
       <==> Overlapping(intervals) || (intervals != [] && next.from < Reach(intervals, start))
  {
    var longer := intervals + [next];
    ReachBounds(intervals, start);
    if Overlapping(intervals) {
      var i, j :| 0 <= i < j < |intervals| && Meet(intervals[i], intervals[j]);
      assert Meet(longer[i], longer[j]);
    }
    if intervals != [] && next.from < Reach(intervals, start) {
      assert intervals[0].to > start;
      var i :| 0 <= i < |intervals| && intervals[i].to == Reach(intervals, start);
      assert longer[i].from <= longer[|intervals|].from;
      assert Meet(longer[i], longer[|intervals|]);
    }
    if Overlapping(longer) {
      var i, j :| 0 <= i < j < |longer| && Meet(longer[i], longer[j]);
      if j < |intervals| {
        assert Meet(intervals[i], intervals[j]);
      }
    }
  }

  // ---------- The condition exact export relies on ----------

  function TotalLength(spans: seq<Span>): int
  {
    if spans == [] then 0
    else TotalLength(spans[..|spans| - 1]) + spans[|spans| - 1].to - spans[|spans| - 1].from
  }

  // Without holes, the lengths add up to at least the reach, and to exactly
  // the reach when no two spans overlap.
  lemma {:induction false} LengthsReach(spans: seq<Span>, start: int)
    requires Sorted(spans) && (forall i :: 0 <= i < |spans| ==> start <= spans[i].from < spans[i].to)
    requires forall x :: start <= x < Reach(spans, start) ==> Covers(spans, x)
    ensures TotalLength(spans) >= Reach(spans, start) - start
    ensures TotalLength(spans) == Reach(spans, start) - start <==> !Overlapping(spans)
  {
    if spans != [] {
      hide Overlapping; hide Covers; hide Sorted;
      var before := spans[..|spans| - 1];
      var last := spans[|spans| - 1];
      assert spans == before + [last];
      NoHoleBefore(before, last, start);
      LengthsReach(before, start);
      OverlapGrows(before, last, start);
    }
  }

  // Taking the last span away leaves no hole below the reach of the others,
  // and it started within that reach.
  lemma NoHoleBefore(before: seq<Span>, last: Span, start: int)
    requires Sorted(before + [last])
    requires forall i :: 0 <= i < |before| ==> start <= before[i].from < before[i].to
    requires start <= last.from < last.to
    requires forall x :: start <= x < Max(Reach(before, start), last.to) ==> Covers(before + [last], x)
    ensures Sorted(before) && Within(before, start, Reach(before, start))
    ensures forall x :: start <= x < Reach(before, start) ==> Covers(before, x)
    ensures last.from <= Reach(before, start)
  {
    hide Reach;
    var cursor := Reach(before, start);
    ReachBounds(before, start);
    assert Sorted(before) by {
      forall i, j | 0 <= i < j < |before| ensures before[i].from <= before[j].from {
        assert (before + [last])[i].from <= (before + [last])[j].from;
      }
    }
    forall x | start <= x < cursor ensures Covers(before, x) {
      CoversSnoc(before, last, x);
      if last.Has(x) {
        ReachedIsCovered(before, last, start, x);
      }
    }
    if cursor < last.from {
      CoversSnoc(before, last, cursor);
    }
  }

  // Below the reach of the earlier spans, the last span adds nothing new
  // when there is no hole.
  lemma ReachedIsCovered(before: seq<Span>, last: Span, start: int, x: int)
    requires Sorted(before + [last]) && start <= x < Reach(before, start) && last.Has(x)
    requires forall i :: 0 <= i < |before| ==> start <= before[i].from < before[i].to
    ensures Covers(before, x)
  {
    ReachBounds(before, start);
    var i :| 0 <= i < |before| && before[i].to == Reach(before, start);
    assert (before + [last])[i].from <= (before + [last])[|before|].from;
    assert before[i].Has(x);
  }

  // No gaps and no overlap: then, and only then, a gap-free coverage has
  // exactly the requested length.
  lemma ExactCoverage(intervals: seq<Span>, start: int, end: int)
    requires Sorted(intervals) && Within(intervals, start, end) && start < end
    requires forall x :: start <= x < end ==> Covers(intervals, x)
    ensures TotalLength(intervals) == end - start <==> !Overlapping(intervals)
  {
    ReachBounds(intervals, start);
    assert Covers(intervals, end - 1);
    LengthsReach(intervals, start);
  }
}

module Timeline {
  import opened Coverage

  const TOLERANCE_MS := 250

  // One catalog row of a camera. `unhealthy` rows are missing, corrupt or
  // quarantined.
  datatype Item = Item(span: Span, unhealthy: bool, integrity: string)
  datatype Gap = Gap(span: Span, offline: bool, reason: string)

  predicate ByStart(items: seq<Item>)
  {
    forall i, j :: 0 <= i < j < |items| ==> items[i].span.from <= items[j].span.from
  }

  ghost predicate Healthy(items: seq<Item>, x: int)
  {
    exists i :: 0 <= i < |items| && !items[i].unhealthy && items[i].span.Has(x)
  }

  ghost predicate Reported(gaps: seq<Gap>, x: int)
  {
    exists i :: 0 <= i < |gaps| && gaps[i].span.Has(x)
  }

  // A short unreported hole right before a healthy segment.
  ghost predicate ShortHole(items: seq<Item>, x: int, from: int, i: int)
  {
    && 0 <= i < |items| && !items[i].unhealthy
    && from <= x < items[i].span.from <= from + TOLERANCE_MS
    && forall y :: from <= y < items[i].span.from ==> !Healthy(items, y)
  }

  // Everything below the cursor is accounted for, and nothing healthy
  // reaches beyond it.
  ghost predicate AccountedTo(items: seq<Item>, n: nat, gaps: seq<Gap>, start: int, cursor: int)
    requires n <= |items|
  {
    && start <= cursor
    && (forall i :: 0 <= i < n && !items[i].unhealthy ==> items[i].span.to <= cursor)
    && (forall x :: start <= x < cursor ==>
          Healthy(items, x) || Reported(gaps, x) || exists from, i :: ShortHole(items, x, from, i))
    && (forall g, x :: 0 <= g < |gaps| && gaps[g].offline && gaps[g].span.Has(x) ==> !Healthy(items, x))
    && (forall g :: 0 <= g < |gaps| && gaps[g].offline ==>
          start <= gaps[g].span.from && gaps[g].span.from + 250 < gaps[g].span.to)
  }

  // The gaps of unhealthy rows, in order, clipped to the range.
  function Damaged(items: seq<Item>, start: int, end: int): seq<Gap>
  {
    if items == [] then []
    else
      var last := items[|items| - 1];
      Damaged(items[..|items| - 1], start, end)
      + if last.unhealthy
        then [Gap(Span(Max(start, last.span.from), Min(end, last.span.to)), false, last.integrity)] else []
  }

  function NotOffline(gaps: seq<Gap>): seq<Gap>
  {
    if gaps == [] then []
    else NotOffline(gaps[..|gaps| - 1]) + if gaps[|gaps| - 1].offline then [] else [gaps[|gaps| - 1]]
  }

  // A gap that tells of a damaged item: its reason, and the part of it in the
  // range.
  predicate TellsOf(g: Gap, item: Item, start: int, end: int)
  {
    && !g.offline && g.reason == item.integrity && start <= g.span.from && g.span.to <= end
    && forall x :: start <= x < end ==> (g.span.Has(x) <==> item.span.Has(x))
  }

  function Told(item: Item, start: int, end: int): Gap
  {
    Gap(Span(Max(start, item.span.from), Min(end, item.span.to)), false, item.integrity)
  }

  lemma ToldTells(item: Item, start: int, end: int)
    ensures TellsOf(Told(item, start, end), item, start, end)
  {
  }

  lemma {:induction false} DamagedHas(items: seq<Item>, g: Gap, start: int, end: int)
    ensures g in Damaged(items, start, end) <==>
            exists i :: 0 <= i < |items| && items[i].unhealthy && g == Told(items[i], start, end)
  {
    if items != [] {
      var before, last := items[..|items| - 1], items[|items| - 1];
      DamagedHas(before, g, start, end);
      hide Max; hide Min;
      if i :| 0 <= i < |before| && before[i].unhealthy && g == Told(before[i], start, end) {
        assert items[i] == before[i];
      }
    }
  }

  lemma {:induction false} NotOfflineHas(gaps: seq<Gap>, g: Gap)
    ensures g in NotOffline(gaps) <==> g in gaps && !g.offline
  {
    if gaps != [] {
      NotOfflineHas(gaps[..|gaps| - 1], g);
      assert gaps == gaps[..|gaps| - 1] + [gaps[|gaps| - 1]];
    }
  }

  lemma DamagedIsTold(items: seq<Item>, gaps: seq<Gap>, start: int, end: int)
    requires NotOffline(gaps) == Damaged(items, start, end)
    ensures forall i :: 0 <= i < |items| && items[i].unhealthy ==>
              exists g :: g in gaps && TellsOf(g, items[i], start, end)
    ensures forall g :: g in gaps && !g.offline ==>
              exists i :: 0 <= i < |items| && items[i].unhealthy && TellsOf(g, items[i], start, end)
  {
    hide TellsOf; hide Damaged; hide NotOffline; hide Told;
    forall i | 0 <= i < |items| && items[i].unhealthy
      ensures exists g :: g in gaps && TellsOf(g, items[i], start, end)
    {
      var g := Told(items[i], start, end);
      ToldTells(items[i], start, end);
      DamagedHas(items, g, start, end);
      NotOfflineHas(gaps, g);
    }
    forall g | g in gaps && !g.offline
      ensures exists i :: 0 <= i < |items| && items[i].unhealthy && TellsOf(g, items[i], start, end)
    {
      NotOfflineHas(gaps, g);
      DamagedHas(items, g, start, end);
      var i :| 0 <= i < |items| && items[i].unhealthy && g == Told(items[i], start, end);
      ToldTells(items[i], start, end);
    }
  }

  // The per-camera loop of timeline.
  method Gaps(items: seq<Item>, start: int, end: int) returns (gaps: seq<Gap>)
    requires ByStart(items) && start < end
    ensures forall g, x :: 0 <= g < |gaps| && gaps[g].offline && gaps[g].span.Has(x) ==> !Healthy(items, x)
    ensures forall x :: start <= x < end ==>
              Healthy(items, x) || Reported(gaps, x) || exists from, i :: ShortHole(items, x, from, i)
    ensures forall g :: 0 <= g < |gaps| && gaps[g].offline ==>
              start <= gaps[g].span.from < gaps[g].span.to
              && (gaps[g].span.from + 250 < gaps[g].span.to || gaps[g].span.to == end)
    ensures NotOffline(gaps) == Damaged(items, start, end)
    ensures forall i :: 0 <= i < |items| && items[i].unhealthy ==>
              exists g :: g in gaps && TellsOf(g, items[i], start, end)
    ensures forall g :: g in gaps && !g.offline ==>
              exists i :: 0 <= i < |items| && items[i].unhealthy && TellsOf(g, items[i], start, end)
  {
    hide AccountedTo; hide Healthy; hide Reported; hide ShortHole; hide NotOffline; hide Damaged; hide ByStart;
    hide TellsOf;
    gaps := [];
    var cursor := start;
    NothingAccounted(items, start, end);
    assert items[..0] == [];
    for n := 0 to |items|
      invariant AccountedTo(items, n, gaps, start, cursor)
      invariant NotOffline(gaps) == Damaged(items[..n], start, end)
    {
      AbsorbItem(items, n, gaps, start, end, cursor);
      DamagedSnoc(items, n, start, end);
      var item := items[n];
      if item.unhealthy {
        NotOfflineSnoc(gaps, Gap(Span(Max(start, item.span.from), Min(end, item.span.to)), false, item.integrity));
        gaps := gaps + [Gap(Span(Max(start, item.span.from), Min(end, item.span.to)), false, item.integrity)];
        continue;
      }
      if item.span.from > cursor + TOLERANCE_MS {
        NotOfflineSnoc(gaps, Gap(Span(cursor, item.span.from), true, "offline"));
        gaps := gaps + [Gap(Span(cursor, item.span.from), true, "offline")];
      }
      cursor := Max(cursor, item.span.to);
    }
    assert items[..|items|] == items;
    AllAccounted(items, gaps, start, end, cursor);
    if cursor < end {
      NotOfflineSnoc(gaps, Gap(Span(cursor, end), true, "offline"));
      gaps := gaps + [Gap(Span(cursor, end), true, "offline")];
    }
    DamagedIsTold(items, gaps, start, end);
  }

  lemma NothingAccounted(items: seq<Item>, start: int, end: int)
    ensures AccountedTo(items, 0, [], start, start)
    ensures NotOffline([]) == Damaged([], start, end) == []
  {
  }

  lemma DamagedSnoc(items: seq<Item>, n: nat, start: int, end: int)
    requires n < |items|
    ensures Damaged(items[..n + 1], start, end) == Damaged(items[..n], start, end)
            + if items[n].unhealthy
              then [Gap(Span(Max(start, items[n].span.from), Min(end, items[n].span.to)), false, items[n].integrity)]
              else []
  {
    assert items[..n + 1][..n] == items[..n];
  }

  lemma NotOfflineSnoc(gaps: seq<Gap>, gap: Gap)
    ensures NotOffline(gaps + [gap]) == NotOffline(gaps) + if gap.offline then [] else [gap]
  {
    assert (gaps + [gap])[..|gaps|] == gaps;
  }

  lemma ReportedSnoc(gaps: seq<Gap>, gap: Gap, x: int)
    ensures Reported(gaps + [gap], x) <==> Reported(gaps, x) || gap.span.Has(x)
  {
    var longer := gaps + [gap];
    if Reported(gaps, x) {
      var i :| 0 <= i < |gaps| && gaps[i].span.Has(x);
      assert longer[i].span.Has(x);
    }
    if gap.span.Has(x) {
      assert longer[|gaps|].span.Has(x);
    }
  }

  // Between the reach of the healthy items seen and the next item nothing
  // is healthy.
  lemma NothingHealthyBefore(items: seq<Item>, n: nat, cursor: int, x: int)
    requires ByStart(items) && n <= |items|
    requires forall i :: 0 <= i < n && !items[i].unhealthy ==> items[i].span.to <= cursor
    requires cursor <= x && (n < |items| ==> x < items[n].span.from)
    ensures !Healthy(items, x)
  {
  }

  lemma AbsorbItem(items: seq<Item>, n: nat, gaps: seq<Gap>, start: int, end: int, cursor: int)
    requires ByStart(items) && n < |items| && AccountedTo(items, n, gaps, start, cursor)
    ensures var item := items[n];
      if item.unhealthy then
        AccountedTo(items, n + 1,
                    gaps + [Gap(Span(Max(start, item.span.from), Min(end, item.span.to)), false, item.integrity)],
                    start, cursor)
      else
        AccountedTo(items, n + 1,
                    if item.span.from > cursor + TOLERANCE_MS
                    then gaps + [Gap(Span(cursor, item.span.from), true, "offline")] else gaps,
                    start, Max(cursor, item.span.to))
  {
    hide Healthy; hide Reported; hide ShortHole;
    var item := items[n];
    if item.unhealthy {
      var gap := Gap(Span(Max(start, item.span.from), Min(end, item.span.to)), false, item.integrity);
      forall x | Reported(gaps, x) ensures Reported(gaps + [gap], x) {
        ReportedSnoc(gaps, gap, x);
      }
    } else {
      var gap := Gap(Span(cursor, item.span.from), true, "offline");
      var longer := if item.span.from > cursor + TOLERANCE_MS then gaps + [gap] else gaps;
      forall x | start <= x < Max(cursor, item.span.to)
        ensures Healthy(items, x) || Reported(longer, x) || exists from, i :: ShortHole(items, x, from, i)
      {
        ReportedSnoc(gaps, gap, x);
        if cursor <= x {
          NewInstant(items, n, cursor, x);
        }
      }
      forall x | gap.span.Has(x) ensures !Healthy(items, x) {
        NothingHealthyBefore(items, n, cursor, x);
      }
    }
  }

  // An instant between the cursor and the end of the next healthy item.
  lemma NewInstant(items: seq<Item>, n: nat, cursor: int, x: int)
    requires ByStart(items) && n < |items| && !items[n].unhealthy && cursor <= x < items[n].span.to
    requires forall i :: 0 <= i < n && !items[i].unhealthy ==> items[i].span.to <= cursor
    ensures Healthy(items, x) || cursor <= x < items[n].span.from
    ensures x < items[n].span.from <= cursor + TOLERANCE_MS ==> ShortHole(items, x, cursor, n)
  {
    if items[n].span.from <= x {
      assert items[n].span.Has(x);
    } else {
      forall y | cursor <= y < items[n].span.from ensures !Healthy(items, y) {
        NothingHealthyBefore(items, n, cursor, y);
      }
    }
  }

  lemma AllAccounted(items: seq<Item>, gaps: seq<Gap>, start: int, end: int, cursor: int)
    requires ByStart(items) && AccountedTo(items, |items|, gaps, start, cursor)
    ensures var all := if cursor < end then gaps + [Gap(Span(cursor, end), true, "offline")] else gaps;
      && (forall g, x :: 0 <= g < |all| && all[g].offline && all[g].span.Has(x) ==> !Healthy(items, x))
      && (forall g :: 0 <= g < |all| && all[g].offline ==>
            start <= all[g].span.from < all[g].span.to
            && (all[g].span.from + 250 < all[g].span.to || all[g].span.to == end))
      && (forall x :: start <= x < end ==>
            Healthy(items, x) || Reported(all, x) || exists from, i :: ShortHole(items, x, from, i))
  {
    hide Healthy; hide Reported; hide ShortHole;
    var gap := Gap(Span(cursor, end), true, "offline");
    var all := if cursor < end then gaps + [gap] else gaps;
    forall x | start <= x < end
      ensures Healthy(items, x) || Reported(all, x) || exists from, i :: ShortHole(items, x, from, i)
    {
      ReportedSnoc(gaps, gap, x);
    }
    forall x | gap.span.Has(x) ensures !Healthy(items, x) {
      NothingHealthyBefore(items, |items|, cursor, x);
    }
  }
}
