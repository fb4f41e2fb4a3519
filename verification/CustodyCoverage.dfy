/** The interval sweep of the custody engine, and exactly when it succeeds. */
module CustodyCoverage {
  import opened Sorting

  datatype Span = Span(start: int, end: int)

  predicate NotAfter(a: Span, b: Span) {
    a.start < b.start || (a.start == b.start && a.end <= b.end)
  }

  /** The loop over the sorted intervals, from one position of the cursor on. */
  function Sweep(spans: seq<Span>, cursor: int, end: int): bool {
    if spans == [] then cursor >= end
    else if spans[0].end < cursor then Sweep(spans[1..], cursor, end)
    else if spans[0].start > cursor then false
    else if spans[0].end >= end || cursor >= end then true
    else Sweep(spans[1..], if spans[0].end > cursor then spans[0].end else cursor, end)
  }

  function Covers(spans: seq<Span>, start: int, end: int): bool {
    Sweep(Sort(spans, NotAfter), start, end)
  }

  method RunSweep(spans: seq<Span>, start: int, end: int) returns (covered: bool)
    ensures covered == Covers(spans, start, end)
  {
    var cursor := start;
    var sorted := Sort(spans, NotAfter);
    var n := 0;
    while n < |sorted|
      invariant n <= |sorted|
      invariant Sweep(sorted[n..], cursor, end) == Covers(spans, start, end)
    {
      var left, right := sorted[n].start, sorted[n].end;
      assert sorted[n..][0] == sorted[n] && sorted[n..][1..] == sorted[n + 1..];
      n := n + 1;
      if right < cursor {
        continue;
      }
      if left > cursor {
        return false;
      }
      if right > cursor {
        cursor := right;
      }
      if cursor >= end {
        return true;
      }
    }
    return cursor >= end;
  }

  /** One interval contains the unit segment from `k` to `k + 1`. */
  ghost predicate Contains(s: Span, k: int) {
    s.start <= k && k + 1 <= s.end
  }

  ghost predicate SomeContains(spans: seq<Span>, k: int) {
    exists i :: 0 <= i < |spans| && Contains(spans[i], k)
  }

  ghost predicate EverySegment(spans: seq<Span>, start: int, end: int) {
    forall k | start <= k < end :: SomeContains(spans, k)
  }

  lemma {:induction false} SweepExact(spans: seq<Span>, cursor: int, end: int)
    requires Ordered(spans, NotAfter) && cursor < end
    ensures Sweep(spans, cursor, end) <==> EverySegment(spans, cursor, end)
    decreases |spans|
  {
    if spans == [] {
      assert !SomeContains(spans, cursor);
    } else {
      var s, rest := spans[0], spans[1..];
      assert spans == [s] + rest;
      if s.end < cursor {
        SweepExact(rest, cursor, end);
        SkipsUseless(s, rest, cursor, end);
      } else if s.start > cursor {
        assert !SomeContains(spans, cursor);
      } else if s.end >= end {
        assert forall k :: cursor <= k < end ==> Contains(spans[0], k);
      } else {
        SweepExact(rest, s.end, end);
        SkipsUseless(s, rest, s.end, end);
        assert forall k :: cursor <= k < s.end ==> Contains(spans[0], k);
        assert forall k :: s.end <= k < end && SomeContains(spans, k) ==> SomeContains(rest, k);
      }
    }
  }

  lemma SkipsUseless(s: Span, rest: seq<Span>, cursor: int, end: int)
    requires s.end <= cursor
    ensures forall k :: cursor <= k < end ==> (SomeContains([s] + rest, k) <==> SomeContains(rest, k))
  {
    forall k | cursor <= k < end ensures SomeContains([s] + rest, k) <==> SomeContains(rest, k) {
      var all := [s] + rest;
      if SomeContains(all, k) {
        var i :| 0 <= i < |all| && Contains(all[i], k);
        assert Contains(rest[i - 1], k);
      }
      if SomeContains(rest, k) {
        var i :| 0 <= i < |rest| && Contains(rest[i], k);
        assert Contains(all[i + 1], k);
      }
    }
  }

  lemma SameIntervals(a: seq<Span>, b: seq<Span>, k: int)
    requires forall s :: s in a ==> s in b
    requires SomeContains(a, k)
    ensures SomeContains(b, k)
  {
    var i :| 0 <= i < |a| && Contains(a[i], k);
    assert a[i] in b;
  }

  /** The sweep succeeds exactly when every unit segment between start and end lies inside one
      of the intervals, whatever their order and even if some end before they start. */
  lemma CoversExact(spans: seq<Span>, start: int, end: int)
    requires start < end
    ensures Covers(spans, start, end) <==> EverySegment(spans, start, end)
  {
    var sorted := Sort(spans, NotAfter);
    SortOrders(spans, NotAfter);
    SortMembers(spans, NotAfter);
    SweepExact(sorted, start, end);
    forall k | start <= k < end ensures SomeContains(sorted, k) <==> SomeContains(spans, k) {
      if SomeContains(sorted, k) {
        SameIntervals(sorted, spans, k);
      }
      if SomeContains(spans, k) {
        SameIntervals(spans, sorted, k);
      }
    }
  }

  /** So neither the order nor repetition matters, and more intervals never uncover anything. */
  lemma CoversIsMonotone(few: seq<Span>, many: seq<Span>, start: int, end: int)
    requires start < end && (forall s :: s in few ==> s in many)
    ensures Covers(few, start, end) ==> Covers(many, start, end)
    ensures (forall s :: s in many ==> s in few) ==> Covers(few, start, end) == Covers(many, start, end)
  {
    CoversExact(few, start, end);
    CoversExact(many, start, end);
    forall k | SomeContains(few, k) ensures SomeContains(many, k) {
      SameIntervals(few, many, k);
    }
    if forall s :: s in many ==> s in few {
      forall k | SomeContains(many, k) ensures SomeContains(few, k) {
        SameIntervals(many, few, k);
      }
    }
  }

  /** Over an empty stretch the sweep is not monotone: it needs nothing, but a later interval refuses it. */
  lemma EmptyStretch(at: int)
    ensures Covers([], at, at) && !Covers([Span(at + 1, at + 2)], at, at)
  {
    assert Sort([Span(at + 1, at + 2)], NotAfter) == [Span(at + 1, at + 2)];
  }
}
