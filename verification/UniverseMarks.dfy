/** The streaming diagnostic of empty books (scripts/diagnose-adaptive-lp-universe-marks.py): one pass over a pool's
    events, one mark per block, and the intervals in which a condition holds at the marks. */
module UniverseMarks {
  import opened Prelude

  datatype State = State(price: int, tick: int, liquidity: int)

  datatype Change =
    | Swap(after: State)
    | Position(lower: int, upper: int, change: int)
    | Other

  datatype Event = Event(block: int, at: int, change: Change)

  datatype Mark = Mark(at: int, block: int, state: State)

  datatype Interval = Interval(start: Mark, endAt: int, endBlock: int, durationMs: int, unresolvedAtEnd: bool)

  /** One entry of counts, openedAt and intervals. */
  datatype Track = Track(count: nat, openedAt: Option<Mark>, intervals: seq<Interval>)

  const NO_TRACK := Track(0, None, [])

  type Condition = Mark -> bool

  function Applied(s: State, e: Event): Option<State>
  {
    match e.change
    case Swap(after) => if after.liquidity >= 0 then Some(after) else None
    case Position(lower, upper, change) =>
      var liquidity := s.liquidity + if lower <= s.tick < upper then change else 0;
      if liquidity >= 0 then Some(s.(liquidity := liquidity)) else None
    case Other => if s.liquidity >= 0 then Some(s) else None
  }

  function Applier(): (State, Event) -> Option<State>
  {
    (s, e) => Applied(s, e)
  }

  function Ended(start: Mark, end: Mark, unresolved: bool): Interval
  {
    Interval(start, end.at, end.block, end.at - start.at, unresolved)
  }

  function Tracked(t: Track, holds: bool, current: Mark): Track
  {
    var count := t.count + if holds then 1 else 0;
    if holds then Track(count, if t.openedAt.None? then Some(current) else t.openedAt, t.intervals)
    else if t.openedAt.Some? then Track(count, None, t.intervals + [Ended(t.openedAt.value, current, false)])
    else t.(count := count)
  }

  function TrackOf(marks: seq<Mark>, holds: Condition): Track
  {
    if marks == [] then NO_TRACK
    else Tracked(TrackOf(marks[..|marks| - 1], holds), holds(marks[|marks| - 1]), marks[|marks| - 1])
  }

  function Finished(t: Track, previous: Mark): seq<Interval>
  {
    if t.openedAt.Some? then t.intervals + [Ended(t.openedAt.value, previous, true)] else t.intervals
  }

  // ---- the batch definition of the marks ----

  /** The last event of its block. */
  predicate EndsBlock(events: seq<Event>, j: nat)
    requires j < |events|
  {
    j == |events| - 1 || events[j + 1].block != events[j].block
  }

  function StateAfter(s: State, events: seq<Event>, n: nat): Option<State>
    requires n <= |events|
  {
    Fold(Applier(), s, events[..n])
  }

  function MarkAt(s: State, events: seq<Event>, j: nat): Mark
    requires j < |events| && StateAfter(s, events, j + 1).Some?
  {
    Mark(events[j].at, events[j].block, StateAfter(s, events, j + 1).value)
  }

  /** A mark for every block from the given one on that ends among the first k events. */
  function MarksBefore(s: State, events: seq<Event>, available: int, k: nat): seq<Mark>
    requires k <= |events| && StateAfter(s, events, |events|).Some?
  {
    if k == 0 then []
    else
      PrefixRuns(s, events, k);
      MarksBefore(s, events, available, k - 1) +
        if EndsBlock(events, k - 1) && events[k - 1].block >= available then [MarkAt(s, events, k - 1)] else []
  }

  function BatchMarks(s: State, events: seq<Event>, available: int): seq<Mark>
    requires StateAfter(s, events, |events|).Some?
  {
    MarksBefore(s, events, available, |events|)
  }

  lemma {:induction false} PrefixRuns(s: State, events: seq<Event>, n: nat)
    requires n <= |events| && StateAfter(s, events, |events|).Some?
    ensures StateAfter(s, events, n).Some?
  {
    assert events[..|events|] == events;
    if StateAfter(s, events, n).None? { FoldFails(Applier(), s, events, n); }
  }

  predicate InBlockOrder(events: seq<Event>)
  {
    forall i, j :: 0 <= i < j < |events| ==> events[i].block <= events[j].block
  }

  function EventsUpTo(events: seq<Event>, block: int): seq<Event>
  {
    if events == [] then []
    else
      var before, e := EventsUpTo(events[..|events| - 1], block), events[|events| - 1];
      if e.block <= block then before + [e] else before
  }

  lemma {:induction false} UpToIsPrefix(events: seq<Event>, j: nat, n: nat)
    requires InBlockOrder(events) && j < |events| && EndsBlock(events, j) && n <= |events|
    ensures EventsUpTo(events[..n], events[j].block) == if n <= j + 1 then events[..n] else events[..j + 1]
  {
    if n > 0 {
      UpToIsPrefix(events, j, n - 1);
      assert events[..n][..n - 1] == events[..n - 1] && events[..n] == events[..n - 1] + [events[n - 1]];
      if n - 1 > j { assert events[j].block <= events[j + 1].block <= events[n - 1].block; }
    }
  }

  /** Every mark was taken at the last event of a block. */
  lemma {:induction false} MarkOrigin(s: State, events: seq<Event>, available: int, k: nat, i: nat) returns (j: nat)
    requires k <= |events| && StateAfter(s, events, |events|).Some? && i < |MarksBefore(s, events, available, k)|
    ensures j < k && EndsBlock(events, j) && events[j].block >= available && StateAfter(s, events, j + 1).Some?
    ensures MarksBefore(s, events, available, k)[i] == MarkAt(s, events, j)
  {
    PrefixRuns(s, events, k);
    if i < |MarksBefore(s, events, available, k - 1)| {
      j := MarkOrigin(s, events, available, k - 1, i);
    } else {
      j := k - 1;
    }
  }

  /** A mark's state is the result of exactly the events up to its block, of which there is at least one. */
  lemma {:induction false} MarkSeesItsBlock(s: State, events: seq<Event>, available: int, i: nat)
    requires InBlockOrder(events) && StateAfter(s, events, |events|).Some? && i < |BatchMarks(s, events, available)|
    ensures var m := BatchMarks(s, events, available)[i];
            && Fold(Applier(), s, EventsUpTo(events, m.block)) == Some(m.state) && m.block >= available
            && exists j :: 0 <= j < |events| && events[j].block == m.block
  {
    var j := MarkOrigin(s, events, available, |events|, i);
    UpToIsPrefix(events, j, |events|);
    assert events[..|events|] == events;
    assert events[j].block == BatchMarks(s, events, available)[i].block;
  }

  predicate BlocksRise(marks: seq<Mark>)
  {
    forall i, j :: 0 <= i < j < |marks| ==> marks[i].block < marks[j].block
  }

  predicate AllBelow(marks: seq<Mark>, block: int)
  {
    forall i :: 0 <= i < |marks| ==> marks[i].block < block
  }

  lemma {:induction false} MarksRise(s: State, events: seq<Event>, available: int, k: nat)
    requires InBlockOrder(events) && k <= |events| && StateAfter(s, events, |events|).Some?
    ensures BlocksRise(MarksBefore(s, events, available, k))
    ensures forall block :: (k > 0 ==> events[k - 1].block < block) ==>
            AllBelow(MarksBefore(s, events, available, k), block)
    ensures k < |events| ==> AllBelow(MarksBefore(s, events, available, k), events[k].block)
  {
    if k > 0 {
      PrefixRuns(s, events, k);
      MarksRise(s, events, available, k - 1);
      var before := MarksBefore(s, events, available, k - 1);
      assert AllBelow(before, events[k - 1].block);
      assert k < |events| ==> events[k - 1].block <= events[k].block;
    }
  }

  lemma {:induction false} EndMarked(s: State, events: seq<Event>, available: int, k: nat, j: nat) returns (i: nat)
    requires k <= |events| && StateAfter(s, events, |events|).Some?
    requires j < k && EndsBlock(events, j) && events[j].block >= available
    ensures i < |MarksBefore(s, events, available, k)| &&
            MarksBefore(s, events, available, k)[i].block == events[j].block
  {
    PrefixRuns(s, events, k);
    if j < k - 1 {
      i := EndMarked(s, events, available, k - 1, j);
    } else {
      i := |MarksBefore(s, events, available, k - 1)|;
    }
  }

  /** Every block with an event from the available one on has one mark, and the marks are in block order. */
  lemma {:induction false} EveryBlockMarked(s: State, events: seq<Event>, available: int, j: nat) returns (i: nat)
    requires InBlockOrder(events) && StateAfter(s, events, |events|).Some? && j < |events| &&
             events[j].block >= available
    ensures i < |BatchMarks(s, events, available)| && BatchMarks(s, events, available)[i].block == events[j].block
    ensures BlocksRise(BatchMarks(s, events, available))
  {
    var last := j;
    while !EndsBlock(events, last)
      invariant j <= last < |events| && events[last].block == events[j].block
      decreases |events| - last
    {
      last := last + 1;
    }
    MarksRise(s, events, available, |events|);
    i := EndMarked(s, events, available, |events|, last);
  }

  // ---- the batch definition of the intervals ----

  /** The marks first, ..., end - 1; end == |marks| when the run reaches the end. */
  datatype Span = Span(first: nat, end: nat)

  /** A maximal run of marks at which the condition holds. */
  predicate IsRun(marks: seq<Mark>, holds: Condition, r: Span)
  {
    && r.first < r.end <= |marks|
    && (forall i :: r.first <= i < r.end ==> holds(marks[i]))
    && (r.first > 0 ==> !holds(marks[r.first - 1]))
    && (r.end < |marks| ==> !holds(marks[r.end]))
  }

  function OpenRun(marks: seq<Mark>, holds: Condition, n: nat): Option<nat>
    requires n <= |marks|
  {
    if n == 0 || !holds(marks[n - 1]) then None
    else if OpenRun(marks, holds, n - 1).Some? then OpenRun(marks, holds, n - 1) else Some(n - 1)
  }

  function ClosedRuns(marks: seq<Mark>, holds: Condition, n: nat): seq<Span>
    requires n <= |marks|
  {
    if n == 0 then []
    else
      var before, open := ClosedRuns(marks, holds, n - 1), OpenRun(marks, holds, n - 1);
      if !holds(marks[n - 1]) && open.Some? then before + [Span(open.value, n - 1)] else before
  }

  function Runs(marks: seq<Mark>, holds: Condition): seq<Span>
  {
    var open := OpenRun(marks, holds, |marks|);
    ClosedRuns(marks, holds, |marks|) + if open.Some? then [Span(open.value, |marks|)] else []
  }

  function IntervalOf(marks: seq<Mark>, r: Span): Interval
    requires r.first < r.end <= |marks|
  {
    if r.end < |marks| then Ended(marks[r.first], marks[r.end], false)
    else Ended(marks[r.first], marks[|marks| - 1], true)
  }

  lemma {:induction false} OpenRunMeans(marks: seq<Mark>, holds: Condition, n: nat)
    requires n <= |marks|
    ensures var open := OpenRun(marks, holds, n);
            && (open.Some? <==> n > 0 && holds(marks[n - 1]))
            && (open.Some? ==> open.value < n && (forall i :: open.value <= i < n ==> holds(marks[i])) &&
                               (open.value > 0 ==> !holds(marks[open.value - 1])))
  {
    if n > 0 { OpenRunMeans(marks, holds, n - 1); }
  }

  /** The closed runs are maximal, and in order with a mark between any two. */
  ghost predicate RunsInOrder(runs: seq<Span>)
  {
    forall k, l :: 0 <= k < l < |runs| ==> runs[k].end < runs[l].first
  }

  lemma {:induction false} ClosedRunsMean(marks: seq<Mark>, holds: Condition, n: nat)
    requires n <= |marks|
    ensures var runs := ClosedRuns(marks, holds, n);
            && RunsInOrder(runs)
            && (forall k :: 0 <= k < |runs| ==> IsRun(marks, holds, runs[k]) && runs[k].end < n)
            && (OpenRun(marks, holds, n).Some? ==>
                  forall k :: 0 <= k < |runs| ==> runs[k].end < OpenRun(marks, holds, n).value)
  {
    if n > 0 {
      ClosedRunsMean(marks, holds, n - 1);
      OpenRunMeans(marks, holds, n - 1);
    }
  }

  lemma {:induction false} EveryRunClosed(marks: seq<Mark>, holds: Condition, n: nat, r: Span)
    requires n <= |marks| && IsRun(marks, holds, r) && r.end < n
    ensures r in ClosedRuns(marks, holds, n)
  {
    OpenRunMeans(marks, holds, n - 1);
    if r.end == n - 1 {
      RunStart(marks, holds, n - 1, r);
    } else {
      EveryRunClosed(marks, holds, n - 1, r);
    }
  }

  /** A run that reaches n is the open one. */
  lemma {:induction false} RunStart(marks: seq<Mark>, holds: Condition, n: nat, r: Span)
    requires n <= |marks| && IsRun(marks, holds, r) && r.end == n
    ensures OpenRun(marks, holds, n) == Some(r.first)
  {
    OpenRunMeans(marks, holds, n);
    var open := OpenRun(marks, holds, n).value;
    assert holds(marks[n - 1]) && (open > 0 ==> !holds(marks[open - 1]));
  }

  /** Runs lists exactly the maximal runs, in order, disjoint and separated; only the last can reach the end. */
  lemma {:induction false} RunsAreMaximal(marks: seq<Mark>, holds: Condition, r: Span)
    ensures r in Runs(marks, holds) <==> IsRun(marks, holds, r)
    ensures RunsInOrder(Runs(marks, holds))
    ensures forall k :: 0 <= k < |Runs(marks, holds)| && Runs(marks, holds)[k].end == |marks| ==>
            k == |Runs(marks, holds)| - 1
  {
    var n := |marks|;
    ClosedRunsMean(marks, holds, n);
    OpenRunMeans(marks, holds, n);
    if IsRun(marks, holds, r) {
      if r.end < n { EveryRunClosed(marks, holds, n, r); } else { RunStart(marks, holds, n, r); }
    }
  }

  /** Every mark at which the condition holds lies in one of the runs. */
  lemma {:induction false} RunAround(marks: seq<Mark>, holds: Condition, m: nat) returns (r: Span)
    requires m < |marks| && holds(marks[m])
    ensures IsRun(marks, holds, r) && r.first <= m < r.end
  {
    OpenRunMeans(marks, holds, m + 1);
    var first := OpenRun(marks, holds, m + 1).value;
    var end := m + 1;
    while end < |marks| && holds(marks[end])
      invariant m < end <= |marks|
      invariant forall i :: first <= i < end ==> holds(marks[i])
    {
      end := end + 1;
    }
    r := Span(first, end);
  }

  /** Where one condition implies another, each of its intervals lies inside one interval of the other. */
  lemma {:induction false} NarrowerRunInside(marks: seq<Mark>, narrow: Condition, wide: Condition,
        r: Span) returns (around: Span)
    requires IsRun(marks, narrow, r) && forall i :: 0 <= i < |marks| && narrow(marks[i]) ==> wide(marks[i])
    ensures IsRun(marks, wide, around) && around in Runs(marks, wide) && around.first <= r.first && r.end <= around.end
  {
    around := RunAround(marks, wide, r.first);
    RunsAreMaximal(marks, wide, around);
  }

  // ---- the one-pass track equals the batch runs ----

  function Intervals(marks: seq<Mark>, runs: seq<Span>): seq<Interval>
    requires forall k :: 0 <= k < |runs| ==> runs[k].first < runs[k].end <= |marks|
  {
    seq(|runs|, k requires 0 <= k < |runs| => IntervalOf(marks, runs[k]))
  }

  function Count(marks: seq<Mark>, holds: Condition): nat
  {
    if marks == [] then 0 else Count(marks[..|marks| - 1], holds) + if holds(marks[|marks| - 1]) then 1 else 0
  }

  ghost predicate Follows(t: Track, marks: seq<Mark>, holds: Condition, n: nat)
    requires n <= |marks|
  {
    ClosedRunsMean(marks, holds, n);
    OpenRunMeans(marks, holds, n);
    var open := OpenRun(marks, holds, n);
    && t.openedAt == (if open.None? then None else Some(marks[open.value]))
    && t.intervals == Intervals(marks, ClosedRuns(marks, holds, n))
    && t.count == Count(marks[..n], holds)
  }

  lemma {:induction false} IntervalsOfOneMore(marks: seq<Mark>, runs: seq<Span>, last: Span)
    requires forall k :: 0 <= k < |runs| ==> runs[k].first < runs[k].end <= |marks|
    requires last.first < last.end <= |marks|
    ensures forall k :: 0 <= k <= |runs| ==> var r := (runs + [last])[k]; r.first < r.end <= |marks|
    ensures Intervals(marks, runs + [last]) == Intervals(marks, runs) + [IntervalOf(marks, last)]
  {
  }

  lemma {:induction false} NextPrefix(marks: seq<Mark>, holds: Condition, n: nat)
    requires 0 < n <= |marks|
    ensures TrackOf(marks[..n], holds) == Tracked(TrackOf(marks[..n - 1], holds), holds(marks[n - 1]), marks[n - 1])
    ensures Count(marks[..n], holds) == Count(marks[..n - 1], holds) + if holds(marks[n - 1]) then 1 else 0
  {
    assert marks[..n][..n - 1] == marks[..n - 1];
  }

  lemma {:induction false} TrackedFollows(t: Track, marks: seq<Mark>, holds: Condition, n: nat)
    requires 0 < n <= |marks| && Follows(t, marks, holds, n - 1)
    ensures Follows(Tracked(t, holds(marks[n - 1]), marks[n - 1]), marks, holds, n)
  {
    hide TrackOf, Count, Intervals, RunsInOrder;
    ClosedRunsMean(marks, holds, n);
    OpenRunMeans(marks, holds, n);
    ClosedRunsMean(marks, holds, n - 1);
    OpenRunMeans(marks, holds, n - 1);
    NextPrefix(marks, holds, n);
    var open := OpenRun(marks, holds, n - 1);
    if !holds(marks[n - 1]) && open.Some? {
      IntervalsOfOneMore(marks, ClosedRuns(marks, holds, n - 1), Span(open.value, n - 1));
    }
  }

  lemma {:induction false} TrackFollows(marks: seq<Mark>, holds: Condition, n: nat)
    requires n <= |marks|
    ensures Follows(TrackOf(marks[..n], holds), marks, holds, n)
  {
    if n > 0 {
      hide Follows, Tracked;
      TrackFollows(marks, holds, n - 1);
      NextPrefix(marks, holds, n);
      TrackedFollows(TrackOf(marks[..n - 1], holds), marks, holds, n);
    }
  }

  /** The one-pass track reports exactly the maximal runs, in order, the last one unresolved when it reaches the end,
      and counts the marks at which the condition holds. */
  lemma {:induction false} TrackIsBatch(marks: seq<Mark>, holds: Condition)
    requires marks != []
    ensures forall k :: 0 <= k < |Runs(marks, holds)| ==>
            Runs(marks, holds)[k].first < Runs(marks, holds)[k].end <= |marks|
    ensures Finished(TrackOf(marks, holds), marks[|marks| - 1]) == Intervals(marks, Runs(marks, holds))
    ensures TrackOf(marks, holds).count == Count(marks, holds)
  {
    var n := |marks|;
    assert marks[..n] == marks;
    TrackFollows(marks, holds, n);
    ClosedRunsMean(marks, holds, n);
    OpenRunMeans(marks, holds, n);
    var closed, open := ClosedRuns(marks, holds, n), OpenRun(marks, holds, n);
    if open.Some? {
      IntervalsOfOneMore(marks, closed, Span(open.value, n));
    } else {
      assert closed + [] == closed;
    }
  }

  // ---- the loop ----

  predicate Empty(m: Mark)
  {
    m.state.liquidity == 0
  }

  predicate EmptyBoundary(m: Mark, lowest: int, highest: int)
  {
    m.state.liquidity == 0 && (m.state.price == lowest || m.state.price == highest)
  }

  function IsEmpty(): Condition
  {
    m => Empty(m)
  }

  function IsEmptyBoundary(lowest: int, highest: int): Condition
  {
    m => EmptyBoundary(m, lowest, highest)
  }

  predicate TimesRise(marks: seq<Mark>)
  {
    forall i, j :: 0 <= i < j < |marks| ==> marks[i].at <= marks[j].at
  }

  /** The intervals reported for one condition. */
  function Reported(marks: seq<Mark>, holds: Condition): seq<Interval>
    requires marks != []
  {
    Finished(TrackOf(marks, holds), marks[|marks| - 1])
  }

  predicate InTimeOrder(events: seq<Event>)
  {
    forall i, j :: 0 <= i < j < |events| ==> events[i].at <= events[j].at
  }

  predicate NoneAfter(marks: seq<Mark>, at: int)
  {
    forall i :: 0 <= i < |marks| ==> marks[i].at <= at
  }

  lemma {:induction false} MarkTimesRise(s: State, events: seq<Event>, available: int, k: nat)
    requires InTimeOrder(events) && k <= |events| && StateAfter(s, events, |events|).Some?
    ensures TimesRise(MarksBefore(s, events, available, k))
    ensures k > 0 ==> NoneAfter(MarksBefore(s, events, available, k), events[k - 1].at)
  {
    if k > 0 {
      PrefixRuns(s, events, k);
      MarkTimesRise(s, events, available, k - 1);
      var before := MarksBefore(s, events, available, k - 1);
      if k > 1 {
        assert events[k - 2].at <= events[k - 1].at;
        assert NoneAfter(before, events[k - 1].at);
      }
    }
  }

  lemma {:induction false} InsideReported(marks: seq<Mark>, narrow: Condition, wide: Condition, k: nat) returns (l: nat)
    requires marks != [] && TimesRise(marks) && k < |Reported(marks, narrow)|
    requires forall i :: 0 <= i < |marks| && narrow(marks[i]) ==> wide(marks[i])
    ensures var inner, outer := Reported(marks, narrow)[k], Reported(marks, wide);
            && l < |outer| && outer[l].start.at <= inner.start.at && inner.endAt <= outer[l].endAt
            && (inner.unresolvedAtEnd ==> outer[l].unresolvedAtEnd)
  {
    hide Runs, TrackOf, Finished;
    TrackIsBatch(marks, narrow);
    TrackIsBatch(marks, wide);
    var r := Runs(marks, narrow)[k];
    RunsAreMaximal(marks, narrow, r);
    var around := NarrowerRunInside(marks, narrow, wide, r);
    l :| 0 <= l < |Runs(marks, wide)| && Runs(marks, wide)[l] == around;
    assert Reported(marks, wide)[l] == IntervalOf(marks, around) && Reported(marks, narrow)[k] == IntervalOf(marks, r);
  }

  /** For events in time order, every interval reported of an empty book at a price limit lies inside one interval
      reported of an empty book, and is unresolved at the end only if that one is. */
  lemma {:induction false} BoundaryInsideEmpty(s: State, events: seq<Event>, available: int, lowest: int,
        highest: int, k: nat) returns (l: nat)
    requires InTimeOrder(events) && StateAfter(s, events, |events|).Some? && BatchMarks(s, events, available) != []
    requires k < |Reported(BatchMarks(s, events, available), IsEmptyBoundary(lowest, highest))|
    ensures var marks := BatchMarks(s, events, available);
            var inner, outer := Reported(marks, IsEmptyBoundary(lowest, highest))[k], Reported(marks, IsEmpty());
            && l < |outer| && outer[l].start.at <= inner.start.at && inner.endAt <= outer[l].endAt
            && (inner.unresolvedAtEnd ==> outer[l].unresolvedAtEnd)
  {
    hide Reported, MarksBefore;
    MarkTimesRise(s, events, available, |events|);
    l := InsideReported(BatchMarks(s, events, available), IsEmptyBoundary(lowest, highest), IsEmpty(), k);
  }

  class Diagnostic {
    var state: State
    var pending: Option<Event>
    var previous: Option<Mark>
    var marks: nat
    var empty: Track
    var boundary: Track
    const available: int
    const lowest: int
    const highest: int
    ghost var seen: seq<Mark>

    ghost predicate Valid()
      reads this
    {
      && marks == |seen| && empty == TrackOf(seen, IsEmpty())
      && boundary == TrackOf(seen, IsEmptyBoundary(lowest, highest))
      && previous == if seen == [] then None else Some(seen[|seen| - 1])
    }

    constructor (seed: State, available: int, lowest: int, highest: int)
      ensures Valid() && state == seed && pending == None && seen == []
      ensures this.available == available && this.lowest == lowest && this.highest == highest
    {
      state, pending, previous, marks := seed, None, None, 0;
      empty, boundary, seen := NO_TRACK, NO_TRACK, [];
      this.available, this.lowest, this.highest := available, lowest, highest;
    }

    /** mark(event) */
    method TakeMark(e: Event)
      requires Valid()
      modifies this
      ensures Valid() && state == old(state) && pending == old(pending)
      ensures seen == if e.block >= available then old(seen) + [Mark(e.at, e.block, state)] else old(seen)
    {
      if e.block < available { return; }
      var current := Mark(e.at, e.block, state);
      marks := marks + 1;
      empty := Tracked(empty, Empty(current), current);
      boundary := Tracked(boundary, EmptyBoundary(current, lowest, highest), current);
      previous := Some(current);
      seen := seen + [current];
      assert seen[..|seen| - 1] == old(seen);
    }

    /** The body of the event loop. */
    method Consume(e: Event) returns (ok: bool)
      requires Valid()
      modifies this
      ensures ok <==> Applied(old(state), e).Some?
      ensures Valid() && seen == old(seen) + NewMark(old(pending), e, old(state), available)
      ensures ok ==> Some(state) == Applied(old(state), e) && pending == Some(e)
    {
      if pending.Some? && pending.value.block != e.block { TakeMark(pending.value); }
      var next := Applied(state, e);
      if next.None? { return false; }
      state := next.value;
      pending := Some(e);
      ok := true;
    }

    /** What follows the loop: the last mark and the open intervals. */
    method Close(after: State) returns (r: Option<(nat, seq<Interval>, seq<Interval>)>)
      requires Valid()
      modifies this
      ensures Valid() && seen == old(seen) + LastMark(old(pending), old(state), available)
      ensures r.Some? <==> old(state) == after && seen != []
      ensures r.Some? ==>
                && r.value.0 == |seen|
                && r.value.1 == Finished(TrackOf(seen, IsEmpty()), seen[|seen| - 1])
                && r.value.2 == Finished(TrackOf(seen, IsEmptyBoundary(lowest, highest)), seen[|seen| - 1])
    {
      if pending.Some? { TakeMark(pending.value); }
      if previous.None? || state != after { return None; }
      r := Some((marks, Finished(empty, previous.value), Finished(boundary, previous.value)));
    }

    /** The whole pass over one pool; None when an assertion fails. */
    method Run(events: seq<Event>, after: State) returns (r: Option<(nat, seq<Interval>, seq<Interval>)>)
      requires Valid() && seen == [] && pending == None
      modifies this
      ensures r.Some? <==>
                StateAfter(old(state), events, |events|) == Some(after) &&
                  BatchMarks(old(state), events, available) != []
      ensures r.Some? ==>
                var batch := BatchMarks(old(state), events, available);
                && r.value.0 == |batch|
                && r.value.1 == Finished(TrackOf(batch, IsEmpty()), batch[|batch| - 1])
                && r.value.2 == Finished(TrackOf(batch, IsEmptyBoundary(lowest, highest)), batch[|batch| - 1])
    {
      hide TrackOf, Finished, IsEmpty, IsEmptyBoundary, BatchMarks, Applied, LastMark;
      ghost var seed := state;
      assert StateAfter(seed, events, 0) == Some(seed);
      for i := 0 to |events|
        invariant Valid() && StateAfter(seed, events, i) == Some(state)
        invariant pending == if i == 0 then None else Some(events[i - 1])
        invariant seen == MarksSoFar(seed, events, available, i)
      {
        FoldNext(Applier(), seed, events, i);
        var ok := Consume(events[i]);
        if !ok {
          FoldFails(Applier(), seed, events, i + 1);
          assert events[..|events|] == events;
          return None;
        }
      }
      AllIsBatch(seed, events, available);
      r := Close(after);
    }
  }

  /** The mark taken when an event of another block arrives. */
  function NewMark(pending: Option<Event>, e: Event, s: State, available: int): seq<Mark>
  {
    if pending.Some? && pending.value.block != e.block then LastMark(pending, s, available) else []
  }

  function LastMark(pending: Option<Event>, s: State, available: int): seq<Mark>
  {
    if pending.Some? && pending.value.block >= available then [Mark(pending.value.at, pending.value.block, s)] else []
  }

  /** What the loop has marked after n events: the blocks that ended before event n - 1. */
  ghost function MarksSoFar(s: State, events: seq<Event>, available: int, n: nat): seq<Mark>
    requires n <= |events| && StateAfter(s, events, n).Some?
    decreases n
  {
    if n <= 1 then []
    else
      assert events[..n][..n - 1] == events[..n - 1];
      MarksSoFar(s, events, available, n - 1) +
        NewMark(Some(events[n - 2]), events[n - 1], StateAfter(s, events, n - 1).value, available)
  }

  lemma {:induction false} AllIsBatch(s: State, events: seq<Event>, available: int)
    requires StateAfter(s, events, |events|).Some?
    ensures var last := if events == [] then None else Some(events[|events| - 1]);
            BatchMarks(s, events, available) ==
            MarksSoFar(s, events, available, |events|) +
              LastMark(last, StateAfter(s, events, |events|).value, available)
  {
    SoFarIsBatch(s, events, available, |events|);
  }

  lemma {:induction false} SoFarIsBatch(s: State, events: seq<Event>, available: int, n: nat)
    requires n <= |events| && StateAfter(s, events, |events|).Some?
    ensures StateAfter(s, events, n).Some?
    ensures MarksSoFar(s, events, available, n) == if n == 0 then [] else MarksBefore(s, events, available, n - 1)
  {
    PrefixRuns(s, events, n);
    if n > 1 {
      SoFarIsBatch(s, events, available, n - 1);
      PrefixRuns(s, events, n - 1);
    }
  }
}
