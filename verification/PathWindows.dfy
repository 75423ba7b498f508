/** The greedy window loop of the path analysis (analyze in scripts/analyze-lp-hours.py). Times are milliseconds. */
module PathWindows {
  import opened Prelude

  const MINUTE: int := 60_000
  const LONGEST_GAP: int := 600_000
  const SLACK: int := 360_000

  /** A checkpoint with the ticks of the swaps since the one before. */
  datatype Frame = Frame(at: int, tick: int, swapTicks: seq<int>)

  /** The market session of an instant. */
  type Regime = int -> string

  datatype Window = Window(first: nat, last: nat, minTick: int, maxTick: int)

  datatype Reason = Transition | Gap

  // ---- extremes ----

  function Lowest(ticks: seq<int>): int
    requires ticks != []
  {
    if |ticks| == 1 then ticks[0] else Min(Lowest(ticks[..|ticks| - 1]), ticks[|ticks| - 1])
  }

  function Highest(ticks: seq<int>): int
    requires ticks != []
  {
    if |ticks| == 1 then ticks[0] else Max(Highest(ticks[..|ticks| - 1]), ticks[|ticks| - 1])
  }

  lemma {:induction false} ExtremesMean(ticks: seq<int>)
    requires ticks != []
    ensures Lowest(ticks) in ticks && Highest(ticks) in ticks
    ensures forall t :: t in ticks ==> Lowest(ticks) <= t <= Highest(ticks)
  {
    if |ticks| > 1 {
      var front := ticks[..|ticks| - 1];
      ExtremesMean(front);
      assert ticks == front + [ticks[|ticks| - 1]];
    }
  }

  /** The swap and checkpoint ticks of a frame: minTick and maxTick are its extremes. */
  function FrameTicks(f: Frame): (ticks: seq<int>)
    ensures ticks != []
  {
    f.swapTicks + [f.tick]
  }

  /** lo and hi over the frames first + 1, ..., last, starting from the tick of the first. */
  function LowestOver(frames: seq<Frame>, first: nat, last: nat): int
    requires first <= last < |frames|
    decreases last - first
  {
    if first == last then frames[first].tick
    else Min(LowestOver(frames, first, last - 1), Lowest(FrameTicks(frames[last])))
  }

  function HighestOver(frames: seq<Frame>, first: nat, last: nat): int
    requires first <= last < |frames|
    decreases last - first
  {
    if first == last then frames[first].tick
    else Max(HighestOver(frames, first, last - 1), Highest(FrameTicks(frames[last])))
  }

  /** The ticks seen in a window: where it starts, and every swap and checkpoint up to its end. */
  predicate SeenIn(frames: seq<Frame>, first: nat, last: nat, tick: int)
    requires first <= last < |frames|
  {
    tick == frames[first].tick || exists j :: first < j <= last && tick in FrameTicks(frames[j])
  }

  lemma {:induction false} SeenOneMore(frames: seq<Frame>, first: nat, last: nat, t: int)
    requires first < last < |frames|
    ensures SeenIn(frames, first, last, t) <==> SeenIn(frames, first, last - 1, t) || t in FrameTicks(frames[last])
  {
  }

  /** The recorded extremes are ticks seen in the window, and no tick seen there lies outside them. */
  lemma {:induction false} ExtremesOfWindow(frames: seq<Frame>, first: nat, last: nat)
    requires first <= last < |frames|
    ensures SeenIn(frames, first, last, LowestOver(frames, first, last))
    ensures SeenIn(frames, first, last, HighestOver(frames, first, last))
    ensures forall t :: SeenIn(frames, first, last, t) ==>
              LowestOver(frames, first, last) <= t <= HighestOver(frames, first, last)
    decreases last - first
  {
    if first < last {
      hide Lowest, Highest, SeenIn, FrameTicks;
      ExtremesOfWindow(frames, first, last - 1);
      ExtremesMean(FrameTicks(frames[last]));
      forall t
        ensures SeenIn(frames, first, last, t) <==> SeenIn(frames, first, last - 1, t) || t in FrameTicks(frames[last])
      {
        SeenOneMore(frames, first, last, t);
      }
    }
  }

  // ---- one attempt ----

  /** The first frame at least the horizon after the start, or |frames|. */
  function EndOf(frames: seq<Frame>, first: nat, horizon: int, from: nat): (end: nat)
    requires first < from <= |frames|
    ensures from <= end <= |frames|
    decreases |frames| - from
  {
    if from < |frames| && frames[from].at - frames[first].at < horizon * MINUTE then
      EndOf(frames, first, horizon, from + 1)
    else from
  }

  function CeilMinutes(duration: int): int
  {
    (duration + MINUTE - 1) / MINUTE
  }

  predicate SameRegime(regime: Regime, a: Frame, b: Frame)
  {
    && regime(b.at) == regime(a.at)
    && forall i :: 0 <= i < CeilMinutes(b.at - a.at) ==> regime(a.at + i * MINUTE) == regime(a.at)
  }

  function LongestGap(frames: seq<Frame>, first: nat, last: nat): int
    requires first < last < |frames|
    decreases last - first
  {
    var gap := frames[last].at - frames[last - 1].at;
    if first == last - 1 then gap else Max(LongestGap(frames, first, last - 1), gap)
  }

  function Rejection(regime: Regime, frames: seq<Frame>, first: nat, last: nat, horizon: int,
        allowGaps: bool): Option<Reason>
    requires first < last < |frames|
  {
    if !SameRegime(regime, frames[first], frames[last]) then Some(Transition)
    else if (LongestGap(frames, first, last) > LONGEST_GAP && !allowGaps) ||
            frames[last].at - frames[first].at > horizon * MINUTE + SLACK then Some(Gap)
    else None
  }

  datatype Outcome = Outcome(windows: seq<Window>, transitions: nat, gaps: nat)

  const NO_OUTCOME := Outcome([], 0, 0)

  function Rejected(o: Outcome, r: Reason): Outcome
  {
    if r == Transition then o.(transitions := o.transitions + 1) else o.(gaps := o.gaps + 1)
  }

  function WindowAt(frames: seq<Frame>, first: nat, last: nat): Window
    requires first <= last < |frames|
  {
    Window(first, last, LowestOver(frames, first, last), HighestOver(frames, first, last))
  }

  /** The whole scan from a start on, added to what was found before. */
  function Scan(regime: Regime, frames: seq<Frame>, horizon: int, allowGaps: bool, start: nat, o: Outcome): Outcome
    requires start <= |frames|
    decreases |frames| - start
  {
    if start + 1 >= |frames| then o
    else
      var end := EndOf(frames, start, horizon, start + 1);
      if end == |frames| then o
      else match Rejection(regime, frames, start, end, horizon, allowGaps)
        case Some(r) => Scan(regime, frames, horizon, allowGaps, start + 1, Rejected(o, r))
        case None =>
          Scan(regime, frames, horizon, allowGaps, end, o.(windows := o.windows + [WindowAt(frames, start, end)]))
  }

  method Analyze(regime: Regime, frames: seq<Frame>, horizon: int, allowGaps: bool) returns (o: Outcome)
    ensures o == Scan(regime, frames, horizon, allowGaps, 0, NO_OUTCOME)
  {
    o := NO_OUTCOME;
    var start: nat := 0;
    while start + 1 < |frames|
      invariant start <= |frames|
      invariant Scan(regime, frames, horizon, allowGaps, start, o) ==
                Scan(regime, frames, horizon, allowGaps, 0, NO_OUTCOME)
      decreases |frames| - start
    {
      var end: nat := start + 1;
      while end < |frames| && frames[end].at - frames[start].at < horizon * MINUTE
        invariant start < end <= |frames|
        invariant EndOf(frames, start, horizon, end) == EndOf(frames, start, horizon, start + 1)
        decreases |frames| - end
      {
        end := end + 1;
      }
      if end == |frames| { return; }
      var reason := Rejection(regime, frames, start, end, horizon, allowGaps);
      if reason.Some? {
        o := Rejected(o, reason.value);
        start := start + 1;
        continue;
      }
      var lo, hi := Extremes(frames, start, end);
      o := o.(windows := o.windows + [Window(start, end, lo, hi)]);
      start := end;
    }
  }

  method Extremes(frames: seq<Frame>, first: nat, last: nat) returns (lo: int, hi: int)
    requires first <= last < |frames|
    ensures lo == LowestOver(frames, first, last) && hi == HighestOver(frames, first, last)
  {
    lo, hi := frames[first].tick, frames[first].tick;
    for j := first + 1 to last + 1
      invariant lo == LowestOver(frames, first, j - 1) && hi == HighestOver(frames, first, j - 1)
    {
      lo := Min(lo, Lowest(FrameTicks(frames[j])));
      hi := Max(hi, Highest(FrameTicks(frames[j])));
    }
  }

  // ---- what the windows are ----

  lemma {:induction false} EndOfMeans(frames: seq<Frame>, first: nat, horizon: int, from: nat)
    requires first < from <= |frames|
    ensures var end := EndOf(frames, first, horizon, from);
            && (forall j :: from <= j < end ==> frames[j].at - frames[first].at < horizon * MINUTE)
            && (end < |frames| ==> frames[end].at - frames[first].at >= horizon * MINUTE)
    decreases |frames| - from
  {
    if from < |frames| && frames[from].at - frames[first].at < horizon * MINUTE {
      EndOfMeans(frames, first, horizon, from + 1);
    }
  }

  /** A window of this horizon: it ends at the first frame that reaches the horizon, not more than six minutes late,
      within one regime, with its true extremes. */
  ghost predicate Good(regime: Regime, frames: seq<Frame>, horizon: int, allowGaps: bool, w: Window)
  {
    && w.first < w.last < |frames|
    && horizon * MINUTE <= frames[w.last].at - frames[w.first].at <= horizon * MINUTE + SLACK
    && (forall j :: w.first < j < w.last ==> frames[j].at - frames[w.first].at < horizon * MINUTE)
    && SameRegime(regime, frames[w.first], frames[w.last])
    && (allowGaps || LongestGap(frames, w.first, w.last) <= LONGEST_GAP)
    && w == WindowAt(frames, w.first, w.last)
  }

  /** Windows in order that share at most an endpoint, all before a start. */
  ghost predicate Laid(regime: Regime, frames: seq<Frame>, horizon: int, allowGaps: bool, windows: seq<Window>,
        start: nat)
  {
    && (forall k :: 0 <= k < |windows| ==>
        Good(regime, frames, horizon, allowGaps, windows[k]) && windows[k].last <= start)
    && (forall k, l :: 0 <= k < l < |windows| ==> windows[k].last <= windows[l].first)
  }

  lemma {:induction false} AcceptedIsGood(regime: Regime, frames: seq<Frame>, horizon: int, allowGaps: bool, start: nat)
    requires start + 1 < |frames| && EndOf(frames, start, horizon, start + 1) < |frames|
    requires Rejection(regime, frames, start, EndOf(frames, start, horizon, start + 1), horizon, allowGaps) == None
    ensures Good(regime, frames, horizon, allowGaps, WindowAt(frames, start, EndOf(frames, start, horizon, start + 1)))
  {
    EndOfMeans(frames, start, horizon, start + 1);
  }

  lemma {:induction false} ScanLays(regime: Regime, frames: seq<Frame>, horizon: int, allowGaps: bool, start: nat,
        o: Outcome)
    requires start <= |frames| && Laid(regime, frames, horizon, allowGaps, o.windows, start)
    ensures Laid(regime, frames, horizon, allowGaps, Scan(regime, frames, horizon, allowGaps, start, o).windows,
                 |frames|)
    decreases |frames| - start
  {
    hide Good, LowestOver, HighestOver;
    if start + 1 < |frames| {
      var end := EndOf(frames, start, horizon, start + 1);
      if end < |frames| {
        match Rejection(regime, frames, start, end, horizon, allowGaps)
        case Some(r) => ScanLays(regime, frames, horizon, allowGaps, start + 1, Rejected(o, r));
        case None =>
          var w := WindowAt(frames, start, end);
          AcceptedIsGood(regime, frames, horizon, allowGaps, start);
          ScanLays(regime, frames, horizon, allowGaps, end, o.(windows := o.windows + [w]));
      }
    }
  }

  /** The windows of one horizon are in order and overlap at most in an endpoint; each lasts between the horizon and
      six minutes more; and its tick extremes are those of every swap and checkpoint in it. */
  lemma {:induction false} WindowsAreGood(regime: Regime, frames: seq<Frame>, horizon: int, allowGaps: bool, k: nat,
        l: nat)
    requires var windows := Scan(regime, frames, horizon, allowGaps, 0, NO_OUTCOME).windows; k <= l < |windows|
    ensures var windows := Scan(regime, frames, horizon, allowGaps, 0, NO_OUTCOME).windows;
            && Good(regime, frames, horizon, allowGaps, windows[k])
            && (k < l ==> windows[k].last <= windows[l].first)
            && (forall t :: SeenIn(frames, windows[k].first, windows[k].last, t) ==>
                windows[k].minTick <= t <= windows[k].maxTick)
            && SeenIn(frames, windows[k].first, windows[k].last, windows[k].minTick)
            && SeenIn(frames, windows[k].first, windows[k].last, windows[k].maxTick)
  {
    ScanLays(regime, frames, horizon, allowGaps, 0, NO_OUTCOME);
    var w := Scan(regime, frames, horizon, allowGaps, 0, NO_OUTCOME).windows[k];
    ExtremesOfWindow(frames, w.first, w.last);
  }

  predicate InTimeOrder(frames: seq<Frame>)
  {
    forall i, j :: 0 <= i < j < |frames| ==> frames[i].at <= frames[j].at
  }

  /** Giving up at the first start that cannot reach the horizon loses nothing: no later start can. */
  lemma {:induction false} GivingUpLosesNothing(frames: seq<Frame>, horizon: int, start: nat, later: nat)
    requires InTimeOrder(frames) && start <= later && later + 1 < |frames|
    requires EndOf(frames, start, horizon, start + 1) == |frames|
    ensures EndOf(frames, later, horizon, later + 1) == |frames|
  {
    assert start < later ==> frames[start].at <= frames[later].at;
    EndOfMeans(frames, start, horizon, start + 1);
    EndOfMeans(frames, later, horizon, later + 1);
  }
}
