/** The sliding forecast window (sample and retainForecastSamples in src/adaptive-paper.ts). */
module ForecastWindow {
  import opened Prelude

  const SAMPLE_GAP: int := 60_000

  datatype ForecastSample = ForecastSample(at: int, price: int, growth0: int, growth1: int)

  /** The samples in use and when the last one was taken; None is the initial -Infinity. */
  datatype Window = Window(samples: seq<ForecastSample>, lastSampleAt: Option<int>)

  const EMPTY_WINDOW := Window([], None)

  predicate TooSoon(w: Window, at: int)
  {
    w.lastSampleAt.Some? && at - w.lastSampleAt.value < SAMPLE_GAP
  }

  function Trimmed(samples: seq<ForecastSample>, cutoff: int): seq<ForecastSample>
  {
    if |samples| > 1 && samples[1].at < cutoff then Trimmed(samples[1..], cutoff) else samples
  }

  function Sampled(w: Window, s: ForecastSample, lookbackMs: int): Window
  {
    if TooSoon(w, s.at) then w else Window(Trimmed(w.samples + [s], s.at - lookbackMs), Some(s.at))
  }

  class ForecastSampler {
    var samples: seq<ForecastSample>
    var lastSampleAt: Option<int>

    function State(): Window
      reads this
    {
      Window(samples, lastSampleAt)
    }

    constructor (w: Window)
      ensures State() == w
    {
      samples, lastSampleAt := w.samples, w.lastSampleAt;
    }

    method Sample(s: ForecastSample, lookbackMs: int)
      requires lookbackMs > 0
      modifies this
      ensures State() == Sampled(old(State()), s, lookbackMs)
    {
      if TooSoon(State(), s.at) { return; }
      samples := samples + [s];
      lastSampleAt := Some(s.at);
      Retain(s.at, lookbackMs);
    }

    method Retain(at: int, lookbackMs: int)
      requires lookbackMs > 0
      modifies this`samples
      ensures samples == Trimmed(old(samples), at - lookbackMs)
    {
      while |samples| > 1 && samples[1].at < at - lookbackMs
        invariant Trimmed(samples, at - lookbackMs) == Trimmed(old(samples), at - lookbackMs)
        decreases |samples|
      {
        samples := samples[1..];
      }
    }
  }

  // ---- the reference: the whole sample history ----

  function SampledAll(w: Window, offered: seq<ForecastSample>, lookbackMs: int): Window
    decreases |offered|
  {
    if offered == [] then w
    else Sampled(SampledAll(w, offered[..|offered| - 1], lookbackMs), offered[|offered| - 1], lookbackMs)
  }

  function Extended(h: seq<ForecastSample>, s: ForecastSample): seq<ForecastSample>
  {
    if h != [] && s.at - h[|h| - 1].at < SAMPLE_GAP then h else h + [s]
  }

  /** Every sample ever taken: the offered ones at least a minute after the one taken before. */
  function History(offered: seq<ForecastSample>): seq<ForecastSample>
    decreases |offered|
  {
    if offered == [] then [] else Extended(History(offered[..|offered| - 1]), offered[|offered| - 1])
  }

  ghost predicate Spaced(h: seq<ForecastSample>)
  {
    forall i, j :: 0 <= i < j < |h| ==> h[j].at >= h[i].at + SAMPLE_GAP
  }

  lemma {:induction false} HistorySpaced(offered: seq<ForecastSample>)
    ensures Spaced(History(offered))
    decreases |offered|
  {
    if offered != [] {
      HistorySpaced(offered[..|offered| - 1]);
    }
  }

  lemma {:induction false} SpanOfSpaced(w: seq<ForecastSample>)
    requires Spaced(w) && w != []
    ensures w[|w| - 1].at - w[0].at >= (|w| - 1) * SAMPLE_GAP
    decreases |w|
  {
    if |w| > 1 { SpanOfSpaced(w[..|w| - 1]); }
  }

  /** w is h from its newest entry older than the cutoff onward (from the start when there is none). */
  ghost predicate WindowFrom(h: seq<ForecastSample>, w: seq<ForecastSample>, from: nat, cutoff: int)
  {
    && from < |h| && w == h[from..]
    && (from == 0 || h[from].at < cutoff)
    && forall i :: from < i < |h| ==> h[i].at >= cutoff
  }

  ghost predicate IsWindow(h: seq<ForecastSample>, w: seq<ForecastSample>, cutoff: int)
  {
    exists from: nat :: WindowFrom(h, w, from, cutoff)
  }

  /** Trimming a tail of the history to a cutoff no earlier than the tail's own start. */
  lemma {:induction false} TrimToCutoff(h: seq<ForecastSample>, w: seq<ForecastSample>, from: nat, cutoff: int)
    requires Spaced(h) && from < |h| && w == h[from..] && (from == 0 || h[from].at < cutoff)
    ensures IsWindow(h, Trimmed(w, cutoff), cutoff)
    decreases |w|
  {
    if |w| > 1 && w[1].at < cutoff {
      TrimToCutoff(h, w[1..], from + 1, cutoff);
    } else {
      assert |w| > 1 ==> w[1] == h[from + 1];
      assert WindowFrom(h, w, from, cutoff);
    }
  }

  /** The window is the history from its newest entry older than the last cutoff onward. */
  ghost predicate Follows(h: seq<ForecastSample>, w: Window, lookbackMs: int)
  {
    if h == [] then w == EMPTY_WINDOW
    else w.lastSampleAt == Some(h[|h| - 1].at) && IsWindow(h, w.samples, h[|h| - 1].at - lookbackMs)
  }

  lemma {:induction false} WindowExtends(h: seq<ForecastSample>, w: seq<ForecastSample>, before: int,
        s: ForecastSample, cutoff: int)
    requires Spaced(h + [s]) && IsWindow(h, w, before) && before <= cutoff
    ensures IsWindow(h + [s], Trimmed(w + [s], cutoff), cutoff)
  {
    var from: nat :| WindowFrom(h, w, from, before);
    var after := h + [s];
    assert after[from] == h[from] && w + [s] == after[from..];
    TrimToCutoff(after, w + [s], from, cutoff);
  }

  lemma {:induction false} SampleFollows(h: seq<ForecastSample>, w: Window, s: ForecastSample, lookbackMs: int)
    requires lookbackMs > 0 && Spaced(Extended(h, s)) && Follows(h, w, lookbackMs)
    ensures Follows(Extended(h, s), Sampled(w, s, lookbackMs), lookbackMs)
  {
    hide Trimmed, IsWindow, Spaced;
    if !TooSoon(w, s.at) {
      var after, cutoff := h + [s], s.at - lookbackMs;
      assert Extended(h, s) == after && after[|after| - 1] == s;
      if h == [] {
        assert w.samples + [s] == after[0..];
        TrimToCutoff(after, w.samples + [s], 0, cutoff);
      } else {
        WindowExtends(h, w.samples, h[|h| - 1].at - lookbackMs, s, cutoff);
      }
      assert IsWindow(after, Sampled(w, s, lookbackMs).samples, cutoff);
    }
  }

  /** The incrementally trimmed window is always the one cut from the whole history. */
  lemma {:induction false} WindowIsHistorySuffix(offered: seq<ForecastSample>, lookbackMs: int)
    requires lookbackMs > 0
    ensures Follows(History(offered), SampledAll(EMPTY_WINDOW, offered, lookbackMs), lookbackMs)
    decreases |offered|
  {
    if offered != [] {
      var n := |offered| - 1;
      WindowIsHistorySuffix(offered[..n], lookbackMs);
      HistorySpaced(offered);
      SampleFollows(History(offered[..n]), SampledAll(EMPTY_WINDOW, offered[..n], lookbackMs), offered[n], lookbackMs);
    }
  }

  lemma {:induction false} SuffixSpaced(h: seq<ForecastSample>, from: nat)
    requires Spaced(h) && from <= |h|
    ensures Spaced(h[from..])
  {
  }

  lemma {:induction false} WindowSize(h: seq<ForecastSample>, w: seq<ForecastSample>, from: nat, lookbackMs: int)
    requires lookbackMs > 0 && Spaced(h) && h != [] && WindowFrom(h, w, from, h[|h| - 1].at - lookbackMs)
    ensures |w| <= lookbackMs / SAMPLE_GAP + 2
  {
    if |w| > 1 {
      var rest := h[from + 1..];
      SuffixSpaced(h, from + 1);
      SpanOfSpaced(rest);
      assert rest[0] == h[from + 1] && rest[|rest| - 1] == h[|h| - 1] && |rest| == |w| - 1;
    }
  }

  /** The window is strictly increasing with gaps of at least a minute and stays within its bound. */
  lemma {:induction false} WindowBounded(offered: seq<ForecastSample>, lookbackMs: int)
    requires lookbackMs > 0
    ensures var w := SampledAll(EMPTY_WINDOW, offered, lookbackMs).samples;
            Spaced(w) && |w| <= lookbackMs / SAMPLE_GAP + 2
  {
    var w, h := SampledAll(EMPTY_WINDOW, offered, lookbackMs), History(offered);
    WindowIsHistorySuffix(offered, lookbackMs);
    HistorySpaced(offered);
    if h != [] {
      var from: nat :| WindowFrom(h, w.samples, from, h[|h| - 1].at - lookbackMs);
      SuffixSpaced(h, from);
      WindowSize(h, w.samples, from, lookbackMs);
    }
  }
}
