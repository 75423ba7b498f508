/** The sorted list of initialized ticks kept beside the tick map: binary search, insertion and removal. */
module TickList {
  import opened Prelude
  import opened TickBook

  ghost predicate Sorted(ticks: seq<int>)
  {
    forall i, j :: 0 <= i < j < |ticks| ==> ticks[i] < ticks[j]
  }

  /** ticks lists exactly the book's ticks, in order. */
  ghost predicate Lists(ticks: seq<int>, book: Book)
  {
    Sorted(ticks) && (forall t :: t in ticks <==> t in book)
  }

  /** The number of listed ticks below a tick. */
  function Below(ticks: seq<int>, tick: int): (n: nat)
    ensures n <= |ticks|
  {
    if ticks == [] || ticks[0] >= tick then 0 else 1 + Below(ticks[1..], tick)
  }

  lemma {:induction false} BelowSplits(ticks: seq<int>, tick: int)
    requires Sorted(ticks)
    ensures forall i :: 0 <= i < Below(ticks, tick) ==> ticks[i] < tick
    ensures forall i :: Below(ticks, tick) <= i < |ticks| ==> ticks[i] >= tick
  {
    if ticks != [] && ticks[0] < tick {
      BelowSplits(ticks[1..], tick);
      assert forall i :: 0 < i < |ticks| ==> ticks[i] == ticks[1..][i - 1];
    }
  }

  lemma {:induction false} BelowUnique(ticks: seq<int>, tick: int, n: nat)
    requires n <= |ticks|
    requires forall i :: 0 <= i < n ==> ticks[i] < tick
    requires forall i :: n <= i < |ticks| ==> ticks[i] >= tick
    ensures n == Below(ticks, tick)
  {
    if n > 0 { BelowUnique(ticks[1..], tick, n - 1); }
  }

  method LowerBound(ticks: seq<int>, tick: int) returns (low: nat)
    requires Sorted(ticks)
    ensures low == Below(ticks, tick)
  {
    low := 0;
    var high := |ticks|;
    while low < high
      invariant 0 <= low <= high <= |ticks|
      invariant forall i :: 0 <= i < low ==> ticks[i] < tick
      invariant forall i :: high <= i < |ticks| ==> ticks[i] >= tick
    {
      var mid := (low + high) / 2;
      if ticks[mid] < tick { low := mid + 1; } else { high := mid; }
    }
    BelowUnique(ticks, tick, low);
  }

  /** The list after one tick's entry went from book to after (the splice calls of the source). */
  function Spliced(sorted: seq<int>, book: Book, after: Book, tick: int): seq<int>
  {
    var at := Below(sorted, tick);
    if tick in book && tick !in after && at < |sorted| then sorted[..at] + sorted[at + 1..]
    else if tick !in book && tick in after then sorted[..at] + [tick] + sorted[at..]
    else sorted
  }

  lemma {:induction false} BelowAt(sorted: seq<int>, tick: int)
    requires Sorted(sorted) && tick in sorted
    ensures Below(sorted, tick) < |sorted| && sorted[Below(sorted, tick)] == tick
  {
    if sorted[0] < tick { BelowAt(sorted[1..], tick); }
  }

  lemma {:induction false} JoinSorted(left: seq<int>, right: seq<int>)
    requires Sorted(left) && Sorted(right) && forall x, y :: x in left && y in right ==> x < y
    ensures Sorted(left + right) && forall t :: t in left + right <==> t in left || t in right
  {
    forall i, j | 0 <= i < j < |left + right|
      ensures (left + right)[i] < (left + right)[j]
    {
      if i < |left| <= j { assert left[i] in left && right[j - |left|] in right; }
    }
  }

  /** The parts of a sorted list on the two sides of a tick. */
  lemma {:induction false} SplitSorted(sorted: seq<int>, tick: int)
    requires Sorted(sorted)
    ensures var at := Below(sorted, tick);
            && Sorted(sorted[..at]) && Sorted(sorted[at..])
            && (forall t :: t in sorted[..at] <==> t in sorted && t < tick)
            && (forall t :: t in sorted[at..] <==> t in sorted && t >= tick)
  {
    var at := Below(sorted, tick);
    BelowSplits(sorted, tick);
    assert sorted == sorted[..at] + sorted[at..];
  }

  lemma {:induction false} SpliceIn(sorted: seq<int>, tick: int)
    requires Sorted(sorted) && tick !in sorted
    ensures var at := Below(sorted, tick); var after := sorted[..at] + [tick] + sorted[at..];
            Sorted(after) && forall t :: t in after <==> t == tick || t in sorted
  {
    var at := Below(sorted, tick);
    SplitSorted(sorted, tick);
    JoinSorted(sorted[..at], [tick]);
    JoinSorted(sorted[..at] + [tick], sorted[at..]);
  }

  lemma {:induction false} SpliceOut(sorted: seq<int>, tick: int)
    requires Sorted(sorted) && tick in sorted
    ensures var at := Below(sorted, tick);
            && at < |sorted| && sorted[at] == tick
            && var after := sorted[..at] + sorted[at + 1..];
               Sorted(after) && forall t :: t in after <==> t != tick && t in sorted
  {
    var at := Below(sorted, tick);
    BelowAt(sorted, tick);
    BelowSplits(sorted, tick);
    BelowUnique(sorted, tick + 1, at + 1);
    SplitSorted(sorted, tick);
    SplitSorted(sorted, tick + 1);
    JoinSorted(sorted[..at], sorted[at + 1..]);
  }

  lemma {:induction false} SplicedLists(sorted: seq<int>, book: Book, after: Book, tick: int)
    requires Lists(sorted, book) && forall t :: t != tick ==> (t in book <==> t in after)
    ensures Lists(Spliced(sorted, book, after, tick), after)
  {
    if tick in book { SpliceOut(sorted, tick); } else { SpliceIn(sorted, tick); }
  }

  method SortTicks(book: Book) returns (sorted: seq<int>)
    ensures Lists(sorted, book)
  {
    sorted := [];
    var rest := book.Keys;
    while rest != {}
      invariant Sorted(sorted)
      invariant forall t :: t in sorted <==> t in book && t !in rest
      decreases rest
    {
      var tick := AnyOf(rest);
      var at := LowerBound(sorted, tick);
      SpliceIn(sorted, tick);
      sorted := sorted[..at] + [tick] + sorted[at..];
      rest := rest - {tick};
    }
  }

  lemma {:induction false} ElementOf(s: seq<int>)
    requires s != []
    ensures exists t :: t in s
  {
    var t := s[0];
    assert t in s;
  }

  lemma {:induction false} LeastFirst(s: seq<int>, t: int)
    requires Sorted(s) && t in s
    ensures s[0] in s && s[0] <= t
  {
  }

  /** The listing is determined by the book, so reopening a seed restores the list exactly. */
  lemma {:induction false} ListingUnique(a: seq<int>, b: seq<int>)
    requires Sorted(a) && Sorted(b) && forall t :: t in a <==> t in b
    ensures a == b
  {
    if a != [] { ElementOf(a); }
    if b != [] { ElementOf(b); }
    if a != [] && b != [] {
      LeastFirst(a, a[0]);
      LeastFirst(b, b[0]);
      LeastFirst(a, b[0]);
      LeastFirst(b, a[0]);
      forall t
        ensures t in a[1..] <==> t in b[1..]
      {
        assert t in a <==> t == a[0] || t in a[1..];
        assert t in b <==> t == b[0] || t in b[1..];
      }
      ListingUnique(a[1..], b[1..]);
    }
  }
}
