/** The wrap-around keyset scan of the paper maintenance pass (advancePaperCampaignCursor and the page selection of
    runPaperMaintenancePass in src/deployments-paper-worker.ts). */
module CampaignScan {
  import opened Prelude

  /** Eligible campaign ids, ORDER BY id. */
  predicate Ascending(ids: seq<int>)
  {
    forall i, j :: 0 <= i < j < |ids| ==> ids[i] < ids[j]
  }

  predicate Past(id: int, cursor: Option<int>)
  {
    cursor.None? || id > cursor.value
  }

  /** WHERE of the first query (past) and of the wrap query (not past), in id order. */
  function Where(ids: seq<int>, cursor: Option<int>, past: bool): seq<int>
  {
    if ids == [] then []
    else
      var before, id := Where(ids[..|ids| - 1], cursor, past), ids[|ids| - 1];
      if Past(id, cursor) == past then before + [id] else before
  }

  function Limit(ids: seq<int>, n: nat): seq<int>
  {
    if |ids| <= n then ids else ids[..n]
  }

  function Page(ids: seq<int>, cursor: Option<int>, max: nat): seq<int>
  {
    var after := Limit(Where(ids, cursor, true), max);
    after + if cursor.Some? && |after| < max then Limit(Where(ids, cursor, false), max - |after|) else []
  }

  /** advancePaperCampaignCursor */
  function Advanced(page: seq<int>, cursor: Option<int>): Option<int>
  {
    if page == [] then cursor else Some(page[|page| - 1])
  }

  class CampaignScanner {
    var campaignCursor: Option<int>

    constructor ()
      ensures campaignCursor == None
    {
      campaignCursor := None;
    }

    /** One pass: the cursor moves before any campaign is worked on, so failures cannot hold it back. */
    method Pass(ids: seq<int>, max: nat) returns (campaigns: seq<int>)
      modifies this
      ensures campaigns == Page(ids, old(campaignCursor), max)
      ensures campaignCursor == Advanced(campaigns, old(campaignCursor))
    {
      campaigns := Limit(Where(ids, campaignCursor, true), max);
      if campaignCursor.Some? && |campaigns| < max {
        campaigns := campaigns + Limit(Where(ids, campaignCursor, false), max - |campaigns|);
      }
      if campaigns != [] { campaignCursor := Some(campaigns[|campaigns| - 1]); }
    }
  }

  // ---- the page is the next stretch of the cycle ----

  /** How many ids are not past the cursor. */
  function Passed(ids: seq<int>, cursor: Option<int>): (n: nat)
    ensures n <= |ids|
  {
    if ids == [] then 0 else Passed(ids[..|ids| - 1], cursor) + if Past(ids[|ids| - 1], cursor) then 0 else 1
  }

  /** The ids in cyclic order, starting after the cursor. */
  function Cycle(ids: seq<int>, cursor: Option<int>): seq<int>
  {
    ids[Passed(ids, cursor)..] + ids[..Passed(ids, cursor)]
  }

  lemma {:induction false} PassedSplits(ids: seq<int>, cursor: Option<int>)
    requires Ascending(ids)
    ensures forall i :: 0 <= i < |ids| ==> (Past(ids[i], cursor) <==> i >= Passed(ids, cursor))
  {
    if ids != [] {
      var front, last := ids[..|ids| - 1], ids[|ids| - 1];
      PassedSplits(front, cursor);
      assert forall i :: 0 <= i < |front| ==> front[i] == ids[i] < last;
      if !Past(last, cursor) {
        assert forall i :: 0 <= i < |front| ==> !Past(front[i], cursor);
        if |front| > 0 { assert !Past(front[|front| - 1], cursor); }
      }
    }
  }

  lemma {:induction false} LastSlices(ids: seq<int>, k: nat)
    requires ids != [] && k < |ids|
    ensures ids[k..] == ids[..|ids| - 1][k..] + [ids[|ids| - 1]] && ids[..k] == ids[..|ids| - 1][..k]
  {
  }

  lemma {:induction false} NonePast(ids: seq<int>, cursor: Option<int>)
    requires Ascending(ids) && ids != [] && !Past(ids[|ids| - 1], cursor)
    ensures Passed(ids, cursor) == |ids|
  {
    PassedSplits(ids, cursor);
  }

  lemma {:induction false} WhereSplits(ids: seq<int>, cursor: Option<int>)
    requires Ascending(ids)
    ensures Where(ids, cursor, true) == ids[Passed(ids, cursor)..] &&
            Where(ids, cursor, false) == ids[..Passed(ids, cursor)]
  {
    if ids != [] {
      var front, last := ids[..|ids| - 1], ids[|ids| - 1];
      WhereSplits(front, cursor);
      if Past(last, cursor) {
        LastSlices(ids, Passed(front, cursor));
      } else {
        NonePast(ids, cursor);
        assert front[..|front|] == front && front[|front|..] == [] && ids[|ids|..] == [] &&
               ids[..|ids|] == front + [last];
      }
    }
  }

  lemma {:induction false} LimitConcat(a: seq<int>, b: seq<int>, n: nat)
    ensures Limit(a + b, n) == Limit(a, n) + if |Limit(a, n)| < n then Limit(b, n - |Limit(a, n)|) else []
    ensures |Limit(a + b, n)| == Min(n, |a| + |b|)
  {
  }

  lemma {:induction false} CycleDistinct(ids: seq<int>, cursor: Option<int>, i: nat, j: nat)
    requires Ascending(ids) && i < j < |ids|
    ensures Cycle(ids, cursor)[i] != Cycle(ids, cursor)[j]
  {
    var n, k := |ids|, Passed(ids, cursor);
    var at, other := if i < n - k then k + i else i - (n - k), if j < n - k then k + j else j - (n - k);
    assert Cycle(ids, cursor)[i] == ids[at] && Cycle(ids, cursor)[j] == ids[other] && at != other;
  }

  /** A page is the next min(max, n) ids of the cycle, without repetition. */
  lemma {:induction false} PageIsNext(ids: seq<int>, cursor: Option<int>, max: nat)
    requires Ascending(ids)
    ensures Page(ids, cursor, max) == Limit(Cycle(ids, cursor), max)
    ensures |Page(ids, cursor, max)| == Min(max, |ids|)
    ensures forall i, j :: 0 <= i < j < |Page(ids, cursor, max)| ==>
            Page(ids, cursor, max)[i] != Page(ids, cursor, max)[j]
  {
    var k := Passed(ids, cursor);
    WhereSplits(ids, cursor);
    LimitConcat(ids[k..], ids[..k], max);
    if cursor.None? {
      PassedSplits(ids, cursor);
      if k > 0 { assert Past(ids[0], cursor); }
      assert Limit(ids[..0], max) == [];
    }
    forall i, j | 0 <= i < j < |Page(ids, cursor, max)|
      ensures Page(ids, cursor, max)[i] != Page(ids, cursor, max)[j]
    {
      CycleDistinct(ids, cursor, i, j);
    }
  }

  // ---- fairness ----

  /** y comes no later than x in the cycle after the cursor. */
  predicate NoLater(y: int, x: int, cursor: Option<int>)
  {
    if Past(y, cursor) == Past(x, cursor) then y <= x else Past(y, cursor)
  }

  /** The campaigns due before x, and x itself. */
  function Ahead(ids: seq<int>, cursor: Option<int>, x: int): set<int>
  {
    set y | y in ids && NoLater(y, x, cursor)
  }

  lemma {:induction false} CycleOrdered(ids: seq<int>, cursor: Option<int>)
    requires Ascending(ids)
    ensures |Cycle(ids, cursor)| == |ids| && forall y :: y in Cycle(ids, cursor) <==> y in ids
    ensures forall i, j :: 0 <= i < j < |ids| ==> !NoLater(Cycle(ids, cursor)[j], Cycle(ids, cursor)[i], cursor)
  {
    PassedSplits(ids, cursor);
    var k := Passed(ids, cursor);
    assert ids == ids[..k] + ids[k..];
    var c := Cycle(ids, cursor);
    assert forall i :: 0 <= i < |ids| ==> c[i] == if i < |ids| - k then ids[k + i] else ids[i - (|ids| - k)];
  }

  lemma {:induction false} SizeOfDistinct(s: seq<int>)
    requires forall i, j :: 0 <= i < j < |s| ==> s[i] != s[j]
    ensures |set y | y in s| == |s|
  {
    if s != [] {
      var front, last := s[..|s| - 1], s[|s| - 1];
      SizeOfDistinct(front);
      assert s == front + [last] && last !in front;
      assert (set y | y in s) == (set y | y in front) + {last};
    }
  }

  /** The page is exactly what is ahead of its last campaign. */
  lemma {:induction false} PageIsAhead(ids: seq<int>, cursor: Option<int>, max: nat)
    requires Ascending(ids) && max > 0 && ids != []
    ensures var page := Page(ids, cursor, max);
            && page != [] && Ahead(ids, cursor, page[|page| - 1]) == (set y | y in page)
            && |set y | y in page| == Min(max, |ids|)
            && (forall x :: x in ids && x !in page ==> !NoLater(x, page[|page| - 1], cursor) && |ids| > max)
  {
    var page := Page(ids, cursor, max);
    PageIsNext(ids, cursor, max);
    SizeOfDistinct(page);
    forall y | y in ids
      ensures y in page <==> NoLater(y, page[|page| - 1], cursor)
    {
      InPage(ids, cursor, max, y);
    }
    forall y | y in page
      ensures y in ids
    {
      CycleOrdered(ids, cursor);
    }
    if |ids| <= max {
      forall x | x in ids
        ensures x in page
      {
        CycleOrdered(ids, cursor);
      }
    }
  }

  lemma {:induction false} InPage(ids: seq<int>, cursor: Option<int>, max: nat, y: int)
    requires Ascending(ids) && max > 0 && y in ids
    ensures var page := Page(ids, cursor, max); page != [] && (y in page <==> NoLater(y, page[|page| - 1], cursor))
  {
    var page, c := Page(ids, cursor, max), Cycle(ids, cursor);
    PageIsNext(ids, cursor, max);
    CycleOrdered(ids, cursor);
    var m := |page|;
    var i :| 0 <= i < |c| && c[i] == y;
    assert page[m - 1] == c[m - 1];
    if i < m {
      assert page[i] == y;
      assert i < m - 1 ==> !NoLater(c[m - 1], c[i], cursor);
    } else {
      assert !NoLater(c[i], c[m - 1], cursor);
      forall j | 0 <= j < m
        ensures page[j] != y
      {
        assert page[j] == c[j] && !NoLater(c[i], c[j], cursor);
      }
    }
  }

  /** A pass that leaves x out brings it closer by a whole page; campaigns that drop out only help. */
  lemma {:induction false} PassBringsCloser(ids: seq<int>, later: seq<int>, cursor: Option<int>, max: nat, x: int)
    requires Ascending(ids) && max > 0 && x in ids && x !in Page(ids, cursor, max)
    requires forall y :: y in later ==> y in ids
    ensures |Ahead(later, Advanced(Page(ids, cursor, max), cursor), x)| + max <= |Ahead(ids, cursor, x)|
  {
    var page := Page(ids, cursor, max);
    PageIsAhead(ids, cursor, max);
    var last := page[|page| - 1];
    var taken := set y | y in page;
    var before, after := Ahead(ids, cursor, x), Ahead(later, Some(last), x);
    forall y | y in after
      ensures y in before && y !in taken
    {
      assert !NoLater(x, last, cursor) && NoLater(y, x, Some(last));
    }
    assert taken <= before;
    SubsetSize(after, before - taken);
  }

  lemma {:induction false} SubsetSize(a: set<int>, b: set<int>)
    requires a <= b
    ensures |a| <= |b|
  {
    if a != {} {
      var x := Pick(a);
      SubsetSize(a - {x}, b - {x});
    }
  }

  /** The cursor before pass k of a run. */
  function CursorAt(eligible: seq<seq<int>>, cursor: Option<int>, max: nat, k: nat): Option<int>
    requires k <= |eligible|
  {
    if k == 0 then cursor
    else var before := CursorAt(eligible, cursor, max, k - 1); Advanced(Page(eligible[k - 1], before, max), before)
  }

  function PageAt(eligible: seq<seq<int>>, cursor: Option<int>, max: nat, k: nat): seq<int>
    requires k < |eligible|
  {
    Page(eligible[k], CursorAt(eligible, cursor, max, k), max)
  }

  predicate NoNewcomers(eligible: seq<seq<int>>, k: nat)
    requires 0 < k < |eligible|
  {
    forall y :: y in eligible[k] ==> y in eligible[k - 1]
  }

  /** Eligible sets that never grow and always hold x. */
  predicate Shrinking(eligible: seq<seq<int>>, x: int)
  {
    && (forall k :: 0 <= k < |eligible| ==> Ascending(eligible[k]))
    && (forall k :: 0 <= k < |eligible| ==> x in eligible[k])
    && (forall k :: 0 < k < |eligible| ==> NoNewcomers(eligible, k))
  }

  function Times(k: nat, max: nat): nat
  {
    if k == 0 then 0 else Times(k - 1, max) + max
  }

  predicate Unreached(eligible: seq<seq<int>>, cursor: Option<int>, max: nat, x: int, k: nat)
    requires k <= |eligible|
  {
    k > 0 ==> Unreached(eligible, cursor, max, x, k - 1) && x !in PageAt(eligible, cursor, max, k - 1)
  }

  lemma {:induction false} ReachedOrNot(eligible: seq<seq<int>>, cursor: Option<int>, max: nat, x: int, k: nat)
    requires k <= |eligible|
    ensures Unreached(eligible, cursor, max, x, k) || exists j :: 0 <= j < k && x in PageAt(eligible, cursor, max, j)
  {
    if k > 0 { ReachedOrNot(eligible, cursor, max, x, k - 1); }
  }

  /** How many campaigns are due up to and including x when pass k starts. */
  function Wait(eligible: seq<seq<int>>, cursor: Option<int>, max: nat, x: int, k: nat): nat
    requires k < |eligible|
  {
    |Ahead(eligible[k], CursorAt(eligible, cursor, max, k), x)|
  }

  lemma {:induction false} WaitShrinks(eligible: seq<seq<int>>, cursor: Option<int>, max: nat, x: int, k: nat)
    requires Shrinking(eligible, x) && max > 0 && k < |eligible|
    requires Unreached(eligible, cursor, max, x, k)
    ensures Wait(eligible, cursor, max, x, k) + Times(k, max) <= Wait(eligible, cursor, max, x, 0)
  {
    if k > 0 {
      WaitShrinks(eligible, cursor, max, x, k - 1);
      assert x !in PageAt(eligible, cursor, max, k - 1) && NoNewcomers(eligible, k);
      PassBringsCloser(eligible[k - 1], eligible[k], CursorAt(eligible, cursor, max, k - 1), max, x);
    }
  }

  lemma {:induction false} AheadBounded(ids: seq<int>, cursor: Option<int>, x: int)
    requires Ascending(ids)
    ensures |Ahead(ids, cursor, x)| <= |ids|
  {
    SizeOfDistinct(ids);
    SubsetSize(Ahead(ids, cursor, x), set y | y in ids);
  }

  /** Fairness: while the eligible set does not grow, a campaign that stays eligible is worked on within
      ceil(n / max) completed passes, from any cursor. */
  lemma {:induction false} EveryCampaignIsReached(eligible: seq<seq<int>>, cursor: Option<int>, max: nat, x: int)
    requires max > 0 && eligible != [] && Shrinking(eligible, x)
    requires |eligible| >= (|eligible[0]| + max - 1) / max
    ensures exists k :: 0 <= k < |eligible| && x in PageAt(eligible, cursor, max, k)
  {
    var n := |eligible|;
    TimesCeil(|eligible[0]|, max, n);
    ReachedOrNot(eligible, cursor, max, x, n);
    if Unreached(eligible, cursor, max, x, n) {
      UnreachedIsLong(eligible, cursor, max, x);
    }
  }

  lemma {:induction false} UnreachedIsLong(eligible: seq<seq<int>>, cursor: Option<int>, max: nat, x: int)
    requires max > 0 && eligible != [] && Shrinking(eligible, x)
    requires Unreached(eligible, cursor, max, x, |eligible|)
    ensures |eligible[0]| > Times(|eligible|, max)
  {
    var n := |eligible|;
    WaitShrinks(eligible, cursor, max, x, n - 1);
    LastWait(eligible, cursor, max, x);
    FirstWait(eligible, cursor, max, x);
  }

  lemma {:induction false} FirstWait(eligible: seq<seq<int>>, cursor: Option<int>, max: nat, x: int)
    requires eligible != [] && Ascending(eligible[0])
    ensures Wait(eligible, cursor, max, x, 0) <= |eligible[0]|
  {
    AheadBounded(eligible[0], cursor, x);
  }

  lemma {:induction false} LastWait(eligible: seq<seq<int>>, cursor: Option<int>, max: nat, x: int)
    requires max > 0 && eligible != [] && Ascending(eligible[|eligible| - 1]) && x in eligible[|eligible| - 1]
    requires x !in PageAt(eligible, cursor, max, |eligible| - 1)
    ensures Wait(eligible, cursor, max, x, |eligible| - 1) > max
  {
    var n := |eligible|;
    MoreThanAPage(eligible[n - 1], CursorAt(eligible, cursor, max, n - 1), max, x);
  }

  /** More than a page is ahead of a campaign the next page leaves out. */
  lemma {:induction false} MoreThanAPage(ids: seq<int>, cursor: Option<int>, max: nat, x: int)
    requires Ascending(ids) && max > 0 && x in ids && x !in Page(ids, cursor, max)
    ensures |Ahead(ids, cursor, x)| > max
  {
    PassBringsCloser(ids, ids, cursor, max, x);
    assert x in Ahead(ids, Advanced(Page(ids, cursor, max), cursor), x);
  }

  lemma {:induction false} TimesIsProduct(k: nat, max: nat)
    ensures Times(k, max) == k * max
  {
    if k > 0 { TimesIsProduct(k - 1, max); }
  }

  lemma {:induction false} TimesCeil(a: nat, max: nat, n: nat)
    requires max > 0 && n >= (a + max - 1) / max
    ensures Times(n, max) >= a
  {
    var q := (a + max - 1) / max;
    TimesIsProduct(n, max);
    assert q * max >= a;
    assert (n - q) * max >= 0;
    assert n * max == q * max + (n - q) * max;
  }
}
