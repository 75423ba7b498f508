/** The tick ledger a pool's Mint and Burn events build up (Source.seed), and its agreement with the open
    positions: section 6.3 of the Uniswap v3 Core whitepaper. */
module TickBook {
  import opened Prelude

  datatype TickInfo = TickInfo(gross: int, net: int)

  type Book = map<int, TickInfo>

  datatype LedgerEvent =
    | Mint(lower: int, upper: int, amount: nat)
    | Burn(lower: int, upper: int, amount: nat)
    | SetFeeProtocol(protocol0: nat, protocol1: nat)

  datatype Ledger = Ledger(book: Book, protocol0: nat, protocol1: nat)

  const EMPTY_LEDGER := Ledger(map[], 0, 0)

  function InfoAt(book: Book, tick: int): TickInfo
  {
    if tick in book then book[tick] else TickInfo(0, 0)
  }

  function Change(e: LedgerEvent): int
    requires !e.SetFeeProtocol?
  {
    if e.Burn? then 0 - e.amount else e.amount as int
  }

  /** One tick of one event. None is a failed assertion. */
  function Touch(book: Book, tick: int, change: int, sign: int): Option<Book>
  {
    var was := InfoAt(book, tick);
    var item := TickInfo(was.gross + change, was.net + change * sign);
    if item.gross < 0 then None
    else if item.gross > 0 then Some(book[tick := item])
    else if item.net != 0 then None
    else Some(book - {tick})
  }

  function Move(book: Book, lower: int, upper: int, change: int): Option<Book>
  {
    match Touch(book, lower, change, 1)
    case None => None
    case Some(half) => Touch(half, upper, change, -1)
  }

  function Record(ledger: Ledger, e: LedgerEvent): Option<Ledger>
  {
    if e.SetFeeProtocol? then Some(ledger.(protocol0 := e.protocol0, protocol1 := e.protocol1))
    else match Move(ledger.book, e.lower, e.upper, Change(e))
      case None => None
      case Some(book) => Some(ledger.(book := book))
  }

  function Recorder(): (Ledger, LedgerEvent) -> Option<Ledger>
  {
    (ledger, e) => Record(ledger, e)
  }

  /** The ledger after a whole event stream, or None when an assertion fails on the way. */
  function LedgerFrom(ledger: Ledger, events: seq<LedgerEvent>): Option<Ledger>
  {
    Fold(Recorder(), ledger, events)
  }

  method Seed(events: seq<LedgerEvent>) returns (r: Option<Ledger>)
    ensures r == LedgerFrom(EMPTY_LEDGER, events)
  {
    var ticks: Book, protocol0: nat, protocol1: nat := map[], 0, 0;
    var i := 0;
    while i < |events|
      invariant 0 <= i <= |events|
      invariant LedgerFrom(EMPTY_LEDGER, events[..i]) == Some(Ledger(ticks, protocol0, protocol1))
    {
      var e := events[i];
      assert events[..i + 1][..i] == events[..i];
      if e.SetFeeProtocol? {
        protocol0, protocol1 := e.protocol0, e.protocol1;
      } else {
        var change := Change(e);
        for leg := 0 to 2
          invariant leg == 0 ==> LedgerFrom(EMPTY_LEDGER, events[..i]) == Some(Ledger(ticks, protocol0, protocol1))
          invariant leg > 0 ==>
                      exists book :: LedgerFrom(EMPTY_LEDGER, events[..i]) ==
                        Some(Ledger(book, protocol0, protocol1)) &&
                                     (leg == 1 ==> Touch(book, e.lower, change, 1) == Some(ticks)) &&
                                     (leg == 2 ==> Move(book, e.lower, e.upper, change) == Some(ticks))
        {
          var tick, sign := if leg == 0 then e.lower else e.upper, if leg == 0 then 1 else -1;
          var item := InfoAt(ticks, tick);
          item := TickInfo(item.gross + change, item.net + change * sign);
          if item.gross < 0 || (item.gross == 0 && item.net != 0) {
            FoldFails(Recorder(), EMPTY_LEDGER, events, i + 1);
            return None;
          }
          ticks := if item.gross == 0 then ticks - {tick} else ticks[tick := item];
        }
      }
      i := i + 1;
    }
    assert events[..|events|] == events;
    r := Some(Ledger(ticks, protocol0, protocol1));
  }

  // ---- open positions, the independent reference ----

  datatype Range = Range(lower: int, upper: int)

  type Positions = map<Range, int>

  function Amount(open: Positions, r: Range): int { if r in open then open[r] else 0 }

  function Open(events: seq<LedgerEvent>): Positions
    decreases |events|
  {
    if events == [] then map[]
    else
      var before, e := Open(events[..|events| - 1]), events[|events| - 1];
      if e.SetFeeProtocol? then before
      else var r := Range(e.lower, e.upper); before[r := Amount(before, r) + Change(e)]
  }

  /** What the pool contract guarantees: ranges are ordered and nobody burns more than was minted. */
  ghost predicate WellFormed(events: seq<LedgerEvent>)
  {
    && (forall i :: 0 <= i < |events| && !events[i].SetFeeProtocol? ==> events[i].lower < events[i].upper)
    && (forall n :: 0 <= n <= |events| ==> NonNegative(Open(events[..n])))
  }

  ghost predicate NonNegative(open: Positions)
  {
    forall r :: Amount(open, r) >= 0
  }

  function Bounds(tick: int): Range -> int
  {
    (r: Range) => (if r.lower == tick then 1 else 0) + (if r.upper == tick then 1 else 0)
  }

  function Direction(tick: int): Range -> int
  {
    (r: Range) => (if r.lower == tick then 1 else 0) - (if r.upper == tick then 1 else 0)
  }

  function Straddles(tick: int): Range -> int
  {
    (r: Range) => if r.lower <= tick < r.upper then 1 else 0
  }

  function Term(open: Positions, w: Range -> int): Range -> int
  {
    (r: Range) => Amount(open, r) * w(r)
  }

  /** The open liquidity, each range weighted by w. */
  ghost function Weighted(open: Positions, w: Range -> int): int
  {
    Sum(open.Keys, Term(open, w))
  }

  /** What a move by change adds to a sum in which r weighs k. */
  function Shift(change: int, k: int): int
  {
    if k == 1 then change else if k == 0 then 0 else -change
  }

  lemma {:induction false} TermShift(amount: int, change: int, k: int)
    requires k in {-1, 0, 1}
    ensures (amount + change) * k == amount * k + Shift(change, k)
  {
  }

  lemma {:induction false} WeightAfterMove(open: Positions, r: Range, change: int, next: Positions, w: Range -> int)
    requires next == open[r := Amount(open, r) + change] && w(r) in {-1, 0, 1}
    ensures Weighted(next, w) == Weighted(open, w) + Shift(change, w(r))
  {
    var f, g := Term(open, w), Term(next, w);
    SumWithout(next.Keys, r, g);
    SumWithout(open.Keys, r, f);
    var rest := open.Keys - {r};
    assert next.Keys - {r} == rest;
    SumCongruent(rest, g, f);
    TermShift(Amount(open, r), change, w(r));
    assert r !in open ==> f(r) == 0 * w(r);
  }

  ghost function NetTerm(book: Book): int -> int
  {
    (t: int) => InfoAt(book, t).net
  }

  ghost function TicksUpTo(book: Book, tick: int): set<int>
  {
    set t | t in book && t <= tick
  }

  /** The liquidity the book says is active at a price in [tick, tick + 1). */
  ghost function NetUpTo(book: Book, tick: int): int
  {
    Sum(TicksUpTo(book, tick), NetTerm(book))
  }

  ghost function TotalNet(book: Book): int
  {
    Sum(book.Keys, NetTerm(book))
  }

  lemma {:induction false} NetAfterTouch(book: Book, tick: int, change: int, sign: int, upTo: int)
    requires Touch(book, tick, change, sign).Some?
    ensures var after := Touch(book, tick, change, sign).value;
            && NetUpTo(after, upTo) == NetUpTo(book, upTo) + (if tick <= upTo then change * sign else 0)
            && TotalNet(after) == TotalNet(book) + change * sign
  {
    var after := Touch(book, tick, change, sign).value;
    NetOfChangedTick(book, after, tick, book.Keys, after.Keys);
    NetOfChangedTick(book, after, tick, TicksUpTo(book, upTo), TicksUpTo(after, upTo));
  }

  /** Two books that differ at one tick only have sums that differ by that tick's net. */
  lemma {:induction false} NetOfChangedTick(a: Book, b: Book, tick: int, sa: set<int>, sb: set<int>)
    requires forall t :: t != tick ==> InfoAt(a, t) == InfoAt(b, t)
    requires sa - {tick} == sb - {tick}
    ensures Sum(sb, NetTerm(b)) - Sum(sa, NetTerm(a)) ==
            (if tick in sb then InfoAt(b, tick).net else 0) - (if tick in sa then InfoAt(a, tick).net else 0)
  {
    SumCongruent(sa - {tick}, NetTerm(a), NetTerm(b));
    SumWithout(sa, tick, NetTerm(a));
    SumWithout(sb, tick, NetTerm(b));
  }

  /** What the open positions say about one tick, and about the liquidity up to it. */
  ghost predicate AgreesAt(book: Book, open: Positions, tick: int)
  {
    && InfoAt(book, tick) == TickInfo(Weighted(open, Bounds(tick)), Weighted(open, Direction(tick)))
    && (tick in book ==> book[tick].gross > 0)
    && NetUpTo(book, tick) == Weighted(open, Straddles(tick))
  }

  /** The book holds exactly what the positions say. */
  ghost predicate Agrees(book: Book, open: Positions)
  {
    (forall t :: AgreesAt(book, open, t)) && TotalNet(book) == 0
  }

  /** With non-negative positions, a tick's gross is zero exactly when it bounds no open position, and then its
      net is zero too. */
  lemma {:induction false} GrossZero(open: Positions, tick: int)
    requires NonNegative(open)
    ensures Weighted(open, Bounds(tick)) >= 0
    ensures Weighted(open, Bounds(tick)) == 0 <==>
            forall r :: r in open && (r.lower == tick || r.upper == tick) ==> open[r] == 0
    ensures Weighted(open, Bounds(tick)) == 0 ==> Weighted(open, Direction(tick)) == 0
  {
    var term := Term(open, Bounds(tick));
    forall r | r in open
      ensures term(r) >= 0 && (term(r) == 0 <==> open[r] == 0 || (r.lower != tick && r.upper != tick))
    {
      assert Amount(open, r) >= 0;
    }
    SumNonNegative(open.Keys, term);
    if Weighted(open, Bounds(tick)) == 0 {
      assert forall r :: r in open ==> term(r) == 0;
      assert forall r :: r in open ==> Term(open, Direction(tick))(r) == 0;
      SumNonNegative(open.Keys, Term(open, Direction(tick)));
    }
  }

  lemma {:induction false} WeightsAfterMove(open: Positions, r: Range, change: int, next: Positions, t: int)
    requires next == open[r := Amount(open, r) + change] && r.lower < r.upper
    ensures Weighted(next, Bounds(t)) ==
            Weighted(open, Bounds(t)) + (if t == r.lower || t == r.upper then change else 0)
    ensures Weighted(next, Direction(t)) ==
            Weighted(open, Direction(t)) + (if t == r.lower then change else if t == r.upper then -change else 0)
    ensures Weighted(next, Straddles(t)) ==
            Weighted(open, Straddles(t)) + (if r.lower <= t < r.upper then change else 0)
  {
    WeightAfterMove(open, r, change, next, Bounds(t));
    WeightAfterMove(open, r, change, next, Direction(t));
    WeightAfterMove(open, r, change, next, Straddles(t));
  }

  /** A leg passes its assertions when the tick ends with the gross and net of non-negative positions. */
  lemma {:induction false} TouchSucceeds(book: Book, tick: int, change: int, sign: int, next: Positions)
    requires NonNegative(next)
    requires InfoAt(book, tick).gross + change == Weighted(next, Bounds(tick))
    requires InfoAt(book, tick).net + change * sign == Weighted(next, Direction(tick))
    ensures var after := Touch(book, tick, change, sign);
            && after.Some?
            && InfoAt(after.value, tick) == TickInfo(Weighted(next, Bounds(tick)), Weighted(next, Direction(tick)))
            && (tick in after.value ==> after.value[tick].gross > 0)
            && (forall t :: t != tick ==>
                InfoAt(after.value, t) == InfoAt(book, t) && (t in after.value <==> t in book))
  {
    GrossZero(next, tick);
  }

  lemma {:induction false} MoveSucceeds(book: Book, open: Positions, r: Range, change: int, next: Positions)
    requires AgreesAt(book, open, r.lower) && AgreesAt(book, open, r.upper) && r.lower < r.upper
    requires next == open[r := Amount(open, r) + change] && NonNegative(next)
    ensures Move(book, r.lower, r.upper, change).Some?
    ensures var after := Move(book, r.lower, r.upper, change).value;
            && (forall t {:trigger t in after} :: t == r.lower || t == r.upper ==>
                  && InfoAt(after, t) == TickInfo(Weighted(next, Bounds(t)), Weighted(next, Direction(t)))
                  && (t in after ==> after[t].gross > 0))
            && (forall t :: t != r.lower && t != r.upper ==>
                InfoAt(after, t) == InfoAt(book, t) && (t in after <==> t in book))
  {
    WeightsAfterMove(open, r, change, next, r.lower);
    WeightsAfterMove(open, r, change, next, r.upper);
    TouchSucceeds(book, r.lower, change, 1, next);
    TouchSucceeds(Touch(book, r.lower, change, 1).value, r.upper, change, -1, next);
  }

  lemma {:induction false} NetAfterMove(book: Book, lower: int, upper: int, change: int, upTo: int)
    requires lower < upper && Move(book, lower, upper, change).Some?
    ensures var after := Move(book, lower, upper, change).value;
            && NetUpTo(after, upTo) == NetUpTo(book, upTo) + (if lower <= upTo < upper then change else 0)
            && TotalNet(after) == TotalNet(book)
  {
    NetAfterTouch(book, lower, change, 1, upTo);
    NetAfterTouch(Touch(book, lower, change, 1).value, upper, change, -1, upTo);
  }

  lemma {:induction false} AgreesAfterMove(book: Book, after: Book, open: Positions, r: Range, change: int,
        next: Positions, t: int)
    requires r.lower < r.upper && next == open[r := Amount(open, r) + change]
    requires AgreesAt(book, open, t)
    requires t == r.lower || t == r.upper ==>
               && InfoAt(after, t) == TickInfo(Weighted(next, Bounds(t)), Weighted(next, Direction(t)))
               && (t in after ==> after[t].gross > 0)
    requires t != r.lower && t != r.upper ==> InfoAt(after, t) == InfoAt(book, t) && (t in after <==> t in book)
    requires NetUpTo(after, t) == NetUpTo(book, t) + (if r.lower <= t < r.upper then change else 0)
    ensures AgreesAt(after, next, t)
  {
    WeightsAfterMove(open, r, change, next, t);
  }

  lemma {:induction false} MoveAgrees(book: Book, open: Positions, r: Range, change: int, next: Positions)
    requires Agrees(book, open) && r.lower < r.upper
    requires next == open[r := Amount(open, r) + change] && NonNegative(next)
    ensures var after := Move(book, r.lower, r.upper, change);
            after.Some? && Agrees(after.value, next)
  {
    assert AgreesAt(book, open, r.lower) && AgreesAt(book, open, r.upper);
    MoveSucceeds(book, open, r, change, next);
    NetAfterMove(book, r.lower, r.upper, change, 0);
    var after := Move(book, r.lower, r.upper, change).value;
    forall t
      ensures AgreesAt(after, next, t)
    {
      assert AgreesAt(book, open, t);
      NetAfterMove(book, r.lower, r.upper, change, t);
      assert t in after || t !in after;
      AgreesAfterMove(book, after, open, r, change, next, t);
    }
  }

  lemma {:induction false} WellFormedPrefix(events: seq<LedgerEvent>, n: nat)
    requires WellFormed(events) && n <= |events|
    ensures WellFormed(events[..n])
  {
    forall i | 0 <= i <= n
      ensures NonNegative(Open(events[..n][..i]))
    {
      assert events[..n][..i] == events[..i];
    }
  }

  /** The seed never trips an assertion on a well-formed stream, and its book agrees with the positions. */
  lemma {:induction false} SeedAgrees(events: seq<LedgerEvent>)
    requires WellFormed(events)
    ensures LedgerFrom(EMPTY_LEDGER, events).Some?
    ensures Agrees(LedgerFrom(EMPTY_LEDGER, events).value.book, Open(events))
    decreases |events|
  {
    if events == [] {
      NothingOpen();
    } else {
      hide Agrees, Move, Record;
      var n := |events| - 1;
      WellFormedPrefix(events, n);
      SeedAgrees(events[..n]);
      RecordAgrees(LedgerFrom(EMPTY_LEDGER, events[..n]).value, events);
    }
  }

  lemma {:induction false} NothingOpen()
    ensures Agrees(map[], Open([]))
  {
  }

  /** Recording the last event of a well-formed stream. */
  lemma {:induction false} RecordAgrees(ledger: Ledger, events: seq<LedgerEvent>)
    requires WellFormed(events) && events != [] && Agrees(ledger.book, Open(events[..|events| - 1]))
    ensures var after := Record(ledger, events[|events| - 1]);
            after.Some? && Agrees(after.value.book, Open(events))
  {
    hide Agrees, Move;
    var n := |events| - 1;
    var e := events[n];
    assert events[..|events|] == events;
    if !e.SetFeeProtocol? {
      MoveAgrees(ledger.book, Open(events[..n]), Range(e.lower, e.upper), Change(e), Open(events));
    }
  }

  /** The whitepaper's reading of the book: its ticks are exactly the bounds of open positions, its nets cancel,
      and the nets up to a tick are the liquidity of the positions straddling it. */
  lemma {:induction false} SeedMatchesPositions(events: seq<LedgerEvent>)
    requires WellFormed(events)
    ensures LedgerFrom(EMPTY_LEDGER, events).Some?
    ensures var book, open := LedgerFrom(EMPTY_LEDGER, events).value.book, Open(events);
            && (forall t :: t in book <==> exists r :: r in open && open[r] > 0 && (r.lower == t || r.upper == t))
            && TotalNet(book) == 0
            && (forall t :: NetUpTo(book, t) == Weighted(open, Straddles(t)))
  {
    SeedAgrees(events);
    var book, open := LedgerFrom(EMPTY_LEDGER, events).value.book, Open(events);
    assert events[..|events|] == events;
    assert NonNegative(open);
    forall t
      ensures t in book <==> exists r :: r in open && open[r] > 0 && (r.lower == t || r.upper == t)
      ensures NetUpTo(book, t) == Weighted(open, Straddles(t))
    {
      assert AgreesAt(book, open, t);
      GrossZero(open, t);
      assert forall r :: r in open ==> open[r] == Amount(open, r) && open[r] >= 0;
    }
  }
}
