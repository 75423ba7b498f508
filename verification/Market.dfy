/** The canonical pool the paper runner replays (ExperimentMarket in src/experiment/market.ts). */
module Market {
  import opened Prelude
  import opened SwapMath
  import opened TickBook
  import opened TickList
  import opened SwapReplay

  const Q128: int := 0x1_0000000000000000_0000000000000000
  const WORD: int := 0x1_0000000000000000_0000000000000000_0000000000000000_0000000000000000

  datatype PoolEvent =
    | Swap(observed: Observed)
    | Flash(paid0: nat, paid1: nat)
    | Liquidity(change: LedgerEvent)

  /** A fee segment with the protocol share that applied to it. */
  datatype Charge = Charge(segment: Segment, protocol: nat)

  /** What is persisted between polls. */
  datatype MarketSeed = MarketSeed(price: int, tick: int, liquidity: int, global0: int, global1: int,
                                   protocol0: nat, protocol1: nat, fee: int, spacing: int, book: Book)

  /** A running market: a seed and its sorted tick list. */
  datatype MarketState = MarketState(seed: MarketSeed, sorted: seq<int>)
  {
    function Source(): Source
    {
      SwapReplay.Source.Source(seed.price, seed.tick, seed.liquidity, seed.fee, seed.spacing, sorted, seed.book)
    }
  }

  /** What is left of a fee for liquidity providers after the protocol share. */
  function ProviderFee(c: Charge): int
  {
    if c.protocol > 0 && c.segment.fee >= 0 then c.segment.fee - c.segment.fee / c.protocol else c.segment.fee
  }

  function Growth(c: Charge): int
  {
    if c.segment.liquidity > 0 && ProviderFee(c) >= 0 then Product(ProviderFee(c), Q128) / c.segment.liquidity else 0
  }

  predicate Chargeable(c: Charge)
  {
    (c.protocol == 0 || 4 <= c.protocol <= 10) && (c.segment.liquidity > 0 || ProviderFee(c) == 0)
  }

  function ChargedOnce(seed: MarketSeed, c: Charge): Option<MarketSeed>
  {
    if !Chargeable(c) then None
    else if c.segment.token == 0 then Some(seed.(global0 := (seed.global0 + Growth(c)) % WORD))
    else Some(seed.(global1 := (seed.global1 + Growth(c)) % WORD))
  }

  function Charger(): (MarketSeed, Charge) -> Option<MarketSeed>
  {
    (seed, c) => ChargedOnce(seed, c)
  }

  function Charged(seed: MarketSeed, charges: seq<Charge>): Option<MarketSeed>
  {
    Fold(Charger(), seed, charges)
  }

  /** Mint, Burn and SetFeeProtocol. */
  function Adjusted(m: MarketState, e: LedgerEvent): Option<MarketState>
  {
    match Record(Ledger(m.seed.book, m.seed.protocol0, m.seed.protocol1), e)
    case None => None
    case Some(after) =>
      var seed := m.seed.(book := after.book, protocol0 := after.protocol0, protocol1 := after.protocol1);
      if e.SetFeeProtocol? then Some(m.(seed := seed))
      else
        var half := Touch(m.seed.book, e.lower, Change(e), 1).value;
        var sorted := Spliced(Spliced(m.sorted, m.seed.book, half, e.lower), half, after.book, e.upper);
        var liquidity := seed.liquidity + if e.lower <= seed.tick < e.upper then Change(e) else 0;
        if liquidity < 0 then None else Some(MarketState(seed.(liquidity := liquidity), sorted))
  }

  function ChargesOf(m: MarketSeed, segments: seq<Segment>): seq<Charge>
  {
    seq(|segments|, i requires 0 <= i < |segments| =>
      Charge(segments[i], if segments[i].token == 0 then m.protocol0 else m.protocol1))
  }

  function FlashSegments(m: MarketSeed, paid0: nat, paid1: nat): seq<Segment>
  {
    [Segment(m.price, m.price, m.tick, m.liquidity, paid0, 0, None),
     Segment(m.price, m.price, m.tick, m.liquidity, paid1, 1, None)]
  }

  /** The market after one event and the fee segments it produced; None when an assertion fails. */
  function Applied(ratio: Ratio, m: MarketState, e: PoolEvent): Option<(MarketState, seq<Charge>)>
  {
    match e
    case Liquidity(change) => (match Adjusted(m, change) case None => None case Some(after) => Some((after, [])))
    case Flash(paid0, paid1) => Charging(m, m.seed, ChargesOf(m.seed, FlashSegments(m.seed, paid0, paid1)))
    case Swap(o) =>
      match Reconstruction(ratio, m.Source(), o)
      case None => None
      case Some(segments) =>
        Charging(m, m.seed.(price := o.price, tick := o.tick, liquidity := o.liquidity), ChargesOf(m.seed, segments))
  }

  function Charging(m: MarketState, seed: MarketSeed, charges: seq<Charge>): Option<(MarketState, seq<Charge>)>
  {
    match Charged(seed, charges) case None => None case Some(after) => Some((m.(seed := after), charges))
  }

  /** The checks of the constructor on a persisted seed. */
  ghost predicate Openable(seed: MarketSeed)
  {
    && seed.fee > 0 && seed.spacing > 0
    && (forall t :: t in seed.book ==> seed.book[t].gross > 0)
    && NetUpTo(seed.book, seed.tick) == seed.liquidity
  }

  /** What the pool contract guarantees of one event. */
  ghost predicate PoolSane(e: PoolEvent, spacing: int)
  {
    match e
    case Swap(o) => MIN_SQRT_RATIO < o.price < MAX_SQRT_RATIO
    case Flash(_, _) => true
    case Liquidity(change) => !change.SetFeeProtocol? ==>
      && change.lower < change.upper && MIN_TICK <= change.lower && change.upper <= MAX_TICK
      && spacing > 0 && change.lower % spacing == 0 && change.upper % spacing == 0
  }

  ghost predicate Running(ratio: Ratio, m: MarketState)
  {
    Coherent(ratio, m.Source()) && Openable(m.seed)
  }

  // ---- the class ----

  class ExperimentMarket {
    var seed: MarketSeed
    var sorted: seq<int>

    function State(): MarketState
      reads this
    {
      MarketState(seed, sorted)
    }

    /** The constructor's sorting of the seed's ticks; its assertions are Openable. */
    constructor (seed: MarketSeed)
      requires Openable(seed)
      ensures this.seed == seed && Lists(sorted, seed.book)
    {
      this.seed := seed;
      var ticks := SortTicks(seed.book);
      this.sorted := ticks;
    }

    method Apply(ratio: Ratio, e: PoolEvent) returns (ok: bool, out: seq<Charge>)
      requires Lists(sorted, seed.book)
      modifies this
      ensures ok <==> Applied(ratio, old(State()), e).Some?
      ensures ok ==> Applied(ratio, old(State()), e) == Some((State(), out)) && Lists(sorted, seed.book)
    {
      ok, out := true, [];
      match e {
        case Liquidity(change) =>
          ok := Adjust(change);
        case Flash(paid0, paid1) =>
          out := ChargesOf(seed, FlashSegments(seed, paid0, paid1));
          ok := ChargeAll(out);
        case Swap(o) =>
          var segments := ReconstructSwap(ratio, State().Source(), o);
          if segments.None? { return false, []; }
          out := ChargesOf(seed, segments.value);
          seed := seed.(price := o.price, tick := o.tick, liquidity := o.liquidity);
          ok := ChargeAll(out);
      }
    }

    method ChargeAll(out: seq<Charge>) returns (ok: bool)
      modifies this`seed
      ensures ok <==> Charged(old(seed), out).Some?
      ensures ok ==> Charged(old(seed), out) == Some(seed) && seed.book == old(seed).book
    {
      var i := 0;
      while i < |out|
        invariant 0 <= i <= |out|
        invariant Charged(old(seed), out[..i]) == Some(seed) && seed.book == old(seed).book
      {
        var c := out[i];
        assert out[..i + 1][..i] == out[..i];
        if !Chargeable(c) {
          FoldFails(Charger(), old(seed), out, i + 1);
          return false;
        }
        if c.segment.token == 0 {
          seed := seed.(global0 := (seed.global0 + Growth(c)) % WORD);
        } else {
          seed := seed.(global1 := (seed.global1 + Growth(c)) % WORD);
        }
        i := i + 1;
      }
      assert out[..|out|] == out;
      ok := true;
    }

    method Adjust(e: LedgerEvent) returns (ok: bool)
      requires Lists(sorted, seed.book)
      modifies this
      ensures ok <==> Adjusted(old(State()), e).Some?
      ensures ok ==> Adjusted(old(State()), e) == Some(State()) && Lists(sorted, seed.book)
    {
      if e.SetFeeProtocol? {
        seed := seed.(protocol0 := e.protocol0, protocol1 := e.protocol1);
        return true;
      }
      var change := Change(e);
      ghost var m := State();
      ok := TouchTick(e.lower, change, 1);
      AdjustedByHalf(m, e);
      if !ok { return; }
      ghost var half, first := seed.book, sorted;
      ok := TouchTick(e.upper, change, -1);
      if !ok { return; }
      ghost var all := seed.book;
      if e.lower <= seed.tick < e.upper { seed := seed.(liquidity := seed.liquidity + change); }
      ok := seed.liquidity >= 0;
      assert sorted == Spliced(first, half, all, e.upper);
    }

    /** One leg: the tick's entry and its place in the sorted list. */
    method TouchTick(tick: int, change: int, sign: int) returns (ok: bool)
      requires Lists(sorted, seed.book)
      modifies this
      ensures ok <==> Touch(old(seed.book), tick, change, sign).Some?
      ensures ok ==> Touch(old(seed.book), tick, change, sign) == Some(seed.book)
      ensures ok ==> seed == old(seed).(book := seed.book)
      ensures ok ==> sorted == Spliced(old(sorted), old(seed.book), seed.book, tick) && Lists(sorted, seed.book)
    {
      var book := seed.book;
      var item := TickInfo(InfoAt(book, tick).gross + change, InfoAt(book, tick).net + change * sign);
      if item.gross < 0 || (item.gross == 0 && item.net != 0) { return false; }
      var at := LowerBound(sorted, tick);
      if item.gross == 0 {
        seed := seed.(book := book - {tick});
        if tick in book && at < |sorted| { sorted := sorted[..at] + sorted[at + 1..]; }
      } else {
        seed := seed.(book := book[tick := item]);
        if tick !in book { sorted := sorted[..at] + [tick] + sorted[at..]; }
      }
      SplicedLists(old(sorted), book, seed.book, tick);
      ok := true;
    }
  }

  /** Adjusted, leg by leg. */
  lemma {:induction false} AdjustedByHalf(m: MarketState, e: LedgerEvent)
    requires !e.SetFeeProtocol?
    ensures var half := Touch(m.seed.book, e.lower, Change(e), 1);
            if half.None? then Adjusted(m, e).None?
            else
              var all := Touch(half.value, e.upper, Change(e), -1);
              if all.None? then Adjusted(m, e).None?
              else
                var first := Spliced(m.sorted, m.seed.book, half.value, e.lower);
                var liquidity := m.seed.liquidity + if e.lower <= m.seed.tick < e.upper then Change(e) else 0;
                Adjusted(m, e) ==
                if liquidity < 0 then None
                else Some(MarketState(m.seed.(book := all.value, liquidity := liquidity),
                                      Spliced(first, half.value, all.value, e.upper)))
  {
  }

  // ---- what every event keeps ----

  ghost predicate WellKept(book: Book, spacing: int, sorted: seq<int>)
  {
    && Lists(sorted, book) && OnGrid(book, spacing)
    && forall t :: t in book ==> book[t].gross > 0
  }

  lemma {:induction false} TouchKeeps(sorted: seq<int>, book: Book, spacing: int, tick: int, change: int, sign: int)
    requires WellKept(book, spacing, sorted) && tick % spacing == 0 && MIN_TICK <= tick <= MAX_TICK
    requires Touch(book, tick, change, sign).Some?
    ensures var after := Touch(book, tick, change, sign).value;
            WellKept(after, spacing, Spliced(sorted, book, after, tick))
  {
    SplicedLists(sorted, book, Touch(book, tick, change, sign).value, tick);
  }

  /** A Mint or Burn keeps the listing, the grid, positive gross and the balance of nets and liquidity. */
  lemma {:induction false} AdjustedKeepsRunning(ratio: Ratio, m: MarketState, e: LedgerEvent)
    requires Running(ratio, m) && PoolSane(Liquidity(e), m.seed.spacing) && Adjusted(m, e).Some?
    ensures Running(ratio, Adjusted(m, e).value)
  {
    if !e.SetFeeProtocol? {
      var book, spacing, change := m.seed.book, m.seed.spacing, Change(e);
      var half := Touch(book, e.lower, change, 1).value;
      var after := Touch(half, e.upper, change, -1).value;
      var first := Spliced(m.sorted, book, half, e.lower);
      TouchKeeps(m.sorted, book, spacing, e.lower, change, 1);
      TouchKeeps(first, half, spacing, e.upper, change, -1);
      NetAfterMove(book, e.lower, e.upper, change, m.seed.tick);
      var end := Adjusted(m, e).value;
      assert end.sorted == Spliced(first, half, after, e.upper) && end.seed.book == after;
      assert WellKept(end.seed.book, spacing, end.sorted);
    }
  }

  lemma {:induction false} ChargedKeeps(seed: MarketSeed, charges: seq<Charge>)
    requires Charged(seed, charges).Some?
    ensures var after := Charged(seed, charges).value;
            after == seed.(global0 := after.global0, global1 := after.global1)
    decreases |charges|
  {
    if charges != [] { ChargedKeeps(seed, charges[..|charges| - 1]); }
  }

  /** Every event the replay accepts leaves a market whose seed the constructor accepts again. */
  lemma {:induction false} AppliedKeepsRunning(ratio: Ratio, m: MarketState, e: PoolEvent)
    requires IncreasingRatio(ratio) && Running(ratio, m) && PoolSane(e, m.seed.spacing)
    requires Applied(ratio, m, e).Some?
    ensures var after := Applied(ratio, m, e).value.0;
            Running(ratio, after) && after.seed.spacing == m.seed.spacing && after.seed.fee == m.seed.fee
  {
    match e
    case Liquidity(change) =>
      AdjustedKeepsRunning(ratio, m, change);
    case Flash(paid0, paid1) =>
      ChargedKeeps(m.seed, ChargesOf(m.seed, FlashSegments(m.seed, paid0, paid1)));
    case Swap(o) =>
      AcceptedSwapMatchesBook(ratio, m.Source(), o);
      ChargedKeeps(m.seed.(price := o.price, tick := o.tick, liquidity := o.liquidity),
                   ChargesOf(m.seed, Reconstruction(ratio, m.Source(), o).value));
  }

  /** Saving the seed of a running market and opening it again is the identity: the constructor's assertions hold
      and the sorted list it rebuilds is the one that was dropped. */
  lemma {:induction false} ReopenIsIdentity(ratio: Ratio, m: MarketState, sorted: seq<int>)
    requires Running(ratio, m) && Lists(sorted, m.seed.book)
    ensures Openable(m.seed) && MarketState(m.seed, sorted) == m
  {
    ListingUnique(sorted, m.sorted);
  }

  /** A market seeded from the event history opens exactly when the checkpoint's liquidity is the liquidity of the
      positions straddling its tick. */
  lemma {:induction false} SeededMarketOpens(history: seq<LedgerEvent>, seed: MarketSeed)
    requires WellFormed(history) && seed.fee > 0 && seed.spacing > 0
    requires LedgerFrom(EMPTY_LEDGER, history).Some? && seed.book == LedgerFrom(EMPTY_LEDGER, history).value.book
    ensures Openable(seed) <==> seed.liquidity == Weighted(Open(history), Straddles(seed.tick))
  {
    SeedMatchesPositions(history);
    SeedAgrees(history);
    var open := Open(history);
    forall t | t in seed.book
      ensures seed.book[t].gross > 0
    {
      assert history[..|history|] == history;
      assert AgreesAt(seed.book, open, t);
    }
  }

  // ---- whole event runs ----

  function Applier(ratio: Ratio): (MarketState, PoolEvent) -> Option<(MarketState, seq<Charge>)>
  {
    (m, e) => Applied(ratio, m, e)
  }

  /** The market after a run of events and every fee segment it produced. */
  function AppliedAll(ratio: Ratio, m: MarketState, events: seq<PoolEvent>): Option<(MarketState, seq<Charge>)>
  {
    Run(Applier(ratio), m, events)
  }

  /** The Mint, Burn and SetFeeProtocol events of a run: the ones the seed query selects. */
  function LedgerPart(events: seq<PoolEvent>): seq<LedgerEvent>
    decreases |events|
  {
    if events == [] then []
    else
      var before, e := LedgerPart(events[..|events| - 1]), events[|events| - 1];
      if e.Liquidity? then before + [e.change] else before
  }

  function LedgerOf(seed: MarketSeed): Ledger
  {
    Ledger(seed.book, seed.protocol0, seed.protocol1)
  }

  lemma {:induction false} AppliedLedger(ratio: Ratio, m: MarketState, e: PoolEvent)
    requires Applied(ratio, m, e).Some?
    ensures var after := LedgerOf(Applied(ratio, m, e).value.0.seed);
            if e.Liquidity? then Record(LedgerOf(m.seed), e.change) == Some(after) else after == LedgerOf(m.seed)
  {
    match e
    case Liquidity(_) =>
    case Flash(paid0, paid1) =>
      ChargedKeeps(m.seed, ChargesOf(m.seed, FlashSegments(m.seed, paid0, paid1)));
    case Swap(o) =>
      ChargedKeeps(m.seed.(price := o.price, tick := o.tick, liquidity := o.liquidity),
                   ChargesOf(m.seed, Reconstruction(ratio, m.Source(), o).value));
  }

  /** Replaying events on a seeded market carries the ledger that seeding from scratch at the end would build. */
  lemma {:induction false} ReplayedLedger(ratio: Ratio, m: MarketState, history: seq<LedgerEvent>,
        events: seq<PoolEvent>)
    requires LedgerFrom(EMPTY_LEDGER, history) == Some(LedgerOf(m.seed))
    requires AppliedAll(ratio, m, events).Some?
    ensures LedgerFrom(EMPTY_LEDGER, history + LedgerPart(events)) ==
            Some(LedgerOf(AppliedAll(ratio, m, events).value.0.seed))
    decreases |events|
  {
    hide Applied, Record;
    if events == [] {
      assert history + LedgerPart(events) == history;
    } else {
      var n := |events| - 1;
      ReplayedLedger(ratio, m, history, events[..n]);
      AppliedLedger(ratio, AppliedAll(ratio, m, events[..n]).value.0, events[n]);
      if events[n].Liquidity? {
        var whole := history + LedgerPart(events);
        assert whole[..|whole| - 1] == history + LedgerPart(events[..n]);
      }
    }
  }

  /** Fee growth of one token over a run, not reduced modulo 2^256. */
  function TotalGrowth(charges: seq<Charge>, token: int): int
    decreases |charges|
  {
    if charges == [] then 0
    else
      var c := charges[|charges| - 1];
      TotalGrowth(charges[..|charges| - 1], token) + if (c.segment.token == 0) == (token == 0) then Growth(c) else 0
  }

  ghost predicate CongruentModulo(x: int, y: int, k: int)
  {
    exists q: int :: x == y - q * k
  }

  lemma {:induction false} WrappedSum(x: int, y: int, d: int, k: int)
    requires k > 0 && CongruentModulo(x, y, k)
    ensures CongruentModulo((x + d) % k, y + d, k)
  {
    var q :| x == y - q * k;
    var r := (x + d) / k;
    assert (x + d) % k == (x + d) - r * k;
    assert (q + r) * k == q * k + r * k;
    assert (x + d) % k == (y + d) - (q + r) * k;
  }

  /** The wrapping global fee growth of one token. */
  function GlobalOf(seed: MarketSeed, token: int): int
  {
    if token == 0 then seed.global0 else seed.global1
  }

  lemma {:induction false} GlobalAfterCharge(seed: MarketSeed, charges: seq<Charge>, token: int)
    requires charges != [] && Charged(seed, charges).Some?
    ensures Charged(seed, charges[..|charges| - 1]).Some?
    ensures var before, c := Charged(seed, charges[..|charges| - 1]).value, charges[|charges| - 1];
            GlobalOf(Charged(seed, charges).value, token) ==
            if (c.segment.token == 0) == (token == 0) then (GlobalOf(before, token) + Growth(c)) % WORD
            else GlobalOf(before, token)
  {
    hide Growth, Chargeable;
  }

  lemma {:induction false} GlobalTracksGrowth(seed: MarketSeed, charges: seq<Charge>, token: int)
    requires Charged(seed, charges).Some?
    ensures CongruentModulo(GlobalOf(Charged(seed, charges).value, token),
                            GlobalOf(seed, token) + TotalGrowth(charges, token), WORD)
    decreases |charges|
  {
    hide Charged, Growth, GlobalOf, CongruentModulo;
    if charges == [] {
      GlobalUncharged(seed, token);
    } else {
      var n := |charges| - 1;
      GlobalAfterCharge(seed, charges, token);
      GlobalTracksGrowth(seed, charges[..n], token);
      WrappedSum(GlobalOf(Charged(seed, charges[..n]).value, token),
                 GlobalOf(seed, token) + TotalGrowth(charges[..n], token),
                 Growth(charges[n]), WORD);
    }
  }

  lemma {:induction false} GlobalUncharged(seed: MarketSeed, token: int)
    ensures Charged(seed, []) == Some(seed) && CongruentModulo(GlobalOf(seed, token), GlobalOf(seed, token), WORD)
  {
    assert GlobalOf(seed, token) == GlobalOf(seed, token) - 0 * WORD;
  }

  /** The market's wrapping global fee growth and an accumulator that never wraps stay congruent. */
  lemma {:induction false} GlobalsTrackGrowth(seed: MarketSeed, charges: seq<Charge>)
    requires Charged(seed, charges).Some?
    ensures var after := Charged(seed, charges).value;
            && CongruentModulo(after.global0, seed.global0 + TotalGrowth(charges, 0), WORD)
            && CongruentModulo(after.global1, seed.global1 + TotalGrowth(charges, 1), WORD)
  {
    hide Charged, TotalGrowth, CongruentModulo;
    GlobalTracksGrowth(seed, charges, 0);
    GlobalTracksGrowth(seed, charges, 1);
  }

  // ---- every charge of an accepted event is one the contract could have made ----

  predicate Fair(c: Charge)
  {
    Chargeable(c) && c.segment.fee >= 0
  }

  lemma {:induction false} ChargedChargeable(seed: MarketSeed, charges: seq<Charge>, i: nat)
    requires Charged(seed, charges).Some? && i < |charges|
    ensures Chargeable(charges[i])
    decreases |charges|
  {
    var n := |charges| - 1;
    if i < n { ChargedChargeable(seed, charges[..n], i); }
  }

  lemma {:induction false} AppliedFair(ratio: Ratio, m: MarketState, e: PoolEvent, i: nat)
    requires Applied(ratio, m, e).Some? && i < |Applied(ratio, m, e).value.1|
    ensures Fair(Applied(ratio, m, e).value.1[i])
  {
    hide Charged, Chargeable;
    match e
    case Liquidity(_) =>
    case Flash(paid0, paid1) =>
      ChargedChargeable(m.seed, ChargesOf(m.seed, FlashSegments(m.seed, paid0, paid1)), i);
    case Swap(o) =>
      FirstTriedPays(ratio, Attempt(m.Source(), o, Downward(m.Source(), o), true, false), MODES);
      ChargedChargeable(m.seed.(price := o.price, tick := o.tick, liquidity := o.liquidity),
                        ChargesOf(m.seed, Reconstruction(ratio, m.Source(), o).value), i);
  }
}
