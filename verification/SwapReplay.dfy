/** Rebuilding an observed swap from the tick book (reconstructSwap in src/research/swap.ts), and why a swap it
    accepts always leaves the active liquidity equal to the book's. */
module SwapReplay {
  import opened Prelude
  import opened SwapMath
  import opened TickBook
  import opened TickList

  const MIN_TICK: int := -887_272
  const MAX_TICK: int := 887_272
  const MAX_LIQUIDITY: int := 0x1_0000000000000000_0000000000000000
  const MAX_STEPS: nat := 20_000

  /** sqrtRatioAtTick, kept abstract: all that matters is that it increases with the tick. */
  type Ratio = int -> int

  ghost predicate IncreasingRatio(ratio: Ratio)
  {
    && (forall a, b :: a < b ==> ratio(a) < ratio(b))
    && ratio(MIN_TICK) == MIN_SQRT_RATIO && ratio(MAX_TICK) == MAX_SQRT_RATIO
  }

  datatype Source = Source(price: int, tick: int, liquidity: int, fee: int, spacing: int, ticks: seq<int>, book: Book)

  datatype Observed = Observed(price: int, tick: int, liquidity: int, amount0: int, amount1: int)

  datatype Segment = Segment(from: int, to: int, tickBefore: int, liquidity: int, fee: int, token: int,
                             crossed: Option<int>)

  // ---- the tick of a price ----

  function TickSearch(ratio: Ratio, low: int, high: int, price: int): int
    requires low <= high
    decreases high - low
  {
    if low == high then low
    else
      var mid := (low + high + 1) / 2;
      if ratio(mid) <= price then TickSearch(ratio, mid, high, price) else TickSearch(ratio, low, mid - 1, price)
  }

  function TickOf(ratio: Ratio, price: int): Option<int>
  {
    if price < MIN_SQRT_RATIO || price >= MAX_SQRT_RATIO then None
    else Some(TickSearch(ratio, MIN_TICK, MAX_TICK, price))
  }

  ghost predicate Holds(ratio: Ratio, tick: int, price: int)
  {
    ratio(tick) <= price < ratio(tick + 1)
  }

  lemma {:induction false} TickSearchHolds(ratio: Ratio, low: int, high: int, price: int)
    requires low <= high && ratio(low) <= price < ratio(high + 1)
    ensures Holds(ratio, TickSearch(ratio, low, high, price), price)
    decreases high - low
  {
    if low < high {
      var mid := (low + high + 1) / 2;
      if ratio(mid) <= price {
        TickSearchHolds(ratio, mid, high, price);
      } else {
        TickSearchHolds(ratio, low, mid - 1, price);
      }
    }
  }

  lemma {:induction false} TickOfHolds(ratio: Ratio, price: int)
    requires IncreasingRatio(ratio) && TickOf(ratio, price).Some?
    ensures Holds(ratio, TickOf(ratio, price).value, price)
  {
    assert ratio(MAX_TICK) < ratio(MAX_TICK + 1);
    TickSearchHolds(ratio, MIN_TICK, MAX_TICK, price);
  }

  method TickAtPrice(ratio: Ratio, price: int) returns (r: Option<int>)
    ensures r == TickOf(ratio, price)
    ensures r.Some? <==> MIN_SQRT_RATIO <= price < MAX_SQRT_RATIO
    ensures IncreasingRatio(ratio) && r.Some? ==> Holds(ratio, r.value, price)
  {
    if price < MIN_SQRT_RATIO || price >= MAX_SQRT_RATIO { return None; }
    var low, high := MIN_TICK, MAX_TICK;
    while low < high
      invariant low <= high && TickSearch(ratio, low, high, price) == TickSearch(ratio, MIN_TICK, MAX_TICK, price)
    {
      var mid := (low + high + 1) / 2;
      if ratio(mid) <= price { low := mid; } else { high := mid - 1; }
    }
    r := Some(low);
    if IncreasingRatio(ratio) { TickOfHolds(ratio, price); }
  }

  // ---- one interpretation of the observed swap ----

  datatype Attempt = Attempt(source: Source, observed: Observed, down: bool, exactIn: bool, useEndLimit: bool)
  {
    function Input(): int { if down then observed.amount0 else observed.amount1 }

    function Output(): int { -(if down then observed.amount1 else observed.amount0) }

    function Limit(): int
    {
      if useEndLimit then observed.price else if down then MIN_SQRT_RATIO + 1 else MAX_SQRT_RATIO - 1
    }

    function Start(): Walker
    {
      var unspent := if useEndLimit then 1 else 0;
      Walker(source.price, source.tick, source.liquidity, if exactIn then Input() + unspent else -(Output() + unspent),
             0, 0, [])
    }
  }

  datatype Walker = Walker(price: int, tick: int, liquidity: int, remaining: int, totalIn: int, totalOut: int,
                           segments: seq<Segment>)

  /** The next tick the walk can reach and whether it is initialized: the nearest listed tick, within one
      256-bit word of the tick bitmap. */
  function Boundary(source: Source, tick: int, down: bool): (bool, int)
    requires source.spacing > 0
  {
    var compressed := tick / source.spacing + if down then 0 else 1;
    var word := compressed / 256 * 256 + if down then 0 else 255;
    var index := Below(source.ticks, compressed * source.spacing + if down then 1 else 0);
    var at := if down then index - 1 else index;
    var initialized := 0 <= at < |source.ticks| &&
                       if down then source.ticks[at] >= word * source.spacing
                       else source.ticks[at] <= word * source.spacing;
    (initialized, Max(MIN_TICK, Min(MAX_TICK, if initialized then source.ticks[at] else word * source.spacing)))
  }

  /** The tick after a step that stopped between ticks. */
  function TickBetween(ratio: Ratio, observed: Observed, price: int): Option<int>
  {
    if price == observed.price && MIN_TICK <= observed.tick < MAX_TICK && ratio(observed.tick) <= price &&
       price < ratio(observed.tick + 1)
    then Some(observed.tick)
    else TickOf(ratio, price)
  }

  function WalkStep(ratio: Ratio, a: Attempt, w: Walker): Option<Walker>
    requires a.source.spacing > 0
  {
    var (initialized, next) := Boundary(a.source, w.tick, a.down);
    match SwapStep(w.price, Target(ratio, a, next), w.liquidity, w.remaining, a.source.fee)
    case None => None
    case Some(step) => Advance(ratio, a, w, initialized, next, step)
  }

  function Target(ratio: Ratio, a: Attempt, next: int): int
  {
    if a.down then Max(ratio(next), a.Limit()) else Min(ratio(next), a.Limit())
  }

  /** The walk after one swap step towards the boundary tick next. */
  function Advance(ratio: Ratio, a: Attempt, w: Walker, initialized: bool, next: int, step: Step): Option<Walker>
  {
    var totalIn, totalOut := w.totalIn + step.amountIn + step.fee, w.totalOut + step.amountOut;
    var reached := step.price == ratio(next);
    var segment := Segment(w.price, step.price, w.tick, w.liquidity, step.fee, if a.down then 0 else 1,
                           if reached && initialized then Some(next) else None);
    var remaining := w.remaining + if a.exactIn then -(step.amountIn + step.fee) else step.amountOut;
    var net := InfoAt(a.source.book, next).net;
    var liquidity := if reached && initialized then w.liquidity + (if a.down then -net else net) else w.liquidity;
    if totalIn > a.Input() || totalOut > a.Output() then None
    else match TickAfter(ratio, a, w, next, step.price)
      case None => None
      case Some(tick) =>
        if liquidity < 0 || liquidity >= MAX_LIQUIDITY then None
        else if if a.down then step.price < a.observed.price else step.price > a.observed.price then None
        else Some(Walker(step.price, tick, liquidity, remaining, totalIn, totalOut, w.segments + [segment]))
  }

  function TickAfter(ratio: Ratio, a: Attempt, w: Walker, next: int, price: int): Option<int>
  {
    if price == ratio(next) then Some(if a.down then next - 1 else next)
    else if w.price != price then TickBetween(ratio, a.observed, price)
    else Some(w.tick)
  }

  predicate Finished(a: Attempt, w: Walker)
  {
    w.remaining == 0 || w.price == a.Limit()
  }

  function Walk(ratio: Ratio, a: Attempt, w: Walker, fuel: nat): Option<Walker>
    requires a.source.spacing > 0
    decreases fuel
  {
    if Finished(a, w) then Some(w)
    else if fuel == 0 then None
    else match WalkStep(ratio, a, w)
      case None => None
      case Some(next) => Walk(ratio, a, next, fuel - 1)
  }

  function Judge(a: Attempt, w: Walker): Option<seq<Segment>>
  {
    if w.price == a.observed.price && w.tick == a.observed.tick && w.liquidity == a.observed.liquidity &&
       w.totalIn == a.Input() && w.totalOut == a.Output()
    then Some(w.segments) else None
  }

  function Tried(ratio: Ratio, a: Attempt): Option<seq<Segment>>
    requires a.source.spacing > 0
  {
    if a.source.price == a.Limit() then None
    else match Walk(ratio, a, a.Start(), MAX_STEPS + 1)
      case None => None
      case Some(w) => Judge(a, w)
  }

  predicate Downward(source: Source, observed: Observed)
  {
    observed.price < source.price || (observed.price == source.price && observed.amount0 > 0)
  }

  /** The interpretations in the order they are tried: (exact input?, price limit at the observed price?). */
  const MODES: seq<(bool, bool)> := [(true, false), (false, false), (true, true), (false, true)]

  function FirstTried(ratio: Ratio, a: Attempt, modes: seq<(bool, bool)>): Option<seq<Segment>>
    requires a.source.spacing > 0
  {
    if modes == [] then None
    else
      var tried := Tried(ratio, a.(exactIn := modes[0].0, useEndLimit := modes[0].1));
      if tried.Some? then tried else FirstTried(ratio, a, modes[1..])
  }

  /** The first interpretation that reproduces the swap exactly; None when none does. */
  function Reconstruction(ratio: Ratio, source: Source, observed: Observed): Option<seq<Segment>>
  {
    var a := Attempt(source, observed, Downward(source, observed), true, false);
    if source.spacing <= 0 || a.Input() < 0 || a.Output() < 0 then None else FirstTried(ratio, a, MODES)
  }

  method Try(ratio: Ratio, a: Attempt) returns (r: Option<seq<Segment>>)
    requires a.source.spacing > 0
    ensures r == Tried(ratio, a)
  {
    var w := a.Start();
    if a.source.price == a.Limit() { return None; }
    var step := 0;
    while !Finished(a, w)
      invariant 0 <= step <= MAX_STEPS + 1
      invariant Walk(ratio, a, w, MAX_STEPS + 1 - step) == Walk(ratio, a, a.Start(), MAX_STEPS + 1)
      decreases MAX_STEPS + 1 - step
    {
      if step > MAX_STEPS { return None; }
      match WalkStep(ratio, a, w) {
        case None => return None;
        case Some(next) => w := next;
      }
      step := step + 1;
    }
    r := Judge(a, w);
  }

  method ReconstructSwap(ratio: Ratio, source: Source, observed: Observed) returns (r: Option<seq<Segment>>)
    ensures r == Reconstruction(ratio, source, observed)
  {
    var a := Attempt(source, observed, Downward(source, observed), true, false);
    if source.spacing <= 0 || a.Input() < 0 || a.Output() < 0 { return None; }
    var i := 0;
    while i < |MODES|
      invariant 0 <= i <= |MODES|
      invariant FirstTried(ratio, a, MODES[i..]) == FirstTried(ratio, a, MODES)
    {
      r := Try(ratio, a.(exactIn := MODES[i].0, useEndLimit := MODES[i].1));
      if r.Some? { return; }
      i := i + 1;
    }
    r := None;
  }

  // ---- accepted swaps agree with the book ----

  /** The book's ticks lie on the pool's grid and inside the tick range, as the pool contract guarantees. */
  ghost predicate OnGrid(book: Book, spacing: int)
  {
    spacing > 0 && forall t :: t in book ==> t % spacing == 0 && MIN_TICK <= t <= MAX_TICK
  }

  /** A walk's price sits in its tick, or exactly on the upper bound of a tick it has just left downwards. */
  ghost predicate Settled(ratio: Ratio, price: int, tick: int)
  {
    ratio(tick) <= price <= ratio(tick + 1)
  }

  ghost predicate Coherent(ratio: Ratio, source: Source)
  {
    && Lists(source.ticks, source.book) && OnGrid(source.book, source.spacing)
    && Settled(ratio, source.price, source.tick)
    && MIN_SQRT_RATIO < source.price < MAX_SQRT_RATIO
    && source.liquidity == NetUpTo(source.book, source.tick)
  }

  lemma {:induction false} GridFloor(t: int, tick: int, spacing: int)
    requires spacing > 0 && t % spacing == 0
    ensures t <= tick <==> t <= tick / spacing * spacing
    ensures t > tick <==> t >= (tick / spacing + 1) * spacing
  {
    var k, q := t / spacing, tick / spacing;
    assert t == k * spacing && q * spacing <= tick < (q + 1) * spacing;
    if k <= q { Scale(k, q, spacing); } else { Scale(q + 1, k, spacing); }
  }

  lemma {:induction false} Scale(a: int, b: int, k: int)
    requires a <= b && k > 0
    ensures a * k <= b * k
  {
  }

  lemma {:induction false} FloorTimes(x: int, k: int)
    requires k > 0
    ensures x / k * k <= x < (x / k + 1) * k
  {
  }

  /** The boundary a walk heads for downwards: no initialized tick lies strictly on the way to it. */
  lemma {:induction false} BoundaryBelow(source: Source, tick: int)
    requires Lists(source.ticks, source.book) && OnGrid(source.book, source.spacing)
    requires MIN_TICK <= tick < MAX_TICK
    ensures var (initialized, next) := Boundary(source, tick, true);
            && MIN_TICK <= next <= tick
            && (initialized <==> next in source.book)
            && (forall t :: t in source.book && next < t ==> t > tick)
  {
    var spacing, ticks := source.spacing, source.ticks;
    var compressed := tick / spacing;
    FloorTimes(tick, spacing);
    Scale(compressed / 256 * 256, compressed, spacing);
    var edge := compressed * spacing + 1;
    BelowSplits(ticks, edge);
    var at := Below(ticks, edge) - 1;
    forall t | t in source.book
      ensures t <= tick <==> t < edge
      ensures t <= tick ==> at >= 0 && t <= ticks[at]
    {
      GridFloor(t, tick, spacing);
      var i :| 0 <= i < |ticks| && ticks[i] == t;
      assert t < edge <==> i <= at;
      assert i < at ==> ticks[i] < ticks[at];
    }
    assert at >= 0 ==> ticks[at] in source.book;
  }

  /** The same upwards. */
  lemma {:induction false} BoundaryAbove(source: Source, tick: int)
    requires Lists(source.ticks, source.book) && OnGrid(source.book, source.spacing)
    requires MIN_TICK <= tick < MAX_TICK
    ensures var (initialized, next) := Boundary(source, tick, false);
            && tick < next <= MAX_TICK
            && (initialized <==> next in source.book)
            && (forall t :: t in source.book && t < next ==> t <= tick)
  {
    var spacing, ticks := source.spacing, source.ticks;
    var compressed := tick / spacing + 1;
    Scale(compressed, compressed / 256 * 256 + 255, spacing);
    FloorTimes(tick, spacing);
    var edge := compressed * spacing;
    BelowSplits(ticks, edge);
    var at := Below(ticks, edge);
    forall t | t in source.book
      ensures t > tick <==> t >= edge
      ensures t > tick ==> at < |ticks| && ticks[at] <= t
    {
      GridFloor(t, tick, spacing);
      var i :| 0 <= i < |ticks| && ticks[i] == t;
      assert t >= edge <==> i >= at;
      assert i > at ==> ticks[at] < ticks[i];
    }
    assert at < |ticks| ==> ticks[at] in source.book;
    assert edge > tick;
  }

  /** No initialized tick in (lo, hi] means the same active liquidity at lo and at hi. */
  lemma {:induction false} NetFlat(book: Book, lo: int, hi: int)
    requires lo <= hi && forall t :: t in book ==> t <= lo || t > hi
    ensures NetUpTo(book, lo) == NetUpTo(book, hi)
  {
    assert TicksUpTo(book, lo) == TicksUpTo(book, hi);
  }

  lemma {:induction false} NetAtTick(book: Book, tick: int)
    ensures NetUpTo(book, tick) == NetUpTo(book, tick - 1) + InfoAt(book, tick).net
  {
    SumWithout(TicksUpTo(book, tick), tick, NetTerm(book));
    assert TicksUpTo(book, tick) - {tick} == TicksUpTo(book, tick - 1);
  }

  /** What holds after every step of a walk. */
  ghost predicate Sound(ratio: Ratio, a: Attempt, w: Walker)
  {
    && Settled(ratio, w.price, w.tick)
    && MIN_SQRT_RATIO < w.price < MAX_SQRT_RATIO
    && w.liquidity == NetUpTo(a.source.book, w.tick)
    && (if a.down then w.price >= a.observed.price else w.price <= a.observed.price)
  }

  lemma {:induction false} SettledTick(ratio: Ratio, price: int, tick: int)
    requires IncreasingRatio(ratio) && Settled(ratio, price, tick) && MIN_SQRT_RATIO < price < MAX_SQRT_RATIO
    ensures MIN_TICK <= tick < MAX_TICK
  {
    assert tick + 1 < MIN_TICK ==> ratio(tick + 1) < ratio(MIN_TICK);
    assert MAX_TICK < tick ==> ratio(MAX_TICK) < ratio(tick);
  }

  /** The tick a partial step reports is the one its price falls in. */
  lemma {:induction false} TickBetweenHolds(ratio: Ratio, observed: Observed, price: int)
    requires IncreasingRatio(ratio) && TickBetween(ratio, observed, price).Some?
    ensures Holds(ratio, TickBetween(ratio, observed, price).value, price)
  {
    if TickOf(ratio, price).Some? { TickOfHolds(ratio, price); }
  }

  lemma {:induction false} Ordered(ratio: Ratio, a: int, b: int)
    requires IncreasingRatio(ratio)
    ensures a < b <==> ratio(a) < ratio(b)
  {
    assert a > b ==> ratio(a) > ratio(b);
  }

  /** Where a downward step lands: just below the boundary tick, or at or above it and no higher than before. */
  lemma {:induction false} LandsDown(ratio: Ratio, a: Attempt, w: Walker, bound: int, price: int)
    requires IncreasingRatio(ratio) && a.down && Settled(ratio, w.price, w.tick)
    requires bound <= w.tick && ratio(bound) <= price <= w.price && TickAfter(ratio, a, w, bound, price).Some?
    ensures var tick := TickAfter(ratio, a, w, bound, price).value;
            && Settled(ratio, price, tick)
            && (if price == ratio(bound) then tick == bound - 1 else bound <= tick <= w.tick)
  {
    if price == ratio(bound) {
      Ordered(ratio, bound - 1, bound);
    } else if price != w.price {
      TickBetweenHolds(ratio, a.observed, price);
      var tick := TickBetween(ratio, a.observed, price).value;
      Ordered(ratio, bound, tick + 1);
      Ordered(ratio, tick, w.tick + 1);
    }
  }

  lemma {:induction false} AdvanceDown(ratio: Ratio, a: Attempt, w: Walker, initialized: bool, bound: int, step: Step)
    requires IncreasingRatio(ratio) && a.down && Sound(ratio, a, w)
    requires bound <= w.tick && (initialized <==> bound in a.source.book)
    requires forall t :: t in a.source.book && bound < t ==> t > w.tick
    requires Max(ratio(bound), MIN_SQRT_RATIO + 1) <= step.price <= w.price
    requires Advance(ratio, a, w, initialized, bound, step).Some?
    ensures Sound(ratio, a, Advance(ratio, a, w, initialized, bound, step).value)
  {
    var tick := TickAfter(ratio, a, w, bound, step.price).value;
    LandsDown(ratio, a, w, bound, step.price);
    if step.price == ratio(bound) {
      NetFlat(a.source.book, bound, w.tick);
      NetAtTick(a.source.book, bound);
    } else {
      NetFlat(a.source.book, tick, w.tick);
    }
  }

  lemma {:induction false} AdvanceUp(ratio: Ratio, a: Attempt, w: Walker, initialized: bool, bound: int, step: Step)
    requires IncreasingRatio(ratio) && !a.down && Sound(ratio, a, w)
    requires w.tick < bound && (initialized <==> bound in a.source.book)
    requires forall t :: t in a.source.book && t < bound ==> t <= w.tick
    requires w.price <= step.price <= Min(ratio(bound), MAX_SQRT_RATIO - 1)
    requires Advance(ratio, a, w, initialized, bound, step).Some?
    ensures Sound(ratio, a, Advance(ratio, a, w, initialized, bound, step).value)
  {
    var tick := TickAfter(ratio, a, w, bound, step.price).value;
    LandsUp(ratio, a, w, bound, step.price);
    if step.price == ratio(bound) {
      NetFlat(a.source.book, w.tick, bound - 1);
      NetAtTick(a.source.book, bound);
    } else {
      NetFlat(a.source.book, w.tick, tick);
    }
  }

  /** Where an upward step lands: on the boundary tick, or short of it and no lower than before. */
  lemma {:induction false} LandsUp(ratio: Ratio, a: Attempt, w: Walker, bound: int, price: int)
    requires IncreasingRatio(ratio) && !a.down && Settled(ratio, w.price, w.tick)
    requires w.tick < bound && w.price <= price <= ratio(bound) && TickAfter(ratio, a, w, bound, price).Some?
    ensures var tick := TickAfter(ratio, a, w, bound, price).value;
            && Settled(ratio, price, tick)
            && (if price == ratio(bound) then tick == bound else w.tick <= tick < bound)
  {
    if price == ratio(bound) {
      Ordered(ratio, bound, bound + 1);
    } else if price != w.price {
      TickBetweenHolds(ratio, a.observed, price);
      var tick := TickBetween(ratio, a.observed, price).value;
      Ordered(ratio, w.tick, tick + 1);
      Ordered(ratio, tick, bound);
    }
  }

  lemma {:induction false} WalkStepSound(ratio: Ratio, a: Attempt, w: Walker)
    requires IncreasingRatio(ratio) && Coherent(ratio, a.source) && Sound(ratio, a, w)
    requires MIN_SQRT_RATIO < a.observed.price < MAX_SQRT_RATIO
    requires WalkStep(ratio, a, w).Some?
    ensures Sound(ratio, a, WalkStep(ratio, a, w).value)
  {
    hide NetUpTo, Boundary, SwapStep, Advance, TickAfter;
    var (initialized, bound) := Boundary(a.source, w.tick, a.down);
    var target := Target(ratio, a, bound);
    StepInEnvelope(w.price, target, w.liquidity, w.remaining, a.source.fee);
    var step := SwapStep(w.price, target, w.liquidity, w.remaining, a.source.fee).value;
    SettledTick(ratio, w.price, w.tick);
    if a.down {
      BoundaryBelow(a.source, w.tick);
      Ordered(ratio, w.tick, bound);
      AdvanceDown(ratio, a, w, initialized, bound, step);
    } else {
      BoundaryAbove(a.source, w.tick);
      Ordered(ratio, bound, w.tick + 1);
      AdvanceUp(ratio, a, w, initialized, bound, step);
    }
  }

  /** Whatever every step keeps, the walk keeps. */
  lemma {:induction false} WalkInvariant(ratio: Ratio, a: Attempt, w: Walker, fuel: nat, inv: Walker -> bool)
    requires a.source.spacing > 0 && inv(w)
    requires forall v :: inv(v) && WalkStep(ratio, a, v).Some? ==> inv(WalkStep(ratio, a, v).value)
    ensures Walk(ratio, a, w, fuel).Some? ==> inv(Walk(ratio, a, w, fuel).value)
    decreases fuel
  {
    hide WalkStep, Finished;
    if !Finished(a, w) && fuel > 0 && WalkStep(ratio, a, w).Some? {
      WalkInvariant(ratio, a, WalkStep(ratio, a, w).value, fuel - 1, inv);
    }
  }

  lemma {:induction false} TriedSound(ratio: Ratio, a: Attempt)
    requires IncreasingRatio(ratio) && Coherent(ratio, a.source)
    requires MIN_SQRT_RATIO < a.observed.price < MAX_SQRT_RATIO
    requires a.down == Downward(a.source, a.observed) && Tried(ratio, a).Some?
    ensures Settled(ratio, a.observed.price, a.observed.tick)
    ensures a.observed.liquidity == NetUpTo(a.source.book, a.observed.tick)
  {
    var inv := (v: Walker) => Sound(ratio, a, v);
    forall v | inv(v) && WalkStep(ratio, a, v).Some?
      ensures inv(WalkStep(ratio, a, v).value)
    {
      WalkStepSound(ratio, a, v);
    }
    WalkInvariant(ratio, a, a.Start(), MAX_STEPS + 1, inv);
  }

  lemma {:induction false} FirstTriedSound(ratio: Ratio, a: Attempt, modes: seq<(bool, bool)>)
    requires IncreasingRatio(ratio) && Coherent(ratio, a.source)
    requires MIN_SQRT_RATIO < a.observed.price < MAX_SQRT_RATIO
    requires a.down == Downward(a.source, a.observed) && FirstTried(ratio, a, modes).Some?
    ensures Settled(ratio, a.observed.price, a.observed.tick)
    ensures a.observed.liquidity == NetUpTo(a.source.book, a.observed.tick)
  {
    var b := a.(exactIn := modes[0].0, useEndLimit := modes[0].1);
    if Tried(ratio, b).Some? { TriedSound(ratio, b); } else { FirstTriedSound(ratio, a, modes[1..]); }
  }

  /** A swap the replay accepts ends with exactly the liquidity the book has at its final tick, whatever the
      event claimed. */
  lemma {:induction false} AcceptedSwapMatchesBook(ratio: Ratio, source: Source, observed: Observed)
    requires IncreasingRatio(ratio) && Coherent(ratio, source)
    requires MIN_SQRT_RATIO < observed.price < MAX_SQRT_RATIO
    requires Reconstruction(ratio, source, observed).Some?
    ensures Coherent(ratio, source.(price := observed.price, tick := observed.tick, liquidity := observed.liquidity))
  {
    FirstTriedSound(ratio, Attempt(source, observed, Downward(source, observed), true, false), MODES);
  }

  // ---- no segment of an accepted swap pays a negative fee ----

  predicate FeesPaid(segments: seq<Segment>)
  {
    forall i :: 0 <= i < |segments| ==> segments[i].fee >= 0
  }

  lemma {:induction false} AdvancePays(ratio: Ratio, a: Attempt, w: Walker, initialized: bool, next: int, step: Step)
    requires FeesPaid(w.segments) && step.fee >= 0 && Advance(ratio, a, w, initialized, next, step).Some?
    ensures FeesPaid(Advance(ratio, a, w, initialized, next, step).value.segments)
  {
    hide TickAfter;
  }

  lemma {:induction false} TriedPays(ratio: Ratio, a: Attempt)
    requires a.source.spacing > 0 && Tried(ratio, a).Some?
    ensures FeesPaid(Tried(ratio, a).value)
  {
    hide SwapStep, Boundary, Advance, Target, FeesPaid, Walk;
    var inv := (v: Walker) => FeesPaid(v.segments);
    forall v | inv(v) && WalkStep(ratio, a, v).Some?
      ensures inv(WalkStep(ratio, a, v).value)
    {
      var (initialized, next) := Boundary(a.source, v.tick, a.down);
      var target := Target(ratio, a, next);
      StepInEnvelope(v.price, target, v.liquidity, v.remaining, a.source.fee);
      AdvancePays(ratio, a, v, initialized, next,
                  SwapStep(v.price, target, v.liquidity, v.remaining, a.source.fee).value);
    }
    StartPays(a);
    WalkInvariant(ratio, a, a.Start(), MAX_STEPS + 1, inv);
  }

  lemma {:induction false} StartPays(a: Attempt)
    ensures FeesPaid(a.Start().segments)
  {
  }

  lemma {:induction false} FirstTriedPays(ratio: Ratio, a: Attempt, modes: seq<(bool, bool)>)
    requires a.source.spacing > 0 && FirstTried(ratio, a, modes).Some?
    ensures FeesPaid(FirstTried(ratio, a, modes).value)
  {
    var b := a.(exactIn := modes[0].0, useEndLimit := modes[0].1);
    if Tried(ratio, b).Some? { TriedPays(ratio, b); } else { FirstTriedPays(ratio, a, modes[1..]); }
  }
}
