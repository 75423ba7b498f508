/** One asset of the paper runner: a replay advanced poll by poll, with its state saved and restored in between
    (advanceAsset, captureBenchmark, recordHistory, tick and persist in src/adaptive-paper.ts). */
module PaperReplay {
  import opened Prelude
  import opened Market
  import opened ForecastWindow
  import opened CheckpointRows
  import opened AssetFile
  import C = StateCodec
  import H = MarkHistory
  import S = SwapReplay
  import L = TickList
  import T = TickBook

  type Value = C.Value
  type Mark = H.Mark

  /** What a mark says about its place in the log. */
  datatype Note = Note(baseline: bool, acted: bool, benchmark: Option<Value>, reference: Value)

  /** The parts whose arithmetic this model leaves open: the strategy model with its snapshot, the forecast, the
      passive benchmark and the reference valuation. */
  datatype Kernel<!M> = Kernel(
    ratio: S.Ratio,
    lookbackMs: int,
    accrue: (M, Charge) -> M,
    forecast: (seq<ForecastSample>, int) -> bool,
    step: (M, MarketState, Checkpoint, seq<ForecastSample>) -> Option<M>,
    mark: (M, MarketState, Checkpoint) -> M,
    actions: M -> nat,
    derive: M -> Option<Value>,
    valuation: (M, MarketState, Option<Value>, Value) -> Value,
    record: (M, MarketState, Checkpoint, Note) -> Mark,
    snapshot: M -> Value,
    restore: Value -> M)

  /** restoreModel undoes snapshotModel. */
  ghost predicate Restores<M(!new)>(k: Kernel<M>)
  {
    forall m :: k.restore(k.snapshot(m)) == m
  }

  datatype TimedEvent = TimedEvent(block: int, event: PoolEvent)

  /** The reasons against deciding at a checkpoint (none: decide) and the reference it was judged by. */
  datatype Gate = Gate(reasons: seq<string>, reference: Value)

  datatype Env = Env(events: seq<TimedEvent>, gate: Checkpoint -> Gate)

  /** The asset while a poll works on it. */
  datatype Live<M> = Live(core: Core, market: MarketState, model: M, marks: seq<Mark>)

  /** What the source offers one poll: the rows it can use and the counts of those it cannot. */
  datatype Offer = Offer(rows: seq<Checkpoint>, deferred: Deferred)

  const NOTHING_DEFERRED := Deferred(0, 0)

  function Checkpoints(rows: seq<Row>): (r: seq<Checkpoint>)
    ensures |r| == |rows| && forall i :: 0 <= i < |r| ==> r[i] == rows[i].checkpoint
  {
    seq(|rows|, i requires 0 <= i < |rows| => rows[i].checkpoint)
  }

  function OfferOf(all: seq<Row>): Offer
  {
    Offer(Checkpoints(Unique(Usables(all))), Deferred(NotCanonical(all), NotCovered(all)))
  }

  predicate RisingFrom(block: int, rows: seq<Checkpoint>)
  {
    && (forall i :: 0 <= i < |rows| ==> block < rows[i].block)
    && (forall i, j :: 0 <= i < j < |rows| ==> rows[i].block < rows[j].block)
  }

  /** What the row query and the filter leave are rising blocks past the asset's last one. */
  lemma {:induction false} OfferRises(all: seq<Row>, afterBlock: int)
    requires Fetched(all, afterBlock)
    ensures RisingFrom(afterBlock, OfferOf(all).rows)
  {
    var rows := Unique(Usables(all));
    forall i | 0 <= i < |rows|
      ensures rows[i].Block() > afterBlock && Rising(rows)
    {
      RowsAreLastUsable(all, afterBlock, rows[i]);
    }
  }

  // ---- the event query ----

  /** How many events of the table lie at or before a block. */
  function UpTo(events: seq<TimedEvent>, block: int): (n: nat)
    ensures n <= |events|
  {
    if events == [] then 0
    else UpTo(events[..|events| - 1], block) + if events[|events| - 1].block <= block then 1 else 0
  }

  predicate InBlockOrder(events: seq<TimedEvent>)
  {
    forall i, j :: 0 <= i < j < |events| ==> events[i].block <= events[j].block
  }

  lemma {:induction false} UpToMeaning(events: seq<TimedEvent>, block: int, i: nat)
    requires InBlockOrder(events) && i < |events|
    ensures i < UpTo(events, block) <==> events[i].block <= block
  {
    var n := |events| - 1;
    if i < n {
      UpToMeaning(events[..n], block, i);
      assert events[i].block <= events[n].block;
    } else if events[n].block <= block {
      AllUpTo(events, block);
    } else {
      assert UpTo(events[..n], block) <= n;
    }
  }

  lemma {:induction false} AllUpTo(events: seq<TimedEvent>, block: int)
    requires forall i :: 0 <= i < |events| ==> events[i].block <= block
    ensures UpTo(events, block) == |events|
  {
    if events != [] { AllUpTo(events[..|events| - 1], block); }
  }

  lemma {:induction false} UpToRises(events: seq<TimedEvent>, a: int, b: int)
    requires a <= b
    ensures UpTo(events, a) <= UpTo(events, b)
  {
    if events != [] { UpToRises(events[..|events| - 1], a, b); }
  }

  /** block > from AND block <= to */
  function Query(events: seq<TimedEvent>, from: int, to: int): seq<TimedEvent>
  {
    if from <= to then UpToRises(events, from, to); events[UpTo(events, from)..UpTo(events, to)] else []
  }

  lemma {:induction false} QueryAt(events: seq<TimedEvent>, from: int, to: int, i: nat)
    requires i < |Query(events, from, to)|
    ensures UpTo(events, from) + i < UpTo(events, to) && Query(events, from, to)[i] == events[UpTo(events, from) + i]
  {
    UpToRises(events, from, to);
  }

  /** The query keeps exactly the events of the table past one block and up to the other. */
  lemma {:induction false} QueryIsFilter(events: seq<TimedEvent>, from: int, to: int, e: TimedEvent)
    requires InBlockOrder(events)
    ensures e in Query(events, from, to) <==> e in events && from < e.block <= to
  {
    if e in Query(events, from, to) { QueryOnlyInRange(events, from, to, e); }
    if e in events && from < e.block <= to { QueryFindsAll(events, from, to, e); }
  }

  lemma {:induction false} QueryOnlyInRange(events: seq<TimedEvent>, from: int, to: int, e: TimedEvent)
    requires InBlockOrder(events) && e in Query(events, from, to)
    ensures e in events && from < e.block <= to
  {
    var es := Query(events, from, to);
    var j :| 0 <= j < |es| && es[j] == e;
    QueryAt(events, from, to, j);
    UpToMeaning(events, from, UpTo(events, from) + j);
    UpToMeaning(events, to, UpTo(events, from) + j);
  }

  lemma {:induction false} QueryFindsAll(events: seq<TimedEvent>, from: int, to: int, e: TimedEvent)
    requires InBlockOrder(events) && e in events && from < e.block <= to
    ensures e in Query(events, from, to)
  {
    UpToRises(events, from, to);
    var i :| 0 <= i < |events| && events[i] == e;
    UpToMeaning(events, from, i);
    UpToMeaning(events, to, i);
    assert Query(events, from, to)[i - UpTo(events, from)] == e;
  }

  /** Consecutive queries fetch every event once, in order. */
  lemma {:induction false} QueriesJoin(events: seq<TimedEvent>, a: int, b: int, c: int)
    requires a <= b <= c
    ensures Query(events, a, b) + Query(events, b, c) == Query(events, a, c)
  {
    UpToRises(events, a, b);
    UpToRises(events, b, c);
  }

  // ---- one event, one checkpoint ----

  function Accrued<M>(k: Kernel<M>, model: M, charges: seq<Charge>): M
    decreases |charges|
  {
    if charges == [] then model else k.accrue(Accrued(k, model, charges[..|charges| - 1]), charges[|charges| - 1])
  }

  function EventStep<M>(k: Kernel<M>, live: Live<M>, e: TimedEvent): Option<Live<M>>
  {
    match Applied(k.ratio, live.market, e.event)
    case None => None
    case Some((market, charges)) =>
      var core := live.core.(growth0 := live.core.growth0 + TotalGrowth(charges, 0),
                             growth1 := live.core.growth1 + TotalGrowth(charges, 1));
      Some(live.(core := core, market := market, model := Accrued(k, live.model, charges)))
  }

  function EventStepper<M>(k: Kernel<M>): (Live<M>, TimedEvent) -> Option<Live<M>>
  {
    (live, e) => EventStep(k, live, e)
  }

  /** market.verify */
  predicate Verified(seed: MarketSeed, cp: Checkpoint)
  {
    && seed.price == cp.price && seed.tick == cp.tick && seed.liquidity == cp.liquidity
    && seed.global0 == cp.growth0 && seed.global1 == cp.growth1
  }

  function SampleOf(core: Core, seed: MarketSeed, cp: Checkpoint): ForecastSample
  {
    ForecastSample(cp.at, seed.price, core.growth0, core.growth1)
  }

  function Counted(blocked: map<string, nat>, reason: string, n: nat): map<string, nat>
  {
    if n == 0 then blocked else blocked[reason := n + if reason in blocked then blocked[reason] else 0]
  }

  function Blocked(blocked: map<string, nat>, reasons: seq<string>): map<string, nat>
  {
    if reasons == [] then blocked
    else Counted(Blocked(blocked, reasons[..|reasons| - 1]), reasons[|reasons| - 1], 1)
  }

  /** The rows the filter dropped are counted at every poll that is offered them. */
  function CountDeferred(blocked: map<string, nat>, d: Deferred): map<string, nat>
  {
    Counted(Counted(blocked, "event_coverage_unavailable", d.notCovered), "checkpoint_not_canonical", d.notCanonical)
  }

  function Deferring(core: Core, d: Deferred): Core
  {
    core.(tally := core.tally.(blocked := CountDeferred(core.tally.blocked, d)))
  }

  /** A decision counts whether there was a forecast before the model is stepped. */
  function Forecasting<M>(k: Kernel<M>, core: Core, cp: Checkpoint): Core
  {
    var known, tally := k.forecast(core.window.samples, cp.at), core.tally;
    core.(tally := tally.(available := tally.available + if known then 1 else 0,
                          unavailable := tally.unavailable + if known then 0 else 1))
  }

  /** A decision when nothing speaks against it, a mark to market otherwise. */
  function Decided<M>(k: Kernel<M>, live: Live<M>, cp: Checkpoint, gate: Gate): Option<Live<M>>
  {
    var tally := live.core.tally;
    if gate.reasons == [] then
      match k.step(live.model, live.market, cp, live.core.window.samples)
      case None => None
      case Some(model) =>
        var core := Forecasting(k, live.core, cp);
        Some(live.(model := model, core := core.(tally := core.tally.(decisions := tally.decisions + 1))))
    else
      Some(live.(model := k.mark(live.model, live.market, cp),
                 core := live.core.(tally := tally.(blocked := Blocked(tally.blocked, gate.reasons)))))
  }

  /** captureBenchmark: a newly derived benchmark restarts the history; a changed one fails. */
  function Captured<M>(k: Kernel<M>, core: Core, model: M): Option<Core>
  {
    match k.derive(model)
    case None => Some(core)
    case Some(derived) =>
      if core.benchmark.None? then Some(core.(benchmark := Some(derived), historyLastAt := None))
      else if core.benchmark.value != derived then None
      else Some(core)
  }

  /** recordHistory */
  function Recorded<M>(k: Kernel<M>, live: Live<M>, cp: Checkpoint, acted: bool): Live<M>
  {
    var core := live.core;
    if core.historyLastAt.Some? && !acted && cp.at - core.historyLastAt.value < SAMPLE_GAP then live
    else
      var note := Note(core.historyLastAt.None?, acted, core.benchmark, core.reference);
      live.(marks := live.marks + [k.record(live.model, live.market, cp, note)],
            core := core.(historyLastAt := Some(cp.at)))
  }

  function Finished<M>(k: Kernel<M>, live: Live<M>, cp: Checkpoint, reference: Value, acted: bool, allow: bool):
    Option<Live<M>>
  {
    match Captured(k, live.core, live.model)
    case None => None
    case Some(core) =>
      var valued := core.(reference := k.valuation(live.model, live.market, core.benchmark, reference), last := cp);
      var after := live.(core := valued);
      Some(if allow then Recorded(k, after, cp, acted) else after)
  }

  function Sampling<M>(k: Kernel<M>, live: Live<M>, cp: Checkpoint): Live<M>
  {
    var sample := SampleOf(live.core, live.market.seed, cp);
    live.(core := live.core.(window := Sampled(live.core.window, sample, k.lookbackMs)))
  }

  /** A checkpoint after its events: verify, sample, decide, record. */
  function Checked<M>(k: Kernel<M>, live: Live<M>, cp: Checkpoint, gate: Gate, allow: bool): Option<Live<M>>
  {
    if !Verified(live.market.seed, cp) then None
    else
      var sampled := Sampling(k, live, cp);
      if !allow then Finished(k, sampled, cp, C.Null, false, allow)
      else match Decided(k, sampled, cp, gate)
        case None => None
        case Some(decided) =>
          Finished(k, decided, cp, gate.reference, k.actions(decided.model) > k.actions(sampled.model), allow)
  }

  function RowStep<M>(k: Kernel<M>, env: Env, allow: bool, live: Live<M>, cp: Checkpoint): Option<Live<M>>
  {
    if cp.targetSet != live.core.last.targetSet then None
    else match Fold(EventStepper(k), live, Query(env.events, live.core.last.block, cp.block))
      case None => None
      case Some(after) => Checked(k, after, cp, env.gate(cp), allow)
  }

  function RowStepper<M>(k: Kernel<M>, env: Env, allow: bool): (Live<M>, Checkpoint) -> Option<Live<M>>
  {
    (live, cp) => RowStep(k, env, allow, live, cp)
  }

  // ---- what a row that fails leaves behind ----

  function EventsStopped<M>(k: Kernel<M>, live: Live<M>, es: seq<TimedEvent>): Core
  {
    Halted(EventStepper(k), (before: Live<M>, e: TimedEvent) => before, live, es).core
  }

  function CheckStopped<M>(k: Kernel<M>, live: Live<M>, cp: Checkpoint, gate: Gate, allow: bool): Core
  {
    if !Verified(live.market.seed, cp) then live.core
    else
      var sampled := Sampling(k, live, cp);
      if !allow then sampled.core
      else match Decided(k, sampled, cp, gate)
        case None => Forecasting(k, sampled.core, cp)
        case Some(decided) => decided.core
  }

  function RowStopped<M>(k: Kernel<M>, env: Env, allow: bool, live: Live<M>, cp: Checkpoint): Core
  {
    var es := Query(env.events, live.core.last.block, cp.block);
    if cp.targetSet != live.core.last.targetSet then live.core
    else match Fold(EventStepper(k), live, es)
      case None => EventsStopped(k, live, es)
      case Some(after) => CheckStopped(k, after, cp, env.gate(cp), allow)
  }

  function RowStopper<M>(k: Kernel<M>, env: Env, allow: bool): (Live<M>, Checkpoint) -> Live<M>
  {
    (live: Live<M>, cp: Checkpoint) => live.(core := RowStopped(k, env, allow, live, cp))
  }

  /** The counters, window and marks an asset is left with when one of its rows fails. */
  function RowsStopped<M>(k: Kernel<M>, env: Env, allow: bool, live: Live<M>, rows: seq<Checkpoint>): Live<M>
  {
    Halted(RowStepper(k, env, allow), RowStopper(k, env, allow), live, rows)
  }

  // ---- one poll ----

  lemma {:induction false} ListingExists(book: T.Book)
    ensures exists sorted :: L.Lists(sorted, book)
    decreases |book|
  {
    if book.Keys == {} {
      assert L.Lists([], book);
    } else {
      var t := Pick(book.Keys);
      var rest := book - {t};
      assert rest.Keys == book.Keys - {t} && |rest| == |rest.Keys| && |book| == |book.Keys|;
      ListingExists(rest);
      var sorted :| L.Lists(sorted, rest);
      L.SplicedLists(sorted, rest, book, t);
    }
  }

  ghost function Listing(book: T.Book): (sorted: seq<int>)
    ensures L.Lists(sorted, book)
  {
    ListingExists(book);
    var sorted :| L.Lists(sorted, book);
    sorted
  }

  /** new ExperimentMarket(asset.seed) and restoreModel. */
  ghost function Open<M>(k: Kernel<M>, asset: Asset): Live<M>
  {
    Live(asset.core, MarketState(asset.seed, Listing(asset.seed.book)), k.restore(asset.model), [])
  }

  function Close<M>(k: Kernel<M>, live: Live<M>): Asset
  {
    Asset(live.core, live.market.seed, k.snapshot(live.model))
  }

  /** advanceAsset: None marks the asset invalid. */
  ghost function Advanced<M>(k: Kernel<M>, env: Env, asset: Asset, rows: seq<Checkpoint>, allow: bool):
    Option<(Asset, seq<Mark>)>
  {
    if rows == [] then Some((asset, []))
    else match Fold(RowStepper(k, env, allow), Open(k, asset), rows)
      case None => None
      case Some(live) => Some((Close(k, live), live.marks))
  }

  /** The start of a poll: capture a benchmark and write a baseline mark when the history has none. */
  ghost function Started<M>(k: Kernel<M>, asset: Asset): Option<(Asset, seq<Mark>)>
  {
    var live := Open(k, asset);
    match Captured(k, asset.core, live.model)
    case None => None
    case Some(core) =>
      if core.historyLastAt.Some? then Some((asset.(core := core), []))
      else var after := Recorded(k, live.(core := core), core.last, false);
        Some((asset.(core := after.core), after.marks))
  }

  /** One tick of one asset. */
  ghost function Polled<M>(k: Kernel<M>, env: Env, asset: Asset, o: Offer): Option<(Asset, seq<Mark>)>
  {
    match Started(k, asset)
    case None => None
    case Some((started, first)) =>
      Following(first, Advanced(k, env, Counting(started, o.deferred), o.rows, true))
  }

  function Counting(asset: Asset, d: Deferred): Asset
  {
    asset.(core := Deferring(asset.core, d))
  }

  /** What a tick whose rows fail leaves behind, after the marks written earlier. */
  ghost function PollStopped<M>(k: Kernel<M>, env: Env, asset: Asset, earlier: seq<Mark>, o: Offer): Live<M>
    requires Started(k, asset).Some?
  {
    var (started, first) := Started(k, asset).value;
    var live := Open(k, Counting(started, o.deferred));
    RowsStopped(k, env, true, Behind(Before(earlier + first, NOTHING_DEFERRED), live), o.rows)
  }

  /** A later result with the marks written before it. */
  function Following(m: seq<Mark>, r: Option<(Asset, seq<Mark>)>): Option<(Asset, seq<Mark>)>
  {
    match r case None => None case Some((end, n)) => Some((end, m + n))
  }

  lemma {:induction false} FollowingTwice(m: seq<Mark>, n: seq<Mark>, r: Option<(Asset, seq<Mark>)>)
    ensures Following(m, Following(n, r)) == Following(m + n, r)
    ensures Following([], r) == r
  {
    if r.Some? { assert m + (n + r.value.1) == m + n + r.value.1 && [] + r.value.1 == r.value.1; }
  }

  // ---- what every step keeps ----

  /** The pool guarantees its events, and the asset holds a market the constructor accepts. */
  ghost predicate Sound<M(!new)>(k: Kernel<M>, env: Env, asset: Asset)
  {
    && Restores(k) && S.IncreasingRatio(k.ratio)
    && Running(k.ratio, MarketState(asset.seed, Listing(asset.seed.book)))
    && Sane(env.events, asset.seed.spacing)
  }

  ghost predicate Sane(events: seq<TimedEvent>, spacing: int)
  {
    forall i :: 0 <= i < |events| ==> PoolSane(events[i].event, spacing)
  }

  ghost predicate LiveSound<M>(k: Kernel<M>, spacing: int, live: Live<M>)
  {
    Running(k.ratio, live.market) && live.market.seed.spacing == spacing
  }

  lemma {:induction false} EventKeepsSound<M(!new)>(k: Kernel<M>, spacing: int, live: Live<M>, e: TimedEvent)
    requires S.IncreasingRatio(k.ratio) && LiveSound(k, spacing, live) && PoolSane(e.event, spacing)
    requires EventStep(k, live, e).Some?
    ensures LiveSound(k, spacing, EventStep(k, live, e).value)
  {
    AppliedKeepsRunning(k.ratio, live.market, e.event);
  }

  lemma {:induction false} EventsKeepSound<M(!new)>(k: Kernel<M>, spacing: int, live: Live<M>, es: seq<TimedEvent>)
    requires S.IncreasingRatio(k.ratio) && LiveSound(k, spacing, live) && Sane(es, spacing)
    requires Fold(EventStepper(k), live, es).Some?
    ensures LiveSound(k, spacing, Fold(EventStepper(k), live, es).value)
  {
    var step, inv := EventStepper(k), (l: Live<M>) => LiveSound(k, spacing, l);
    var sane := (e: TimedEvent) => PoolSane(e.event, spacing);
    forall l, e | inv(l) && sane(e) && step(l, e).Some?
      ensures inv(step(l, e).value)
    {
      EventKeepsSound(k, spacing, l, e);
    }
    FoldKeeps(step, live, es, inv, sane);
  }

  lemma {:induction false} QuerySane(events: seq<TimedEvent>, spacing: int, from: int, to: int)
    requires Sane(events, spacing)
    ensures Sane(Query(events, from, to), spacing)
  {
    forall i | 0 <= i < |Query(events, from, to)|
      ensures PoolSane(Query(events, from, to)[i].event, spacing)
    {
      QueryAt(events, from, to, i);
    }
  }

  /** Deciding, capturing and recording leave the market alone. */
  lemma {:induction false} CheckedKeepsMarket<M>(k: Kernel<M>, live: Live<M>, cp: Checkpoint, gate: Gate, allow: bool)
    requires Checked(k, live, cp, gate, allow).Some?
    ensures var after := Checked(k, live, cp, gate, allow).value;
            && after.market == live.market && Verified(after.market.seed, cp) && after.core.last == cp
            && after.core.growth0 == live.core.growth0 && after.core.growth1 == live.core.growth1
  {
  }

  lemma {:induction false} RowKeepsSound<M(!new)>(k: Kernel<M>, env: Env, allow: bool, spacing: int, live: Live<M>,
        cp: Checkpoint)
    requires S.IncreasingRatio(k.ratio) && LiveSound(k, spacing, live) && Sane(env.events, spacing)
    requires RowStep(k, env, allow, live, cp).Some?
    ensures LiveSound(k, spacing, RowStep(k, env, allow, live, cp).value)
  {
    var es := Query(env.events, live.core.last.block, cp.block);
    QuerySane(env.events, spacing, live.core.last.block, cp.block);
    EventsKeepSound(k, spacing, live, es);
    CheckedKeepsMarket(k, Fold(EventStepper(k), live, es).value, cp, env.gate(cp), allow);
  }

  lemma {:induction false} RowsKeepSound<M(!new)>(k: Kernel<M>, env: Env, allow: bool, spacing: int, live: Live<M>,
        rows: seq<Checkpoint>)
    requires S.IncreasingRatio(k.ratio) && LiveSound(k, spacing, live) && Sane(env.events, spacing)
    requires Fold(RowStepper(k, env, allow), live, rows).Some?
    ensures LiveSound(k, spacing, Fold(RowStepper(k, env, allow), live, rows).value)
  {
    var step, inv := RowStepper(k, env, allow), (l: Live<M>) => LiveSound(k, spacing, l);
    var sane := (cp: Checkpoint) => true;
    forall l, cp | inv(l) && sane(cp) && step(l, cp).Some?
      ensures inv(step(l, cp).value)
    {
      RowKeepsSound(k, env, allow, spacing, l, cp);
    }
    FoldKeeps(step, live, rows, inv, sane);
  }

  // ---- the benchmark is captured and the history begun ----

  predicate Settled<M>(k: Kernel<M>, core: Core, model: M)
  {
    && core.historyLastAt.Some?
    && (k.derive(model).Some? ==> core.benchmark == k.derive(model))
  }

  lemma {:induction false} FinishedSettles<M>(k: Kernel<M>, live: Live<M>, cp: Checkpoint, reference: Value,
        acted: bool)
    requires Finished(k, live, cp, reference, acted, true).Some?
    ensures var after := Finished(k, live, cp, reference, acted, true).value; Settled(k, after.core, after.model)
  {
  }

  lemma {:induction false} RowSettles<M>(k: Kernel<M>, env: Env, live: Live<M>, cp: Checkpoint)
    requires RowStep(k, env, true, live, cp).Some?
    ensures var after := RowStep(k, env, true, live, cp).value; Settled(k, after.core, after.model)
  {
    var after := Fold(EventStepper(k), live, Query(env.events, live.core.last.block, cp.block)).value;
    var gate, sampled := env.gate(cp), Sampling(k, after, cp);
    var decided := Decided(k, sampled, cp, gate).value;
    FinishedSettles(k, decided, cp, gate.reference, k.actions(decided.model) > k.actions(sampled.model));
  }

  lemma {:induction false} StartedSettles<M(!new)>(k: Kernel<M>, asset: Asset)
    requires Started(k, asset).Some?
    ensures var (started, _) := Started(k, asset).value;
            && started == asset.(core := started.core)
            && Settled(k, started.core, k.restore(started.model))
  {
  }

  /** Starting a poll on a settled asset changes nothing and writes nothing. */
  lemma {:induction false} SettledStartsQuietly<M(!new)>(k: Kernel<M>, asset: Asset)
    requires Settled(k, asset.core, k.restore(asset.model))
    ensures Started(k, asset) == Some((asset, []))
  {
  }

  // ---- marks and deferrals only pile up ----

  /** What was written and counted before. */
  datatype Before = Before(marks: seq<Mark>, deferred: Deferred)

  function Behind<M>(b: Before, live: Live<M>): Live<M>
  {
    live.(marks := b.marks + live.marks, core := Deferring(live.core, b.deferred))
  }

  function BehindAll<M>(b: Before, live: Option<Live<M>>): Option<Live<M>>
  {
    match live case None => None case Some(l) => Some(Behind(b, l))
  }

  lemma {:induction false} CountedTwice(blocked: map<string, nat>, r: string, n: nat, q: string, m: nat)
    ensures Counted(Counted(blocked, r, n), q, m) == Counted(Counted(blocked, q, m), r, n)
    ensures Counted(Counted(blocked, r, n), r, m) == Counted(blocked, r, n + m)
  {
  }

  lemma {:induction false} BlockedBehind(blocked: map<string, nat>, reasons: seq<string>, d: Deferred)
    ensures Blocked(CountDeferred(blocked, d), reasons) == CountDeferred(Blocked(blocked, reasons), d)
  {
    if reasons != [] {
      hide Counted;
      var n := |reasons| - 1;
      BlockedBehind(blocked, reasons[..n], d);
      var before := Blocked(blocked, reasons[..n]);
      CountedTwice(Counted(before, "event_coverage_unavailable", d.notCovered), "checkpoint_not_canonical",
                   d.notCanonical, reasons[n], 1);
      CountedTwice(before, "event_coverage_unavailable", d.notCovered, reasons[n], 1);
    }
  }

  function Plus(d: Deferred, e: Deferred): Deferred
  {
    Deferred(d.notCanonical + e.notCanonical, d.notCovered + e.notCovered)
  }

  lemma {:induction false} DeferringTwice(core: Core, d: Deferred, e: Deferred)
    ensures Deferring(Deferring(core, d), e) == Deferring(core, Plus(d, e))
    ensures Deferring(core, NOTHING_DEFERRED) == core
  {
    hide Counted;
    var r, q, blocked := "event_coverage_unavailable", "checkpoint_not_canonical", core.tally.blocked;
    var first := Counted(blocked, r, d.notCovered);
    CountedTwice(first, q, d.notCanonical, r, e.notCovered);
    CountedTwice(blocked, r, d.notCovered, r, e.notCovered);
    CountedTwice(Counted(first, r, e.notCovered), q, d.notCanonical, q, e.notCanonical);
    CountedNothing(blocked);
  }

  lemma {:induction false} CountedNothing(blocked: map<string, nat>)
    ensures CountDeferred(blocked, NOTHING_DEFERRED) == blocked
  {
  }

  lemma {:induction false} EventsBehind<M>(k: Kernel<M>, b: Before, live: Live<M>, es: seq<TimedEvent>)
    ensures Fold(EventStepper(k), Behind(b, live), es) == BehindAll(b, Fold(EventStepper(k), live, es))
    decreases |es|
  {
    if es != [] {
      hide Behind;
      var front := es[..|es| - 1];
      EventsBehind(k, b, live, front);
      var before := Fold(EventStepper(k), live, front);
      if before.Some? { EventBehind(k, b, before.value, es[|es| - 1]); }
    }
  }

  lemma {:induction false} EventBehind<M>(k: Kernel<M>, b: Before, live: Live<M>, e: TimedEvent)
    ensures EventStep(k, Behind(b, live), e) == BehindAll(b, EventStep(k, live, e))
  {
    hide CountDeferred;
  }

  lemma {:induction false} RecordedBehind<M>(k: Kernel<M>, b: Before, live: Live<M>, cp: Checkpoint, acted: bool)
    ensures Recorded(k, Behind(b, live), cp, acted) == Behind(b, Recorded(k, live, cp, acted))
  {
    hide CountDeferred;
    var note := Note(live.core.historyLastAt.None?, acted, live.core.benchmark, live.core.reference);
    var mark := k.record(live.model, live.market, cp, note);
    assert b.marks + live.marks + [mark] == b.marks + (live.marks + [mark]);
  }

  lemma {:induction false} FinishedBehind<M>(k: Kernel<M>, b: Before, live: Live<M>, cp: Checkpoint,
        reference: Value, acted: bool, allow: bool)
    ensures Finished(k, Behind(b, live), cp, reference, acted, allow) ==
            BehindAll(b, Finished(k, live, cp, reference, acted, allow))
  {
    hide CountDeferred;
    var core := Captured(k, live.core, live.model);
    if core.Some? {
      var value := k.valuation(live.model, live.market, core.value.benchmark, reference);
      var valued := core.value.(reference := value, last := cp);
      RecordedBehind(k, b, live.(core := valued), cp, acted);
    }
  }

  lemma {:induction false} DecidedBehind<M>(k: Kernel<M>, b: Before, live: Live<M>, cp: Checkpoint, gate: Gate)
    ensures Decided(k, Behind(b, live), cp, gate) == BehindAll(b, Decided(k, live, cp, gate))
  {
    hide CountDeferred, Blocked;
    BlockedBehind(live.core.tally.blocked, gate.reasons, b.deferred);
  }

  lemma {:induction false} CheckedBehind<M>(k: Kernel<M>, b: Before, live: Live<M>, cp: Checkpoint, gate: Gate,
        allow: bool)
    ensures Checked(k, Behind(b, live), cp, gate, allow) == BehindAll(b, Checked(k, live, cp, gate, allow))
  {
    hide CountDeferred, Decided, Finished, Sampled;
    var sampled := Sampling(k, live, cp);
    assert Sampling(k, Behind(b, live), cp) == Behind(b, sampled);
    if !allow {
      FinishedBehind(k, b, sampled, cp, C.Null, false, allow);
    } else {
      var decided := Decided(k, sampled, cp, gate);
      DecidedBehind(k, b, sampled, cp, gate);
      if decided.Some? {
        FinishedBehind(k, b, decided.value, cp, gate.reference,
                       k.actions(decided.value.model) > k.actions(sampled.model), allow);
      }
    }
  }

  lemma {:induction false} RowBehind<M>(k: Kernel<M>, env: Env, allow: bool, b: Before, live: Live<M>,
        cp: Checkpoint)
    ensures RowStep(k, env, allow, Behind(b, live), cp) == BehindAll(b, RowStep(k, env, allow, live, cp))
  {
    hide Checked, EventStepper, CountDeferred;
    var es := Query(env.events, live.core.last.block, cp.block);
    EventsBehind(k, b, live, es);
    var after := Fold(EventStepper(k), live, es);
    if after.Some? { CheckedBehind(k, b, after.value, cp, env.gate(cp), allow); }
  }

  lemma {:induction false} RowsBehind<M>(k: Kernel<M>, env: Env, allow: bool, b: Before, live: Live<M>,
        rows: seq<Checkpoint>)
    ensures Fold(RowStepper(k, env, allow), Behind(b, live), rows) ==
            BehindAll(b, Fold(RowStepper(k, env, allow), live, rows))
    decreases |rows|
  {
    if rows != [] {
      hide Behind, RowStep;
      var front := rows[..|rows| - 1];
      RowsBehind(k, env, allow, b, live, front);
      var before := Fold(RowStepper(k, env, allow), live, front);
      if before.Some? { RowBehind(k, env, allow, b, before.value, rows[|rows| - 1]); }
    }
  }

  // ---- polls compose ----

  lemma {:induction false} BehindNothing<M>(b: Before, live: Live<M>)
    requires b.deferred == NOTHING_DEFERRED
    ensures Behind(b, live) == live.(marks := b.marks + live.marks)
  {
    DeferringTwice(live.core, NOTHING_DEFERRED, NOTHING_DEFERRED);
  }

  /** Closing a running replay and opening it again is the identity up to the marks already written. */
  lemma {:induction false} ReopenedIsSame<M(!new)>(k: Kernel<M>, spacing: int, live: Live<M>)
    requires Restores(k) && LiveSound(k, spacing, live)
    ensures live == Behind(Before(live.marks, NOTHING_DEFERRED), Open(k, Close(k, live)))
  {
    ReopenIsIdentity(k.ratio, live.market, Listing(live.market.seed.book));
    BehindNothing(Before(live.marks, NOTHING_DEFERRED), Open(k, Close(k, live)));
    assert live.marks + [] == live.marks;
  }

  lemma {:induction false} RowsSettle<M(!new)>(k: Kernel<M>, env: Env, live: Live<M>, rows: seq<Checkpoint>)
    requires rows != [] && Fold(RowStepper(k, env, true), live, rows).Some?
    ensures var after := Fold(RowStepper(k, env, true), live, rows).value; Settled(k, after.core, after.model)
  {
    RowSettles(k, env, Fold(RowStepper(k, env, true), live, rows[..|rows| - 1]).value, rows[|rows| - 1]);
  }

  lemma {:induction false} PolledSettles<M(!new)>(k: Kernel<M>, env: Env, asset: Asset, o: Offer)
    requires Restores(k) && Polled(k, env, asset, o).Some?
    ensures var (end, _) := Polled(k, env, asset, o).value; Settled(k, end.core, k.restore(end.model))
  {
    StartedSettles(k, asset);
    if o.rows != [] { RowsSettle(k, env, Open(k, Counting(Started(k, asset).value.0, o.deferred)), o.rows); }
  }

  /** Advancing over two stretches, with a save and a restore in between, is advancing over both at once. */
  lemma {:induction false} SplitAdvance<M(!new)>(k: Kernel<M>, env: Env, asset: Asset, a: seq<Checkpoint>,
        b: seq<Checkpoint>)
    requires Sound(k, env, asset)
    ensures Advanced(k, env, asset, a + b, true) ==
            match Advanced(k, env, asset, a, true)
            case None => None
            case Some((middle, m)) => Following(m, Advanced(k, env, middle, b, true))
  {
    hide RowStepper, LiveSound;
    var step, live := RowStepper(k, env, true), Open(k, asset);
    FoldConcat(step, live, a, b);
    if a == [] {
      assert a + b == b;
      FollowingTwice([], [], Advanced(k, env, asset, b, true));
    } else if b == [] {
      assert a + b == a;
      if Advanced(k, env, asset, a, true).Some? { NothingAfter(Advanced(k, env, asset, a, true).value.1); }
    } else if Fold(step, live, a).Some? {
      var middle := Fold(step, live, a).value;
      OpenSound(k, env, asset);
      RowsKeepSound(k, env, true, asset.seed.spacing, live, a);
      ReopenedIsSame(k, asset.seed.spacing, middle);
      var written, again := Before(middle.marks, NOTHING_DEFERRED), Open(k, Close(k, middle));
      RowsBehind(k, env, true, written, again, b);
      if Fold(step, again, b).Some? { BehindNothing(written, Fold(step, again, b).value); }
    }
  }

  lemma {:induction false} OpenSound<M(!new)>(k: Kernel<M>, env: Env, asset: Asset)
    requires Sound(k, env, asset)
    ensures LiveSound(k, asset.seed.spacing, Open(k, asset))
  {
  }

  lemma {:induction false} NothingAfter(m: seq<Mark>)
    ensures m + [] == m
  {
  }

  lemma {:induction false} StartedKeepsSound<M(!new)>(k: Kernel<M>, env: Env, asset: Asset, d: Deferred)
    requires Sound(k, env, asset) && Started(k, asset).Some?
    ensures Sound(k, env, Counting(Started(k, asset).value.0, d))
  {
    StartedSettles(k, asset);
  }

  function CountingAll(r: Option<(Asset, seq<Mark>)>, d: Deferred): Option<(Asset, seq<Mark>)>
  {
    match r case None => None case Some((end, m)) => Some((Counting(end, d), m))
  }

  /** Counting deferred rows earlier or later makes no difference. */
  lemma {:induction false} AdvancedCounting<M(!new)>(k: Kernel<M>, env: Env, asset: Asset, d: Deferred,
                                                     rows: seq<Checkpoint>)
    ensures Advanced(k, env, Counting(asset, d), rows, true) == CountingAll(Advanced(k, env, asset, rows, true), d)
  {
    if rows != [] {
      hide RowStepper, Deferring;
      var live, counted := Open(k, asset), Before([], d);
      assert Open(k, Counting(asset, d)) == Behind(counted, live);
      RowsBehind(k, env, true, counted, live, rows);
      var end := Fold(RowStepper(k, env, true), live, rows);
      if end.Some? { assert [] + end.value.marks == end.value.marks; }
    }
  }

  /** Two offers as one. */
  function Both(a: Offer, b: Offer): Offer
  {
    Offer(a.rows + b.rows, Plus(a.deferred, b.deferred))
  }

  /** Two polls with the state saved and restored in between are one poll over all their checkpoints: same asset,
      same marks, and one fails exactly when the other does. */
  lemma {:induction false} SplitPoll<M(!new)>(k: Kernel<M>, env: Env, asset: Asset, a: Offer, b: Offer)
    requires Sound(k, env, asset)
    ensures Polled(k, env, asset, Both(a, b)) ==
            match Polled(k, env, asset, a)
            case None => None
            case Some((middle, m)) => Following(m, Polled(k, env, middle, b))
  {
    hide Advanced, Started, Deferring, Settled, Sound;
    if Started(k, asset).Some? {
      var (started, first) := Started(k, asset).value;
      var counted, total := Counting(started, a.deferred), Counting(started, Plus(a.deferred, b.deferred));
      DeferringTwice(started.core, a.deferred, b.deferred);
      StartedKeepsSound(k, env, asset, Plus(a.deferred, b.deferred));
      SplitAdvance(k, env, total, a.rows, b.rows);
      AdvancedCounting(k, env, counted, b.deferred, a.rows);
      if Advanced(k, env, counted, a.rows, true).Some? {
        var (middle, m) := Advanced(k, env, counted, a.rows, true).value;
        SettledBetween(k, env, asset, a);
        FollowingTwice(first, m, Advanced(k, env, Counting(middle, b.deferred), b.rows, true));
        FollowingTwice([], [], Advanced(k, env, Counting(middle, b.deferred), b.rows, true));
      }
    }
  }

  lemma {:induction false} SettledBetween<M(!new)>(k: Kernel<M>, env: Env, asset: Asset, o: Offer)
    requires Restores(k) && Polled(k, env, asset, o).Some?
    ensures var middle := Polled(k, env, asset, o).value.0; Started(k, middle) == Some((middle, []))
  {
    PolledSettles(k, env, asset, o);
    SettledStartsQuietly(k, Polled(k, env, asset, o).value.0);
  }

  /** What a poll writes and whether it fails do not depend on what it counts. */
  lemma {:induction false} CountsWriteNothing<M(!new)>(k: Kernel<M>, env: Env, asset: Asset, rows: seq<Checkpoint>,
        d: Deferred, e: Deferred)
    ensures var x, y := Polled(k, env, asset, Offer(rows, d)), Polled(k, env, asset, Offer(rows, e));
            (x.Some? <==> y.Some?) && (x.Some? ==> x.value.1 == y.value.1)
  {
    hide Advanced, Started, Deferring;
    if Started(k, asset).Some? {
      var started := Started(k, asset).value.0;
      AdvancedCounting(k, env, started, d, rows);
      AdvancedCounting(k, env, started, e, rows);
    }
  }

  // ---- every event is applied once, in order ----

  function Payloads(es: seq<TimedEvent>): (r: seq<PoolEvent>)
    ensures |r| == |es|
    decreases |es|
  {
    if es == [] then [] else Payloads(es[..|es| - 1]) + [es[|es| - 1].event]
  }

  lemma {:induction false} PayloadsConcat(a: seq<TimedEvent>, b: seq<TimedEvent>)
    ensures Payloads(a + b) == Payloads(a) + Payloads(b)
    decreases |b|
  {
    if b == [] {
      assert a + b == a;
    } else {
      assert (a + b)[..|a + b| - 1] == a + b[..|b| - 1];
      PayloadsConcat(a, b[..|b| - 1]);
    }
  }

  lemma {:induction false} TotalGrowthConcat(a: seq<Charge>, b: seq<Charge>, token: int)
    ensures TotalGrowth(a + b, token) == TotalGrowth(a, token) + TotalGrowth(b, token)
    decreases |b|
  {
    if b == [] {
      assert a + b == a;
    } else {
      assert (a + b)[..|a + b| - 1] == a + b[..|b| - 1];
      TotalGrowthConcat(a, b[..|b| - 1], token);
    }
  }

  lemma {:induction false} AccruedConcat<M>(k: Kernel<M>, model: M, a: seq<Charge>, b: seq<Charge>)
    ensures Accrued(k, model, a + b) == Accrued(k, Accrued(k, model, a), b)
    decreases |b|
  {
    if b == [] {
      assert a + b == a;
    } else {
      assert (a + b)[..|a + b| - 1] == a + b[..|b| - 1];
      AccruedConcat(k, model, a, b[..|b| - 1]);
    }
  }

  /** These events took the asset from one state to the other, each applied once and in order, and both growth
      counters took in every fee segment they produced. */
  ghost predicate Consumed<M>(k: Kernel<M>, from: Live<M>, to: Live<M>, es: seq<TimedEvent>)
  {
    match AppliedAll(k.ratio, from.market, Payloads(es))
    case None => false
    case Some((market, charges)) =>
      && to.market == market
      && to.core.growth0 == from.core.growth0 + TotalGrowth(charges, 0)
      && to.core.growth1 == from.core.growth1 + TotalGrowth(charges, 1)
  }

  lemma {:induction false} ConsumedConcat<M>(k: Kernel<M>, a: Live<M>, b: Live<M>, c: Live<M>, es: seq<TimedEvent>,
        fs: seq<TimedEvent>)
    requires Consumed(k, a, b, es) && Consumed(k, b, c, fs)
    ensures Consumed(k, a, c, es + fs)
  {
    PayloadsConcat(es, fs);
    RunConcat(Applier(k.ratio), a.market, Payloads(es), Payloads(fs));
    var charges := AppliedAll(k.ratio, a.market, Payloads(es)).value.1;
    var more := AppliedAll(k.ratio, b.market, Payloads(fs)).value.1;
    TotalGrowthConcat(charges, more, 0);
    TotalGrowthConcat(charges, more, 1);
  }

  lemma {:induction false} ConsumedNothing<M>(k: Kernel<M>, a: Live<M>)
    ensures Consumed(k, a, a, [])
  {
  }

  lemma {:induction false} ConsumedOne<M>(k: Kernel<M>, live: Live<M>, e: TimedEvent)
    requires EventStep(k, live, e).Some?
    ensures Consumed(k, live, EventStep(k, live, e).value, [e])
  {
    RunOne(Applier(k.ratio), live.market, e.event);
    assert [e][..0] == [] && Payloads([e]) == [] + [e.event] == [e.event];
  }

  lemma {:induction false} EventsConsumed<M>(k: Kernel<M>, live: Live<M>, es: seq<TimedEvent>)
    requires Fold(EventStepper(k), live, es).Some?
    ensures Consumed(k, live, Fold(EventStepper(k), live, es).value, es)
    ensures Fold(EventStepper(k), live, es).value.core.last == live.core.last
    decreases |es|
  {
    hide Applied, Consumed, TotalGrowth, Accrued;
    if es == [] {
      ConsumedNothing(k, live);
    } else {
      var front, e := es[..|es| - 1], es[|es| - 1];
      EventsConsumed(k, live, front);
      var before := Fold(EventStepper(k), live, front).value;
      ConsumedOne(k, before, e);
      ConsumedConcat(k, live, before, EventStep(k, before, e).value, front, [e]);
      assert front + [e] == es;
    }
  }

  lemma {:induction false} RowConsumed<M>(k: Kernel<M>, env: Env, allow: bool, live: Live<M>, cp: Checkpoint)
    requires RowStep(k, env, allow, live, cp).Some?
    ensures var after := RowStep(k, env, allow, live, cp).value;
            && Consumed(k, live, after, Query(env.events, live.core.last.block, cp.block))
            && after.core.last == cp && Verified(after.market.seed, cp)
  {
    var es := Query(env.events, live.core.last.block, cp.block);
    EventsConsumed(k, live, es);
    CheckedKeepsMarket(k, Fold(EventStepper(k), live, es).value, cp, env.gate(cp), allow);
  }

  function LastBlock(block: int, rows: seq<Checkpoint>): int
  {
    if rows == [] then block else rows[|rows| - 1].block
  }

  /** Over any run of checkpoints the market is the result of applying the queried events, each exactly once and in
      order, and it agrees with the last checkpoint. */
  lemma {:induction false} EventsAppliedOnce<M>(k: Kernel<M>, env: Env, allow: bool, live: Live<M>,
        rows: seq<Checkpoint>)
    requires RisingFrom(live.core.last.block, rows) && Fold(RowStepper(k, env, allow), live, rows).Some?
    ensures var after := Fold(RowStepper(k, env, allow), live, rows).value;
            && Consumed(k, live, after, Query(env.events, live.core.last.block, LastBlock(live.core.last.block, rows)))
            && after.core.last.block == LastBlock(live.core.last.block, rows)
            && (rows != [] ==> Verified(after.market.seed, rows[|rows| - 1]))
    decreases |rows|
  {
    var from := live.core.last.block;
    if rows == [] {
      ConsumedNothing(k, live);
      assert Query(env.events, from, from) == [];
    } else {
      var front, cp := rows[..|rows| - 1], rows[|rows| - 1];
      EventsAppliedOnce(k, env, allow, live, front);
      var before := Fold(RowStepper(k, env, allow), live, front).value;
      RowConsumed(k, env, allow, before, cp);
      QueriesJoin(env.events, from, LastBlock(from, front), cp.block);
      ConsumedConcat(k, live, before, RowStep(k, env, allow, before, cp).value,
                     Query(env.events, from, LastBlock(from, front)),
                     Query(env.events, LastBlock(from, front), cp.block));
    }
  }

  lemma {:induction false} ChargedGrowth(ratio: S.Ratio, m: MarketState, e: PoolEvent)
    requires Applied(ratio, m, e).Some?
    ensures var (after, charges) := Applied(ratio, m, e).value;
            && CongruentModulo(after.seed.global0, m.seed.global0 + TotalGrowth(charges, 0), WORD)
            && CongruentModulo(after.seed.global1, m.seed.global1 + TotalGrowth(charges, 1), WORD)
  {
    match e
    case Liquidity(change) =>
      assert m.seed.global0 == m.seed.global0 + 0 - 0 * WORD && m.seed.global1 == m.seed.global1 + 0 - 0 * WORD;
    case Flash(paid0, paid1) =>
      GlobalsTrackGrowth(m.seed, ChargesOf(m.seed, FlashSegments(m.seed, paid0, paid1)));
    case Swap(o) =>
      GlobalsTrackGrowth(m.seed.(price := o.price, tick := o.tick, liquidity := o.liquidity),
                         ChargesOf(m.seed, S.Reconstruction(ratio, m.Source(), o).value));
  }

  lemma {:induction false} CongruentChain(x: int, a: int, y: int, u: int, k: int)
    requires CongruentModulo(x, a, k) && CongruentModulo(y, x + u, k)
    ensures CongruentModulo(y, a + u, k)
  {
    var q :| x == a - q * k;
    var r :| y == x + u - r * k;
    assert (q + r) * k == q * k + r * k;
    assert y == a + u - (q + r) * k;
  }

  lemma {:induction false} GrowthTracksGlobals(ratio: S.Ratio, m: MarketState, es: seq<PoolEvent>)
    requires AppliedAll(ratio, m, es).Some?
    ensures var (after, charges) := AppliedAll(ratio, m, es).value;
            && CongruentModulo(after.seed.global0, m.seed.global0 + TotalGrowth(charges, 0), WORD)
            && CongruentModulo(after.seed.global1, m.seed.global1 + TotalGrowth(charges, 1), WORD)
    decreases |es|
  {
    if es == [] {
      assert m.seed.global0 == m.seed.global0 + 0 - 0 * WORD && m.seed.global1 == m.seed.global1 + 0 - 0 * WORD;
    } else {
      var front, e := es[..|es| - 1], es[|es| - 1];
      GrowthTracksGlobals(ratio, m, front);
      var (before, charges) := AppliedAll(ratio, m, front).value;
      var (after, more) := Applied(ratio, before, e).value;
      ChargedGrowth(ratio, before, e);
      TotalGrowthConcat(charges, more, 0);
      TotalGrowthConcat(charges, more, 1);
      CongruentChain(before.seed.global0, m.seed.global0 + TotalGrowth(charges, 0), after.seed.global0,
                     TotalGrowth(more, 0), WORD);
      CongruentChain(before.seed.global1, m.seed.global1 + TotalGrowth(charges, 1), after.seed.global1,
                     TotalGrowth(more, 1), WORD);
    }
  }

  /** What the growth counters gained over a run is, modulo 2^256, what the chain's own fee growth gained. */
  lemma {:induction false} CountersTrackChain<M>(k: Kernel<M>, env: Env, allow: bool, live: Live<M>,
        rows: seq<Checkpoint>)
    requires rows != [] && RisingFrom(live.core.last.block, rows)
    requires Fold(RowStepper(k, env, allow), live, rows).Some?
    ensures var after, cp := Fold(RowStepper(k, env, allow), live, rows).value, rows[|rows| - 1];
            && CongruentModulo(cp.growth0, live.market.seed.global0 + (after.core.growth0 - live.core.growth0), WORD)
            && CongruentModulo(cp.growth1, live.market.seed.global1 + (after.core.growth1 - live.core.growth1), WORD)
  {
    EventsAppliedOnce(k, env, allow, live, rows);
    var es := Query(env.events, live.core.last.block, LastBlock(live.core.last.block, rows));
    GrowthTracksGlobals(k.ratio, live.market, Payloads(es));
  }
}
