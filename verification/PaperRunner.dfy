/** The asset as the runner updates it in place (advanceAsset, captureBenchmark, recordHistory and tick in
    src/adaptive-paper.ts). */
module PaperRunner {
  import opened Prelude
  import opened Market
  import opened ForecastWindow
  import opened CheckpointRows
  import opened AssetFile
  import opened PaperReplay
  import C = StateCodec
  import L = TickList

  /** The queue of fetched events splits at a checkpoint's block. */
  lemma {:induction false} DueEvents(events: seq<TimedEvent>, from: int, last: int, block: int, to: int)
    requires InBlockOrder(events) && from <= last <= block <= to
    ensures var queue, done, due := Query(events, from, to), Query(events, from, last), Query(events, last, block);
            && |done| + |due| <= |queue| && queue[|done|..|done| + |due|] == due
            && (forall i :: |done| <= i < |queue| ==> (queue[i].block <= block <==> i < |done| + |due|))
            && |Query(events, from, block)| == |done| + |due|
  {
    var queue, done, due, later :=
      Query(events, from, to), Query(events, from, last), Query(events, last, block), Query(events, block, to);
    QueriesJoin(events, from, last, block);
    QueriesJoin(events, from, block, to);
    assert queue == done + due + later;
    forall i | |done| <= i < |queue|
      ensures queue[i].block <= block <==> i < |done| + |due|
    {
      if i < |done| + |due| {
        assert queue[i] == due[i - |done|];
        QueryIsFilter(events, last, block, queue[i]);
      } else {
        assert queue[i] == later[i - |done| - |due|];
        QueryIsFilter(events, block, to, queue[i]);
      }
    }
  }

  class PaperAsset<M(!new)> {
    var core: Core
    var seed: MarketSeed
    var model: Value
    var invalid: bool
    var marks: seq<Mark>

    function State(): Asset
      reads this
    {
      Asset(core, seed, model)
    }

    /** The asset as parsed from the state file. */
    constructor (asset: Asset, invalid: bool)
      ensures State() == asset && this.invalid == invalid && marks == []
    {
      core, seed, model := asset.core, asset.seed, asset.model;
      this.invalid, marks := invalid, [];
    }

    /** captureBenchmark */
    method Capture(k: Kernel<M>, m: M) returns (ok: bool)
      modifies this`core
      ensures ok <==> Captured(k, old(core), m).Some?
      ensures core == if ok then Captured(k, old(core), m).value else old(core)
    {
      var derived := k.derive(m);
      if derived.None? { return true; }
      if core.benchmark.Some? { return core.benchmark == derived; }
      core := core.(benchmark := derived, historyLastAt := None);
      ok := true;
    }

    /** recordHistory */
    method Record(k: Kernel<M>, market: MarketState, m: M, cp: Checkpoint, acted: bool)
      modifies this`core, this`marks
      ensures Live(core, market, m, marks) == Recorded(k, Live(old(core), market, m, old(marks)), cp, acted)
    {
      var baseline := core.historyLastAt.None?;
      if !baseline && !acted && cp.at - core.historyLastAt.value < SAMPLE_GAP { return; }
      marks := marks + [k.record(m, market, cp, Note(baseline, acted, core.benchmark, core.reference))];
      core := core.(historyLastAt := Some(cp.at));
    }

    /** The inner loop: every fetched event up to the checkpoint's block, every charge it produced. */
    method Absorb(k: Kernel<M>, market: ExperimentMarket, m: M, events: seq<TimedEvent>, index: nat, block: int,
                  ghost due: seq<TimedEvent>) returns (ok: bool, model: M, end: nat)
      requires index + |due| <= |events| && events[index..index + |due|] == due
      requires forall i :: index <= i < |events| ==> (events[i].block <= block <==> i < index + |due|)
      requires L.Lists(market.sorted, market.seed.book)
      modifies this`core, market
      ensures var before := Live(old(core), old(market.State()), m, marks);
              && (ok <==> Fold(EventStepper(k), before, due).Some?)
              && (ok ==> Fold(EventStepper(k), before, due) == Some(Live(core, market.State(), model, marks)))
              && (!ok ==> core == EventsStopped(k, before, due))
      ensures ok ==> end == index + |due| && L.Lists(market.sorted, market.seed.book)
    {
      hide EventStepper;
      ok, model, end := true, m, index;
      ghost var before, step := Live(core, market.State(), m, marks), EventStepper(k);
      while end < |events| && events[end].block <= block
        invariant index <= end <= index + |due|
        invariant L.Lists(market.sorted, market.seed.book)
        invariant Fold(step, before, due[..end - index]) == Some(Live(core, market.State(), model, marks))
      {
        ghost var j := end - index;
        assert events[end] == due[j];
        FoldNext(step, before, due, j);
        ok, model := ApplyEvent(k, market, model, events[end]);
        if !ok {
          HaltedAt(step, (l: Live<M>, e: TimedEvent) => l, before, due, j);
          return;
        }
        end := end + 1;
      }
      assert due[..|due|] == due;
    }

    method ApplyEvent(k: Kernel<M>, market: ExperimentMarket, m: M, e: TimedEvent) returns (ok: bool, model: M)
      requires L.Lists(market.sorted, market.seed.book)
      modifies this`core, market
      ensures var before := Live(old(core), old(market.State()), m, marks);
              && (ok <==> EventStepper(k)(before, e).Some?)
              && (ok ==> EventStepper(k)(before, e) == Some(Live(core, market.State(), model, marks)))
      ensures !ok ==> core == old(core)
      ensures ok ==> L.Lists(market.sorted, market.seed.book)
    {
      hide Applied, Accrued, TotalGrowth;
      model := m;
      var charges;
      ok, charges := market.Apply(k.ratio, e.event);
      if ok { model := Charges(k, m, charges); }
    }

    method Charges(k: Kernel<M>, m: M, charges: seq<Charge>) returns (model: M)
      modifies this`core
      ensures model == Accrued(k, m, charges)
      ensures core == old(core).(growth0 := old(core).growth0 + TotalGrowth(charges, 0),
                                 growth1 := old(core).growth1 + TotalGrowth(charges, 1))
    {
      model := m;
      for i := 0 to |charges|
        invariant model == Accrued(k, m, charges[..i])
        invariant core == old(core).(growth0 := old(core).growth0 + TotalGrowth(charges[..i], 0),
                                     growth1 := old(core).growth1 + TotalGrowth(charges[..i], 1))
      {
        var c := charges[i];
        assert charges[..i + 1][..i] == charges[..i];
        if c.segment.token == 0 {
          core := core.(growth0 := core.growth0 + Growth(c));
        } else {
          core := core.(growth1 := core.growth1 + Growth(c));
        }
        model := k.accrue(model, c);
      }
      assert charges[..|charges|] == charges;
    }

    method Decide(k: Kernel<M>, market: MarketState, m: M, cp: Checkpoint, gate: Gate) returns (ok: bool, model: M)
      modifies this`core
      ensures var before := Live(old(core), market, m, marks);
              && (ok <==> Decided(k, before, cp, gate).Some?)
              && (ok ==> Decided(k, before, cp, gate) == Some(Live(core, market, model, marks)))
      ensures !ok ==> core == Forecasting(k, old(core), cp)
    {
      ok, model := true, m;
      if gate.reasons == [] {
        var tally := core.tally;
        if k.forecast(core.window.samples, cp.at) {
          core := core.(tally := tally.(available := tally.available + 1));
        } else {
          core := core.(tally := tally.(unavailable := tally.unavailable + 1));
        }
        var stepped := k.step(m, market, cp, core.window.samples);
        if stepped.None? { return false, m; }
        model := stepped.value;
        core := core.(tally := core.tally.(decisions := core.tally.decisions + 1));
      } else {
        model := k.mark(m, market, cp);
        core := core.(tally := core.tally.(blocked := Blocked(core.tally.blocked, gate.reasons)));
      }
    }

    method Finish(k: Kernel<M>, market: MarketState, m: M, cp: Checkpoint, reference: Value, acted: bool, allow: bool)
      returns (ok: bool)
      modifies this`core, this`marks
      ensures var before := Live(old(core), market, m, old(marks));
              && (ok <==> Finished(k, before, cp, reference, acted, allow).Some?)
              && (ok ==> Finished(k, before, cp, reference, acted, allow) == Some(Live(core, market, m, marks)))
      ensures !ok ==> core == old(core) && marks == old(marks)
    {
      ok := Capture(k, m);
      if !ok { return; }
      core := core.(reference := k.valuation(m, market, core.benchmark, reference), last := cp);
      if allow { Record(k, market, m, cp, acted); }
    }

    /** A checkpoint after its events. */
    method Check(k: Kernel<M>, market: MarketState, m: M, cp: Checkpoint, gate: Gate, allow: bool) returns (ok: bool,
          model: M)
      requires k.lookbackMs > 0
      modifies this`core, this`marks
      ensures var before := Live(old(core), market, m, old(marks));
              && (ok <==> Checked(k, before, cp, gate, allow).Some?)
              && (ok ==> Checked(k, before, cp, gate, allow) == Some(Live(core, market, model, marks)))
              && (!ok ==> core == CheckStopped(k, before, cp, gate, allow) && marks == old(marks))
    {
      model := m;
      if !Verified(market.seed, cp) { return false, m; }
      var sampler := new ForecastSampler(core.window);
      sampler.Sample(SampleOf(core, market.seed, cp), k.lookbackMs);
      core := core.(window := sampler.State());
      if !allow {
        ok := Finish(k, market, m, cp, C.Null, false, false);
      } else {
        ok, model := Decide(k, market, m, cp, gate);
        if ok { ok := Finish(k, market, model, cp, gate.reference, k.actions(model) > k.actions(m), true); }
      }
    }

    /** The body of the row loop; from and to bound the queue of fetched events. */
    method Row(k: Kernel<M>, env: Env, market: ExperimentMarket, m: M, events: seq<TimedEvent>, index: nat,
          cp: Checkpoint,
               allow: bool, ghost from: int, ghost to: int) returns (ok: bool, model: M, end: nat)
      requires k.lookbackMs > 0 && L.Lists(market.sorted, market.seed.book)
      requires InBlockOrder(env.events) && from <= core.last.block < cp.block <= to &&
               events == Query(env.events, from, to)
      requires index == |Query(env.events, from, core.last.block)|
      modifies this`core, this`marks, market
      ensures var before := Live(old(core), old(market.State()), m, old(marks));
              && (ok <==> RowStepper(k, env, allow)(before, cp).Some?)
              && (ok ==> RowStepper(k, env, allow)(before, cp) == Some(Live(core, market.State(), model, marks)))
              && (!ok ==> core == RowStopped(k, env, allow, before, cp) && marks == old(marks))
      ensures ok ==> L.Lists(market.sorted, market.seed.book) && core.last == cp
      ensures ok ==> end == |Query(env.events, from, cp.block)|
    {
      ok, model, end := false, m, index;
      if cp.targetSet != core.last.targetSet { return; }
      ghost var live := Live(core, market.State(), m, marks);
      ghost var due := Query(env.events, core.last.block, cp.block);
      DueEvents(env.events, from, core.last.block, cp.block, to);
      ok, model, end := Absorb(k, market, m, events, index, cp.block, due);
      if !ok { return; }
      ok, model := Check(k, market.State(), model, cp, env.gate(cp), allow);
      if ok { CheckedKeepsMarket(k, Fold(EventStepper(k), live, due).value, cp, env.gate(cp), allow); }
    }

    /** advanceAsset */
    method Advance(k: Kernel<M>, env: Env, rows: seq<Checkpoint>, allow: bool)
      requires k.lookbackMs > 0 && Openable(seed)
      requires InBlockOrder(env.events) && RisingFrom(core.last.block, rows)
      modifies this
      ensures old(invalid) || rows == [] ==> State() == old(State()) && marks == old(marks) && invalid == old(invalid)
      ensures !old(invalid) && rows != [] ==>
                match Advanced(k, env, old(State()), rows, allow)
                case Some((end, written)) => !invalid && State() == end && marks == old(marks) + written
                case None =>
                  var resumed := Behind(Before(old(marks), NOTHING_DEFERRED), Open(k, old(State())));
                  var stopped := RowsStopped(k, env, allow, resumed, rows);
                  invalid && seed == old(seed) && model == old(model) && core == stopped.core && marks == stopped.marks
    {
      hide RowStepper, RowStopped;
      if invalid || rows == [] { return; }
      var market := new ExperimentMarket(seed);
      var m := k.restore(model);
      L.ListingUnique(market.sorted, Listing(seed.book));
      ghost var start, step, from := Open(k, State()), RowStepper(k, env, allow), core.last.block;
      ghost var earlier := Before(marks, NOTHING_DEFERRED);
      ghost var was := Behind(earlier, start);
      BehindNothing(earlier, start);
      assert marks + [] == marks;
      RowsBehind(k, env, allow, earlier, start, rows);
      var to := rows[|rows| - 1].block;
      var events, index := Query(env.events, core.last.block, to), 0;
      assert Query(env.events, from, from) == [];
      for i := 0 to |rows|
        invariant !invalid && seed == old(seed) && model == old(model) && L.Lists(market.sorted, market.seed.book)
        invariant Fold(step, was, rows[..i]) == Some(Live(core, market.State(), m, marks))
        invariant core.last.block == LastBlock(from, rows[..i]) && index == |Query(env.events, from, core.last.block)|
      {
        FoldNext(step, was, rows, i);
        var ok;
        ok, m, index := Row(k, env, market, m, events, index, rows[i], allow, from, to);
        if !ok {
          HaltedAt(step, RowStopper(k, env, allow), was, rows, i);
          invalid := true;
          return;
        }
      }
      assert rows[..|rows|] == rows && index == |events|;
      seed := market.seed;
      model := k.snapshot(m);
      BehindNothing(earlier, Fold(step, start, rows).value);
    }

    /** The part of a tick before its rows are fetched: on false the tick dies. */
    method Begin(k: Kernel<M>) returns (ok: bool, ghost first: seq<Mark>)
      requires Openable(seed)
      modifies this`core, this`marks
      ensures ok <==> Started(k, old(State())).Some?
      ensures ok ==> Started(k, old(State())) == Some((State(), first)) && marks == old(marks) + first
      ensures !ok ==> core == old(core) && marks == old(marks)
      ensures core.last == old(core.last)
    {
      first := [];
      var m := k.restore(model);
      ok := Capture(k, m);
      if ok && core.historyLastAt.None? {
        var market := new ExperimentMarket(seed);
        L.ListingUnique(market.sorted, Listing(seed.book));
        Record(k, market.State(), m, core.last, false);
        first := Started(k, old(State())).value.1;
      }
    }

    /** Counting the rows the filter dropped. */
    method Count(d: Deferred)
      modifies this`core
      ensures State() == Counting(old(State()), d)
    {
      var tally := core.tally;
      core := core.(tally := tally.(blocked := CountDeferred(tally.blocked, d)));
    }

    /** One tick of this asset, offered these rows of the checkpoint table; on false the tick dies and nothing is
        saved. */
    method Poll(k: Kernel<M>, env: Env, all: seq<Row>) returns (ok: bool)
      requires k.lookbackMs > 0 && Openable(seed)
      requires InBlockOrder(env.events) && Fetched(all, core.last.block)
      modifies this
      ensures ok <==> Started(k, old(State())).Some?
      ensures !ok ==> State() == old(State()) && marks == old(marks) && invalid == old(invalid)
      ensures ok && (old(invalid) || OfferOf(all).rows == []) ==>
                var (started, first) := Started(k, old(State())).value;
                State() == Counting(started, OfferOf(all).deferred) && marks == old(marks) + first &&
                  invalid == old(invalid)
      ensures ok && !old(invalid) && OfferOf(all).rows != [] ==>
                match Polled(k, env, old(State()), OfferOf(all))
                case Some((end, written)) => !invalid && State() == end && marks == old(marks) + written
                case None =>
                  var stopped := PollStopped(k, env, old(State()), old(marks), OfferOf(all));
                  invalid && seed == old(seed) && model == old(model) && core == stopped.core && marks == stopped.marks
    {
      hide Captured, Recorded, Open, Fold, Started, Behind, RowsStopped, CountDeferred, Unique, Usables;
      ghost var first;
      ok, first := Begin(k);
      if !ok { return; }
      var unique, deferred := Rows(all);
      var rows := Checkpoints(unique);
      OfferRises(all, core.last.block);
      Count(deferred);
      ghost var counted := State();
      Advance(k, env, rows, true);
      if Advanced(k, env, counted, rows, true).Some? {
        ghost var written := Advanced(k, env, counted, rows, true).value.1;
        assert old(marks) + first + written == old(marks) + (first + written);
      }
    }
  }
}
