/** Runs of the paper runner: any number of polls with the state encoded, saved and decoded in between, crashes
    before the rename, and what the log reads as afterwards (tick, persist and recordHistory in
    src/adaptive-paper.ts). */
module PaperRuns {
  import opened Prelude
  import opened Market
  import opened ForecastWindow
  import opened CheckpointRows
  import opened AssetFile
  import opened PaperReplay
  import C = StateCodec
  import H = MarkHistory
  import S = SwapReplay

  // ---- which models, valuations and marks can occur ----

  /** The kinds of model, benchmark, valuation, judgement, checkpoint and mark that a run meets. */
  datatype Kinds<!M> = Kinds(model: M -> bool, benchmark: Value -> bool, reference: Value -> bool,
                             judged: Value -> bool, seen: Checkpoint -> bool, mark: Mark -> bool)

  ghost predicate ModelsClosed<M(!new)>(k: Kernel<M>, kinds: Kinds<M>)
  {
    && (forall m, c :: kinds.model(m) && Fair(c) ==> kinds.model(k.accrue(m, c)))
    && (forall m, market, cp, samples :: kinds.model(m) && Running(k.ratio, market) && kinds.seen(cp) ==>
          var after := k.step(m, market, cp, samples); after.Some? ==> kinds.model(after.value))
    && (forall m, market, cp :: kinds.model(m) && Running(k.ratio, market) && kinds.seen(cp) ==>
          kinds.model(k.mark(m, market, cp)))
  }

  ghost predicate MaybeBenchmark<M>(kinds: Kinds<M>, b: Option<Value>)
  {
    b.Some? ==> kinds.benchmark(b.value)
  }

  ghost predicate ValuesClosed<M(!new)>(k: Kernel<M>, kinds: Kinds<M>, env: Env)
  {
    && (forall m :: kinds.model(m) ==> MaybeBenchmark(kinds, k.derive(m)))
    && (forall m, market, b, r ::
          kinds.model(m) && Running(k.ratio, market) && MaybeBenchmark(kinds, b) && kinds.judged(r)
          ==> kinds.reference(k.valuation(m, market, b, r)))
    && kinds.judged(C.Null)
    && (forall cp :: kinds.seen(cp) ==> kinds.judged(env.gate(cp).reference))
  }

  ghost predicate MarksClosed<M(!new)>(k: Kernel<M>, kinds: Kinds<M>)
  {
    forall m, market, cp, note: Note :: kinds.model(m) && Running(k.ratio, market) && kinds.seen(cp)
      && MaybeBenchmark(kinds, note.benchmark) && kinds.reference(note.reference)
      ==> kinds.mark(k.record(m, market, cp, note))
  }

  /** The parts of the kernel stay within the kinds as long as the pool's events are fair and its market runs. */
  ghost predicate Closed<M(!new)>(k: Kernel<M>, kinds: Kinds<M>, env: Env)
  {
    ModelsClosed(k, kinds) && ValuesClosed(k, kinds, env) && MarksClosed(k, kinds)
  }

  /** Nothing of these kinds looks like an encoded bigint in the state file. */
  ghost predicate Storable<M(!new)>(k: Kernel<M>, kinds: Kinds<M>)
  {
    && (forall m :: kinds.model(m) ==> C.Plain(k.snapshot(m)))
    && (forall v :: kinds.benchmark(v) || kinds.reference(v) ==> C.Plain(v))
  }

  ghost predicate CoreFits<M>(kinds: Kinds<M>, core: Core)
  {
    MaybeBenchmark(kinds, core.benchmark) && kinds.reference(core.reference) && kinds.seen(core.last)
  }

  ghost predicate AllMarked<M>(kinds: Kinds<M>, ms: seq<Mark>)
  {
    forall i :: 0 <= i < |ms| ==> kinds.mark(ms[i])
  }

  ghost predicate LiveFits<M>(k: Kernel<M>, kinds: Kinds<M>, spacing: int, live: Live<M>)
  {
    LiveSound(k, spacing, live) && kinds.model(live.model) && CoreFits(kinds, live.core) && AllMarked(kinds, live.marks)
  }

  /** What a run starts from. */
  ghost predicate Prepared<M(!new)>(k: Kernel<M>, kinds: Kinds<M>, env: Env, asset: Asset)
  {
    && Sound(k, env, asset) && Closed(k, kinds, env) && Storable(k, kinds)
    && kinds.model(k.restore(asset.model)) && C.Plain(asset.model) && CoreFits(kinds, asset.core)
  }

  ghost predicate AllSeen<M>(kinds: Kinds<M>, rows: seq<Checkpoint>)
  {
    forall i :: 0 <= i < |rows| ==> kinds.seen(rows[i])
  }

  lemma {:induction false} AccruedFits<M(!new)>(k: Kernel<M>, kinds: Kinds<M>, model: M, charges: seq<Charge>)
    requires ModelsClosed(k, kinds) && kinds.model(model) && forall i :: 0 <= i < |charges| ==> Fair(charges[i])
    ensures kinds.model(Accrued(k, model, charges))
    decreases |charges|
  {
    if charges != [] {
      hide Fair;
      AccruedFits(k, kinds, model, charges[..|charges| - 1]);
    }
  }

  lemma {:induction false} EventKeepsFit<M(!new)>(k: Kernel<M>, kinds: Kinds<M>, spacing: int, live: Live<M>,
        e: TimedEvent)
    requires S.IncreasingRatio(k.ratio) && ModelsClosed(k, kinds) && PoolSane(e.event, spacing)
    requires LiveFits(k, kinds, spacing, live) && EventStep(k, live, e).Some?
    ensures LiveFits(k, kinds, spacing, EventStep(k, live, e).value)
  {
    hide Applied, Fair, PoolSane, ModelsClosed, LiveSound, S.IncreasingRatio;
    EventKeepsSound(k, spacing, live, e);
    var charges := Applied(k.ratio, live.market, e.event).value.1;
    forall i | 0 <= i < |charges|
      ensures Fair(charges[i])
    {
      AppliedFair(k.ratio, live.market, e.event, i);
    }
    AccruedFits(k, kinds, live.model, charges);
  }

  lemma {:induction false} EventsKeepFit<M(!new)>(k: Kernel<M>, kinds: Kinds<M>, spacing: int, live: Live<M>,
        es: seq<TimedEvent>)
    requires S.IncreasingRatio(k.ratio) && ModelsClosed(k, kinds) && Sane(es, spacing)
    requires LiveFits(k, kinds, spacing, live) && Fold(EventStepper(k), live, es).Some?
    ensures LiveFits(k, kinds, spacing, Fold(EventStepper(k), live, es).value)
  {
    hide EventStep, LiveFits, PoolSane, ModelsClosed, S.IncreasingRatio;
    var step, inv := EventStepper(k), (l: Live<M>) => LiveFits(k, kinds, spacing, l);
    var sane := (e: TimedEvent) => PoolSane(e.event, spacing);
    forall l, e | inv(l) && sane(e) && step(l, e).Some?
      ensures inv(step(l, e).value)
    {
      EventKeepsFit(k, kinds, spacing, l, e);
    }
    FoldKeeps(step, live, es, inv, sane);
  }

  lemma {:induction false} RecordedFits<M(!new)>(k: Kernel<M>, kinds: Kinds<M>, spacing: int, live: Live<M>,
        cp: Checkpoint, acted: bool)
    requires MarksClosed(k, kinds) && LiveFits(k, kinds, spacing, live) && kinds.seen(cp)
    ensures LiveFits(k, kinds, spacing, Recorded(k, live, cp, acted))
  {
  }

  lemma {:induction false} CapturedFits<M(!new)>(k: Kernel<M>, kinds: Kinds<M>, env: Env, core: Core, model: M)
    requires ValuesClosed(k, kinds, env) && CoreFits(kinds, core) && kinds.model(model)
    requires Captured(k, core, model).Some?
    ensures CoreFits(kinds, Captured(k, core, model).value)
  {
    assert MaybeBenchmark(kinds, k.derive(model));
  }

  lemma {:induction false} FinishedFits<M(!new)>(k: Kernel<M>, kinds: Kinds<M>, env: Env, spacing: int, live: Live<M>,
        cp: Checkpoint, reference: Value, acted: bool, allow: bool)
    requires ValuesClosed(k, kinds, env) && MarksClosed(k, kinds) && LiveFits(k, kinds, spacing, live)
    requires kinds.seen(cp) && kinds.judged(reference) && Finished(k, live, cp, reference, acted, allow).Some?
    ensures LiveFits(k, kinds, spacing, Finished(k, live, cp, reference, acted, allow).value)
  {
    hide Recorded, Captured, MarksClosed;
    var core := Captured(k, live.core, live.model).value;
    CapturedFits(k, kinds, env, live.core, live.model);
    var valued := core.(reference := k.valuation(live.model, live.market, core.benchmark, reference), last := cp);
    RecordedFits(k, kinds, spacing, live.(core := valued), cp, acted);
  }

  lemma {:induction false} DecidedFits<M(!new)>(k: Kernel<M>, kinds: Kinds<M>, spacing: int, live: Live<M>,
        cp: Checkpoint, gate: Gate)
    requires ModelsClosed(k, kinds) && LiveFits(k, kinds, spacing, live) && kinds.seen(cp)
    requires Decided(k, live, cp, gate).Some?
    ensures LiveFits(k, kinds, spacing, Decided(k, live, cp, gate).value)
  {
    hide Blocked;
  }

  lemma {:induction false} CheckedFits<M(!new)>(k: Kernel<M>, kinds: Kinds<M>, env: Env, spacing: int, live: Live<M>,
        cp: Checkpoint, allow: bool)
    requires Closed(k, kinds, env) && LiveFits(k, kinds, spacing, live) && kinds.seen(cp)
    requires Checked(k, live, cp, env.gate(cp), allow).Some?
    ensures LiveFits(k, kinds, spacing, Checked(k, live, cp, env.gate(cp), allow).value)
  {
    hide Decided, Finished, Sampled, ModelsClosed, MarksClosed;
    var sampled, gate := Sampling(k, live, cp), env.gate(cp);
    assert LiveFits(k, kinds, spacing, sampled);
    if !allow {
      FinishedFits(k, kinds, env, spacing, sampled, cp, C.Null, false, allow);
    } else {
      DecidedFits(k, kinds, spacing, sampled, cp, gate);
      var decided := Decided(k, sampled, cp, gate).value;
      FinishedFits(k, kinds, env, spacing, decided, cp, gate.reference,
                   k.actions(decided.model) > k.actions(sampled.model), allow);
    }
  }

  lemma {:induction false} RowKeepsFit<M(!new)>(k: Kernel<M>, kinds: Kinds<M>, env: Env, spacing: int, live: Live<M>,
        cp: Checkpoint)
    requires S.IncreasingRatio(k.ratio) && Closed(k, kinds, env) && Sane(env.events, spacing) && kinds.seen(cp)
    requires LiveFits(k, kinds, spacing, live) && RowStep(k, env, true, live, cp).Some?
    ensures LiveFits(k, kinds, spacing, RowStep(k, env, true, live, cp).value)
  {
    hide Checked, EventStepper, LiveFits, ModelsClosed, ValuesClosed, MarksClosed, Sane, S.IncreasingRatio;
    var es := Query(env.events, live.core.last.block, cp.block);
    QuerySane(env.events, spacing, live.core.last.block, cp.block);
    EventsKeepFit(k, kinds, spacing, live, es);
    CheckedFits(k, kinds, env, spacing, Fold(EventStepper(k), live, es).value, cp, true);
  }

  lemma {:induction false} RowsKeepFit<M(!new)>(k: Kernel<M>, kinds: Kinds<M>, env: Env, spacing: int, live: Live<M>,
        rows: seq<Checkpoint>)
    requires S.IncreasingRatio(k.ratio) && Closed(k, kinds, env) && Sane(env.events, spacing) && AllSeen(kinds, rows)
    requires LiveFits(k, kinds, spacing, live) && Fold(RowStepper(k, env, true), live, rows).Some?
    ensures LiveFits(k, kinds, spacing, Fold(RowStepper(k, env, true), live, rows).value)
  {
    hide RowStep, LiveFits, Closed, Sane, S.IncreasingRatio;
    var step, inv := RowStepper(k, env, true), (l: Live<M>) => LiveFits(k, kinds, spacing, l);
    var sane := (cp: Checkpoint) => kinds.seen(cp);
    forall l, cp | inv(l) && sane(cp) && step(l, cp).Some?
      ensures inv(step(l, cp).value)
    {
      RowKeepsFit(k, kinds, env, spacing, l, cp);
    }
    FoldKeeps(step, live, rows, inv, sane);
  }

  lemma {:induction false} StartedFits<M(!new)>(k: Kernel<M>, kinds: Kinds<M>, env: Env, asset: Asset, d: Deferred)
    requires Prepared(k, kinds, env, asset) && Started(k, asset).Some?
    ensures var (started, first) := Started(k, asset).value;
            Prepared(k, kinds, env, Counting(started, d)) && AllMarked(kinds, first)
  {
    hide Recorded, Captured, Running, ModelsClosed, Sane, S.IncreasingRatio, C.Plain, Storable;
    var live := Open(k, asset);
    CapturedFits(k, kinds, env, asset.core, live.model);
    var core := Captured(k, asset.core, live.model).value;
    StartedSettles(k, asset);
    RecordedFits(k, kinds, asset.seed.spacing, live.(core := core), core.last, false);
  }

  lemma {:induction false} OpenFits<M(!new)>(k: Kernel<M>, kinds: Kinds<M>, env: Env, asset: Asset)
    requires Prepared(k, kinds, env, asset)
    ensures LiveFits(k, kinds, asset.seed.spacing, Open(k, asset))
  {
  }

  lemma {:induction false} CloseFits<M(!new)>(k: Kernel<M>, kinds: Kinds<M>, env: Env, asset: Asset, live: Live<M>)
    requires Prepared(k, kinds, env, asset) && LiveFits(k, kinds, asset.seed.spacing, live)
    ensures Prepared(k, kinds, env, Close(k, live))
  {
    hide Closed, Sane, S.IncreasingRatio, C.Plain, CoreFits;
    ReopenIsIdentity(k.ratio, live.market, Listing(live.market.seed.book));
  }

  /** A poll leaves an asset of the same kinds and writes only marks of their kind. */
  lemma {:induction false} PolledFits<M(!new)>(k: Kernel<M>, kinds: Kinds<M>, env: Env, asset: Asset, o: Offer)
    requires Prepared(k, kinds, env, asset) && AllSeen(kinds, o.rows) && Polled(k, env, asset, o).Some?
    ensures Prepared(k, kinds, env, Polled(k, env, asset, o).value.0)
    ensures AllMarked(kinds, Polled(k, env, asset, o).value.1)
  {
    hide Prepared, LiveFits, Started, RowStepper, AllSeen;
    StartedFits(k, kinds, env, asset, o.deferred);
    var counted := Counting(Started(k, asset).value.0, o.deferred);
    if o.rows != [] {
      OpenFits(k, kinds, env, counted);
      PreparedParts(k, kinds, env, counted);
      RowsKeepFit(k, kinds, env, counted.seed.spacing, Open(k, counted), o.rows);
      var live := Fold(RowStepper(k, env, true), Open(k, counted), o.rows).value;
      CloseFits(k, kinds, env, counted, live);
      LiveMarked(k, kinds, counted.seed.spacing, live);
    }
  }

  lemma {:induction false} LiveMarked<M>(k: Kernel<M>, kinds: Kinds<M>, spacing: int, live: Live<M>)
    requires LiveFits(k, kinds, spacing, live)
    ensures AllMarked(kinds, live.marks)
  {
  }

  lemma {:induction false} PreparedParts<M(!new)>(k: Kernel<M>, kinds: Kinds<M>, env: Env, asset: Asset)
    requires Prepared(k, kinds, env, asset)
    ensures Sound(k, env, asset) && Closed(k, kinds, env)
    ensures S.IncreasingRatio(k.ratio) && Sane(env.events, asset.seed.spacing)
  {
  }

  // ---- any number of polls, each reading what the last one saved ----

  lemma {:induction false} PreparedReloads<M(!new)>(k: Kernel<M>, kinds: Kinds<M>, env: Env, asset: Asset,
        lenient: C.Lenient)
    requires Prepared(k, kinds, env, asset)
    ensures Reloaded(asset, lenient) == Some(asset)
  {
    hide Sound, Closed, C.Plain, Reloaded;
    AssetFile.ReloadedIsSame(asset, lenient);
  }

  ghost function PolledAll<M>(k: Kernel<M>, env: Env, lenient: C.Lenient, asset: Asset, polls: seq<Offer>):
    Option<(Asset, seq<Mark>)>
    decreases |polls|
  {
    if polls == [] then Some((asset, []))
    else match PolledAll(k, env, lenient, asset, polls[..|polls| - 1])
      case None => None
      case Some((middle, m)) =>
        match Reloaded(middle, lenient)
        case None => None
        case Some(loaded) => Following(m, Polled(k, env, loaded, polls[|polls| - 1]))
  }

  function Joined(polls: seq<Offer>): Offer
    decreases |polls|
  {
    if polls == [] then Offer([], NOTHING_DEFERRED) else Both(Joined(polls[..|polls| - 1]), polls[|polls| - 1])
  }

  lemma {:induction false} JoinedOne(polls: seq<Offer>)
    requires |polls| == 1
    ensures Joined(polls) == polls[0]
  {
    assert polls[..0] == [] && Joined([]) == Offer([], NOTHING_DEFERRED);
    assert [] + polls[0].rows == polls[0].rows;
  }

  ghost predicate OffersSeen<M>(kinds: Kinds<M>, polls: seq<Offer>)
  {
    forall i :: 0 <= i < |polls| ==> AllSeen(kinds, polls[i].rows)
  }

  /** Incremental replay is batch replay: cutting the checkpoints into any number of polls, with the state encoded,
      saved and restored between them, ends in the same market, counters, window, model and last checkpoint and
      writes the same marks as one uninterrupted poll over all of them; one run fails exactly when the other does. */
  lemma {:induction false} IncrementalIsBatch<M(!new)>(k: Kernel<M>, kinds: Kinds<M>, env: Env, lenient: C.Lenient,
        asset: Asset, polls: seq<Offer>)
    requires Prepared(k, kinds, env, asset) && OffersSeen(kinds, polls) && polls != []
    ensures PolledAll(k, env, lenient, asset, polls) == Polled(k, env, asset, Joined(polls))
    ensures PolledAll(k, env, lenient, asset, polls).Some? ==>
              Prepared(k, kinds, env, PolledAll(k, env, lenient, asset, polls).value.0)
    decreases |polls|
  {
    hide Prepared, Polled, AllSeen, Reloaded;
    var front, last := polls[..|polls| - 1], polls[|polls| - 1];
    assert AllSeen(kinds, last.rows);
    if front == [] {
      PreparedReloads(k, kinds, env, asset, lenient);
      JoinedOne(polls);
      FollowingTwice([], [], Polled(k, env, asset, last));
      if Polled(k, env, asset, last).Some? { PolledFits(k, kinds, env, asset, last); }
    } else {
      IncrementalIsBatch(k, kinds, env, lenient, asset, front);
      PreparedParts(k, kinds, env, asset);
      SplitPoll(k, env, asset, Joined(front), last);
      if PolledAll(k, env, lenient, asset, front).Some? {
        var middle := PolledAll(k, env, lenient, asset, front).value.0;
        PreparedReloads(k, kinds, env, middle, lenient);
        if Polled(k, env, middle, last).Some? { PolledFits(k, kinds, env, middle, last); }
      }
    }
  }

  // ---- crashes ----

  /** A mark as written when the clock shows each of these instants in turn. */
  function Stamped(ms: seq<Mark>, clock: nat -> int): seq<Mark>
  {
    seq(|ms|, i requires 0 <= i < |ms| => ms[i].(observedAt := clock(i)))
  }

  /** An attempt at a poll that died: it had fetched the first of the checkpoints the finished attempt saw, counted
      what was deferred, and written the first of its marks. */
  datatype Attempt = Attempt(fetched: nat, deferred: Deferred, written: nat, clock: nat -> int)

  datatype Tick = Tick(offer: Offer, dead: seq<Attempt>, clock: nat -> int)

  function First<T>(n: nat, s: seq<T>): seq<T>
  {
    if n <= |s| then s[..n] else s
  }

  ghost function Attempted<M>(k: Kernel<M>, env: Env, asset: Asset, tick: Tick, a: Attempt): seq<Mark>
  {
    match Polled(k, env, asset, Offer(First(a.fetched, tick.offer.rows), a.deferred))
    case None => []
    case Some((_, ms)) => Stamped(First(a.written, ms), a.clock)
  }

  ghost function Written<M>(k: Kernel<M>, env: Env, asset: Asset, tick: Tick, ms: seq<Mark>): H.Poll
  {
    H.Poll(seq(|tick.dead|, i requires 0 <= i < |tick.dead| => Attempted(k, env, asset, tick, tick.dead[i])),
           Stamped(ms, tick.clock))
  }

  /** A run of ticks, each restarted from the saved state until it gets through. */
  ghost function RunTicks<M>(k: Kernel<M>, env: Env, lenient: C.Lenient, asset: Asset, ticks: seq<Tick>):
    Option<(Asset, seq<H.Poll>)>
    decreases |ticks|
  {
    if ticks == [] then Some((asset, []))
    else match RunTicks(k, env, lenient, asset, ticks[..|ticks| - 1])
      case None => None
      case Some((saved, polls)) =>
        match Reloaded(saved, lenient)
        case None => None
        case Some(loaded) => FinishTick(k, env, loaded, ticks[|ticks| - 1], polls)
  }

  ghost function FinishTick<M>(k: Kernel<M>, env: Env, loaded: Asset, tick: Tick, polls: seq<H.Poll>):
    Option<(Asset, seq<H.Poll>)>
  {
    match Polled(k, env, loaded, tick.offer)
    case None => None
    case Some((end, ms)) => Some((end, polls + [Written(k, env, loaded, tick, ms)]))
  }

  function Offers(ticks: seq<Tick>): seq<Offer>
  {
    seq(|ticks|, i requires 0 <= i < |ticks| => ticks[i].offer)
  }

  /** What a dead attempt wrote is a prefix, up to the clock, of what the finished attempt writes. */
  lemma {:induction false} DeadAttemptIsPrefix<M(!new)>(k: Kernel<M>, env: Env, asset: Asset, tick: Tick, a: Attempt)
    requires Sound(k, env, asset) && Polled(k, env, asset, tick.offer).Some?
    ensures H.Blocks(Attempted(k, env, asset, tick, a)) <=
            H.Blocks(Stamped(Polled(k, env, asset, tick.offer).value.1, tick.clock))
  {
    hide Polled, Sound;
    var rows := tick.offer.rows;
    var n := if a.fetched <= |rows| then a.fetched else |rows|;
    assert rows[..n] == First(a.fetched, rows) && rows[..n] + rows[n..] == rows;
    var some, rest := Offer(rows[..n], a.deferred), Offer(rows[n..], NOTHING_DEFERRED);
    SplitPoll(k, env, asset, some, rest);
    assert Both(some, rest) == Offer(rows, a.deferred) && tick.offer == Offer(rows, tick.offer.deferred);
    CountsWriteNothing(k, env, asset, rows, a.deferred, tick.offer.deferred);
    var all, early := Polled(k, env, asset, tick.offer).value.1, Polled(k, env, asset, some).value.1;
    assert early <= all;
    StampedPrefix(First(a.written, early), all, a.clock, tick.clock);
  }

  lemma {:induction false} StampedPrefix(some: seq<Mark>, all: seq<Mark>, c: nat -> int, d: nat -> int)
    requires some <= all
    ensures H.Blocks(Stamped(some, c)) <= H.Blocks(Stamped(all, d))
  {
    var x, y := H.Blocks(Stamped(some, c)), H.Blocks(Stamped(all, d));
    assert forall i :: 0 <= i < |some| ==> x[i] == some[i].block == all[i].block == y[i];
  }

  lemma {:induction false} TickRetries<M(!new)>(k: Kernel<M>, env: Env, asset: Asset, tick: Tick)
    requires Sound(k, env, asset) && Polled(k, env, asset, tick.offer).Some?
    ensures H.Retries(Written(k, env, asset, tick, Polled(k, env, asset, tick.offer).value.1))
  {
    hide Polled, Sound, Attempted;
    var p := Written(k, env, asset, tick, Polled(k, env, asset, tick.offer).value.1);
    forall i | 0 <= i < |p.dead|
      ensures H.Blocks(p.dead[i]) <= H.Blocks(p.done)
    {
      DeadAttemptIsPrefix(k, env, asset, tick, tick.dead[i]);
    }
  }

  lemma {:induction false} StampedSame(ms: seq<Mark>, clock: nat -> int)
    ensures H.AllSame(Stamped(ms, clock), ms)
  {
  }

  lemma {:induction false} SameAppended(a: seq<Mark>, b: seq<Mark>, c: seq<Mark>, d: seq<Mark>)
    requires H.AllSame(a, b) && H.AllSame(c, d)
    ensures H.AllSame(a + c, b + d)
  {
  }

  lemma {:induction false} LastTickSame<M(!new)>(k: Kernel<M>, env: Env, saved: Asset, tick: Tick, done: seq<Mark>,
        polls: seq<H.Poll>, before: seq<Mark>)
    requires H.AllSame(H.Finished(polls), before)
    ensures H.AllSame(H.Finished(polls + [Written(k, env, saved, tick, done)]), before + done)
  {
    hide Attempted;
    var all := polls + [Written(k, env, saved, tick, done)];
    assert all[..|polls|] == polls;
    StampedSame(done, tick.clock);
    SameAppended(H.Finished(polls), before, Stamped(done, tick.clock), done);
  }

  /** A run ended where this batch poll ends, wrote the same marks up to the clock, and only ever retried. */
  ghost predicate Agrees(end: Asset, polls: seq<H.Poll>, batch: Option<(Asset, seq<Mark>)>)
  {
    && batch.Some? && batch.value.0 == end
    && H.AllSame(H.Finished(polls), batch.value.1)
    && (forall i :: 0 <= i < |polls| ==> H.Retries(polls[i]))
  }

  lemma {:induction false} TickAgrees<M(!new)>(k: Kernel<M>, env: Env, saved: Asset, tick: Tick, polls: seq<H.Poll>,
        before: seq<Mark>)
    requires Sound(k, env, saved) && H.AllSame(H.Finished(polls), before)
    requires forall i :: 0 <= i < |polls| ==> H.Retries(polls[i])
    requires FinishTick(k, env, saved, tick, polls).Some?
    ensures var (end, all) := FinishTick(k, env, saved, tick, polls).value;
            Agrees(end, all, Following(before, Polled(k, env, saved, tick.offer)))
  {
    hide Polled, Sound, Written;
    TickRetries(k, env, saved, tick);
    LastTickSame(k, env, saved, tick, Polled(k, env, saved, tick.offer).value.1, polls, before);
  }

  // ---- every mark of a run is one the log takes ----

  /** Marks of the kind, written at any instant the clock can show, pass the schema and belong to the asset. */
  ghost predicate Accepting<M>(kinds: Kinds<M>, f: H.Format, symbol: string, shown: int -> bool)
  {
    forall m, t :: kinds.mark(m) && shown(t) ==> m.symbol == symbol && f.accepts(m.(observedAt := t))
  }

  ghost predicate Shows(shown: int -> bool, clock: nat -> int)
  {
    forall i :: shown(clock(i))
  }

  /** The ticks meet only checkpoints of the kind and instants the clock can show. */
  ghost predicate TickShown<M>(kinds: Kinds<M>, shown: int -> bool, tick: Tick)
  {
    && AllSeen(kinds, tick.offer.rows) && Shows(shown, tick.clock)
    && forall i :: 0 <= i < |tick.dead| ==> Shows(shown, tick.dead[i].clock)
  }

  ghost predicate TicksShown<M>(kinds: Kinds<M>, shown: int -> bool, ticks: seq<Tick>)
  {
    forall i :: 0 <= i < |ticks| ==> TickShown(kinds, shown, ticks[i])
  }

  lemma {:induction false} StampedWritten<M>(kinds: Kinds<M>, f: H.Format, symbol: string, shown: int -> bool,
        ms: seq<Mark>, clock: nat -> int)
    requires Accepting(kinds, f, symbol, shown) && AllMarked(kinds, ms) && Shows(shown, clock)
    ensures H.Written(f, symbol, Stamped(ms, clock))
  {
    forall i | 0 <= i < |ms|
      ensures f.accepts(Stamped(ms, clock)[i]) && Stamped(ms, clock)[i].symbol == symbol
    {
      assert kinds.mark(ms[i]) && shown(clock(i));
    }
  }

  lemma {:induction false} FirstSeen<M>(kinds: Kinds<M>, n: nat, rows: seq<Checkpoint>)
    requires AllSeen(kinds, rows)
    ensures AllSeen(kinds, First(n, rows))
  {
  }

  lemma {:induction false} FirstMarked<M>(kinds: Kinds<M>, n: nat, ms: seq<Mark>)
    requires AllMarked(kinds, ms)
    ensures AllMarked(kinds, First(n, ms))
  {
  }

  lemma {:induction false} AttemptedWritten<M(!new)>(k: Kernel<M>, kinds: Kinds<M>, env: Env, f: H.Format,
        symbol: string, shown: int -> bool, asset: Asset, tick: Tick, a: Attempt)
    requires Prepared(k, kinds, env, asset) && Accepting(kinds, f, symbol, shown)
    requires AllSeen(kinds, tick.offer.rows) && Shows(shown, a.clock)
    ensures H.Written(f, symbol, Attempted(k, env, asset, tick, a))
  {
    hide Prepared, Polled, Accepting, AllSeen, AllMarked, Shows, Stamped, First;
    var o := Offer(First(a.fetched, tick.offer.rows), a.deferred);
    if Polled(k, env, asset, o).Some? {
      FirstSeen(kinds, a.fetched, tick.offer.rows);
      PolledFits(k, kinds, env, asset, o);
      FirstMarked(kinds, a.written, Polled(k, env, asset, o).value.1);
      StampedWritten(kinds, f, symbol, shown, First(a.written, Polled(k, env, asset, o).value.1), a.clock);
    }
  }

  lemma {:induction false} BothWritten(f: H.Format, symbol: string, a: seq<Mark>, b: seq<Mark>)
    requires H.Written(f, symbol, a) && H.Written(f, symbol, b)
    ensures H.Written(f, symbol, a + b)
  {
  }

  lemma {:induction false} FlatWritten(f: H.Format, symbol: string, attempts: seq<seq<Mark>>)
    requires forall i :: 0 <= i < |attempts| ==> H.Written(f, symbol, attempts[i])
    ensures H.Written(f, symbol, H.Flat(attempts))
    decreases |attempts|
  {
    if attempts != [] {
      hide H.Written;
      var n := |attempts| - 1;
      FlatWritten(f, symbol, attempts[..n]);
      BothWritten(f, symbol, H.Flat(attempts[..n]), attempts[n]);
    } else {
      NothingWritten(f, symbol);
    }
  }

  lemma {:induction false} NothingWritten(f: H.Format, symbol: string)
    ensures H.Written(f, symbol, [])
  {
  }

  lemma {:induction false} TickWritten<M(!new)>(k: Kernel<M>, kinds: Kinds<M>, env: Env, f: H.Format, symbol: string,
        shown: int -> bool, loaded: Asset, tick: Tick, polls: seq<H.Poll>)
    requires Prepared(k, kinds, env, loaded) && Accepting(kinds, f, symbol, shown) && TickShown(kinds, shown, tick)
    requires H.Written(f, symbol, H.Appended(polls)) && FinishTick(k, env, loaded, tick, polls).Some?
    ensures H.Written(f, symbol, H.Appended(FinishTick(k, env, loaded, tick, polls).value.1))
  {
    hide Prepared, Polled, Accepting, AllSeen, AllMarked, Shows, H.Written, Stamped, Attempted;
    var done := Polled(k, env, loaded, tick.offer).value.1;
    PolledFits(k, kinds, env, loaded, tick.offer);
    StampedWritten(kinds, f, symbol, shown, done, tick.clock);
    var p := Written(k, env, loaded, tick, done);
    forall i | 0 <= i < |p.dead|
      ensures H.Written(f, symbol, p.dead[i])
    {
      AttemptedWritten(k, kinds, env, f, symbol, shown, loaded, tick, tick.dead[i]);
    }
    FlatWritten(f, symbol, p.dead);
    BothWritten(f, symbol, H.Appended(polls), H.Flat(p.dead));
    BothWritten(f, symbol, H.Appended(polls) + H.Flat(p.dead), p.done);
    assert (polls + [p])[..|polls|] == polls;
  }

  // ---- whole runs ----

  lemma {:induction false} LastOffer(ticks: seq<Tick>)
    requires ticks != []
    ensures Joined(Offers(ticks)) == Both(Joined(Offers(ticks[..|ticks| - 1])), ticks[|ticks| - 1].offer)
    ensures |ticks| == 1 ==> Joined(Offers(ticks)) == ticks[0].offer
  {
    assert Offers(ticks)[..|ticks| - 1] == Offers(ticks[..|ticks| - 1]);
    if |ticks| == 1 { JoinedOne(Offers(ticks)); }
  }

  /** A run of ticks with crashes ends where one uninterrupted poll over all checkpoints ends, and its finished
      attempts wrote the same marks up to the clock. */
  lemma {:induction false} RunIsBatch<M(!new)>(k: Kernel<M>, kinds: Kinds<M>, env: Env, lenient: C.Lenient,
        shown: int -> bool, asset: Asset, ticks: seq<Tick>)
    requires Prepared(k, kinds, env, asset) && TicksShown(kinds, shown, ticks) && ticks != []
    ensures var run := RunTicks(k, env, lenient, asset, ticks);
            run.Some? ==> Agrees(run.value.0, run.value.1, Polled(k, env, asset, Joined(Offers(ticks))))
                          && Prepared(k, kinds, env, run.value.0)
    decreases |ticks|
  {
    hide Prepared, Polled, Agrees, AllSeen, Shows, Sound, Reloaded, H.Finished, H.AllSame;
    var front, tick := ticks[..|ticks| - 1], ticks[|ticks| - 1];
    if RunTicks(k, env, lenient, asset, ticks).Some? {
      var (saved, polls) := RunTicks(k, env, lenient, asset, front).value;
      LastOffer(ticks);
      assert TickShown(kinds, shown, tick);
      if front == [] {
        PreparedReloads(k, kinds, env, asset, lenient);
        PreparedParts(k, kinds, env, asset);
        NoTicks();
        TickAgrees(k, env, asset, tick, [], []);
        FollowingTwice([], [], Polled(k, env, asset, tick.offer));
        PolledFits(k, kinds, env, asset, tick.offer);
      } else {
        RunIsBatch(k, kinds, env, lenient, shown, asset, front);
        PreparedReloads(k, kinds, env, saved, lenient);
        PreparedParts(k, kinds, env, asset);
        PreparedParts(k, kinds, env, saved);
        var rows := Joined(Offers(front));
        SplitPoll(k, env, asset, rows, tick.offer);
        AgreesMeaning(saved, polls, Polled(k, env, asset, rows));
        TickAgrees(k, env, saved, tick, polls, Polled(k, env, asset, rows).value.1);
        PolledFits(k, kinds, env, saved, tick.offer);
      }
    }
  }

  lemma {:induction false} NoTicks()
    ensures H.AllSame(H.Finished([]), [])
  {
  }

  lemma {:induction false} AgreesMeaning(end: Asset, polls: seq<H.Poll>, batch: Option<(Asset, seq<Mark>)>)
    requires Agrees(end, polls, batch)
    ensures batch.Some? && batch.value.0 == end && H.AllSame(H.Finished(polls), batch.value.1)
    ensures forall i :: 0 <= i < |polls| ==> H.Retries(polls[i])
  {
  }

  lemma {:induction false} RunWritten<M(!new)>(k: Kernel<M>, kinds: Kinds<M>, env: Env, lenient: C.Lenient, f: H.Format,
        symbol: string, shown: int -> bool, asset: Asset, ticks: seq<Tick>)
    requires Prepared(k, kinds, env, asset) && Accepting(kinds, f, symbol, shown) && TicksShown(kinds, shown, ticks)
    ensures var run := RunTicks(k, env, lenient, asset, ticks);
            run.Some? ==> H.Written(f, symbol, H.Appended(run.value.1))
    decreases |ticks|
  {
    hide Prepared, TickShown, Accepting, H.Written, FinishTick, Reloaded;
    if ticks == [] {
      NothingWritten(f, symbol);
    } else if RunTicks(k, env, lenient, asset, ticks).Some? {
      var front, tick := ticks[..|ticks| - 1], ticks[|ticks| - 1];
      RunWritten(k, kinds, env, lenient, f, symbol, shown, asset, front);
      if front != [] { RunIsBatch(k, kinds, env, lenient, shown, asset, front); }
      var (saved, polls) := RunTicks(k, env, lenient, asset, front).value;
      PreparedReloads(k, kinds, env, saved, lenient);
      TickWritten(k, kinds, env, f, symbol, shown, saved, tick, polls);
    }
  }

  /** Crash-safe history: however the checkpoints are cut into ticks and however often a tick dies before its state
      is renamed and is rerun, the log reads without error, and what it reads is, up to observedAt, what one
      uninterrupted poll over all the checkpoints would have left. */
  lemma {:induction false} CrashSafeHistory<M(!new)>(k: Kernel<M>, kinds: Kinds<M>, env: Env, lenient: C.Lenient,
        f: H.Format, symbol: string, shown: int -> bool, asset: Asset, ticks: seq<Tick>)
    requires Prepared(k, kinds, env, asset) && TicksShown(kinds, shown, ticks) && ticks != []
    requires H.Lawful(f) && Accepting(kinds, f, symbol, shown)
    ensures var run, batch := RunTicks(k, env, lenient, asset, ticks), Polled(k, env, asset, Joined(Offers(ticks)));
            run.Some? ==>
              var (end, polls) := run.value;
              && batch.Some? && batch.value.0 == end
              && H.ReadMarks(f, symbol, Some(H.Log(f, H.Appended(polls)))) == Ok(H.Kept(H.Finished(polls)))
              && H.AllSame(H.Kept(H.Finished(polls)), H.Kept(batch.value.1))
  {
    hide Prepared, Polled, Agrees, TicksShown, RunTicks, Accepting, H.Lawful, H.ReadMarks, H.AllSame, H.Written;
    if RunTicks(k, env, lenient, asset, ticks).Some? {
      var (end, polls) := RunTicks(k, env, lenient, asset, ticks).value;
      var batch := Polled(k, env, asset, Joined(Offers(ticks)));
      RunIsBatch(k, kinds, env, lenient, shown, asset, ticks);
      AgreesMeaning(end, polls, batch);
      RunWritten(k, kinds, env, lenient, f, symbol, shown, asset, ticks);
      H.RetriesReadOnce(f, symbol, polls, batch.value.1);
    }
  }
}
