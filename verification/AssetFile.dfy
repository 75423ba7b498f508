/** One asset in the state file: its fields as a value tree, and reading them back
    (AssetState, persist and tick in src/adaptive-paper.ts, MarketSeed in src/experiment/market.ts). */
module AssetFile {
  import opened Prelude
  import opened Market
  import opened ForecastWindow
  import opened CheckpointRows
  import opened StateCodec
  import D = Decimal
  import T = TickBook

  datatype Tally = Tally(blocked: map<string, nat>, decisions: nat, available: nat, unavailable: nat)

  datatype Core = Core(last: Checkpoint, window: Window, growth0: int, growth1: int, tally: Tally,
                       historyLastAt: Option<int>, benchmark: Option<Value>, reference: Value)

  /** A running asset between polls; the model is kept as its snapshot. */
  datatype Asset = Asset(core: Core, seed: MarketSeed, model: Value)

  // ---- scalars ----

  function Number(n: int): Value { Num(n as real) }

  function AsNumber(v: Value): Option<int>
  {
    if v.Num? && v.x == v.x.Floor as real then Some(v.x.Floor) else None
  }

  function AsCount(v: Value): Option<nat>
  {
    var n :- AsNumber(v);
    if n >= 0 then Some(n) else None
  }

  /** String(BigInt(n)) and BigInt(text). */
  function Text(n: int): Value { Str(D.IntText(n)) }

  function AsText(v: Value): Option<int>
  {
    if v.Str? && D.IsIntText(v.s) then Some(D.IntValue(v.s)) else None
  }

  function AsNatText(v: Value): Option<nat>
  {
    var n :- AsText(v);
    if n >= 0 then Some(n) else None
  }

  function AsString(v: Value): Option<string>
  {
    if v.Str? then Some(v.s) else None
  }

  function AsBigInt(v: Value): Option<int>
  {
    if v.BigInt? then Some(v.n) else None
  }

  lemma {:induction false} ScalarsBack(n: int)
    ensures AsNumber(Number(n)) == Some(n) && AsText(Text(n)) == Some(n) && AsBigInt(BigInt(n)) == Some(n)
    ensures n >= 0 ==> AsCount(Number(n)) == Some(n) && AsNatText(Text(n)) == Some(n)
  {
    D.IntTextRoundTrip(n);
  }

  // ---- records ----

  predicate Named(fields: seq<Field>, keys: seq<string>)
  {
    |fields| == |keys| && forall i :: 0 <= i < |fields| ==> fields[i].key == keys[i]
  }

  ghost predicate Distinct(keys: seq<string>)
  {
    forall i, j :: 0 <= i < j < |keys| ==> keys[i] != keys[j]
  }

  lemma {:induction false} GetNth(fields: seq<Field>, i: nat)
    requires i < |fields| && forall j :: 0 <= j < i ==> fields[j].key != fields[i].key
    ensures Get(fields, fields[i].key) == Some(fields[i].value)
  {
    if i > 0 { GetNth(fields[1..], i - 1); }
  }

  lemma {:induction false} GetAbsent(fields: seq<Field>, key: string)
    requires forall i :: 0 <= i < |fields| ==> fields[i].key != key
    ensures Get(fields, key) == None
  {
    if fields != [] { GetAbsent(fields[1..], key); }
  }

  lemma {:induction false} GetConcat(a: seq<Field>, b: seq<Field>, key: string)
    ensures Get(a + b, key) == if Get(a, key).Some? then Get(a, key) else Get(b, key)
  {
    if a == [] {
      assert a + b == b;
    } else if a[0].key != key {
      assert (a + b)[1..] == a[1..] + b;
      GetConcat(a[1..], b, key);
    }
  }

  /** Every member of a record with distinct names is found under its name. */
  lemma {:induction false} MembersFound(fields: seq<Field>, keys: seq<string>)
    requires Named(fields, keys) && Distinct(keys)
    ensures forall i :: 0 <= i < |keys| ==> Member(Obj(fields), keys[i]) == fields[i].value
  {
    forall i | 0 <= i < |keys|
      ensures Member(Obj(fields), keys[i]) == fields[i].value
    {
      assert forall j :: 0 <= j < i ==> fields[j].key == keys[j];
      GetNth(fields, i);
    }
  }

  lemma {:induction false} PlainEach(fields: seq<Field>)
    ensures PlainFields(fields) <==> forall i :: 0 <= i < |fields| ==> Plain(fields[i].value)
  {
    if fields != [] {
      PlainEach(fields[1..]);
      assert forall i :: 0 <= i < |fields[1..]| ==> fields[1..][i] == fields[i + 1];
      assert (forall i :: 0 <= i < |fields| ==> Plain(fields[i].value)) ==>
        forall i :: 0 <= i < |fields[1..]| ==> Plain(fields[1..][i].value);
    }
  }

  lemma {:induction false} PlainEachItem(items: seq<Value>)
    requires forall i :: 0 <= i < |items| ==> Plain(items[i])
    ensures PlainItems(items)
  {
    if items != [] { PlainEachItem(items[1..]); }
  }

  // ---- the last checkpoint ----

  const CHECKPOINT_KEYS := ["block", "blockTimestamp", "tick", "sqrtPriceX96", "liquidity", "feeGrowth0", "feeGrowth1",
                            "targetSetHash"]

  function CheckpointFields(cp: Checkpoint): seq<Field>
  {
    [Field("block", Text(cp.block)), Field("blockTimestamp", Number(cp.at)), Field("tick", Number(cp.tick)),
     Field("sqrtPriceX96", Text(cp.price)), Field("liquidity", Text(cp.liquidity)),
     Field("feeGrowth0", Text(cp.growth0)), Field("feeGrowth1", Text(cp.growth1)),
     Field("targetSetHash", Str(cp.targetSet))]
  }

  function LoadCheckpoint(v: Value): Option<Checkpoint>
  {
    var block :- AsNatText(Member(v, "block"));
    var at :- AsNumber(Member(v, "blockTimestamp"));
    var tick :- AsNumber(Member(v, "tick"));
    var price :- AsText(Member(v, "sqrtPriceX96"));
    var liquidity :- AsText(Member(v, "liquidity"));
    var growth0 :- AsText(Member(v, "feeGrowth0"));
    var growth1 :- AsText(Member(v, "feeGrowth1"));
    var targetSet :- AsString(Member(v, "targetSetHash"));
    Some(Checkpoint(block, at, targetSet, price, tick, liquidity, growth0, growth1))
  }

  lemma {:induction false} CheckpointMembers(cp: Checkpoint)
    ensures var v := Obj(CheckpointFields(cp));
            && Member(v, "block") == Text(cp.block) && Member(v, "blockTimestamp") == Number(cp.at)
            && Member(v, "tick") == Number(cp.tick) && Member(v, "sqrtPriceX96") == Text(cp.price)
            && Member(v, "liquidity") == Text(cp.liquidity) && Member(v, "feeGrowth0") == Text(cp.growth0)
            && Member(v, "feeGrowth1") == Text(cp.growth1) && Member(v, "targetSetHash") == Str(cp.targetSet)
  {
    hide Member, Text, Number;
    var keys := CHECKPOINT_KEYS;
    MembersFound(CheckpointFields(cp), keys);
    assert keys == [keys[0], keys[1], keys[2], keys[3], keys[4], keys[5], keys[6], keys[7]];
  }

  lemma {:induction false} CheckpointBack(cp: Checkpoint)
    ensures LoadCheckpoint(Obj(CheckpointFields(cp))) == Some(cp)
  {
    hide Member, CheckpointFields, Number, Text, AsNumber, AsText, AsNatText, AsCount;
    CheckpointMembers(cp);
    ScalarsBack(cp.block);
    ScalarsBack(cp.at);
    ScalarsBack(cp.tick);
    ScalarsBack(cp.price);
    ScalarsBack(cp.liquidity);
    ScalarsBack(cp.growth0);
    ScalarsBack(cp.growth1);
  }

  lemma {:induction false} CheckpointPlain(cp: Checkpoint)
    ensures Plain(Obj(CheckpointFields(cp)))
  {
    hide Number, Text;
    PlainScalars();
    PlainEach(CheckpointFields(cp));
  }

  lemma {:induction false} PlainScalars()
    ensures forall n :: Plain(Number(n)) && Plain(Text(n))
  {
  }

  // ---- the market seed ----

  const TICK_KEYS := ["tick", "gross", "net"]

  function TickFields(tick: int, info: T.TickInfo): seq<Field>
  {
    [Field("tick", Number(tick)), Field("gross", Text(info.gross)), Field("net", Text(info.net))]
  }

  function TickItems(ticks: seq<int>, book: T.Book): (items: seq<Value>)
    requires forall t :: t in ticks ==> t in book
    ensures |items| == |ticks|
  {
    seq(|ticks|, i requires 0 <= i < |ticks| => Obj(TickFields(ticks[i], book[ticks[i]])))
  }

  function LoadTicks(items: seq<Value>): Option<T.Book>
  {
    if items == [] then Some(map[])
    else
      var before :- LoadTicks(items[..|items| - 1]);
      var v := items[|items| - 1];
      var tick :- AsNumber(Member(v, "tick"));
      var gross :- AsText(Member(v, "gross"));
      var net :- AsText(Member(v, "net"));
      Some(before[tick := T.TickInfo(gross, net)])
  }

  lemma {:induction false} TickMembers(tick: int, info: T.TickInfo)
    ensures var v := Obj(TickFields(tick, info));
            && AsNumber(Member(v, "tick")) == Some(tick) && AsText(Member(v, "gross")) == Some(info.gross)
            && AsText(Member(v, "net")) == Some(info.net) && Plain(v)
  {
    hide Member, Text, Number, AsNumber, AsText;
    var fields, keys := TickFields(tick, info), TICK_KEYS;
    MembersFound(fields, keys);
    assert keys == [keys[0], keys[1], keys[2]];
    ScalarsBack(tick);
    ScalarsBack(info.gross);
    ScalarsBack(info.net);
    PlainScalars();
    PlainEach(fields);
  }

  lemma {:induction false} TicksBack(ticks: seq<int>, book: T.Book)
    requires forall t :: t in ticks ==> t in book
    ensures LoadTicks(TickItems(ticks, book)) == Some(Restricted(book, ticks))
    decreases |ticks|
  {
    if ticks != [] {
      hide TickFields, Member, AsNumber, AsText;
      var n := |ticks| - 1;
      assert TickItems(ticks, book)[..n] == TickItems(ticks[..n], book);
      TicksBack(ticks[..n], book);
      TickMembers(ticks[n], book[ticks[n]]);
    }
  }

  lemma {:induction false} TicksPlain(ticks: seq<int>, book: T.Book)
    requires forall t :: t in ticks ==> t in book
    ensures PlainItems(TickItems(ticks, book))
  {
    forall i | 0 <= i < |ticks|
      ensures Plain(TickItems(ticks, book)[i])
    {
      TickMembers(ticks[i], book[ticks[i]]);
    }
    PlainEachItem(TickItems(ticks, book));
  }

  const SEED_KEYS := ["price", "tick", "liquidity", "global0", "global1", "protocol0", "protocol1", "fee", "spacing",
                      "ticks"]

  /** seed() of the market. */
  ghost function SeedFields(s: MarketSeed): seq<Field>
  {
    [Field("price", Text(s.price)), Field("tick", Number(s.tick)), Field("liquidity", Text(s.liquidity)),
     Field("global0", Text(s.global0)), Field("global1", Text(s.global1)), Field("protocol0", Number(s.protocol0)),
     Field("protocol1", Number(s.protocol1)), Field("fee", Number(s.fee)), Field("spacing", Number(s.spacing)),
     Field("ticks", Arr(TickItems(KeysOf(s.book), s.book)))]
  }

  function AsItems(v: Value): Option<seq<Value>>
  {
    if v.Arr? then Some(v.items) else None
  }

  function LoadSeed(v: Value): Option<MarketSeed>
  {
    var price :- AsText(Member(v, "price"));
    var tick :- AsNumber(Member(v, "tick"));
    var liquidity :- AsText(Member(v, "liquidity"));
    var global0 :- AsText(Member(v, "global0"));
    var global1 :- AsText(Member(v, "global1"));
    var protocol0 :- AsCount(Member(v, "protocol0"));
    var protocol1 :- AsCount(Member(v, "protocol1"));
    var fee :- AsNumber(Member(v, "fee"));
    var spacing :- AsNumber(Member(v, "spacing"));
    var items :- AsItems(Member(v, "ticks"));
    var book :- LoadTicks(items);
    Some(MarketSeed(price, tick, liquidity, global0, global1, protocol0, protocol1, fee, spacing, book))
  }

  lemma {:induction false} SeedNamed(s: MarketSeed)
    ensures Named(SeedFields(s), SEED_KEYS) && Distinct(SEED_KEYS)
  {
    hide Text, Number, TickItems, KeysOf;
  }

  lemma {:induction false} SeedMembers(s: MarketSeed)
    ensures var v := Obj(SeedFields(s));
            && Member(v, "price") == Text(s.price) && Member(v, "tick") == Number(s.tick)
            && Member(v, "liquidity") == Text(s.liquidity) && Member(v, "global0") == Text(s.global0)
            && Member(v, "global1") == Text(s.global1) && Member(v, "protocol0") == Number(s.protocol0)
            && Member(v, "protocol1") == Number(s.protocol1) && Member(v, "fee") == Number(s.fee)
            && Member(v, "spacing") == Number(s.spacing)
            && Member(v, "ticks") == Arr(TickItems(KeysOf(s.book), s.book))
  {
    hide Member, Text, Number, TickItems, KeysOf, Named, Distinct;
    var keys := SEED_KEYS;
    SeedNamed(s);
    MembersFound(SeedFields(s), keys);
    assert keys == [keys[0], keys[1], keys[2], keys[3], keys[4], keys[5], keys[6], keys[7], keys[8], keys[9]];
  }

  lemma {:induction false} BookBack(book: T.Book)
    ensures LoadTicks(TickItems(KeysOf(book), book)) == Some(book)
  {
    TicksBack(KeysOf(book), book);
    RestrictedMeaning(book, KeysOf(book));
    assert Restricted(book, KeysOf(book)) == book;
  }

  lemma {:induction false} SeedBack(s: MarketSeed)
    ensures LoadSeed(Obj(SeedFields(s))) == Some(s)
  {
    hide Member, SeedFields, Number, Text, AsNumber, AsText, AsCount, LoadTicks, TickItems, KeysOf;
    SeedMembers(s);
    ScalarsBack(s.price);
    ScalarsBack(s.tick);
    ScalarsBack(s.liquidity);
    ScalarsBack(s.global0);
    ScalarsBack(s.global1);
    ScalarsBack(s.protocol0);
    ScalarsBack(s.protocol1);
    ScalarsBack(s.fee);
    ScalarsBack(s.spacing);
    BookBack(s.book);
  }

  lemma {:induction false} SeedPlain(s: MarketSeed)
    ensures Plain(Obj(SeedFields(s)))
  {
    hide Number, Text, TickItems, KeysOf, PlainItems;
    PlainScalars();
    TicksPlain(KeysOf(s.book), s.book);
    PlainEach(SeedFields(s));
  }

  // ---- the samples ----

  const SAMPLE_KEYS := ["at", "price", "growth0", "growth1"]

  function SampleFields(s: ForecastSample): seq<Field>
  {
    [Field("at", Number(s.at)), Field("price", BigInt(s.price)), Field("growth0", BigInt(s.growth0)),
     Field("growth1", BigInt(s.growth1))]
  }

  function SampleItems(samples: seq<ForecastSample>): (items: seq<Value>)
    ensures |items| == |samples|
  {
    seq(|samples|, i requires 0 <= i < |samples| => Obj(SampleFields(samples[i])))
  }

  function LoadSamples(items: seq<Value>): Option<seq<ForecastSample>>
  {
    if items == [] then Some([])
    else
      var before :- LoadSamples(items[..|items| - 1]);
      var v := items[|items| - 1];
      var at :- AsNumber(Member(v, "at"));
      var price :- AsBigInt(Member(v, "price"));
      var growth0 :- AsBigInt(Member(v, "growth0"));
      var growth1 :- AsBigInt(Member(v, "growth1"));
      Some(before + [ForecastSample(at, price, growth0, growth1)])
  }

  lemma {:induction false} SampleMembers(s: ForecastSample)
    ensures var v := Obj(SampleFields(s));
            && AsNumber(Member(v, "at")) == Some(s.at) && AsBigInt(Member(v, "price")) == Some(s.price)
            && AsBigInt(Member(v, "growth0")) == Some(s.growth0) && AsBigInt(Member(v, "growth1")) == Some(s.growth1)
            && Plain(v)
  {
    hide Member, Number, AsNumber;
    var fields, keys := SampleFields(s), SAMPLE_KEYS;
    MembersFound(fields, keys);
    assert keys == [keys[0], keys[1], keys[2], keys[3]];
    ScalarsBack(s.at);
    PlainScalars();
    PlainEach(fields);
  }

  lemma {:induction false} SamplesBack(samples: seq<ForecastSample>)
    ensures LoadSamples(SampleItems(samples)) == Some(samples)
    decreases |samples|
  {
    if samples != [] {
      hide SampleFields, Member, AsNumber, AsBigInt;
      var n := |samples| - 1;
      assert SampleItems(samples)[..n] == SampleItems(samples[..n]);
      SamplesBack(samples[..n]);
      SampleMembers(samples[n]);
      assert samples[..n] + [samples[n]] == samples;
    }
  }

  lemma {:induction false} SamplesPlain(samples: seq<ForecastSample>)
    ensures PlainItems(SampleItems(samples))
  {
    forall i | 0 <= i < |samples|
      ensures Plain(SampleItems(samples)[i])
    {
      SampleMembers(samples[i]);
    }
    PlainEachItem(SampleItems(samples));
  }

  // ---- the counts of reasons ----

  function CountFields(keys: seq<string>, counts: map<string, nat>): (fields: seq<Field>)
    requires forall k :: k in keys ==> k in counts
    ensures |fields| == |keys|
  {
    seq(|keys|, i requires 0 <= i < |keys| => Field(keys[i], Number(counts[keys[i]])))
  }

  function AsFields(v: Value): Option<seq<Field>>
  {
    if v.Obj? then Some(v.fields) else None
  }

  function LoadCounts(fields: seq<Field>): Option<map<string, nat>>
  {
    if fields == [] then Some(map[])
    else
      var before :- LoadCounts(fields[..|fields| - 1]);
      var n :- AsCount(fields[|fields| - 1].value);
      Some(before[fields[|fields| - 1].key := n])
  }

  lemma {:induction false} CountFieldsBack(keys: seq<string>, counts: map<string, nat>)
    requires forall k :: k in keys ==> k in counts
    ensures LoadCounts(CountFields(keys, counts)) == Some(Restricted(counts, keys))
    decreases |keys|
  {
    if keys != [] {
      hide AsCount, Number;
      var n := |keys| - 1;
      assert CountFields(keys, counts)[..n] == CountFields(keys[..n], counts);
      CountFieldsBack(keys[..n], counts);
      ScalarsBack(counts[keys[n]]);
    }
  }

  lemma {:induction false} CountsBack(counts: map<string, nat>)
    ensures LoadCounts(CountFields(KeysOf(counts), counts)) == Some(counts)
    ensures Plain(Obj(CountFields(KeysOf(counts), counts)))
  {
    CountFieldsBack(KeysOf(counts), counts);
    RestrictedMeaning(counts, KeysOf(counts));
    assert Restricted(counts, KeysOf(counts)) == counts;
    PlainEach(CountFields(KeysOf(counts), counts));
  }

  // ---- the asset ----

  const ASSET_KEYS := ["seed", "last", "samples", "lastSampleAt", "growth0", "growth1", "model", "status", "blocked",
                       "decisions", "forecastAvailable", "forecastUnavailable", "reference"]

  /** A property that is undefined is not written. */
  function Optional(key: string, v: Option<Value>): seq<Field>
  {
    if v.None? then [] else [Field(key, v.value)]
  }

  /** The initial -Infinity is written as null. */
  function LastSampleAt(at: Option<int>): Value
  {
    if at.None? then Null else Number(at.value)
  }

  function HistoryLastAt(at: Option<int>): Option<Value>
  {
    if at.None? then None else Some(Number(at.value))
  }

  ghost function Present(a: Asset): seq<Field>
  {
    var core := a.core;
    [Field("seed", Obj(SeedFields(a.seed))), Field("last", Obj(CheckpointFields(core.last))),
     Field("samples", Arr(SampleItems(core.window.samples))),
     Field("lastSampleAt", LastSampleAt(core.window.lastSampleAt)),
     Field("growth0", BigInt(core.growth0)), Field("growth1", BigInt(core.growth1)), Field("model", a.model),
     Field("status", Str("running")),
     Field("blocked", Obj(CountFields(KeysOf(core.tally.blocked), core.tally.blocked))),
     Field("decisions", Number(core.tally.decisions)), Field("forecastAvailable", Number(core.tally.available)),
     Field("forecastUnavailable", Number(core.tally.unavailable)), Field("reference", core.reference)]
  }

  ghost function Absentable(a: Asset): seq<Field>
  {
    Optional("historyLastAt", HistoryLastAt(a.core.historyLastAt)) + Optional("benchmark", a.core.benchmark)
  }

  ghost function Save(a: Asset): Value
  {
    Obj(Present(a) + Absentable(a))
  }

  function LoadWindow(v: Value): Option<Window>
  {
    var items :- AsItems(Member(v, "samples"));
    var samples :- LoadSamples(items);
    if Member(v, "lastSampleAt") == Null then Some(Window(samples, None))
    else
      var at :- AsNumber(Member(v, "lastSampleAt"));
      Some(Window(samples, Some(at)))
  }

  function LoadTally(v: Value): Option<Tally>
  {
    var fields :- AsFields(Member(v, "blocked"));
    var blocked :- LoadCounts(fields);
    var decisions :- AsCount(Member(v, "decisions"));
    var available :- AsCount(Member(v, "forecastAvailable"));
    var unavailable :- AsCount(Member(v, "forecastUnavailable"));
    Some(Tally(blocked, decisions, available, unavailable))
  }

  /** None: the property is there and is no number. */
  function LoadHistoryLastAt(v: Option<Value>): Option<Option<int>>
  {
    if v.None? then Some(None)
    else
      var at :- AsNumber(v.value);
      Some(Some(at))
  }

  function LoadCore(fields: seq<Field>): Option<Core>
  {
    var v := Obj(fields);
    var last :- LoadCheckpoint(Member(v, "last"));
    var window :- LoadWindow(v);
    var growth0 :- AsBigInt(Member(v, "growth0"));
    var growth1 :- AsBigInt(Member(v, "growth1"));
    var tally :- LoadTally(v);
    var historyLastAt :- LoadHistoryLastAt(Get(fields, "historyLastAt"));
    Some(Core(last, window, growth0, growth1, tally, historyLastAt, Get(fields, "benchmark"), Member(v, "reference")))
  }

  /** The running asset that a value describes. */
  function Load(v: Value): Option<Asset>
  {
    var fields :- AsFields(v);
    var core :- LoadCore(fields);
    var seed :- LoadSeed(Member(v, "seed"));
    if Member(v, "status") == Str("running") then Some(Asset(core, seed, Member(v, "model"))) else None
  }

  lemma {:induction false} PresentNamed(a: Asset)
    ensures Named(Present(a), ASSET_KEYS) && Distinct(ASSET_KEYS)
  {
    hide Number, SeedFields, CheckpointFields, SampleItems, LastSampleAt, CountFields, KeysOf;
  }

  lemma {:induction false} PresentMembers(a: Asset)
    ensures var v, core := Obj(Present(a)), a.core;
            && Member(v, "seed") == Obj(SeedFields(a.seed)) && Member(v, "last") == Obj(CheckpointFields(core.last))
            && Member(v, "samples") == Arr(SampleItems(core.window.samples))
            && Member(v, "lastSampleAt") == LastSampleAt(core.window.lastSampleAt)
            && Member(v, "growth0") == BigInt(core.growth0) && Member(v, "growth1") == BigInt(core.growth1)
            && Member(v, "model") == a.model && Member(v, "status") == Str("running")
            && Member(v, "blocked") == Obj(CountFields(KeysOf(core.tally.blocked), core.tally.blocked))
            && Member(v, "decisions") == Number(core.tally.decisions)
            && Member(v, "forecastAvailable") == Number(core.tally.available)
            && Member(v, "forecastUnavailable") == Number(core.tally.unavailable)
            && Member(v, "reference") == core.reference
  {
    hide Member, Number, SeedFields, CheckpointFields, SampleItems, LastSampleAt, CountFields, KeysOf, Distinct, Named;
    var keys := ASSET_KEYS;
    PresentNamed(a);
    MembersFound(Present(a), keys);
    assert keys == [keys[0], keys[1], keys[2], keys[3], keys[4], keys[5], keys[6], keys[7], keys[8], keys[9], keys[10],
                    keys[11], keys[12]];
  }

  /** Optional properties hide none of the others. */
  lemma {:induction false} SavedMembers(a: Asset)
    ensures forall i :: 0 <= i < |ASSET_KEYS| ==>
            Member(Save(a), ASSET_KEYS[i]) == Member(Obj(Present(a)), ASSET_KEYS[i])
  {
    hide Present, Absentable, Distinct, Get;
    var fields := Present(a);
    PresentNamed(a);
    forall i | 0 <= i < |ASSET_KEYS|
      ensures Member(Save(a), ASSET_KEYS[i]) == Member(Obj(Present(a)), ASSET_KEYS[i])
    {
      assert fields[i].key == ASSET_KEYS[i];
      DistinctBefore(fields, ASSET_KEYS, i);
      GetNth(fields, i);
      GetConcat(fields, Absentable(a), ASSET_KEYS[i]);
    }
  }

  lemma {:induction false} DistinctBefore(fields: seq<Field>, keys: seq<string>, i: nat)
    requires Named(fields, keys) && Distinct(keys) && i < |keys|
    ensures forall j :: 0 <= j < i ==> fields[j].key != fields[i].key
  {
    assert forall j :: 0 <= j < i ==> fields[j].key == keys[j];
  }

  lemma {:induction false} SavedOptionals(a: Asset)
    ensures var fields := Present(a) + Absentable(a);
            && Get(fields, "historyLastAt") == HistoryLastAt(a.core.historyLastAt)
            && Get(fields, "benchmark") == a.core.benchmark
  {
    hide SeedFields, CheckpointFields, SampleItems, CountFields, KeysOf;
    var first, rest := Present(a), Absentable(a);
    GetAbsent(first, "historyLastAt");
    GetAbsent(first, "benchmark");
    GetConcat(first, rest, "historyLastAt");
    GetConcat(first, rest, "benchmark");
    var at, benchmark := Optional("historyLastAt", HistoryLastAt(a.core.historyLastAt)),
      Optional("benchmark", a.core.benchmark);
    GetConcat(at, benchmark, "historyLastAt");
    GetConcat(at, benchmark, "benchmark");
  }

  lemma {:induction false} SavedPresent(a: Asset)
    ensures var v, w := Save(a), Obj(Present(a));
            && Member(v, "seed") == Member(w, "seed") && Member(v, "last") == Member(w, "last")
            && Member(v, "samples") == Member(w, "samples") && Member(v, "lastSampleAt") == Member(w, "lastSampleAt")
            && Member(v, "growth0") == Member(w, "growth0") && Member(v, "growth1") == Member(w, "growth1")
            && Member(v, "model") == Member(w, "model") && Member(v, "status") == Member(w, "status")
            && Member(v, "blocked") == Member(w, "blocked") && Member(v, "decisions") == Member(w, "decisions")
            && Member(v, "forecastAvailable") == Member(w, "forecastAvailable")
            && Member(v, "forecastUnavailable") == Member(w, "forecastUnavailable")
            && Member(v, "reference") == Member(w, "reference")
  {
    hide Member, Save, Present;
    var keys := ASSET_KEYS;
    SavedMembers(a);
    assert keys == [keys[0], keys[1], keys[2], keys[3], keys[4], keys[5], keys[6], keys[7], keys[8], keys[9], keys[10],
                    keys[11], keys[12]];
  }

  lemma {:induction false} WindowBack(a: Asset)
    ensures LoadWindow(Save(a)) == Some(a.core.window)
  {
    hide Member, Save, Present, Number, AsNumber, LoadSamples, SampleItems;
    SavedPresent(a);
    PresentMembers(a);
    SamplesBack(a.core.window.samples);
    var at := a.core.window.lastSampleAt;
    if at.Some? {
      ScalarsBack(at.value);
      NumberIsNotNull(at.value);
    }
  }

  lemma {:induction false} NumberIsNotNull(n: int)
    ensures Number(n) != Null
  {
  }

  lemma {:induction false} TallyBack(a: Asset)
    ensures LoadTally(Save(a)) == Some(a.core.tally)
  {
    hide Member, Save, Present, Number, AsCount, LoadCounts, CountFields, KeysOf;
    SavedPresent(a);
    PresentMembers(a);
    CountsBack(a.core.tally.blocked);
    ScalarsBack(a.core.tally.decisions);
    ScalarsBack(a.core.tally.available);
    ScalarsBack(a.core.tally.unavailable);
  }

  lemma {:induction false} CoreBack(a: Asset)
    ensures LoadCore(Present(a) + Absentable(a)) == Some(a.core)
  {
    hide Member, Present, Absentable, Number, AsNumber, LoadCheckpoint, LoadWindow, LoadTally, Get, CheckpointFields;
    SavedPresent(a);
    PresentMembers(a);
    CheckpointBack(a.core.last);
    WindowBack(a);
    TallyBack(a);
    SavedOptionals(a);
    if a.core.historyLastAt.Some? { ScalarsBack(a.core.historyLastAt.value); }
  }

  /** Loading undoes saving, for every running asset. */
  lemma {:induction false} LoadUndoesSave(a: Asset)
    ensures Load(Save(a)) == Some(a)
  {
    hide Member, Present, Absentable, LoadCore, LoadSeed, SeedFields;
    SavedPresent(a);
    PresentMembers(a);
    CoreBack(a);
    SeedBack(a.seed);
  }

  lemma {:induction false} PlainConcat(a: seq<Field>, b: seq<Field>)
    ensures PlainFields(a + b) <==> PlainFields(a) && PlainFields(b)
  {
    if a == [] {
      assert a + b == b;
    } else {
      assert (a + b)[1..] == a[1..] + b;
      PlainConcat(a[1..], b);
    }
  }

  lemma {:induction false} PresentPlain(a: Asset)
    ensures PlainFields(Present(a)) <==> Plain(a.model) && Plain(a.core.reference)
  {
    hide Number, SeedFields, CheckpointFields, SampleItems, CountFields, KeysOf, PlainItems, PlainFields;
    var fields := Present(a);
    PlainEach(fields);
    SeedPlain(a.seed);
    CheckpointPlain(a.core.last);
    SamplesPlain(a.core.window.samples);
    CountsBack(a.core.tally.blocked);
    PlainScalars();
    assert fields[6].value == a.model && fields[12].value == a.core.reference;
  }

  lemma {:induction false} AbsentablePlain(a: Asset)
    ensures PlainFields(Absentable(a)) <==> a.core.benchmark.Some? ==> Plain(a.core.benchmark.value)
  {
    PlainScalars();
    PlainEach(Absentable(a));
    PlainConcat(Optional("historyLastAt", HistoryLastAt(a.core.historyLastAt)),
                Optional("benchmark", a.core.benchmark));
    PlainEach(Optional("benchmark", a.core.benchmark));
  }

  /** What is written of an asset holds a bigint look-alike exactly when its model, benchmark or reference does. */
  lemma {:induction false} SavedPlain(a: Asset)
    ensures Plain(Save(a)) <==>
            Plain(a.model) && Plain(a.core.reference) && (a.core.benchmark.Some? ==> Plain(a.core.benchmark.value))
  {
    hide Present, Absentable, PlainFields;
    PresentNamed(a);
    assert |Present(a) + Absentable(a)| >= |ASSET_KEYS|;
    PlainConcat(Present(a), Absentable(a));
    PresentPlain(a);
    AbsentablePlain(a);
  }

  /** json, the rename, and parse, then the asset as the next tick sees it. */
  ghost function Reloaded(a: Asset, lenient: Lenient): Option<Asset>
  {
    match Decode(Encode(Save(a)), lenient)
    case None => None
    case Some(v) => Load(v)
  }

  ghost predicate Writable(a: Asset)
  {
    Plain(a.model) && Plain(a.core.reference) && (a.core.benchmark.Some? ==> Plain(a.core.benchmark.value))
  }

  /** The file decodes to what was written exactly when no part of the asset looks like an encoded bigint, and then
      the next tick sees the asset as it was. */
  lemma {:induction false} ReloadedIsSame(a: Asset, lenient: Lenient)
    ensures Decode(Encode(Save(a)), lenient) == Some(Save(a)) <==> Writable(a)
    ensures Writable(a) ==> Reloaded(a, lenient) == Some(a)
  {
    hide Decode, Encode, Save, Load;
    RoundTrip(Save(a), lenient);
    SavedPlain(a);
    LoadUndoesSave(a);
  }
}
