/** The assumptions of PaperRuns can be met together: a log format, a kernel and an asset for which all of them hold,
    with marks that carry the block of their checkpoint. */
module PaperExample {
  import opened Prelude
  import opened Market
  import opened ForecastWindow
  import opened CheckpointRows
  import opened AssetFile
  import opened PaperReplay
  import opened PaperRuns
  import opened JsonText
  import C = StateCodec
  import D = Decimal
  import H = MarkHistory
  import L = TickList
  import M = SwapMath
  import S = SwapReplay
  import T = TickBook

  // ---- a log format: three properties, all digit texts ----

  const SYMBOL := "NVDA"

  function FieldsOf(m: Mark): seq<C.Field>
  {
    [C.Field("sourceAt", C.Str(D.IntText(m.sourceAt))), C.Field("observedAt", C.Str(D.IntText(m.observedAt))),
     C.Field("block", C.Str(m.block))]
  }

  predicate Accepts(m: Mark)
  {
    m.symbol == SYMBOL && m.body == [] && D.Canonical(m.block)
  }

  function Zero(): NumberText
  {
    (x: real) => "0"
  }

  function LineOf(m: Mark): string
  {
    Print(C.Obj(FieldsOf(m)), Zero())
  }

  /** The mark a line was printed from. */
  ghost function ParseLine(line: string): Option<Mark>
  {
    if exists m :: Accepts(m) && LineOf(m) == line then
      var m :| Accepts(m) && LineOf(m) == line; Some(m)
    else None
  }

  ghost function ExampleFormat(): H.Format
  {
    H.Format((m: Mark) => FieldsOf(m), Zero(), (m: Mark) => Accepts(m), (line: string) => ParseLine(line))
  }

  /** Characters that are printed as they are. */
  predicate Simple(s: string)
  {
    forall i :: 0 <= i < |s| ==> EscapeChar(s[i]) == [s[i]] && s[i] != '"'
  }

  lemma {:induction false} EscapeSimple(s: string)
    requires Simple(s)
    ensures Escape(s) == s
  {
    if s != "" {
      EscapeSimple(s[..|s| - 1]);
      assert s == s[..|s| - 1] + [s[|s| - 1]];
    }
  }

  lemma {:induction false} DigitsSimple(s: string)
    requires D.AllDigits(s)
    ensures Simple(s)
  {
  }

  lemma {:induction false} IntTextSimple(n: int)
    ensures Simple(D.IntText(n))
  {
    D.DigitsCanonical(if n < 0 then -n else n);
    DigitsSimple(D.Digits(if n < 0 then -n else n));
    if n < 0 { assert D.IntText(n) == ['-'] + D.Digits(-n); }
  }

  /** A closing quote ends a text that has none inside. */
  lemma {:induction false} UntilQuote(x: string, r: string, y: string, q: string)
    requires '"' !in x && '"' !in y && x + ['"'] + r == y + ['"'] + q
    ensures x == y && r == q
  {
    var s := x + ['"'] + r;
    assert s[|x|] == '"' && s[|y|] == '"';
    assert forall i :: 0 <= i < |x| ==> s[i] == x[i] && x[i] in x;
    assert forall i :: 0 <= i < |y| ==> s[i] == y[i] && y[i] in y;
    assert |x| == |y|;
    assert s[..|x|] == x && s[..|y|] == y && s[|x| + 1..] == r && s[|y| + 1..] == q;
  }

  lemma {:induction false} SamePrefix(a: string, r: string, q: string)
    requires a + r == a + q
    ensures r == q
  {
    assert (a + r)[|a|..] == r && (a + q)[|a|..] == q;
  }

  predicate SimpleFields(fs: seq<C.Field>)
  {
    forall i :: 0 <= i < |fs| ==> fs[i].value.Str? && Simple(fs[i].value.s)
  }

  /** What follows the opening quote of the first value. */
  function AfterFirst(fs: seq<C.Field>): string
    requires fs != []
  {
    (if |fs| == 1 then "" else ",") + PrintFields(fs[1..], Zero())
  }

  lemma {:induction false} FirstField(fs: seq<C.Field>)
    requires fs != [] && SimpleFields(fs)
    ensures PrintFields(fs, Zero()) == (Quote(fs[0].key) + ":" + ['"']) + (fs[0].value.s + ['"'] + AfterFirst(fs))
  {
    hide Quote;
    var x, rest := fs[0].value.s, PrintFields(fs[1..], Zero());
    var sep := if |fs| == 1 then "" else ",";
    QuoteSimple(x);
    assert Quote(fs[0].key) + ":" + (['"'] + x + ['"']) + sep + rest ==
      (Quote(fs[0].key) + ":" + ['"']) + (x + ['"'] + (sep + rest));
  }

  lemma {:induction false} QuoteSimple(x: string)
    requires Simple(x)
    ensures Quote(x) == ['"'] + x + ['"']
  {
    EscapeSimple(x);
  }

  predicate SameNames(fs: seq<C.Field>, gs: seq<C.Field>)
  {
    |fs| == |gs| && forall i :: 0 <= i < |fs| ==> fs[i].key == gs[i].key
  }

  /** Records of the same properties that print alike are alike. */
  lemma {:induction false} PrintsApart(fs: seq<C.Field>, gs: seq<C.Field>)
    requires SimpleFields(fs) && SimpleFields(gs) && SameNames(fs, gs)
    requires PrintFields(fs, Zero()) == PrintFields(gs, Zero())
    ensures fs == gs
  {
    if fs != [] {
      hide PrintFields, Quote, Simple;
      var head, x, y := Quote(fs[0].key) + ":" + ['"'], fs[0].value.s, gs[0].value.s;
      FirstField(fs);
      FirstField(gs);
      SamePrefix(head, x + ['"'] + AfterFirst(fs), y + ['"'] + AfterFirst(gs));
      NoQuote(x);
      NoQuote(y);
      UntilQuote(x, AfterFirst(fs), y, AfterFirst(gs));
      SamePrefix(if |fs| == 1 then "" else ",", PrintFields(fs[1..], Zero()), PrintFields(gs[1..], Zero()));
      PrintsApart(fs[1..], gs[1..]);
      assert fs == [fs[0]] + fs[1..] && gs == [gs[0]] + gs[1..];
    }
  }

  lemma {:induction false} NoQuote(x: string)
    requires Simple(x)
    ensures '"' !in x
  {
  }

  lemma {:induction false} FieldsSimple(m: Mark)
    requires Accepts(m)
    ensures SimpleFields(FieldsOf(m))
  {
    hide Simple, D.IntText;
    IntTextSimple(m.sourceAt);
    IntTextSimple(m.observedAt);
    DigitsSimple(m.block);
  }

  lemma {:induction false} LinesApart(m: Mark, n: Mark)
    requires Accepts(m) && Accepts(n) && LineOf(m) == LineOf(n)
    ensures m == n
  {
    hide Simple, PrintFields, D.IntText, D.IntValue;
    var fs, gs := FieldsOf(m), FieldsOf(n);
    FieldsSimple(m);
    FieldsSimple(n);
    var x, y := PrintFields(fs, Zero()), PrintFields(gs, Zero());
    assert "{" + x + "}" == "{" + y + "}";
    assert ("{" + x + "}")[1..|x| + 1] == x && ("{" + y + "}")[1..|y| + 1] == y;
    PrintsApart(fs, gs);
    assert fs[0] == gs[0] && fs[1] == gs[1] && fs[2] == gs[2];
    D.IntTextRoundTrip(m.sourceAt);
    D.IntTextRoundTrip(n.sourceAt);
    D.IntTextRoundTrip(m.observedAt);
    D.IntTextRoundTrip(n.observedAt);
  }

  lemma {:induction false} FormatLawful()
    ensures H.Lawful(ExampleFormat())
  {
    hide LineOf, Accepts, JsonShaped;
    var f := ExampleFormat();
    NumbersPlain();
    forall m | f.accepts(m)
      ensures f.parse(H.Text(f, m)) == Some(m) && D.AllDigits(m.block)
    {
      ParsesBack(m);
    }
    forall line | f.parse(line).Some?
      ensures JsonShaped(line) && f.accepts(f.parse(line).value)
    {
      LineShaped(f.parse(line).value);
    }
  }

  lemma {:induction false} NumbersPlain()
    ensures PlainNumbers(Zero())
  {
  }

  lemma {:induction false} ParsesBack(m: Mark)
    requires Accepts(m)
    ensures ParseLine(LineOf(m)) == Some(m) && H.Text(ExampleFormat(), m) == LineOf(m) && D.AllDigits(m.block)
  {
    hide Print;
    var n := ParseLine(LineOf(m)).value;
    LinesApart(m, n);
  }

  lemma {:induction false} LineShaped(m: Mark)
    ensures JsonShaped(LineOf(m))
  {
    NumbersPlain();
    ObjectShaped(FieldsOf(m), Zero());
  }

  // ---- a kernel whose marks carry the block of their checkpoint ----

  function StraightRatio(): S.Ratio
  {
    (t: int) => if t < S.MAX_TICK then M.MIN_SQRT_RATIO + (t - S.MIN_TICK) else M.MAX_SQRT_RATIO + (t - S.MAX_TICK)
  }

  /** The model counts its decisions. */
  function ExampleKernel(): Kernel<int>
  {
    Kernel(
      StraightRatio(), 3_600_000,
      (m, c) => m,
      (samples, at) => false,
      (m, market, cp, samples) => Some(m + 1),
      (m, market, cp) => m,
      m => if m > 0 then m else 0,
      m => None,
      (m, market, b, r) => r,
      (m, market, cp: Checkpoint, note: Note) => H.Mark(SYMBOL, cp.at, 0, D.IntText(cp.block), []),
      m => C.BigInt(m),
      (v: Value) => if v.BigInt? then v.n else 0)
  }

  function ExampleKinds(): Kinds<int>
  {
    Kinds(m => true, v => false, v => v == C.Null, v => v == C.Null, cp => true, (m: Mark) => Accepts(m))
  }

  function ExampleEnv(): Env
  {
    Env([], cp => Gate([], C.Null))
  }

  function ExampleAsset(): Asset
  {
    var cp := Checkpoint(1, 0, "", M.MIN_SQRT_RATIO + 1, S.MIN_TICK, 0, 0, 0);
    Asset(Core(cp, EMPTY_WINDOW, 0, 0, Tally(map[], 0, 0, 0), None, None, C.Null),
          MarketSeed(M.MIN_SQRT_RATIO + 1, S.MIN_TICK, 0, 0, 0, 0, 0, 500, 10, map[]), C.BigInt(0))
  }

  lemma {:induction false} RatioIncreases()
    ensures S.IncreasingRatio(StraightRatio())
  {
  }

  lemma {:induction false} ExampleRuns()
    ensures var a := ExampleAsset(); Running(StraightRatio(), MarketState(a.seed, Listing(a.seed.book)))
  {
    var book: T.Book := map[];
    assert L.Lists(Listing(book), book);
    assert T.TicksUpTo(book, S.MIN_TICK) == {};
  }

  lemma {:induction false} ExampleClosed()
    ensures Closed(ExampleKernel(), ExampleKinds(), ExampleEnv())
  {
    hide Running, Fair;
    forall block: nat
      ensures D.Canonical(D.IntText(block))
    {
      D.DigitsCanonical(block);
    }
  }

  /** All assumptions of CrashSafeHistory hold of this instance, at every instant the clock may show. */
  lemma {:induction false} AssumptionsCanBeMet()
    ensures Prepared(ExampleKernel(), ExampleKinds(), ExampleEnv(), ExampleAsset()) && H.Lawful(ExampleFormat())
    ensures Accepting(ExampleKinds(), ExampleFormat(), SYMBOL, (t: int) => true)
    ensures forall m, market, cp, note :: ExampleKernel().record(m, market, cp, note).block == D.IntText(cp.block)
  {
    hide Running, Closed;
    FormatLawful();
    RatioIncreases();
    ExampleRuns();
    ExampleClosed();
  }

  // ---- a tick that gets through ----

  const NEXT := Checkpoint(2, 60_000, "", M.MIN_SQRT_RATIO + 1, S.MIN_TICK, 0, 0, 0)

  /** The second checkpoint arrives; the first attempt dies after it has written the baseline mark. */
  function ExampleTick(clock: nat -> int): Tick
  {
    Tick(Offer([NEXT], NOTHING_DEFERRED), [Attempt(1, NOTHING_DEFERRED, 1, clock)], clock)
  }

  function MarkOf(cp: Checkpoint): Mark
  {
    H.Mark(SYMBOL, cp.at, 0, D.IntText(cp.block), [])
  }

  /** The state the baseline mark leaves, and the one the row leaves. */
  function Baseline(): Core
  {
    ExampleAsset().core.(historyLastAt := Some(0))
  }

  ghost function Ended(): Asset
  {
    var market := MarketState(ExampleAsset().seed, Listing(map[]));
    var window := Sampled(EMPTY_WINDOW, SampleOf(Baseline(), market.seed, NEXT), ExampleKernel().lookbackMs);
    Asset(Core(NEXT, window, 0, 0, Tally(map[], 1, 0, 1), Some(NEXT.at), None, C.Null), market.seed, C.BigInt(1))
  }

  lemma {:induction false} BaselineWritten()
    ensures Started(ExampleKernel(), ExampleAsset()) ==
            Some((ExampleAsset().(core := Baseline()), [MarkOf(ExampleAsset().core.last)]))
  {
    var k, live := ExampleKernel(), Open(ExampleKernel(), ExampleAsset());
    var cp := live.core.last;
    assert Captured(k, live.core, live.model) == Some(live.core);
    assert Recorded(k, live, cp, false) == live.(marks := [MarkOf(cp)], core := Baseline());
  }

  /** The market after the row: no event lies between the two checkpoints. */
  ghost function Opened(): Live<int>
  {
    Open(ExampleKernel(), ExampleAsset().(core := Baseline()))
  }

  /** What the row's decision leaves. */
  ghost function DecidedLive(): Live<int>
  {
    var live := Sampling(ExampleKernel(), Opened(), NEXT);
    live.(model := 1, core := live.core.(tally := Tally(map[], 1, 0, 1)))
  }

  lemma {:induction false} NoEvents()
    ensures Query(ExampleEnv().events, 1, NEXT.block) == []
    ensures Fold(EventStepper(ExampleKernel()), Opened(), []) == Some(Opened())
  {
    hide ExampleKernel, Opened;
  }

  lemma {:induction false} RowDecides()
    ensures Decided(ExampleKernel(), Sampling(ExampleKernel(), Opened(), NEXT), NEXT, Gate([], C.Null)) ==
            Some(DecidedLive())
  {
    hide Sampled, StraightRatio, Listing;
  }

  lemma {:induction false} RowRecorded()
    ensures Finished(ExampleKernel(), DecidedLive(), NEXT, C.Null, true, true) ==
            Some(Live(Ended().core, Opened().market, 1, [MarkOf(NEXT)]))
  {
    hide Sampled, StraightRatio, Listing;
    var k, decided := ExampleKernel(), DecidedLive();
    assert Captured(k, decided.core, 1) == Some(decided.core);
    assert [] + [MarkOf(NEXT)] == [MarkOf(NEXT)];
  }

  lemma {:induction false} RowPasses()
    ensures RowStep(ExampleKernel(), ExampleEnv(), true, Opened(), NEXT) ==
            Some(Live(Ended().core, Opened().market, 1, [MarkOf(NEXT)]))
  {
    hide Sampled, StraightRatio, Listing, Query, Decided, Finished, Fold;
    NoEvents();
    RowDecides();
    RowRecorded();
  }

  lemma {:induction false} RowsPass()
    ensures Advanced(ExampleKernel(), ExampleEnv(), ExampleAsset().(core := Baseline()), [NEXT], true) ==
            Some((Ended(), [MarkOf(NEXT)]))
  {
    hide RowStep, Sampled;
    RowPasses();
    var k, env := ExampleKernel(), ExampleEnv();
    assert [NEXT][..0] == [] && [NEXT][|[NEXT]| - 1] == NEXT;
    assert Fold(RowStepper(k, env, true), Opened(), []) == Some(Opened());
    assert Fold(RowStepper(k, env, true), Opened(), [NEXT]) == RowStep(k, env, true, Opened(), NEXT);
  }

  function Marks(): seq<Mark>
  {
    [MarkOf(ExampleAsset().core.last), MarkOf(NEXT)]
  }

  lemma {:induction false} PollPasses()
    ensures Polled(ExampleKernel(), ExampleEnv(), ExampleAsset(), Offer([NEXT], NOTHING_DEFERRED)) ==
            Some((Ended(), Marks()))
  {
    hide Started, Advanced, Ended;
    BaselineWritten();
    RowsPass();
    var asset := ExampleAsset().(core := Baseline());
    assert Counting(asset, NOTHING_DEFERRED) == asset;
    assert [MarkOf(ExampleAsset().core.last)] + [MarkOf(NEXT)] == Marks();
  }

  lemma {:induction false} TickWrites(clock: nat -> int)
    ensures Written(ExampleKernel(), ExampleEnv(), ExampleAsset(), ExampleTick(clock), Marks()) ==
            H.Poll([Stamped(Marks()[..1], clock)], Stamped(Marks(), clock))
  {
    assert |Marks()| == 2;
    hide Polled, Marks, Ended;
    var k, env, a, tick := ExampleKernel(), ExampleEnv(), ExampleAsset(), ExampleTick(clock);
    PollPasses();
    assert First(1, tick.offer.rows) == tick.offer.rows;
    assert Attempted(k, env, a, tick, tick.dead[0]) == Stamped(Marks()[..1], clock);
  }

  lemma {:induction false} TickFinishes(lenient: C.Lenient, tick: Tick)
    requires tick.offer == Offer([NEXT], NOTHING_DEFERRED)
    ensures RunTicks(ExampleKernel(), ExampleEnv(), lenient, ExampleAsset(), [tick]) ==
            Some((Ended(), [Written(ExampleKernel(), ExampleEnv(), ExampleAsset(), tick, Marks())]))
  {
    hide Polled, Prepared, Reloaded, Written, Marks, Ended, ExampleKernel, ExampleEnv, ExampleAsset, ExampleKinds;
    var k, env, a := ExampleKernel(), ExampleEnv(), ExampleAsset();
    AssumptionsCanBeMet();
    PreparedReloads(k, ExampleKinds(), env, a, lenient);
    PollPasses();
    assert [tick][..0] == [] && RunTicks(k, env, lenient, a, []) == Some((a, []));
    assert [] + [Written(k, env, a, tick, Marks())] == [Written(k, env, a, tick, Marks())];
  }

  /** One checkpoint row is accepted after an attempt that died: the saved asset has moved on, and both its marks are
      written, the first of them twice. */
  lemma {:induction false} TickCanFinish(lenient: C.Lenient, clock: nat -> int)
    ensures TicksShown(ExampleKinds(), (t: int) => true, [ExampleTick(clock)])
    ensures RunTicks(ExampleKernel(), ExampleEnv(), lenient, ExampleAsset(), [ExampleTick(clock)]) ==
            Some((Ended(), [H.Poll([Stamped(Marks()[..1], clock)], Stamped(Marks(), clock))]))
    ensures Ended().core.last == NEXT && Marks() == [MarkOf(ExampleAsset().core.last), MarkOf(NEXT)]
  {
    hide RunTicks, Written, Stamped;
    TickFinishes(lenient, ExampleTick(clock));
    TickWrites(clock);
  }
}
