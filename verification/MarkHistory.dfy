/** The append-only mark log of one asset (src/adaptive-paper-history.ts). */
module MarkHistory {
  import opened Prelude
  import opened JsonText
  import opened StateCodec
  import D = Decimal

  /** sourceAt and observedAt are instants; body stands for the fields the reader only copies. */
  datatype Mark = Mark(symbol: string, sourceAt: int, observedAt: int, block: string, body: seq<Field>)

  /** markSchema with JSON.stringify and JSON.parse: the fields of a mark, the marks the schema accepts and the
      mark a line parses to. */
  datatype Format = Format(fields: Mark -> seq<Field>, number: NumberText, accepts: Mark -> bool,
                           parse: string -> Option<Mark>)

  datatype ReadError = Damaged(line: nat) | WrongSymbol(line: nat)

  function Text(f: Format, m: Mark): string
  {
    Print(Obj(f.fields(m)), f.number)
  }

  /** Parsing undoes printing on accepted marks, and only texts shaped as JSON parse (printed objects are, by
      ObjectShaped). */
  ghost predicate Lawful(f: Format)
  {
    && PlainNumbers(f.number)
    && (forall m :: f.accepts(m) ==> f.parse(Text(f, m)) == Some(m) && D.AllDigits(m.block))
    && (forall s :: f.parse(s).Some? ==> JsonShaped(s) && f.accepts(f.parse(s).value))
  }

  function Extended(lines: seq<string>, t: string): (r: seq<string>)
    requires |lines| > 0
    ensures |r| == |lines|
  {
    lines[..|lines| - 1] + [lines[|lines| - 1] + t]
  }

  /** raw.split('\n') */
  function Lines(raw: string): (r: seq<string>)
    ensures |r| > 0
  {
    if raw == "" then [""]
    else
      var before, c := Lines(raw[..|raw| - 1]), raw[|raw| - 1];
      if c == '\n' then before + [""] else Extended(before, [c])
  }

  predicate EndsLine(raw: string)
  {
    raw != "" && raw[|raw| - 1] == '\n'
  }

  // ---- a JavaScript Map from block to mark: keys keep the place of their first insertion ----

  datatype Table = Table(order: seq<string>, marks: map<string, Mark>)

  const EMPTY_TABLE := Table([], map[])

  function Put(t: Table, m: Mark): Table
  {
    Table(if m.block in t.marks then t.order else t.order + [m.block], t.marks[m.block := m])
  }

  function TableFrom(t: Table, ms: seq<Mark>): Table
    decreases |ms|
  {
    if ms == [] then t else Put(TableFrom(t, ms[..|ms| - 1]), ms[|ms| - 1])
  }

  ghost predicate Listed(t: Table)
  {
    && (forall k :: k in t.order <==> k in t.marks)
    && (forall i, j :: 0 <= i < j < |t.order| ==> t.order[i] != t.order[j])
    && (forall k :: k in t.marks ==> t.marks[k].block == k)
  }

  function Values(t: Table): seq<Mark>
    requires Listed(t)
  {
    seq(|t.order|, i requires 0 <= i < |t.order| => t.marks[t.order[i]])
  }

  lemma {:induction false} PutListed(t: Table, m: Mark)
    requires Listed(t)
    ensures Listed(Put(t, m))
  {
  }

  lemma {:induction false} TableListed(t: Table, ms: seq<Mark>)
    requires Listed(t)
    ensures Listed(TableFrom(t, ms))
    decreases |ms|
  {
    if ms != [] {
      TableListed(t, ms[..|ms| - 1]);
      PutListed(TableFrom(t, ms[..|ms| - 1]), ms[|ms| - 1]);
    }
  }

  // ---- the order of the result ----

  function BlockValue(block: string): nat
  {
    if D.AllDigits(block) then D.Value(block) else 0
  }

  predicate After(a: Mark, b: Mark)
  {
    a.sourceAt > b.sourceAt || (a.sourceAt == b.sourceAt && BlockValue(a.block) > BlockValue(b.block))
  }

  function Inserted(s: seq<Mark>, m: Mark): seq<Mark>
  {
    if s != [] && After(s[|s| - 1], m) then Inserted(s[..|s| - 1], m) + [s[|s| - 1]] else s + [m]
  }

  /** The stable sort by time, then block. */
  function Ordered(s: seq<Mark>): seq<Mark>
  {
    if s == [] then [] else Inserted(Ordered(s[..|s| - 1]), s[|s| - 1])
  }

  predicate InOrder(s: seq<Mark>)
  {
    forall i, j :: 0 <= i < j < |s| ==> !After(s[i], s[j])
  }

  lemma {:induction false} LastElement(s: seq<Mark>)
    requires s != []
    ensures multiset(s) == multiset(s[..|s| - 1]) + multiset{s[|s| - 1]}
  {
    assert s == s[..|s| - 1] + [s[|s| - 1]];
  }

  lemma {:induction false} InsertedElements(s: seq<Mark>, m: Mark)
    ensures multiset(Inserted(s, m)) == multiset(s) + multiset{m}
  {
    if s != [] && After(s[|s| - 1], m) {
      InsertedElements(s[..|s| - 1], m);
      LastElement(s);
    }
  }

  lemma {:induction false} InsertedMember(s: seq<Mark>, m: Mark, x: Mark)
    requires x in Inserted(s, m)
    ensures x in s || x == m
  {
    InsertedElements(s, m);
    assert x in multiset(Inserted(s, m));
  }

  lemma {:induction false} InsertedInOrder(s: seq<Mark>, m: Mark)
    requires InOrder(s)
    ensures InOrder(Inserted(s, m))
  {
    if s != [] && After(s[|s| - 1], m) {
      var front, last := s[..|s| - 1], s[|s| - 1];
      InsertedInOrder(front, m);
      var r := Inserted(front, m);
      forall i | 0 <= i < |r|
        ensures !After(r[i], last)
      {
        InsertedMember(front, m, r[i]);
      }
    } else {
      AppendInOrder(s, m);
    }
  }

  lemma {:induction false} AppendInOrder(s: seq<Mark>, m: Mark)
    requires InOrder(s) && (s != [] ==> !After(s[|s| - 1], m))
    ensures InOrder(s + [m])
  {
  }

  lemma {:induction false} OrderedElements(s: seq<Mark>)
    ensures multiset(Ordered(s)) == multiset(s)
  {
    if s != [] {
      OrderedElements(s[..|s| - 1]);
      InsertedElements(Ordered(s[..|s| - 1]), s[|s| - 1]);
      LastElement(s);
    }
  }

  lemma {:induction false} OrderedInOrder(s: seq<Mark>)
    ensures InOrder(Ordered(s))
  {
    if s != [] {
      OrderedInOrder(s[..|s| - 1]);
      InsertedInOrder(Ordered(s[..|s| - 1]), s[|s| - 1]);
    }
  }

  // ---- reading ----

  /** One pass of the reader's loop; tail holds for a last line without a line break. */
  function Step(f: Format, symbol: string, t: Table, line: string, index: nat, tail: bool): Result<Table, ReadError>
  {
    if line == "" then Ok(t)
    else match f.parse(line)
      case None => if tail then Ok(t) else Err(Damaged(index))
      case Some(m) => if m.symbol != symbol then Err(WrongSymbol(index)) else Ok(Put(t, m))
  }

  function Consumed(f: Format, symbol: string, lines: seq<string>, sealed: bool, n: nat): Result<Table, ReadError>
    requires n <= |lines|
  {
    if n == 0 then Ok(EMPTY_TABLE)
    else match Consumed(f, symbol, lines, sealed, n - 1)
      case Err(e) => Err(e)
      case Ok(t) => Step(f, symbol, t, lines[n - 1], n - 1, n == |lines| && !sealed)
  }

  lemma {:induction false} ConsumedListed(f: Format, symbol: string, lines: seq<string>, sealed: bool, n: nat)
    requires n <= |lines|
    ensures var r := Consumed(f, symbol, lines, sealed, n); r.Ok? ==> Listed(r.value)
  {
    if n > 0 {
      hide Listed;
      ConsumedListed(f, symbol, lines, sealed, n - 1);
      var before, parsed := Consumed(f, symbol, lines, sealed, n - 1), f.parse(lines[n - 1]);
      if before.Ok? && parsed.Some? { PutListed(before.value, parsed.value); }
    }
  }

  function ReadTable(f: Format, symbol: string, raw: string): Result<Table, ReadError>
  {
    Consumed(f, symbol, Lines(raw), EndsLine(raw), |Lines(raw)|)
  }

  ghost function ReadMarks(f: Format, symbol: string, raw: Option<string>): Result<seq<Mark>, ReadError>
  {
    if raw.None? then Ok([])
    else match ReadTable(f, symbol, raw.value)
      case Err(e) => Err(e)
      case Ok(t) =>
        ConsumedListed(f, symbol, Lines(raw.value), EndsLine(raw.value), |Lines(raw.value)|);
        Ok(Ordered(Values(t)))
  }

  /** The log file: None while it does not exist. */
  class MarkLog {
    var raw: Option<string>

    constructor ()
      ensures raw == None
    {
      raw := None;
    }

    method Append(f: Format, m: Mark) returns (ok: bool)
      modifies this
      ensures ok <==> f.accepts(m)
      ensures raw == if ok then Some((if old(raw).None? then "" else old(raw).value) + Text(f, m) + "\n") else old(raw)
    {
      if !f.accepts(m) { return false; }
      raw := Some((if raw.None? then "" else raw.value) + Text(f, m) + "\n");
      ok := true;
    }

    method Read(f: Format, symbol: string) returns (r: Result<seq<Mark>, ReadError>)
      ensures r == ReadMarks(f, symbol, raw)
    {
      if raw.None? { return Ok([]); }
      var lines, order, marks := Lines(raw.value), [], map[];
      ghost var sealed := EndsLine(raw.value);
      for i := 0 to |lines|
        invariant Consumed(f, symbol, lines, sealed, i) == Ok(Table(order, marks))
      {
        var line := lines[i];
        if line == "" { continue; }
        var parsed := f.parse(line);
        if parsed.None? {
          if i == |lines| - 1 && !EndsLine(raw.value) { break; }
          FailureStays(f, symbol, lines, sealed, i + 1);
          return Err(Damaged(i));
        }
        var mark := parsed.value;
        if mark.symbol != symbol {
          FailureStays(f, symbol, lines, sealed, i + 1);
          return Err(WrongSymbol(i));
        }
        if mark.block !in marks { order := order + [mark.block]; }
        marks := marks[mark.block := mark];
      }
      ConsumedListed(f, symbol, lines, sealed, |lines|);
      r := Ok(Ordered(Values(Table(order, marks))));
    }
  }

  lemma {:induction false} FailureStays(f: Format, symbol: string, lines: seq<string>, sealed: bool, n: nat)
    requires n <= |lines| && Consumed(f, symbol, lines, sealed, n).Err?
    ensures Consumed(f, symbol, lines, sealed, |lines|) == Consumed(f, symbol, lines, sealed, n)
    decreases |lines| - n
  {
    if n < |lines| {
      assert Consumed(f, symbol, lines, sealed, n + 1) == Consumed(f, symbol, lines, sealed, n);
      FailureStays(f, symbol, lines, sealed, n + 1);
    }
  }

  // ---- which logs are refused ----

  predicate Refused(f: Format, symbol: string, lines: seq<string>, sealed: bool, i: nat)
    requires i < |lines|
  {
    lines[i] != "" &&
    match f.parse(lines[i])
    case None => i < |lines| - 1 || sealed
    case Some(m) => m.symbol != symbol
  }

  ghost predicate AnyRefused(f: Format, symbol: string, lines: seq<string>, sealed: bool, n: nat)
    requires n <= |lines|
  {
    exists i :: 0 <= i < n && Refused(f, symbol, lines, sealed, i)
  }

  lemma {:induction false} ConsumedFailsIff(f: Format, symbol: string, lines: seq<string>, sealed: bool, n: nat)
    requires n <= |lines|
    ensures Consumed(f, symbol, lines, sealed, n).Err? <==> AnyRefused(f, symbol, lines, sealed, n)
  {
    if n > 0 {
      ConsumedFailsIff(f, symbol, lines, sealed, n - 1);
      assert Consumed(f, symbol, lines, sealed, n - 1).Ok? ==>
        (Consumed(f, symbol, lines, sealed, n).Err? <==> Refused(f, symbol, lines, sealed, n - 1));
    }
  }

  /** A log is refused exactly when a non-empty line is damaged anywhere but in an unterminated tail, or belongs to
      another symbol. */
  lemma {:induction false} ReadFailsIff(f: Format, symbol: string, raw: string)
    ensures ReadMarks(f, symbol, Some(raw)).Err? <==>
            AnyRefused(f, symbol, Lines(raw), EndsLine(raw), |Lines(raw)|)
  {
    ConsumedFailsIff(f, symbol, Lines(raw), EndsLine(raw), |Lines(raw)|);
  }

  // ---- logs of whole records, cut anywhere ----

  function Log(f: Format, ms: seq<Mark>): string
    decreases |ms|
  {
    if ms == [] then "" else Log(f, ms[..|ms| - 1]) + Text(f, ms[|ms| - 1]) + "\n"
  }

  predicate Written(f: Format, symbol: string, ms: seq<Mark>)
  {
    forall i :: 0 <= i < |ms| ==> f.accepts(ms[i]) && ms[i].symbol == symbol
  }

  function Texts(f: Format, ms: seq<Mark>): seq<string>
  {
    seq(|ms|, i requires 0 <= i < |ms| => Text(f, ms[i]))
  }

  lemma {:induction false} LinesStep(raw: string, c: char)
    ensures Lines(raw + [c]) == if c == '\n' then Lines(raw) + [""] else Extended(Lines(raw), [c])
  {
    assert (raw + [c])[..|raw|] == raw;
  }

  lemma {:induction false} LinesExtend(raw: string, t: string)
    requires '\n' !in t
    ensures Lines(raw + t) == Extended(Lines(raw), t)
    decreases |t|
  {
    if t == "" {
      var before := Lines(raw);
      assert raw + t == raw && before[|before| - 1] + t == before[|before| - 1];
    } else {
      var front := t[..|t| - 1];
      assert (raw + t)[..|raw + t| - 1] == raw + front && front + [t[|t| - 1]] == t;
      LinesExtend(raw, front);
      var before := Lines(raw);
      var last := before[|before| - 1];
      assert last + t == last + front + [t[|t| - 1]];
      assert Extended(Extended(before, front), [t[|t| - 1]]) == Extended(before, t);
    }
  }

  lemma {:induction false} ExtendedEmpty(lines: seq<string>, t: string)
    ensures Extended(lines + [""], t) == lines + [t]
  {
    assert "" + t == t;
  }

  lemma {:induction false} TextIsOneLine(f: Format, m: Mark, k: nat)
    requires Lawful(f)
    ensures var text := Text(f, m); text != "" && '\n' !in text && (0 < k < |text| ==> f.parse(text[..k]).None?)
  {
    TornObject(f.fields(m), f.number, k);
  }

  predicate HasLines(raw: string, lines: seq<string>, last: string)
  {
    Lines(raw) == lines + [last]
  }

  lemma {:induction false} LineAdded(before: string, lines: seq<string>, text: string)
    requires HasLines(before, lines, "") && '\n' !in text
    ensures HasLines(before + text, lines, text)
    ensures HasLines(before + text + "\n", lines + [text], "")
  {
    LinesExtend(before, text);
    ExtendedEmpty(lines, text);
    LinesStep(before + text, '\n');
  }

  lemma {:induction false} LinesOfLog(f: Format, ms: seq<Mark>)
    requires Lawful(f)
    ensures HasLines(Log(f, ms), Texts(f, ms), "")
    decreases |ms|
  {
    if ms != [] {
      var front, last := ms[..|ms| - 1], ms[|ms| - 1];
      LinesOfLog(f, front);
      TextIsOneLine(f, last, 0);
      LineAdded(Log(f, front), Texts(f, front), Text(f, last));
      TextsOfAll(f, ms);
    }
  }

  /** The first lines are the texts of these marks, and each reads back. */
  ghost predicate Holds(f: Format, symbol: string, lines: seq<string>, ms: seq<Mark>)
  {
    && |ms| <= |lines|
    && forall i :: 0 <= i < |ms| ==> lines[i] != "" && f.parse(lines[i]) == Some(ms[i]) && ms[i].symbol == symbol
  }

  lemma {:induction false} WrittenHolds(f: Format, symbol: string, lines: seq<string>, ms: seq<Mark>)
    requires Lawful(f) && Written(f, symbol, ms) && |ms| <= |lines| && lines[..|ms|] == Texts(f, ms)
    ensures Holds(f, symbol, lines, ms)
  {
    forall i | 0 <= i < |ms|
      ensures lines[i] == Text(f, ms[i]) && lines[i] != ""
    {
      assert lines[i] == lines[..|ms|][i];
      TextIsOneLine(f, ms[i], 0);
    }
  }

  lemma {:induction false} ConsumedWhole(f: Format, symbol: string, lines: seq<string>, sealed: bool, ms: seq<Mark>)
    requires Holds(f, symbol, lines, ms)
    ensures Consumed(f, symbol, lines, sealed, |ms|) == Ok(TableFrom(EMPTY_TABLE, ms))
    decreases |ms|
  {
    if ms != [] {
      var n := |ms| - 1;
      ConsumedWhole(f, symbol, lines, sealed, ms[..n]);
      assert lines[n] != "" && f.parse(lines[n]) == Some(ms[n]) && ms[n].symbol == symbol;
    }
  }

  /** Whole records and an unterminated tail: a tail that does not parse is dropped. */
  lemma {:induction false} LogThenTail(f: Format, symbol: string, ms: seq<Mark>, tail: string)
    requires Lawful(f) && Written(f, symbol, ms) && '\n' !in tail
    requires tail == "" || f.parse(tail).None?
    ensures ReadTable(f, symbol, Log(f, ms) + tail) == Ok(TableFrom(EMPTY_TABLE, ms))
  {
    var raw := Log(f, ms) + tail;
    LinesOfLog(f, ms);
    LineAdded(Log(f, ms), Texts(f, ms), tail);
    LastLine(Lines(raw), Texts(f, ms), tail);
    WrittenHolds(f, symbol, Lines(raw), ms);
    ConsumedWhole(f, symbol, Lines(raw), EndsLine(raw), ms);
    if tail != "" { TailIsOpen(Log(f, ms), tail); }
    DropsTail(f, symbol, raw, ms, tail);
  }

  lemma {:induction false} LastLine(lines: seq<string>, before: seq<string>, last: string)
    requires lines == before + [last]
    ensures |lines| == |before| + 1 && lines[..|before|] == before && lines[|before|] == last
  {
  }

  lemma {:induction false} TailIsOpen(before: string, tail: string)
    requires '\n' !in tail && tail != ""
    ensures !EndsLine(before + tail)
  {
    assert (before + tail)[|before + tail| - 1] == tail[|tail| - 1];
  }

  /** The last pass of the loop, over a tail that is empty or does not parse. */
  lemma {:induction false} DropsTail(f: Format, symbol: string, raw: string, ms: seq<Mark>, tail: string)
    requires |Lines(raw)| == |ms| + 1 && Lines(raw)[|ms|] == tail
    requires Consumed(f, symbol, Lines(raw), EndsLine(raw), |ms|) == Ok(TableFrom(EMPTY_TABLE, ms))
    requires tail == "" || (f.parse(tail).None? && !EndsLine(raw))
    ensures ReadTable(f, symbol, raw) == Ok(TableFrom(EMPTY_TABLE, ms))
  {
    hide Lines, EndsLine, TableFrom;
  }

  lemma {:induction false} TextsOfAll(f: Format, ms: seq<Mark>)
    requires ms != []
    ensures Texts(f, ms) == Texts(f, ms[..|ms| - 1]) + [Text(f, ms[|ms| - 1])]
  {
  }

  /** A last record that only lacks its line break still counts. */
  lemma {:induction false} LogThenRecord(f: Format, symbol: string, ms: seq<Mark>)
    requires Lawful(f) && Written(f, symbol, ms) && ms != []
    ensures ReadTable(f, symbol, Log(f, ms[..|ms| - 1]) + Text(f, ms[|ms| - 1])) == Ok(TableFrom(EMPTY_TABLE, ms))
  {
    var front, m := ms[..|ms| - 1], ms[|ms| - 1];
    var raw := Log(f, front) + Text(f, m);
    TextIsOneLine(f, m, 0);
    LinesOfLog(f, front);
    LineAdded(Log(f, front), Texts(f, front), Text(f, m));
    TextsOfAll(f, ms);
    assert Lines(raw)[..|ms|] == Lines(raw);
    WrittenHolds(f, symbol, Lines(raw), ms);
    ConsumedWhole(f, symbol, Lines(raw), EndsLine(raw), ms);
  }

  /** How many records the first k characters of the log hold completely. */
  function WholeRecords(f: Format, ms: seq<Mark>, k: nat): (n: nat)
    ensures n <= |ms|
    decreases |ms|
  {
    if ms == [] || k >= |Log(f, ms)| - 1 then |ms| else WholeRecords(f, ms[..|ms| - 1], k)
  }

  /** A cut inside the last record, or right after its text. */
  lemma {:induction false} CutInLastRecord(f: Format, symbol: string, ms: seq<Mark>, j: nat)
    requires Lawful(f) && Written(f, symbol, ms) && ms != [] && 0 < j <= |Text(f, ms[|ms| - 1])|
    ensures ReadTable(f, symbol, Log(f, ms[..|ms| - 1]) + Text(f, ms[|ms| - 1])[..j]) ==
            Ok(TableFrom(EMPTY_TABLE, if j == |Text(f, ms[|ms| - 1])| then ms else ms[..|ms| - 1]))
  {
    var text := Text(f, ms[|ms| - 1]);
    TextIsOneLine(f, ms[|ms| - 1], j);
    if j == |text| {
      assert text[..j] == text;
      LogThenRecord(f, symbol, ms);
    } else {
      LogThenTail(f, symbol, ms[..|ms| - 1], text[..j]);
    }
  }

  ghost predicate ReadsAs(f: Format, symbol: string, raw: string, ms: seq<Mark>)
  {
    ReadTable(f, symbol, raw) == Ok(TableFrom(EMPTY_TABLE, ms))
  }

  /** Where a cut of the log falls. */
  lemma {:induction false} CutOfLog(f: Format, ms: seq<Mark>, k: nat)
    requires ms != [] && k < |Log(f, ms)|
    ensures var before, text := Log(f, ms[..|ms| - 1]), Text(f, ms[|ms| - 1]);
            && |Log(f, ms)| == |before| + |text| + 1
            && (k <= |before| ==> Log(f, ms)[..k] == before[..k])
            && (k > |before| ==> Log(f, ms)[..k] == before + text[..k - |before|])
  {
  }

  lemma {:induction false} CutCounts(f: Format, ms: seq<Mark>, k: nat)
    requires ms != [] && k > |Log(f, ms[..|ms| - 1])|
    ensures ms[..WholeRecords(f, ms, k)] == if k >= |Log(f, ms)| - 1 then ms else ms[..|ms| - 1]
  {
    assert WholeRecords(f, ms[..|ms| - 1], k) == |ms| - 1;
  }

  ghost predicate CutReads(f: Format, symbol: string, ms: seq<Mark>, k: nat)
    requires k <= |Log(f, ms)|
  {
    ReadsAs(f, symbol, Log(f, ms)[..k], ms[..WholeRecords(f, ms, k)])
  }

  lemma {:induction false} CutAtEnd(f: Format, symbol: string, ms: seq<Mark>)
    requires Lawful(f) && Written(f, symbol, ms)
    ensures CutReads(f, symbol, ms, |Log(f, ms)|)
  {
    LogThenTail(f, symbol, ms, "");
    assert Log(f, ms)[..|Log(f, ms)|] == Log(f, ms) + "" && ms[..|ms|] == ms;
  }

  lemma {:induction false} CutBeforeLast(f: Format, symbol: string, ms: seq<Mark>, k: nat)
    requires Lawful(f) && ms != [] && k <= |Log(f, ms[..|ms| - 1])| && CutReads(f, symbol, ms[..|ms| - 1], k)
    ensures k <= |Log(f, ms)| && CutReads(f, symbol, ms, k)
  {
    TextIsOneLine(f, ms[|ms| - 1], 0);
    CutOfLog(f, ms, k);
    assert ms[..|ms| - 1][..WholeRecords(f, ms[..|ms| - 1], k)] == ms[..WholeRecords(f, ms, k)];
  }

  lemma {:induction false} CutWithinLast(f: Format, symbol: string, ms: seq<Mark>, k: nat)
    requires Lawful(f) && Written(f, symbol, ms) && ms != [] && |Log(f, ms[..|ms| - 1])| < k < |Log(f, ms)|
    ensures CutReads(f, symbol, ms, k)
  {
    CutOfLog(f, ms, k);
    CutInLastRecord(f, symbol, ms, k - |Log(f, ms[..|ms| - 1])|);
    CutCounts(f, ms, k);
  }

  lemma {:induction false} TruncatedLogReads(f: Format, symbol: string, ms: seq<Mark>, k: nat)
    requires Lawful(f) && Written(f, symbol, ms) && k <= |Log(f, ms)|
    ensures CutReads(f, symbol, ms, k)
    decreases |ms|
  {
    if k == |Log(f, ms)| {
      CutAtEnd(f, symbol, ms);
    } else if k > |Log(f, ms[..|ms| - 1])| {
      CutWithinLast(f, symbol, ms, k);
    } else {
      TruncatedLogReads(f, symbol, ms[..|ms| - 1], k);
      CutBeforeLast(f, symbol, ms, k);
    }
  }

  /** Record i is counted exactly when the cut lies at or after the end of its text. */
  lemma {:induction false} WholeRecordsMeaning(f: Format, ms: seq<Mark>, k: nat, i: nat)
    requires Lawful(f) && i < |ms|
    ensures i < WholeRecords(f, ms, k) <==> k >= |Log(f, ms[..i])| + |Text(f, ms[i])|
    decreases |ms|
  {
    var n := |ms| - 1;
    assert |Log(f, ms)| == |Log(f, ms[..n])| + |Text(f, ms[n])| + 1;
    if i < n {
      assert ms[..n][..i] == ms[..i];
      LogGrows(f, ms, i);
      WholeRecordsMeaning(f, ms[..n], k, i);
    }
  }

  lemma {:induction false} LogGrows(f: Format, ms: seq<Mark>, i: nat)
    requires i < |ms|
    ensures |Log(f, ms)| >= |Log(f, ms[..i])| + |Text(f, ms[i])| + 1
    decreases |ms|
  {
    var n := |ms| - 1;
    if i < n {
      assert ms[..n][..i] == ms[..i];
      LogGrows(f, ms[..n], i);
    }
  }

  // ---- what the reader keeps: the last write of each block ----

  ghost predicate LastOfBlock(ms: seq<Mark>, i: nat)
    requires i < |ms|
  {
    forall j :: i < j < |ms| ==> ms[j].block != ms[i].block
  }

  lemma {:induction false} LastWriteStays(t: Table, ms: seq<Mark>, i: nat)
    requires i < |ms| && LastOfBlock(ms, i)
    ensures var marks := TableFrom(t, ms).marks; ms[i].block in marks && marks[ms[i].block] == ms[i]
    decreases |ms|
  {
    var n := |ms| - 1;
    if i < n {
      assert LastOfBlock(ms[..n], i);
      LastWriteStays(t, ms[..n], i);
    }
  }

  lemma {:induction false} OnlyLastWrites(ms: seq<Mark>, block: string) returns (i: nat)
    requires block in TableFrom(EMPTY_TABLE, ms).marks
    ensures i < |ms| && ms[i].block == block && LastOfBlock(ms, i)
    decreases |ms|
  {
    var n := |ms| - 1;
    if ms[n].block == block {
      i := n;
    } else {
      i := OnlyLastWrites(ms[..n], block);
    }
  }

  lemma {:induction false} NoRepeats(s: seq<Mark>, x: Mark)
    requires forall i, j :: 0 <= i < j < |s| ==> s[i] != s[j]
    ensures multiset(s)[x] <= 1
  {
    if s != [] {
      var front := s[..|s| - 1];
      assert s == front + [s[|s| - 1]];
      NoRepeats(front, x);
      assert forall i :: 0 <= i < |front| ==> front[i] == s[i] != s[|s| - 1];
    }
  }

  lemma {:induction false} RepeatCounts(s: seq<Mark>, i: nat, j: nat)
    requires i < j < |s| && s[i] == s[j]
    ensures multiset(s)[s[i]] >= 2
  {
    assert s == s[..j] + s[j..];
    assert s[i] == s[..j][i] && s[j] == s[j..][0];
    assert s[i] in multiset(s[..j]) && s[i] in multiset(s[j..]);
  }

  /** What reading a log of these records returns. */
  ghost function Kept(ms: seq<Mark>): seq<Mark>
  {
    TableListed(EMPTY_TABLE, ms);
    Ordered(Values(TableFrom(EMPTY_TABLE, ms)))
  }

  /** Exactly the last write of each block, in time order, and each block once. */
  lemma {:induction false} KeptIsLastWrites(ms: seq<Mark>, m: Mark)
    ensures m in Kept(ms) <==> exists i :: 0 <= i < |ms| && ms[i] == m && LastOfBlock(ms, i)
    ensures InOrder(Kept(ms))
  {
    TableListed(EMPTY_TABLE, ms);
    var t := TableFrom(EMPTY_TABLE, ms);
    var values := Values(t);
    OrderedElements(values);
    OrderedInOrder(values);
    assert m in Kept(ms) <==> m in multiset(Ordered(values));
    assert m in values <==> m in multiset(values);
    if m in values {
      var at :| 0 <= at < |values| && values[at] == m;
      var i := OnlyLastWrites(ms, t.order[at]);
      LastWriteStays(EMPTY_TABLE, ms, i);
    }
    if i :| 0 <= i < |ms| && ms[i] == m && LastOfBlock(ms, i) {
      LastWriteStays(EMPTY_TABLE, ms, i);
      var at :| 0 <= at < |t.order| && t.order[at] == m.block;
      assert values[at] == m;
    }
  }

  lemma {:induction false} ValuesUnique(t: Table, x: Mark, y: Mark)
    requires Listed(t) && x in Values(t) && y in Values(t) && x.block == y.block
    ensures x == y && multiset(Values(t))[x] <= 1
  {
    var values := Values(t);
    assert forall a :: 0 <= a < |values| ==> t.order[a] in t.marks && values[a].block == t.order[a];
    NoRepeats(values, x);
  }

  /** The reader survives any cut of a log of whole records and returns exactly what the records wholly present
      keep (WholeRecordsMeaning says which those are). */
  lemma {:induction false} TruncationSurvived(f: Format, symbol: string, ms: seq<Mark>, k: nat)
    requires Lawful(f) && Written(f, symbol, ms) && k <= |Log(f, ms)|
    ensures ReadMarks(f, symbol, Some(Log(f, ms)[..k])) == Ok(Kept(ms[..WholeRecords(f, ms, k)]))
  {
    TruncatedLogReads(f, symbol, ms, k);
    TableListed(EMPTY_TABLE, ms[..WholeRecords(f, ms, k)]);
  }

  lemma {:induction false} KeptBlocksDistinct(ms: seq<Mark>, i: nat, j: nat)
    requires i < j < |Kept(ms)|
    ensures Kept(ms)[i].block != Kept(ms)[j].block
  {
    TableListed(EMPTY_TABLE, ms);
    var t := TableFrom(EMPTY_TABLE, ms);
    var kept := Kept(ms);
    var x, y := kept[i], kept[j];
    OrderedElements(Values(t));
    assert x in multiset(kept) && y in multiset(kept);
    if x.block == y.block {
      ValuesUnique(t, x, y);
      RepeatCounts(kept, i, j);
    }
  }

  /** Among canonical block numbers (no leading zeros) the result is strictly ordered by time, then block. */
  lemma {:induction false} KeptStrictlyOrdered(ms: seq<Mark>, i: nat, j: nat)
    requires forall k :: 0 <= k < |ms| ==> D.Canonical(ms[k].block)
    requires i < j < |Kept(ms)|
    ensures After(Kept(ms)[j], Kept(ms)[i])
  {
    var a, b := Kept(ms)[i], Kept(ms)[j];
    KeptIsLastWrites(ms, a);
    KeptIsLastWrites(ms, b);
    KeptBlocksDistinct(ms, i, j);
    assert !After(a, b);
    D.ValueCanonical(a.block);
    D.ValueCanonical(b.block);
  }

  // ---- appending at least once reads as exactly once ----

  function Blocks(ms: seq<Mark>): seq<string>
  {
    seq(|ms|, i requires 0 <= i < |ms| => ms[i].block)
  }

  lemma {:induction false} TableConcat(t: Table, a: seq<Mark>, b: seq<Mark>)
    ensures TableFrom(t, a + b) == TableFrom(TableFrom(t, a), b)
    decreases |b|
  {
    if b == [] {
      assert a + b == a;
    } else {
      assert (a + b)[..|a + b| - 1] == a + b[..|b| - 1];
      TableConcat(t, a, b[..|b| - 1]);
    }
  }

  /** What a key maps to after some writes: the last write of its block, wherever the writes started. */
  lemma {:induction false} Lookup(t: Table, u: Table, ms: seq<Mark>, k: string)
    ensures k in TableFrom(t, ms).marks <==> k in t.marks || k in Blocks(ms)
    ensures k in Blocks(ms) ==> k in TableFrom(u, ms).marks && TableFrom(t, ms).marks[k] == TableFrom(u, ms).marks[k]
    ensures k !in Blocks(ms) && k in t.marks ==> TableFrom(t, ms).marks[k] == t.marks[k]
    decreases |ms|
  {
    if ms != [] {
      var n := |ms| - 1;
      assert Blocks(ms) == Blocks(ms[..n]) + [ms[n].block];
      Lookup(t, u, ms[..n], k);
    }
  }

  predicate SameKeys(t: Table, u: Table)
  {
    t.order == u.order && t.marks.Keys == u.marks.Keys
  }

  lemma {:induction false} SameKeysKept(t: Table, u: Table, a: seq<Mark>, b: seq<Mark>)
    requires SameKeys(t, u) && Blocks(a) == Blocks(b)
    ensures SameKeys(TableFrom(t, a), TableFrom(u, b))
    decreases |a|
  {
    assert |a| == |Blocks(a)| == |Blocks(b)| == |b|;
    if a != [] {
      var n := |a| - 1;
      assert a[n].block == Blocks(a)[n] == Blocks(b)[n] == b[n].block;
      assert Blocks(a[..n]) == Blocks(a)[..n] == Blocks(b)[..n] == Blocks(b[..n]);
      SameKeysKept(t, u, a[..n], b[..n]);
    }
  }

  lemma {:induction false} KnownBlocksAddNothing(t: Table, ms: seq<Mark>)
    requires forall k :: k in Blocks(ms) ==> k in t.marks
    ensures SameKeys(TableFrom(t, ms), t)
    decreases |ms|
  {
    if ms != [] {
      var n := |ms| - 1;
      assert Blocks(ms) == Blocks(ms[..n]) + [ms[n].block];
      KnownBlocksAddNothing(t, ms[..n]);
    }
  }

  /** A dead attempt leaves no trace once an attempt that covers its blocks has been written after it. */
  lemma {:induction false} RetryOverwrites(t: Table, dead: seq<Mark>, done: seq<Mark>)
    requires Blocks(dead) <= Blocks(done)
    ensures TableFrom(t, dead + done) == TableFrom(t, done)
  {
    var first, rest := done[..|dead|], done[|dead|..];
    assert done == first + rest && Blocks(first) == Blocks(done)[..|dead|] == Blocks(dead);
    var left := TableFrom(t, dead);
    TableConcat(t, dead, done);
    TableConcat(left, first, rest);
    TableConcat(t, first, rest);
    forall k | k in Blocks(first)
      ensures k in left.marks
    {
      Lookup(t, t, dead, k);
    }
    KnownBlocksAddNothing(left, first);
    SameKeysKept(t, t, dead, first);
    SameKeysKept(TableFrom(left, first), TableFrom(t, first), rest, rest);
    var a, b := TableFrom(left, done), TableFrom(t, done);
    forall k | k in b.marks
      ensures a.marks[k] == b.marks[k]
    {
      Lookup(left, t, done, k);
      Lookup(t, left, done, k);
      Lookup(t, t, dead, k);
      assert Blocks(done)[..|dead|] == Blocks(dead);
    }
    assert a.marks == b.marks;
  }

  /** One poll: attempts that died before the state was renamed, and the one that finished. */
  datatype Poll = Poll(dead: seq<seq<Mark>>, done: seq<Mark>)

  predicate Retries(p: Poll)
  {
    forall i :: 0 <= i < |p.dead| ==> Blocks(p.dead[i]) <= Blocks(p.done)
  }

  function Flat(attempts: seq<seq<Mark>>): seq<Mark>
    decreases |attempts|
  {
    if attempts == [] then [] else Flat(attempts[..|attempts| - 1]) + attempts[|attempts| - 1]
  }

  /** Everything appended over a run, and what a run without deaths would append. */
  function Appended(polls: seq<Poll>): seq<Mark>
    decreases |polls|
  {
    if polls == [] then []
    else var p := polls[|polls| - 1]; Appended(polls[..|polls| - 1]) + Flat(p.dead) + p.done
  }

  function Finished(polls: seq<Poll>): seq<Mark>
    decreases |polls|
  {
    if polls == [] then [] else Finished(polls[..|polls| - 1]) + polls[|polls| - 1].done
  }

  lemma {:induction false} DeadAttemptsVanish(t: Table, dead: seq<seq<Mark>>, done: seq<Mark>)
    requires Retries(Poll(dead, done))
    ensures TableFrom(t, Flat(dead) + done) == TableFrom(t, done)
    decreases |dead|
  {
    if dead == [] {
      assert Flat(dead) + done == done;
    } else {
      var front, last := dead[..|dead| - 1], dead[|dead| - 1];
      assert forall i :: 0 <= i < |front| ==> front[i] == dead[i];
      DeadAttemptsVanish(t, front, done);
      assert Flat(dead) + done == Flat(front) + (last + done);
      TableConcat(t, Flat(front), last + done);
      TableConcat(t, Flat(front), done);
      RetryOverwrites(TableFrom(t, Flat(front)), last, done);
    }
  }

  lemma {:induction false} RunVanishes(polls: seq<Poll>)
    requires forall i :: 0 <= i < |polls| ==> Retries(polls[i])
    ensures TableFrom(EMPTY_TABLE, Appended(polls)) == TableFrom(EMPTY_TABLE, Finished(polls))
    decreases |polls|
  {
    if polls != [] {
      var front, p := polls[..|polls| - 1], polls[|polls| - 1];
      RunVanishes(front);
      assert Appended(polls) == Appended(front) + (Flat(p.dead) + p.done);
      TableConcat(EMPTY_TABLE, Appended(front), Flat(p.dead) + p.done);
      TableConcat(EMPTY_TABLE, Finished(front), p.done);
      DeadAttemptsVanish(TableFrom(EMPTY_TABLE, Appended(front)), p.dead, p.done);
    }
  }

  /** The same mark apart from the wall clock at the time of writing. */
  predicate Same(a: Mark, b: Mark)
  {
    a.(observedAt := 0) == b.(observedAt := 0)
  }

  predicate AllSame(a: seq<Mark>, b: seq<Mark>)
  {
    |a| == |b| && forall i :: 0 <= i < |a| ==> Same(a[i], b[i])
  }

  predicate TablesSame(t: Table, u: Table)
  {
    SameKeys(t, u) && forall k :: k in t.marks ==> Same(t.marks[k], u.marks[k])
  }

  lemma {:induction false} SameTables(a: seq<Mark>, b: seq<Mark>)
    requires AllSame(a, b)
    ensures TablesSame(TableFrom(EMPTY_TABLE, a), TableFrom(EMPTY_TABLE, b))
    decreases |a|
  {
    if a != [] {
      var n := |a| - 1;
      SameTables(a[..n], b[..n]);
      assert Same(a[n], b[n]);
    }
  }

  lemma {:induction false} SameInserted(a: seq<Mark>, b: seq<Mark>, m: Mark, n: Mark)
    requires AllSame(a, b) && Same(m, n)
    ensures AllSame(Inserted(a, m), Inserted(b, n))
  {
    if a != [] {
      assert Same(a[|a| - 1], b[|b| - 1]);
      SameInserted(a[..|a| - 1], b[..|b| - 1], m, n);
    }
  }

  lemma {:induction false} SameOrdered(a: seq<Mark>, b: seq<Mark>)
    requires AllSame(a, b)
    ensures AllSame(Ordered(a), Ordered(b))
  {
    if a != [] {
      var n := |a| - 1;
      SameOrdered(a[..n], b[..n]);
      assert Same(a[n], b[n]);
      SameInserted(Ordered(a[..n]), Ordered(b[..n]), a[n], b[n]);
    }
  }

  lemma {:induction false} SameKept(a: seq<Mark>, b: seq<Mark>)
    requires AllSame(a, b)
    ensures AllSame(Kept(a), Kept(b))
  {
    TableListed(EMPTY_TABLE, a);
    TableListed(EMPTY_TABLE, b);
    SameTables(a, b);
    SameOrdered(Values(TableFrom(EMPTY_TABLE, a)), Values(TableFrom(EMPTY_TABLE, b)));
  }

  /** At-least-once appends read back as exactly once: however often polls die before their rename and are rerun,
      the log reads like one that the finished attempts alone wrote, and, up to observedAt, like any log written
      without deaths. */
  lemma {:induction false} RetriesReadOnce(f: Format, symbol: string, polls: seq<Poll>, crashFree: seq<Mark>)
    requires Lawful(f) && (forall i :: 0 <= i < |polls| ==> Retries(polls[i]))
    requires Written(f, symbol, Appended(polls)) && AllSame(Finished(polls), crashFree)
    ensures ReadMarks(f, symbol, Some(Log(f, Appended(polls)))) == Ok(Kept(Finished(polls)))
    ensures AllSame(Kept(Finished(polls)), Kept(crashFree))
  {
    var appended := Appended(polls);
    RunVanishes(polls);
    LogReads(f, symbol, appended);
    TableListed(EMPTY_TABLE, appended);
    SameKept(Finished(polls), crashFree);
  }

  /** A log of whole records reads as the marks it keeps. */
  lemma {:induction false} LogReads(f: Format, symbol: string, ms: seq<Mark>)
    requires Lawful(f) && Written(f, symbol, ms)
    ensures ReadMarks(f, symbol, Some(Log(f, ms))) == Ok(Kept(ms))
  {
    LogThenTail(f, symbol, ms, "");
    assert Log(f, ms) + "" == Log(f, ms);
    TableListed(EMPTY_TABLE, ms);
  }

  // ---- why appends must be whole lines ----

  /** A text that is tidy both from outside and from inside a string has no escape, so its quotes swap the two. */
  lemma {:induction false} ScanFlips(d: int, t: string)
    requires Tidy(Outside(d), t) && Tidy(Scan(d, true, false), t)
    ensures var out, inside := ScanText(Outside(d), t), ScanText(Scan(d, true, false), t);
            !out.escaped && !inside.escaped && inside.inString == !out.inString
  {
    if t != "" { ScanFlips(d, t[..|t| - 1]); }
  }

  lemma {:induction false} TidySuffix(m: Scan, a: string, b: string)
    requires Tidy(m, a + b)
    ensures Tidy(ScanText(m, a), b)
    decreases |b|
  {
    if b != "" {
      var front := b[..|b| - 1];
      assert (a + b)[..|a + b| - 1] == a + front;
      TidySuffix(m, a, front);
      ScanAppend(m, a, front);
    }
  }

  lemma {:induction false} EscapedInside(m: Scan, t: string)
    requires m.escaped ==> m.inString
    ensures ScanText(m, t).escaped ==> ScanText(m, t).inString
  {
    if t != "" { EscapedInside(m, t[..|t| - 1]); }
  }

  lemma {:induction false} FirstTidy(m: Scan, t: string)
    requires t != "" && Tidy(m, t)
    ensures TidyAt(m, t[0])
  {
    TidyMeans(m, t, 0);
    assert t[..0] == "";
  }

  /** What is left open by a torn record is not closed by a whole one. */
  lemma {:induction false} TornStaysOpen(torn: string, fields: seq<Field>, number: NumberText)
    requires PlainNumbers(number) && ScanText(Outside(0), torn) != Outside(0)
    ensures !JsonShaped(torn + Print(Obj(fields), number))
  {
    var whole, open := Print(Obj(fields), number), ScanText(Outside(0), torn);
    if JsonShaped(torn + whole) {
      ScanAppend(Outside(0), torn, whole);
      TidySuffix(Outside(0), torn, whole);
      EscapedInside(Outside(0), torn);
      FirstTidy(open, whole);
      assert whole[0] == '{' && !open.escaped;
      PrintNested(Obj(fields), number, open.depth);
      PrintTidy(Obj(fields), number, open.depth);
      if open.inString { ScanFlips(open.depth, whole); }
    }
  }

  /** A record cut anywhere after its start, up to and including the loss of its line break alone, followed by a whole
      record, is no JSON text. */
  lemma {:induction false} CutThenWhole(f: Format, m: Mark, k: nat, next: Mark)
    requires Lawful(f) && 0 < k <= |Text(f, m)|
    ensures f.parse(Text(f, m)[..k] + Text(f, next)).None?
  {
    var text, whole := Text(f, m), Text(f, next);
    PrintNested(Obj(f.fields(m)), f.number, 0);
    if k < |text| {
      TornStaysOpen(text[..k], f.fields(next), f.number);
    } else {
      assert text[..k] == text;
      SecondObject(text, whole);
    }
  }

  /** A closed text followed by another object is no JSON text. */
  lemma {:induction false} SecondObject(text: string, whole: string)
    requires text != "" && text[|text| - 1] == '}' && ScanText(Outside(0), text) == Outside(0)
    requires whole != "" && whole[0] == '{'
    ensures !JsonShaped(text + whole)
  {
    hide ScanText, Tidy, Balanced;
    var line, k := text + whole, |text|;
    assert line[..k] == text && line[k - 1] == '}' && line[k] == '{';
    assert !ClosesOnce(line);
  }

  /** Appending changes no line but the last. */
  lemma {:induction false} LinesStay(a: string, b: string, i: nat)
    requires i < |Lines(a)| - 1
    ensures i < |Lines(a + b)| - 1 && Lines(a + b)[i] == Lines(a)[i]
    decreases |b|
  {
    if b == "" {
      assert a + b == a;
    } else {
      assert (a + b)[..|a + b| - 1] == a + b[..|b| - 1];
      LinesStay(a, b[..|b| - 1], i);
    }
  }

  /** Such a record, followed by a whole one, makes the log unreadable, whatever comes later. */
  lemma {:induction false} AppendAfterTornTail(f: Format, symbol: string, ms: seq<Mark>, m: Mark, k: nat, next: Mark,
        later: string)
    requires Lawful(f) && 0 < k <= |Text(f, m)|
    ensures ReadMarks(f, symbol, Some(Log(f, ms) + (Text(f, m)[..k] + Text(f, next)) + "\n" + later)).Err?
  {
    var line := Text(f, m)[..k] + Text(f, next);
    var first := Log(f, ms) + line + "\n";
    CutThenWhole(f, m, k, next);
    TextIsOneLine(f, m, k);
    TextIsOneLine(f, next, 0);
    LinesOfLog(f, ms);
    LineAdded(Log(f, ms), Texts(f, ms), line);
    assert Lines(first)[|ms|] == line;
    LinesStay(first, later, |ms|);
    assert Refused(f, symbol, Lines(first + later), EndsLine(first + later), |ms|);
    ReadFailsIff(f, symbol, first + later);
  }

  lemma {:induction false} LogConcat(f: Format, a: seq<Mark>, b: seq<Mark>)
    ensures Log(f, a + b) == Log(f, a) + Log(f, b)
    decreases |b|
  {
    if b == [] {
      assert a + b == a;
    } else {
      var front, last := b[..|b| - 1], b[|b| - 1];
      assert (a + b)[..|a + b| - 1] == a + front;
      LogConcat(f, a, front);
      assert Log(f, a) + (Log(f, front) + Text(f, last) + "\n") == Log(f, a) + Log(f, front) + Text(f, last) + "\n";
    }
  }

  lemma {:induction false} LogOfFirst(f: Format, ms: seq<Mark>)
    requires ms != []
    ensures Log(f, ms) == Text(f, ms[0]) + "\n" + Log(f, ms[1..])
  {
    var first := [ms[0]];
    assert first[..0] == [] && first + ms[1..] == ms;
    LogConcat(f, first, ms[1..]);
    assert Log(f, first) == "" + Text(f, ms[0]) + "\n" == Text(f, ms[0]) + "\n";
  }

  /** Where a cut falls: after j whole records, or inside record j, its line break at the latest. */
  lemma {:induction false} CutPosition(f: Format, ms: seq<Mark>, k: nat) returns (j: nat, torn: nat)
    requires k <= |Log(f, ms)|
    ensures j <= |ms| && (torn > 0 ==> j < |ms| && torn <= |Text(f, ms[j])|)
    ensures Log(f, ms)[..k] == Log(f, ms[..j]) + if torn > 0 then Text(f, ms[j])[..torn] else ""
    decreases |ms|
  {
    if k == |Log(f, ms)| {
      j, torn := |ms|, 0;
      assert ms[..j] == ms && Log(f, ms)[..k] == Log(f, ms) + "";
    } else {
      var front := ms[..|ms| - 1];
      CutOfLog(f, ms, k);
      if k <= |Log(f, front)| {
        j, torn := CutPosition(f, front, k);
        assert front[..j] == ms[..j];
      } else {
        j, torn := |front|, k - |Log(f, front)|;
      }
    }
  }

  lemma {:induction false} LogEndsLine(f: Format, ms: seq<Mark>)
    ensures Log(f, ms) == "" || EndsLine(Log(f, ms))
  {
  }

  /** The cut tore record m: appending whole records makes the log unreadable. */
  lemma {:induction false} AppendAfterTorn(f: Format, symbol: string, ms: seq<Mark>, m: Mark, torn: nat,
                                           more: seq<Mark>)
    requires Lawful(f) && 0 < torn <= |Text(f, m)| && more != []
    ensures var left := Log(f, ms) + Text(f, m)[..torn];
            ReadMarks(f, symbol, Some(left + Log(f, more))).Err? && left != "" && !EndsLine(left)
  {
    hide ReadMarks, Log, Text, Lawful;
    var rest, t, next := Log(f, more[1..]), Text(f, m)[..torn], Text(f, more[0]);
    LogOfFirst(f, more);
    AppendAfterTornTail(f, symbol, ms, m, torn, more[0], rest);
    assert Log(f, ms) + t + (next + "\n" + rest) == Log(f, ms) + (t + next) + "\n" + rest;
    TextIsOneLine(f, m, 0);
    TailIsOpen(Log(f, ms), t);
  }

  /** The cut kept whole records only: appending more of them gives a log of whole records. */
  lemma {:induction false} AppendAfterWhole(f: Format, symbol: string, ms: seq<Mark>, more: seq<Mark>)
    requires Lawful(f) && Written(f, symbol, ms) && Written(f, symbol, more)
    ensures ReadMarks(f, symbol, Some(Log(f, ms) + Log(f, more))) == Ok(Kept(ms + more))
  {
    hide ReadMarks, Log, Text, Lawful;
    LogConcat(f, ms, more);
    LogReads(f, symbol, ms + more);
  }

  /** Appending whole records to a log that was cut anywhere keeps it readable exactly when the cut fell on a record
      boundary: when the file was empty or ended with a line break. */
  lemma {:induction false} AppendAfterCut(f: Format, symbol: string, ms: seq<Mark>, k: nat, more: seq<Mark>)
    requires Lawful(f) && Written(f, symbol, ms) && Written(f, symbol, more) && more != [] && k <= |Log(f, ms)|
    ensures var left := Log(f, ms)[..k];
            ReadMarks(f, symbol, Some(left + Log(f, more))).Ok? <==> left == "" || EndsLine(left)
  {
    hide ReadMarks, Log, Text, Lawful, EndsLine;
    var left := Log(f, ms)[..k];
    var j, torn := CutPosition(f, ms, k);
    if torn > 0 {
      AppendAfterTorn(f, symbol, ms[..j], ms[j], torn, more);
    } else {
      assert left == Log(f, ms[..j]);
      LogEndsLine(f, ms[..j]);
      AppendAfterWhole(f, symbol, ms[..j], more);
    }
  }
}
