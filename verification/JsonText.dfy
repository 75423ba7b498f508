/** Compact JSON texts (JSON.stringify) and why a cut-off object never reads as a whole one. */
module JsonText {
  import opened Prelude
  import opened Decimal
  import opened StateCodec

  /** The text of a number; the only thing used is that it has no structural character. */
  type NumberText = real -> string

  predicate IsStructural(c: char)
  {
    c == '"' || c == '{' || c == '}' || c == '[' || c == ']' || c == '\n' || c == '\\'
  }

  predicate Atomic(text: string)
  {
    text != "" && forall i :: 0 <= i < |text| ==> !IsStructural(text[i])
  }

  ghost predicate PlainNumbers(number: NumberText)
  {
    forall x :: Atomic(number(x))
  }

  function HexDigit(d: nat): char
    requires d < 16
  {
    if d < 10 then DigitChar(d) else ('a' as int + d - 10) as char
  }

  function EscapeChar(c: char): string
  {
    if c == '"' then ['\\', '"']
    else if c == '\\' then ['\\', '\\']
    else if c == '\n' then ['\\', 'n']
    else if c == '\r' then ['\\', 'r']
    else if c == '\t' then ['\\', 't']
    else if c as int == 8 then ['\\', 'b']
    else if c as int == 12 then ['\\', 'f']
    else if c < ' ' then ['\\', 'u', '0', '0', HexDigit(c as int / 16), HexDigit(c as int % 16)]
    else [c]
  }

  function Escape(s: string): string
  {
    if s == "" then "" else Escape(s[..|s| - 1]) + EscapeChar(s[|s| - 1])
  }

  function Quote(s: string): string
  {
    ['"'] + Escape(s) + ['"']
  }

  function Print(v: Value, number: NumberText): string
    decreases v, 1
  {
    match v
    case Null => "null"
    case Bool(b) => if b then "true" else "false"
    case Num(x) => number(x)
    case BigInt(_) => "null"
    case Str(s) => Quote(s)
    case Arr(items) => "[" + PrintItems(items, number) + "]"
    case Obj(fields) => "{" + PrintFields(fields, number) + "}"
  }

  function PrintItems(items: seq<Value>, number: NumberText): string
    decreases items, 0
  {
    if items == [] then ""
    else Print(items[0], number) + (if |items| == 1 then "" else ",") + PrintItems(items[1..], number)
  }

  function PrintFields(fields: seq<Field>, number: NumberText): string
    decreases fields, 0
  {
    if fields == [] then ""
    else Quote(fields[0].key) + ":" + Print(fields[0].value, number) + (if |fields| == 1 then "" else ",") +
         PrintFields(fields[1..], number)
  }

  // ---- bracket depth ----

  datatype Scan = Scan(depth: int, inString: bool, escaped: bool)

  function Outside(depth: int): Scan { Scan(depth, false, false) }

  function ScanChar(m: Scan, c: char): Scan
  {
    if m.inString then
      if m.escaped then m.(escaped := false)
      else if c == '\\' then m.(escaped := true)
      else if c == '"' then m.(inString := false)
      else m
    else if c == '"' then m.(inString := true)
    else if c == '{' || c == '[' then m.(depth := m.depth + 1)
    else if c == '}' || c == ']' then m.(depth := m.depth - 1)
    else m
  }

  function ScanText(m: Scan, text: string): Scan
  {
    if text == "" then m else ScanChar(ScanText(m, text[..|text| - 1]), text[|text| - 1])
  }

  /** Every bracket and string is closed. */
  predicate Balanced(text: string)
  {
    ScanText(Outside(0), text) == Outside(0)
  }

  predicate IsEscapeLetter(c: char)
  {
    c == '"' || c == '\\' || c == '/' || c == 'b' || c == 'f' || c == 'n' || c == 'r' || c == 't' || c == 'u'
  }

  /** What may come next: a backslash only inside a string, and after it only an escape letter. */
  predicate TidyAt(m: Scan, c: char)
  {
    (c == '\\' ==> m.inString) && (m.escaped ==> IsEscapeLetter(c))
  }

  predicate Tidy(m: Scan, text: string)
  {
    text == "" || (Tidy(m, text[..|text| - 1]) && TidyAt(ScanText(m, text[..|text| - 1]), text[|text| - 1]))
  }

  predicate IsSpace(c: char)
  {
    c == ' ' || c == '\t' || c == '\n' || c == '\r'
  }

  /** Once a bracket has closed the text, only white space follows. */
  ghost predicate ClosesOnce(text: string)
  {
    forall i :: 0 < i < |text| && text[i - 1] in "}]" && ScanText(Outside(0), text[..i]) == Outside(0) ==>
      IsSpace(text[i])
  }

  /** True of any text that JSON.parse accepts (sections 2, 7 and 8 of RFC 8259). */
  ghost predicate JsonShaped(text: string)
  {
    Balanced(text) && Tidy(Outside(0), text) && ClosesOnce(text)
  }

  lemma {:induction false} ScanAppend(m: Scan, a: string, b: string)
    ensures ScanText(m, a + b) == ScanText(ScanText(m, a), b)
    decreases |b|
  {
    if b == "" {
      assert a + b == a;
    } else {
      assert (a + b)[..|a + b| - 1] == a + b[..|b| - 1];
      ScanAppend(m, a, b[..|b| - 1]);
    }
  }

  /** text ends where it began, never goes below it on the way, and holds no line break. */
  ghost predicate Nested(text: string, d: int)
  {
    && ScanText(Outside(d), text) == Outside(d)
    && (forall k :: 0 <= k <= |text| ==> ScanText(Outside(d), text[..k]).depth >= d)
    && '\n' !in text
  }

  lemma {:induction false} NestedAppend(a: string, b: string, d: int)
    requires Nested(a, d) && Nested(b, d)
    ensures Nested(a + b, d)
  {
    ScanAppend(Outside(d), a, b);
    forall k | 0 <= k <= |a + b|
      ensures ScanText(Outside(d), (a + b)[..k]).depth >= d
    {
      if k <= |a| {
        assert (a + b)[..k] == a[..k];
      } else {
        assert (a + b)[..k] == a + b[..k - |a|];
        ScanAppend(Outside(d), a, b[..k - |a|]);
      }
    }
  }

  lemma {:induction false} AtomicNested(text: string, d: int)
    requires forall i :: 0 <= i < |text| ==> !IsStructural(text[i])
    ensures Nested(text, d)
  {
    if text == "" {
    } else {
      var front := text[..|text| - 1];
      AtomicNested(front, d);
      forall k | 0 <= k <= |text|
        ensures ScanText(Outside(d), text[..k]).depth >= d
      {
        if k < |text| { assert text[..k] == front[..k]; } else { assert text[..k] == text; }
      }
    }
  }

  /** Inside a string literal the depth never moves. */
  lemma {:induction false} EscapeScans(s: string, d: int)
    ensures ScanText(Scan(d, true, false), Escape(s)) == Scan(d, true, false)
    ensures forall k :: 0 <= k <= |Escape(s)| ==>
              var m := ScanText(Scan(d, true, false), Escape(s)[..k]); m.depth == d && m.inString
    ensures '\n' !in Escape(s)
  {
    if s != "" {
      var front, tail := Escape(s[..|s| - 1]), EscapeChar(s[|s| - 1]);
      EscapeScans(s[..|s| - 1], d);
      EscapeCharScans(s[|s| - 1], d);
      ScanAppend(Scan(d, true, false), front, tail);
      forall k | 0 <= k <= |front + tail|
        ensures var m := ScanText(Scan(d, true, false), (front + tail)[..k]); m.depth == d && m.inString
      {
        if k <= |front| {
          assert (front + tail)[..k] == front[..k];
        } else {
          assert (front + tail)[..k] == front + tail[..k - |front|];
          ScanAppend(Scan(d, true, false), front, tail[..k - |front|]);
        }
      }
    }
  }

  lemma {:induction false} EscapeCharScans(c: char, d: int)
    ensures ScanText(Scan(d, true, false), EscapeChar(c)) == Scan(d, true, false)
    ensures forall k :: 0 <= k <= |EscapeChar(c)| ==>
              var m := ScanText(Scan(d, true, false), EscapeChar(c)[..k]); m.depth == d && m.inString
    ensures '\n' !in EscapeChar(c)
  {
    var t, m := EscapeChar(c), Scan(d, true, false);
    ScanPrefixes(m, t);
    if |t| == 6 {
      assert ScanText(m, t[..3]) == m && ScanText(m, t[..4]) == m;
    }
  }

  /** Unfolds a scan over the prefixes of a text. */
  lemma {:induction false} ScanPrefixes(m: Scan, t: string)
    ensures ScanText(m, t[..0]) == m
    ensures forall k :: 0 < k <= |t| ==> ScanText(m, t[..k]) == ScanChar(ScanText(m, t[..k - 1]), t[k - 1])
    ensures t[..|t|] == t
  {
    assert forall k :: 0 < k <= |t| ==> t[..k][..k - 1] == t[..k - 1];
  }

  /** A text that opens at its first character, closes at its last and is inside in between. */
  ghost predicate Enclosed(text: string, d: int)
  {
    && |text| >= 2
    && ScanText(Outside(d), text) == Outside(d)
    && (forall k :: 0 < k < |text| ==> var m := ScanText(Outside(d), text[..k]); m.depth >= d && m != Outside(d))
    && '\n' !in text
  }

  lemma {:induction false} EnclosedNested(text: string, d: int)
    requires Enclosed(text, d)
    ensures Nested(text, d)
  {
    assert text[..0] == "" && text[..|text|] == text;
  }

  lemma {:induction false} QuoteEnclosed(s: string, d: int)
    ensures Enclosed(Quote(s), d)
  {
    var inner, text, m := Escape(s), Quote(s), Scan(d, true, false);
    EscapeScans(s, d);
    assert ScanText(Outside(d), ['"']) == m by { ScanPrefixes(Outside(d), ['"']); assert ['"'][..1] == ['"']; }
    ScanAppend(Outside(d), ['"'], inner);
    assert text[..|text| - 1] == ['"'] + inner;
    forall k | 0 < k < |text|
      ensures var n := ScanText(Outside(d), text[..k]); n.depth >= d && n != Outside(d)
    {
      assert text[..k] == ['"'] + inner[..k - 1];
      ScanAppend(Outside(d), ['"'], inner[..k - 1]);
    }
  }

  lemma {:induction false} BracketEnclosed(inner: string, open: char, close: char, d: int)
    requires Nested(inner, d + 1)
    requires open in "{[" && close in "}]"
    ensures Enclosed([open] + inner + [close], d)
  {
    var text := [open] + inner + [close];
    assert ScanText(Outside(d), [open]) == Outside(d + 1) by {
      ScanPrefixes(Outside(d), [open]);
      assert [open][..1] == [open];
    }
    ScanAppend(Outside(d), [open], inner);
    assert text[..|text| - 1] == [open] + inner;
    forall k | 0 < k < |text|
      ensures var n := ScanText(Outside(d), text[..k]); n.depth >= d && n != Outside(d)
    {
      assert text[..k] == [open] + inner[..k - 1];
      ScanAppend(Outside(d), [open], inner[..k - 1]);
    }
  }

  lemma {:induction false} PrintNested(v: Value, number: NumberText, d: int)
    requires PlainNumbers(number)
    ensures Nested(Print(v, number), d)
    ensures v.Obj? ==> Enclosed(Print(v, number), d)
    decreases v, 1
  {
    match v
    case Str(s) =>
      QuoteEnclosed(s, d);
      EnclosedNested(Quote(s), d);
    case Arr(items) =>
      PrintItemsNested(items, number, d + 1);
      BracketEnclosed(PrintItems(items, number), '[', ']', d);
      EnclosedNested("[" + PrintItems(items, number) + "]", d);
    case Obj(fields) =>
      PrintFieldsNested(fields, number, d + 1);
      BracketEnclosed(PrintFields(fields, number), '{', '}', d);
      EnclosedNested("{" + PrintFields(fields, number) + "}", d);
    case _ =>
      AtomicNested(Print(v, number), d);
  }

  lemma {:induction false} PrintItemsNested(items: seq<Value>, number: NumberText, d: int)
    requires PlainNumbers(number)
    ensures Nested(PrintItems(items, number), d)
    decreases items, 0
  {
    if items == [] {
      AtomicNested("", d);
    } else {
      var first, comma := Print(items[0], number), if |items| == 1 then "" else ",";
      PrintNested(items[0], number, d);
      AtomicNested(comma, d);
      PrintItemsNested(items[1..], number, d);
      NestedAppend(first, comma, d);
      NestedAppend(first + comma, PrintItems(items[1..], number), d);
    }
  }

  lemma {:induction false} PrintFieldsNested(fields: seq<Field>, number: NumberText, d: int)
    requires PlainNumbers(number)
    ensures Nested(PrintFields(fields, number), d)
    decreases fields, 0
  {
    if fields == [] {
      AtomicNested("", d);
    } else {
      var key, value, comma := Quote(fields[0].key), Print(fields[0].value, number), if |fields| == 1 then "" else ",";
      QuoteEnclosed(fields[0].key, d);
      EnclosedNested(key, d);
      AtomicNested(":", d);
      PrintNested(fields[0].value, number, d);
      AtomicNested(comma, d);
      PrintFieldsNested(fields[1..], number, d);
      NestedAppend(key, ":", d);
      NestedAppend(key + ":", value, d);
      NestedAppend(key + ":" + value, comma, d);
      NestedAppend(key + ":" + value + comma, PrintFields(fields[1..], number), d);
    }
  }

  /** An object's text is one non-empty line, and cutting it short anywhere leaves brackets open. */
  lemma {:induction false} TornObject(fields: seq<Field>, number: NumberText, k: nat)
    requires PlainNumbers(number)
    ensures var text := Print(Obj(fields), number);
            text != "" && '\n' !in text && Balanced(text) && (0 < k < |text| ==> !Balanced(text[..k]))
  {
    PrintNested(Obj(fields), number, 0);
  }

  // ---- printed objects are shaped as JSON ----

  lemma {:induction false} TidyAppend(m: Scan, a: string, b: string)
    requires Tidy(m, a) && Tidy(ScanText(m, a), b)
    ensures Tidy(m, a + b)
    decreases |b|
  {
    if b == "" {
      assert a + b == a;
    } else {
      var front := b[..|b| - 1];
      assert (a + b)[..|a + b| - 1] == a + front;
      TidyAppend(m, a, front);
      ScanAppend(m, a, front);
    }
  }

  lemma {:induction false} TidyMeans(m: Scan, text: string, i: nat)
    requires Tidy(m, text) && i < |text|
    ensures TidyAt(ScanText(m, text[..i]), text[i])
    decreases |text|
  {
    var front := text[..|text| - 1];
    if i < |front| {
      TidyMeans(m, front, i);
      assert front[..i] == text[..i];
    }
  }

  lemma {:induction false} AtomicTidy(text: string, d: int)
    requires forall i :: 0 <= i < |text| ==> !IsStructural(text[i])
    ensures Tidy(Outside(d), text)
  {
    if text != "" {
      var front := text[..|text| - 1];
      AtomicTidy(front, d);
      AtomicNested(front, d);
    }
  }

  lemma {:induction false} EscapeCharTidy(c: char, d: int)
    ensures Tidy(Scan(d, true, false), EscapeChar(c))
  {
    var t, m := EscapeChar(c), Scan(d, true, false);
    ScanPrefixes(m, t);
    if |t| == 6 {
      assert ScanText(m, t[..2]) == m && ScanText(m, t[..3]) == m && ScanText(m, t[..4]) == m &&
             ScanText(m, t[..5]) == m;
    }
    TidyEverywhere(m, t);
  }

  lemma {:induction false} TidyEverywhere(m: Scan, text: string)
    requires forall i :: 0 <= i < |text| ==> TidyAt(ScanText(m, text[..i]), text[i])
    ensures Tidy(m, text)
  {
    if text != "" {
      var front := text[..|text| - 1];
      assert forall i :: 0 <= i < |front| ==> front[..i] == text[..i] && front[i] == text[i];
      TidyEverywhere(m, front);
    }
  }

  lemma {:induction false} EscapeTidy(s: string, d: int)
    ensures Tidy(Scan(d, true, false), Escape(s))
  {
    if s != "" {
      EscapeTidy(s[..|s| - 1], d);
      EscapeScans(s[..|s| - 1], d);
      EscapeCharTidy(s[|s| - 1], d);
      TidyAppend(Scan(d, true, false), Escape(s[..|s| - 1]), EscapeChar(s[|s| - 1]));
    }
  }

  lemma {:induction false} OneTidy(m: Scan, c: char)
    requires TidyAt(m, c)
    ensures Tidy(m, [c]) && ScanText(m, [c]) == ScanChar(m, c)
  {
    assert [c][..0] == "";
  }

  lemma {:induction false} QuoteTidy(s: string, d: int)
    ensures Tidy(Outside(d), Quote(s))
  {
    var inside := Scan(d, true, false);
    OneTidy(Outside(d), '"');
    EscapeTidy(s, d);
    EscapeScans(s, d);
    TidyAppend(Outside(d), ['"'], Escape(s));
    ScanAppend(Outside(d), ['"'], Escape(s));
    OneTidy(inside, '"');
    TidyAppend(Outside(d), ['"'] + Escape(s), ['"']);
  }

  lemma {:induction false} BracketTidy(inner: string, open: char, close: char, d: int)
    requires Nested(inner, d + 1) && Tidy(Outside(d + 1), inner)
    requires open in "{[" && close in "}]"
    ensures Tidy(Outside(d), [open] + inner + [close])
  {
    OneTidy(Outside(d), open);
    TidyAppend(Outside(d), [open], inner);
    ScanAppend(Outside(d), [open], inner);
    OneTidy(Outside(d + 1), close);
    TidyAppend(Outside(d), [open] + inner, [close]);
  }

  lemma {:induction false} PrintTidy(v: Value, number: NumberText, d: int)
    requires PlainNumbers(number)
    ensures Tidy(Outside(d), Print(v, number))
    decreases v, 1
  {
    match v
    case Str(s) => QuoteTidy(s, d);
    case Arr(items) =>
      PrintItemsTidy(items, number, d + 1);
      PrintItemsNested(items, number, d + 1);
      BracketTidy(PrintItems(items, number), '[', ']', d);
    case Obj(fields) =>
      PrintFieldsTidy(fields, number, d + 1);
      PrintFieldsNested(fields, number, d + 1);
      BracketTidy(PrintFields(fields, number), '{', '}', d);
    case _ => AtomicTidy(Print(v, number), d);
  }

  lemma {:induction false} PrintItemsTidy(items: seq<Value>, number: NumberText, d: int)
    requires PlainNumbers(number)
    ensures Tidy(Outside(d), PrintItems(items, number))
    decreases items, 0
  {
    if items != [] {
      var head, rest := Print(items[0], number), PrintItems(items[1..], number);
      var comma := if |items| == 1 then "" else ",";
      PrintTidy(items[0], number, d);
      PrintNested(items[0], number, d);
      PrintItemsTidy(items[1..], number, d);
      AtomicTidy(comma, d);
      AtomicNested(comma, d);
      TidyAppend(Outside(d), head, comma);
      NestedAppend(head, comma, d);
      TidyAppend(Outside(d), head + comma, rest);
    }
  }

  lemma {:induction false} PrintFieldsTidy(fields: seq<Field>, number: NumberText, d: int)
    requires PlainNumbers(number)
    ensures Tidy(Outside(d), PrintFields(fields, number))
    decreases fields, 0
  {
    if fields != [] {
      var key, value := Quote(fields[0].key), Print(fields[0].value, number);
      var comma, rest := if |fields| == 1 then "" else ",", PrintFields(fields[1..], number);
      QuoteTidy(fields[0].key, d);
      QuoteEnclosed(fields[0].key, d);
      EnclosedNested(key, d);
      PrintTidy(fields[0].value, number, d);
      PrintNested(fields[0].value, number, d);
      PrintFieldsTidy(fields[1..], number, d);
      AtomicTidy(":", d);
      AtomicNested(":", d);
      AtomicTidy(comma, d);
      AtomicNested(comma, d);
      TidyAppend(Outside(d), key, ":");
      NestedAppend(key, ":", d);
      TidyAppend(Outside(d), key + ":", value);
      NestedAppend(key + ":", value, d);
      TidyAppend(Outside(d), key + ":" + value, comma);
      NestedAppend(key + ":" + value, comma, d);
      TidyAppend(Outside(d), key + ":" + value + comma, rest);
    }
  }

  /** An object's text meets all of it, so asking it of accepted texts excludes nothing that was printed. */
  lemma {:induction false} ObjectShaped(fields: seq<Field>, number: NumberText)
    requires PlainNumbers(number)
    ensures JsonShaped(Print(Obj(fields), number))
  {
    PrintNested(Obj(fields), number, 0);
    PrintTidy(Obj(fields), number, 0);
  }
}
