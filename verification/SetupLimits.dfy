/** Decimal amounts and setup limits of the dashboard form (capitalToQuoteRaw, decimalToRaw, rawToDecimal,
    humanSetupLimitsToRaw, rawSetupLimitsToHuman, suggestedSetupLimits and normalizeSetupLimits in
    dashboard/tabs.js). */
module SetupLimits {
  import opened Prelude
  import opened Decimal

  // ---- powers, padding and trailing zeros ----

  /** a * 10 ** d */
  function Scaled(a: nat, d: nat): nat
  {
    if d == 0 then a else 10 * Scaled(a, d - 1)
  }

  /** raw / 10 ** d and raw % 10 ** d (WholeIsQuotient). */
  function WholePart(raw: nat, d: nat): nat
  {
    if d == 0 then raw else WholePart(raw / 10, d - 1)
  }

  function FractionPart(raw: nat, d: nat): (f: nat)
  {
    PartsBounded(raw, d);
    raw - Scaled(WholePart(raw, d), d)
  }

  lemma {:induction false} PartsBounded(raw: nat, d: nat)
    ensures Scaled(WholePart(raw, d), d) <= raw < Scaled(WholePart(raw, d), d) + Scaled(1, d)
  {
    if d > 0 { PartsBounded(raw / 10, d - 1); }
  }

  lemma {:induction false} ScaledIsProduct(a: nat, d: nat)
    ensures Scaled(a, d) == a * Scaled(1, d)
  {
    if d > 0 {
      ScaledIsProduct(a, d - 1);
      var p := Scaled(1, d - 1);
      assert 10 * (a * p) == a * (10 * p);
    }
  }

  lemma {:induction false} Quotient(raw: nat, q: nat, p: nat)
    requires p > 0 && q * p <= raw < q * p + p
    ensures raw / p == q && raw % p == raw - q * p
  {
    var t := raw / p;
    assert raw == t * p + raw % p;
    assert t > q ==> t * p >= (q + 1) * p;
    assert t < q ==> (t + 1) * p <= q * p;
    assert (q + 1) * p == q * p + p && (t + 1) * p == t * p + p;
  }

  /** The two parts are quotient and remainder of the source's division by the scale. */
  lemma {:induction false} WholeIsQuotient(raw: nat, d: nat)
    ensures Scaled(1, d) > 0
    ensures WholePart(raw, d) == raw / Scaled(1, d) && FractionPart(raw, d) == raw % Scaled(1, d)
  {
    PartsBounded(raw, d);
    ScaledIsProduct(WholePart(raw, d), d);
    Quotient(raw, WholePart(raw, d), Scaled(1, d));
  }

  function Zeros(k: nat): (s: string)
    ensures |s| == k && AllDigits(s)
  {
    seq(k, _ => '0')
  }

  function PadEnd(s: string, d: nat): string
  {
    if |s| >= d then s else s + Zeros(d - |s|)
  }

  function PadStart(s: string, d: nat): string
  {
    if |s| >= d then s else Zeros(d - |s|) + s
  }

  /** replace(/0+$/, '') */
  function StripZeros(s: string): string
  {
    if s != "" && s[|s| - 1] == '0' then StripZeros(s[..|s| - 1]) else s
  }

  lemma {:induction false} ValueConcat(a: string, b: string)
    requires AllDigits(a) && AllDigits(b)
    ensures AllDigits(a + b) && Value(a + b) == Scaled(Value(a), |b|) + Value(b)
    decreases |b|
  {
    if b == "" {
      assert a + b == a;
    } else {
      var front, c := b[..|b| - 1], b[|b| - 1];
      ValueConcat(a, front);
      assert (a + b)[..|a + b| - 1] == a + front;
    }
  }

  lemma {:induction false} ValueOfZeros(k: nat)
    ensures Value(Zeros(k)) == 0
  {
    if k > 0 {
      ValueOfZeros(k - 1);
      assert Zeros(k)[..k - 1] == Zeros(k - 1);
    }
  }

  lemma {:induction false} ValueBelow(s: string)
    requires AllDigits(s)
    ensures Value(s) < Scaled(1, |s|)
  {
    if s != "" { ValueBelow(s[..|s| - 1]); }
  }

  lemma {:induction false} DigitsFit(n: nat, d: nat)
    requires n < Scaled(1, d) && d > 0
    ensures |Digits(n)| <= d
  {
    if n >= 10 { DigitsFit(n / 10, d - 1); }
  }

  lemma {:induction false} StripZerosPads(s: string)
    requires AllDigits(s)
    ensures AllDigits(StripZeros(s)) && |StripZeros(s)| <= |s| && PadEnd(StripZeros(s), |s|) == s
  {
    if s != "" && s[|s| - 1] == '0' {
      var front := s[..|s| - 1];
      StripZerosPads(front);
      assert s == front + ['0'];
      var t := StripZeros(front);
      assert Zeros(|front| - |t|) + ['0'] == Zeros(|s| - |t|);
      assert PadEnd(t, |s|) == t + (Zeros(|front| - |t|) + ['0']) == t + Zeros(|front| - |t|) + ['0'];
      assert PadEnd(t, |front|) == t + Zeros(|front| - |t|);
    }
  }

  // ---- the codec ----

  predicate IsSpace(c: char)
  {
    c == ' ' || c == '\t' || c == '\n' || c == '\r' || c as int == 11 || c as int == 12
  }

  function Trim(s: string): string
  {
    if s != "" && IsSpace(s[0]) then Trim(s[1..])
    else if s != "" && IsSpace(s[|s| - 1]) then Trim(s[..|s| - 1])
    else s
  }

  /** The part before the first dot, and the part after it when there is one. */
  function SplitDot(s: string): (string, Option<string>)
  {
    if s == "" then ("", None)
    else if s[0] == '.' then ("", Some(s[1..]))
    else var (whole, fraction) := SplitDot(s[1..]); ([s[0]] + whole, fraction)
  }

  /** (0|[1-9][0-9]*)(\.[0-9]+)? with at most this many decimals: the raw value. */
  function RawOf(value: string, decimals: nat): Option<nat>
  {
    RawOfSplit(SplitDot(Trim(value)), decimals)
  }

  function RawOfSplit(parts: (string, Option<string>), decimals: nat): Option<nat>
  {
    var (whole, fraction) := parts;
    var digits := if fraction.Some? then fraction.value else "";
    if !Canonical(whole) || !AllDigits(digits) || fraction == Some("") || |digits| > decimals then None
    else Some(Scaled(Value(whole), decimals) + Value(PadAll(digits, decimals)))
  }

  function PadAll(digits: string, decimals: nat): (s: string)
    requires AllDigits(digits)
    ensures AllDigits(s)
  {
    PadEnd(digits, decimals)
  }

  function DecimalToRaw(value: string, decimals: nat): Option<string>
  {
    match RawOf(value, decimals) case None => None case Some(n) => Some(Digits(n))
  }

  function Shown(raw: nat, decimals: nat): string
  {
    Joined(Digits(WholePart(raw, decimals)), StripZeros(PadStart(Digits(FractionPart(raw, decimals)), decimals)))
  }

  function Joined(whole: string, fraction: string): string
  {
    if fraction == "" then whole else whole + "." + fraction
  }

  function RawToDecimal(value: string, decimals: nat): string
  {
    if Canonical(value) then Shown(Value(value), decimals) else ""
  }

  lemma {:induction false} SplitDotAt(whole: string, rest: string)
    requires AllDigits(whole)
    ensures SplitDot(whole + "." + rest) == (whole, Some(rest))
    ensures SplitDot(whole) == (whole, None)
  {
    var text := whole + "." + rest;
    if whole == "" {
      assert text == "." + rest && text[1..] == rest;
    } else {
      SplitDotAt(whole[1..], rest);
      assert text[1..] == whole[1..] + "." + rest;
      assert [whole[0]] + whole[1..] == whole;
    }
  }

  lemma {:induction false} PadStartValue(text: string, d: nat)
    requires AllDigits(text) && |text| <= d
    ensures |PadStart(text, d)| == d && AllDigits(PadStart(text, d)) && Value(PadStart(text, d)) == Value(text)
  {
    if |text| < d {
      ValueOfZeros(d - |text|);
      ValueConcat(Zeros(d - |text|), text);
      ScaledZero(|text|);
    }
  }

  /** Printing a fraction part and padding it back. */
  lemma {:induction false} FractionRoundTrip(f: nat, d: nat)
    requires f < Scaled(1, d)
    ensures var s := StripZeros(PadStart(Digits(f), d));
            AllDigits(s) && |s| <= d && Value(PadEnd(s, d)) == f
  {
    DigitsCanonical(f);
    if d == 0 {
      assert f == 0 && Digits(0)[..0] == "";
    } else {
      DigitsFit(f, d);
      PadStartValue(Digits(f), d);
      StripZerosPads(PadStart(Digits(f), d));
    }
  }

  lemma {:induction false} NoSpace(s: string)
    requires s != "" && !IsSpace(s[0]) && !IsSpace(s[|s| - 1])
    ensures Trim(s) == s
  {
  }

  lemma {:induction false} SplitJoined(whole: string, fraction: string)
    requires Canonical(whole) && AllDigits(fraction)
    ensures SplitDot(Trim(Joined(whole, fraction))) == (whole, if fraction == "" then None else Some(fraction))
  {
    SplitDotAt(whole, fraction);
    NoSpace(Joined(whole, fraction));
  }

  /** A whole part, and a fraction unless it is empty. */
  lemma {:induction false} RawOfParts(whole: string, fraction: string, d: nat)
    requires Canonical(whole) && AllDigits(fraction) && |fraction| <= d
    ensures RawOf(Joined(whole, fraction), d) == Some(Scaled(Value(whole), d) + Value(PadAll(fraction, d)))
  {
    SplitJoined(whole, fraction);
  }

  lemma {:induction false} RawOfPrinted(w: nat, f: nat, d: nat)
    requires f < Scaled(1, d)
    ensures RawOf(Joined(Digits(w), StripZeros(PadStart(Digits(f), d))), d) == Some(Scaled(w, d) + f)
  {
    hide Digits, StripZeros, PadStart, RawOf, Joined, Scaled, Value, AllDigits;
    DigitsCanonical(w);
    FractionRoundTrip(f, d);
    RawOfParts(Digits(w), StripZeros(PadStart(Digits(f), d)), d);
  }

  lemma {:induction false} RawOfShown(raw: nat, d: nat)
    ensures RawOf(Shown(raw, d), d) == Some(raw)
  {
    hide Digits, StripZeros, PadStart, RawOf, Joined, Scaled, WholePart;
    PartsBounded(raw, d);
    RawOfPrinted(WholePart(raw, d), FractionPart(raw, d), d);
  }

  /** Parsing undoes printing for every raw value and every number of decimals. */
  lemma {:induction false} DecimalRoundTrip(value: string, decimals: nat)
    requires Canonical(value)
    ensures DecimalToRaw(RawToDecimal(value, decimals), decimals) == Some(value)
  {
    RawOfShown(Value(value), decimals);
    ValueCanonical(value);
  }

  /** What an accepted text means: its whole part and its fraction at their own scale. */
  lemma {:induction false} RawOfMeaning(whole: string, fraction: string, decimals: nat)
    requires Canonical(whole) && AllDigits(fraction) && |fraction| <= decimals
    ensures RawOf(Joined(whole, fraction), decimals) ==
            Some(Scaled(Value(whole), decimals) + Scaled(Value(fraction), decimals - |fraction|))
  {
    RawOfParts(whole, fraction, decimals);
    PadValue(fraction, decimals);
  }

  lemma {:induction false} PadValue(digits: string, d: nat)
    requires AllDigits(digits) && |digits| <= d
    ensures Value(PadAll(digits, d)) == Scaled(Value(digits), d - |digits|)
  {
    ValueOfZeros(d - |digits|);
    if |digits| < d { ValueConcat(digits, Zeros(d - |digits|)); }
  }

  lemma {:induction false} ScaledZero(d: nat)
    ensures Scaled(0, d) == 0
  {
    if d > 0 { ScaledZero(d - 1); }
  }

  // ---- capital ----

  const MAX_CAPITAL := 100_000 * 1_000_000

  /** \d+(\.\d{1,6})? in millionths, positive and at most the cap. */
  function CapitalToQuoteRaw(value: string): Option<nat>
  {
    var (whole, fraction) := SplitDot(Trim(value));
    var digits := if fraction.Some? then fraction.value else "";
    if whole == "" || !AllDigits(whole) || !AllDigits(digits) || fraction == Some("") || |digits| > 6 then None
    else
      var raw := Scaled(Value(whole), 6) + Value(PadAll(digits, 6));
      if 0 < raw <= MAX_CAPITAL then Some(raw) else None
  }

  // ---- limits ----

  datatype Limit =
    | MaxDeploymentValue | MinDeploymentValue | MaxExposurePpm | MaxLossValue | MaxDrawdownPpm | MaxActionCost
    | MaxRollingCost | MaxCampaignCost | ExitReserveWei | MaxSlippageBps
    | MinDeploymentPpm | MaxSwapInputValue | MaxSwapInputPpm | MaxSwapShortfallValue | MaxRecenters
    | MaxLiquiditySharePpm | MaxObservationGapSeconds

  const SHARED_LIMITS := [MaxDeploymentValue, MinDeploymentValue, MaxExposurePpm, MaxLossValue, MaxDrawdownPpm,
                         MaxActionCost, MaxRollingCost, MaxCampaignCost, ExitReserveWei, MaxSlippageBps]
  const RANGE_KEEPER_LIMITS := [MinDeploymentPpm, MaxSwapInputValue, MaxSwapInputPpm, MaxSwapShortfallValue,
                                MaxRecenters, MaxLiquiditySharePpm, MaxObservationGapSeconds]

  function LimitsFor(rangeKeeper: bool): seq<Limit>
  {
    if rangeKeeper then SHARED_LIMITS + RANGE_KEEPER_LIMITS else SHARED_LIMITS
  }

  predicate IsInteger(f: Limit)
  {
    f.MaxExposurePpm? || f.MaxDrawdownPpm? || f.MaxSlippageBps? || f.MinDeploymentPpm? || f.MaxSwapInputPpm? ||
    f.MaxLiquiditySharePpm? || f.MaxRecenters? || f.MaxObservationGapSeconds?
  }

  function Units(f: Limit): nat
  {
    if f.MaxExposurePpm? || f.MaxDrawdownPpm? || f.MinDeploymentPpm? || f.MaxSwapInputPpm? ||
      f.MaxLiquiditySharePpm? then 4
    else if f.MaxSlippageBps? then 2
    else if f.MaxRecenters? || f.MaxObservationGapSeconds? then 0
    else 18
  }

  /** A JavaScript number: what Number() makes of a decimal integer, and what String() prints. */
  datatype JsNumber = JsNumber(round: nat -> nat, show: nat -> string)

  const MAX_SAFE := 0x20_0000_0000_0000

  /** 10^21 is a number, and from there on numbers print in exponent form. */
  const EXPONENT_FROM := 1_000_000_000_000_000_000_000

  /** Exact up to 2^53; plain digits exactly below 10^21, and reading those back gives the number
      (section 6.1.6.1.20, Number::toString, of ECMA-262). */
  ghost predicate Lawful(js: JsNumber)
  {
    && (forall n: nat :: n <= MAX_SAFE ==> js.round(n) == n && js.show(n) == Digits(n))
    && (forall n: nat :: js.round(js.round(n)) == js.round(n))
    && (forall n: nat :: js.round(n) == n ==> (Canonical(js.show(n)) <==> n < EXPONENT_FROM))
    && (forall n: nat :: js.round(n) == n && n < EXPONENT_FROM ==>
        Canonical(js.show(n)) && js.round(Value(js.show(n))) == n)
    && (forall n: nat :: n > MAX_SAFE ==> js.round(n) >= MAX_SAFE)
    && js.round(EXPONENT_FROM) == EXPONENT_FROM
  }

  /** String(limits[field]) for a field holding this value. */
  function TextOf(js: JsNumber, f: Limit, n: nat): string
  {
    if IsInteger(f) then js.show(n) else Digits(n)
  }

  function Held(js: JsNumber, f: Limit, n: nat): nat
  {
    if IsInteger(f) then js.round(n) else n
  }

  type Texts = map<Limit, string>
  type Limits = map<Limit, nat>

  function TextAt(t: Texts, f: Limit): string
  {
    if f in t then t[f] else ""
  }

  predicate Positive(f: Limit, n: nat)
  {
    n > 0 || f.MaxRecenters?
  }

  function At(l: Limits, f: Limit): nat
  {
    if f in l then l[f] else 0
  }

  /** The checks across fields at the end of normalizeSetupLimits. */
  predicate Consistent(l: Limits, rangeKeeper: bool)
  {
    && At(l, MaxExposurePpm) <= 1_000_000 && At(l, MaxDrawdownPpm) <= 1_000_000
    && At(l, MaxSlippageBps) <= (if rangeKeeper then 50 else 500)
    && At(l, MinDeploymentValue) <= At(l, MaxDeploymentValue)
    && At(l, MaxActionCost) <= At(l, MaxRollingCost) && At(l, MaxActionCost) <= At(l, MaxCampaignCost)
    && (rangeKeeper ==>
          && 0 < At(l, MinDeploymentPpm) <= 1_000_000 && 0 < At(l, MaxSwapInputPpm) <= 1_000_000
          && 0 < At(l, MaxLiquiditySharePpm) <= 1_000_000
          && 45 <= At(l, MaxObservationGapSeconds) <= 90)
  }

  /** A result object filled field by field; the first bad field makes it null. */
  function Built<V>(fields: seq<Limit>, g: Limit -> Option<V>): Option<map<Limit, V>>
  {
    if fields == [] then Some(map[])
    else match Built(fields[..|fields| - 1], g)
      case None => None
      case Some(l) => match g(fields[|fields| - 1]) case None => None case Some(v) => Some(l[fields[|fields| - 1] := v])
  }

  function NormalizedField(js: JsNumber, t: Texts): Limit -> Option<nat>
  {
    f => if !Canonical(TextAt(t, f)) || !Positive(f, Value(TextAt(t, f))) then None
      else Some(Held(js, f, Value(TextAt(t, f))))
  }

  function Normalized(js: JsNumber, t: Texts, rangeKeeper: bool): Option<Limits>
  {
    match Built(LimitsFor(rangeKeeper), NormalizedField(js, t))
    case None => None
    case Some(l) => if Consistent(l, rangeKeeper) then Some(l) else None
  }

  function HumanField(js: JsNumber, h: Texts): Limit -> Option<string>
  {
    f => match RawOf(TextAt(h, f), Units(f))
      case None => None
      case Some(n) => if Positive(f, n) then Some(TextOf(js, f, Held(js, f, n))) else None
  }

  function HumanToRaw(js: JsNumber, h: Texts, rangeKeeper: bool): Option<Limits>
  {
    match Built(LimitsFor(rangeKeeper), HumanField(js, h))
    case None => None
    case Some(t) => Normalized(js, t, rangeKeeper)
  }

  function RawField(t: Texts): Limit -> Option<string>
  {
    f => if Canonical(TextAt(t, f)) then Some(Shown(Value(TextAt(t, f)), Units(f))) else None
  }

  function RawToHuman(t: Texts, rangeKeeper: bool): Option<Texts>
  {
    Built(LimitsFor(rangeKeeper), RawField(t))
  }

  // ---- the loops ----

  lemma {:induction false} BuiltNext<V>(fields: seq<Limit>, g: Limit -> Option<V>, i: nat)
    requires i < |fields|
    ensures Built(fields[..i + 1], g) ==
            match Built(fields[..i], g)
            case None => None
            case Some(l) => match g(fields[i]) case None => None case Some(v) => Some(l[fields[i] := v])
  {
    assert fields[..i + 1][..i] == fields[..i];
  }

  lemma {:induction false} BuiltFails<V>(fields: seq<Limit>, g: Limit -> Option<V>, n: nat)
    requires n <= |fields| && Built(fields[..n], g).None?
    ensures Built(fields, g).None?
    decreases |fields| - n
  {
    if n < |fields| {
      BuiltNext(fields, g, n);
      BuiltFails(fields, g, n + 1);
    } else {
      assert fields[..n] == fields;
    }
  }

  method NormalizeSetupLimits(js: JsNumber, t: Texts, rangeKeeper: bool) returns (r: Option<Limits>)
    ensures r == Normalized(js, t, rangeKeeper)
  {
    hide Value, AllDigits, Units, LimitsFor;
    var fields, result: Limits := LimitsFor(rangeKeeper), map[];
    ghost var g := NormalizedField(js, t);
    for i := 0 to |fields|
      invariant Built(fields[..i], g) == Some(result)
    {
      var f, text := fields[i], TextAt(t, fields[i]);
      BuiltNext(fields, g, i);
      if !Canonical(text) || (Value(text) == 0 && f != MaxRecenters) {
        BuiltFails(fields, g, i + 1);
        return None;
      }
      result := result[f := if IsInteger(f) then js.round(Value(text)) else Value(text)];
    }
    assert fields[..|fields|] == fields;
    if !Consistent(result, rangeKeeper) { return None; }
    r := Some(result);
  }

  method HumanSetupLimitsToRaw(js: JsNumber, h: Texts, rangeKeeper: bool) returns (r: Option<Limits>)
    ensures r == HumanToRaw(js, h, rangeKeeper)
  {
    hide RawOf, Digits, Units, LimitsFor, Normalized;
    var fields, result: Texts := LimitsFor(rangeKeeper), map[];
    ghost var g := HumanField(js, h);
    for i := 0 to |fields|
      invariant Built(fields[..i], g) == Some(result)
    {
      var f := fields[i];
      var raw := RawOf(TextAt(h, f), Units(f));
      BuiltNext(fields, g, i);
      if raw.None? || (raw.value == 0 && f != MaxRecenters) {
        BuiltFails(fields, g, i + 1);
        return None;
      }
      result := result[f := TextOf(js, f, Held(js, f, raw.value))];
    }
    assert fields[..|fields|] == fields;
    r := NormalizeSetupLimits(js, result, rangeKeeper);
  }

  method RawSetupLimitsToHuman(t: Texts, rangeKeeper: bool) returns (r: Option<Texts>)
    ensures r == RawToHuman(t, rangeKeeper)
  {
    hide Value, AllDigits, Shown, Units, LimitsFor;
    var fields, result: Texts := LimitsFor(rangeKeeper), map[];
    ghost var g := RawField(t);
    for i := 0 to |fields|
      invariant Built(fields[..i], g) == Some(result)
    {
      var text := TextAt(t, fields[i]);
      BuiltNext(fields, g, i);
      if !Canonical(text) {
        BuiltFails(fields, g, i + 1);
        return None;
      }
      result := result[fields[i] := Shown(Value(text), Units(fields[i]))];
    }
    assert fields[..|fields|] == fields;
    r := Some(result);
  }

  // ---- limits survive the form ----

  lemma {:induction false} BuiltOk<V>(fields: seq<Limit>, g: Limit -> Option<V>)
    requires forall i :: 0 <= i < |fields| ==> g(fields[i]).Some?
    ensures Built(fields, g).Some?
    ensures var l := Built(fields, g).value;
            (forall f :: f in l <==> f in fields) && forall f :: f in l ==> g(f) == Some(l[f])
  {
    if fields != [] {
      var front, last := fields[..|fields| - 1], fields[|fields| - 1];
      BuiltOk(front, g);
      assert fields == front + [last];
    }
  }

  lemma {:induction false} BuiltMeans<V>(fields: seq<Limit>, g: Limit -> Option<V>, f: Limit)
    requires f in fields && Built(fields, g).Some?
    ensures g(f).Some? && f in Built(fields, g).value && Built(fields, g).value[f] == g(f).value
  {
    var front, last := fields[..|fields| - 1], fields[|fields| - 1];
    assert fields == front + [last];
    if f != last { BuiltMeans(front, g, f); }
  }

  /** The limits as setup receives them: numbers for integer fields, digit texts for the others. */
  function TextsOf(js: JsNumber, l: Limits, rangeKeeper: bool): Texts
  {
    map f | f in LimitsFor(rangeKeeper) :: TextOf(js, f, At(l, f))
  }

  /** One field there and back. */
  lemma {:induction false} FieldRoundTrip(js: JsNumber, f: Limit, n: nat)
    requires Lawful(js) && Positive(f, n) && Held(js, f, n) == n && Canonical(TextOf(js, f, n))
    ensures var m := Value(TextOf(js, f, n));
            Positive(f, m) && Held(js, f, m) == n && RawOf(Shown(m, Units(f)), Units(f)) == Some(m)
  {
    DigitsCanonical(n);
    RawOfShown(Value(TextOf(js, f, n)), Units(f));
    if IsInteger(f) {
      var m := Value(js.show(n));
      assert js.round(m) == n;
      assert m == 0 ==> js.round(0) == 0;
    }
  }

  lemma {:induction false} NormalizedHolds(js: JsNumber, t: Texts, rangeKeeper: bool, f: Limit)
    requires Lawful(js) && Normalized(js, t, rangeKeeper).Some? && f in LimitsFor(rangeKeeper)
    ensures var l := Normalized(js, t, rangeKeeper).value;
            f in l && Held(js, f, l[f]) == l[f] && Positive(f, l[f])
  {
    BuiltMeans(LimitsFor(rangeKeeper), NormalizedField(js, t), f);
    var n := Value(TextAt(t, f));
    assert js.round(js.round(n)) == js.round(n);
    assert n <= MAX_SAFE ==> js.round(n) == n;
  }

  lemma {:induction false} SafeShows(js: JsNumber, n: nat)
    requires Lawful(js) && n <= MAX_SAFE
    ensures Canonical(js.show(n))
  {
    DigitsCanonical(n);
  }

  /** Every field but maxRecenters is bounded or a digit text, so it prints as plain digits. */
  lemma {:induction false} OnlyRecentersUnbounded(js: JsNumber, l: Limits, rangeKeeper: bool, f: Limit)
    requires Lawful(js) && Consistent(l, rangeKeeper) && f in LimitsFor(rangeKeeper) && f != MaxRecenters
    ensures Canonical(TextOf(js, f, At(l, f)))
  {
    var n := At(l, f);
    hide Canonical, Digits, Lawful;
    DigitsCanonical(n);
    if IsInteger(f) { SafeShows(js, n); }
  }

  lemma {:induction false} RawFieldOk(js: JsNumber, l: Limits, rangeKeeper: bool, f: Limit)
    requires f in LimitsFor(rangeKeeper)
    ensures RawField(TextsOf(js, l, rangeKeeper))(f) ==
            var text := TextOf(js, f, At(l, f)); if Canonical(text) then Some(Shown(Value(text), Units(f))) else None
  {
    hide Value, Shown, Units, Canonical;
    assert TextAt(TextsOf(js, l, rangeKeeper), f) == TextOf(js, f, At(l, f));
  }

  /** Limits that were accepted once survive the form: shown to the operator and read back they are the same limits,
      exactly when there is no number of recenters or it is below 10^21. */
  lemma {:induction false} LimitsRoundTrip(js: JsNumber, accepted: Texts, rangeKeeper: bool)
    requires Lawful(js) && Normalized(js, accepted, rangeKeeper).Some?
    ensures var l := Normalized(js, accepted, rangeKeeper).value;
            var human := RawToHuman(TextsOf(js, l, rangeKeeper), rangeKeeper);
            (human.Some? && HumanToRaw(js, human.value, rangeKeeper) == Some(l)) <==>
            (rangeKeeper ==> At(l, MaxRecenters) < EXPONENT_FROM)
  {
    hide Canonical, Value, Shown, RawOf, Units, LimitsFor, Lawful, HumanToRaw, Consistent;
    var l := Normalized(js, accepted, rangeKeeper).value;
    var t, fields := TextsOf(js, l, rangeKeeper), LimitsFor(rangeKeeper);
    if rangeKeeper {
      RecentersIsRangeKeeper();
      RecentersShow(js, accepted);
    }
    if rangeKeeper && At(l, MaxRecenters) >= EXPONENT_FROM {
      RawFieldOk(js, l, rangeKeeper, MaxRecenters);
      if Built(fields, RawField(t)).Some? { BuiltMeans(fields, RawField(t), MaxRecenters); }
    } else {
      NormalizedConsistent(js, accepted, rangeKeeper);
      forall f | f in fields
        ensures Canonical(TextOf(js, f, At(l, f)))
      {
        if f == MaxRecenters { RecentersIsRangeKeeper(); } else { OnlyRecentersUnbounded(js, l, rangeKeeper, f); }
      }
      PrintedRoundTrip(js, accepted, rangeKeeper);
    }
  }

  lemma {:induction false} RecentersShow(js: JsNumber, accepted: Texts)
    requires Lawful(js) && Normalized(js, accepted, true).Some?
    ensures var n := At(Normalized(js, accepted, true).value, MaxRecenters);
            Canonical(js.show(n)) <==> n < EXPONENT_FROM
  {
    hide Canonical, Consistent, LimitsFor;
    RecentersIsRangeKeeper();
    NormalizedHolds(js, accepted, true, MaxRecenters);
  }

  lemma {:induction false} NormalizedConsistent(js: JsNumber, t: Texts, rangeKeeper: bool)
    requires Normalized(js, t, rangeKeeper).Some?
    ensures Consistent(Normalized(js, t, rangeKeeper).value, rangeKeeper)
  {
  }

  lemma {:induction false} RecentersIsRangeKeeper()
    ensures MaxRecenters in LimitsFor(true) && MaxRecenters !in LimitsFor(false)
  {
    assert RANGE_KEEPER_LIMITS[4] == MaxRecenters;
  }

  lemma {:induction false} PrintedRoundTrip(js: JsNumber, accepted: Texts, rangeKeeper: bool)
    requires Lawful(js) && Normalized(js, accepted, rangeKeeper).Some?
    requires var l := Normalized(js, accepted, rangeKeeper).value;
             forall f :: f in LimitsFor(rangeKeeper) ==> Canonical(TextOf(js, f, At(l, f)))
    ensures var l := Normalized(js, accepted, rangeKeeper).value;
            var human := RawToHuman(TextsOf(js, l, rangeKeeper), rangeKeeper);
            human.Some? && HumanToRaw(js, human.value, rangeKeeper) == Some(l)
  {
    hide Canonical, Value, Shown, RawOf, Units, LimitsFor, Lawful;
    var l := Normalized(js, accepted, rangeKeeper).value;
    var t, fields := TextsOf(js, l, rangeKeeper), LimitsFor(rangeKeeper);
    forall i | 0 <= i < |fields|
      ensures RawField(t)(fields[i]).Some?
    {
      RawFieldOk(js, l, rangeKeeper, fields[i]);
    }
    BuiltOk(fields, RawField(t));
    var h := Built(fields, RawField(t)).value;
    forall i | 0 <= i < |fields|
      ensures HumanField(js, h)(fields[i]) == Some(TextOf(js, fields[i], At(l, fields[i])))
    {
      var f := fields[i];
      NormalizedHolds(js, accepted, rangeKeeper, f);
      RawFieldOk(js, l, rangeKeeper, f);
      FieldRoundTrip(js, f, At(l, f));
    }
    BuiltOk(fields, HumanField(js, h));
    BackToLimits(js, accepted, rangeKeeper, Built(fields, HumanField(js, h)).value);
  }

  lemma {:induction false} BackField(js: JsNumber, accepted: Texts, rangeKeeper: bool, back: Texts, f: Limit)
    requires Lawful(js) && Normalized(js, accepted, rangeKeeper).Some? && f in LimitsFor(rangeKeeper)
    requires var l := Normalized(js, accepted, rangeKeeper).value;
             f in back && back[f] == TextOf(js, f, At(l, f)) && Canonical(TextOf(js, f, At(l, f)))
    ensures NormalizedField(js, back)(f) == Some(At(Normalized(js, accepted, rangeKeeper).value, f))
  {
    hide Canonical, Value, Shown, RawOf, Units, LimitsFor, Lawful, Consistent;
    NormalizedHolds(js, accepted, rangeKeeper, f);
    FieldRoundTrip(js, f, At(Normalized(js, accepted, rangeKeeper).value, f));
  }

  lemma {:induction false} BackToLimits(js: JsNumber, accepted: Texts, rangeKeeper: bool, back: Texts)
    requires Lawful(js) && Normalized(js, accepted, rangeKeeper).Some?
    requires var l := Normalized(js, accepted, rangeKeeper).value;
             forall f :: f in LimitsFor(rangeKeeper) ==>
               f in back && back[f] == TextOf(js, f, At(l, f)) && Canonical(TextOf(js, f, At(l, f)))
    ensures Normalized(js, back, rangeKeeper) == Normalized(js, accepted, rangeKeeper)
  {
    hide Canonical, Value, Shown, RawOf, Units, LimitsFor, Lawful;
    hide Consistent, NormalizedField, TextOf;
    var l, fields := Normalized(js, accepted, rangeKeeper).value, LimitsFor(rangeKeeper);
    forall i | 0 <= i < |fields|
      ensures NormalizedField(js, back)(fields[i]) == Some(At(l, fields[i]))
    {
      BackField(js, accepted, rangeKeeper, back, fields[i]);
    }
    BuiltOk(fields, NormalizedField(js, back));
    BuiltDomain(fields, NormalizedField(js, accepted));
    assert Built(fields, NormalizedField(js, back)).value == l;
  }

  lemma {:induction false} BuiltDomain<V>(fields: seq<Limit>, g: Limit -> Option<V>)
    requires Built(fields, g).Some?
    ensures forall f :: f in Built(fields, g).value <==> f in fields
  {
    if fields != [] {
      BuiltDomain(fields[..|fields| - 1], g);
      assert fields == fields[..|fields| - 1] + [fields[|fields| - 1]];
    }
  }

  /** Limits that setup accepts, with 10^21 recenters. */
  function HugeTexts(): Texts
  {
    map f | f in LimitsFor(true) :: HugeText(f)
  }

  function HugeText(f: Limit): string
  {
    if f.MaxRecenters? then "1000000000000000000000" else "50"
  }

  lemma {:induction false} HugeTextReads(f: Limit)
    ensures Canonical(HugeText(f)) && Value(HugeText(f)) == if f.MaxRecenters? then EXPONENT_FROM else 50
  {
    if f.MaxRecenters? {
      assert HugeText(f) == "1" + Zeros(21);
      ShortNumber("1", 1);
      ValueConcat("1", Zeros(21));
      ValueOfZeros(21);
      TwentyOne();
    } else {
      ShortNumber("50", 50);
    }
  }

  lemma {:induction false} TwentyOne()
    ensures Scaled(1, 21) == EXPONENT_FROM
  {
    Fifteen();
    assert Scaled(1, 18) == 1_000_000_000_000_000_000;
  }

  lemma {:induction false} HugeField(js: JsNumber, f: Limit)
    requires Lawful(js) && f in LimitsFor(true)
    ensures NormalizedField(js, HugeTexts())(f) == Some(if f.MaxRecenters? then EXPONENT_FROM else 50)
  {
    hide Canonical, Value, LimitsFor, HugeText;
    HugeTextReads(f);
    assert TextAt(HugeTexts(), f) == HugeText(f);
  }

  lemma {:induction false} HugeConsistent(l: Limits)
    requires forall f :: f in LimitsFor(true) ==> f in l && l[f] == if f.MaxRecenters? then EXPONENT_FROM else 50
    ensures Consistent(l, true)
  {
    SharedListed(true);
    RangeKeeperListed();
  }

  /** Setup accepts the text of 10^21 as a number of recenters, and those limits cannot be shown. */
  lemma {:induction false} HugeRecentersLost(js: JsNumber)
    requires Lawful(js)
    ensures var accepted := Normalized(js, HugeTexts(), true);
            && accepted.Some? && At(accepted.value, MaxRecenters) == EXPONENT_FROM
            && RawToHuman(TextsOf(js, accepted.value, true), true) == None
  {
    hide Canonical, Value, Shown, Units, LimitsFor, Lawful, Consistent, HugeText;
    var fields, g := LimitsFor(true), NormalizedField(js, HugeTexts());
    forall i | 0 <= i < |fields|
      ensures g(fields[i]) == Some(if fields[i].MaxRecenters? then EXPONENT_FROM else 50)
    {
      HugeField(js, fields[i]);
    }
    BuiltOk(fields, g);
    HugeConsistent(Built(fields, g).value);
    RecentersIsRangeKeeper();
    var l := Normalized(js, HugeTexts(), true).value;
    RecentersShow(js, HugeTexts());
    RawFieldOk(js, l, true, MaxRecenters);
    if Built(fields, RawField(TextsOf(js, l, true))).Some? {
      BuiltMeans(fields, RawField(TextsOf(js, l, true)), MaxRecenters);
    }
  }

  // ---- suggested limits ----

  /** Fractions of the capital in X18 reference dollars, and constants, in the form's own notation. */
  function Suggestion(capital: nat, f: Limit): string
  {
    match f
    case MaxDeploymentValue => Shown(capital, 18)
    case MinDeploymentValue =>
      Shown(if capital / 10 < 1_000_000_000_000_000_000 then capital / 10 else 1_000_000_000_000_000_000, 18)
    case MaxExposurePpm => "95"
    case MaxLossValue => Shown(capital * 5 / 100, 18)
    case MaxDrawdownPpm => "10"
    case MaxActionCost => Shown(capital * 5 / 100, 18)
    case MaxRollingCost => Shown(capital * 10 / 100, 18)
    case MaxCampaignCost => Shown(capital * 15 / 100, 18)
    case ExitReserveWei => "0.001"
    case MaxSlippageBps => "0.5"
    case MinDeploymentPpm => "10"
    case MaxSwapInputValue => Shown(capital * 50 / 100, 18)
    case MaxSwapInputPpm => "50"
    case MaxSwapShortfallValue => Shown(capital * 1 / 100, 18)
    case MaxRecenters => "5"
    case MaxLiquiditySharePpm => "95"
    case MaxObservationGapSeconds => "90"
  }

  function SuggestedSetupLimits(capital: string, rangeKeeper: bool): Option<Texts>
  {
    match CapitalToQuoteRaw(capital)
    case None => None
    case Some(raw) => Some(map f | f in LimitsFor(rangeKeeper) :: Suggestion(Scaled(raw, 12), f))
  }

  /** What each suggestion reads back as. */
  function SuggestedRaw(capital: nat, f: Limit): nat
  {
    match f
    case MaxDeploymentValue => capital
    case MinDeploymentValue =>
      if capital / 10 < 1_000_000_000_000_000_000 then capital / 10 else 1_000_000_000_000_000_000
    case MaxExposurePpm => 950_000
    case MaxLossValue => capital * 5 / 100
    case MaxDrawdownPpm => 100_000
    case MaxActionCost => capital * 5 / 100
    case MaxRollingCost => capital * 10 / 100
    case MaxCampaignCost => capital * 15 / 100
    case ExitReserveWei => 1_000_000_000_000_000
    case MaxSlippageBps => 50
    case MinDeploymentPpm => 100_000
    case MaxSwapInputValue => capital * 50 / 100
    case MaxSwapInputPpm => 500_000
    case MaxSwapShortfallValue => capital * 1 / 100
    case MaxRecenters => 5
    case MaxLiquiditySharePpm => 950_000
    case MaxObservationGapSeconds => 90
  }

  lemma {:induction false} ShortNumber(text: string, n: nat)
    requires 0 < |text| <= 2 && AllDigits(text) && text[0] != '0'
    requires n == if |text| == 1 then CharValue(text[0]) else 10 * CharValue(text[0]) + CharValue(text[1])
    ensures Canonical(text) && Value(text) == n
  {
    var front := text[..|text| - 1];
    assert |text| == 2 ==> front[..0] == "" && Value(front) == CharValue(text[0]);
  }

  /** A constant of one or two digits at four decimals or none. */
  lemma {:induction false} ConstantReads(text: string, n: nat, d: nat)
    requires 0 < |text| <= 2 && AllDigits(text) && text[0] != '0' && (d == 0 || d == 4)
    requires n == if |text| == 1 then CharValue(text[0]) else 10 * CharValue(text[0]) + CharValue(text[1])
    ensures RawOf(text, d) == Some(if d == 0 then n else 10_000 * n)
  {
    hide RawOf;
    ShortNumber(text, n);
    RawOfMeaning(text, "", d);
    ScaledZero(d);
    FourPlaces(n);
  }

  lemma {:induction false} FourPlaces(n: nat)
    ensures Scaled(n, 4) == 10_000 * n && Scaled(n, 0) == n
  {
    assert Scaled(n, 1) == 10 * Scaled(n, 0) && Scaled(n, 2) == 10 * Scaled(n, 1) && Scaled(n, 3) == 10 * Scaled(n, 2);
  }

  lemma {:induction false} FractionConstantsRead()
    ensures RawOf("0.5", 2) == Some(50) && RawOf("0.001", 18) == Some(1_000_000_000_000_000)
  {
    hide RawOf, Scaled, Value;
    ConstantTexts();
    RawOfMeaning("0", "5", 2);
    RawOfMeaning("0", "001", 18);
    ScaledZero(2);
    ScaledZero(18);
    Fifteen();
  }

  lemma {:induction false} ConstantTexts()
    ensures Joined("0", "5") == "0.5" && Joined("0", "001") == "0.001"
    ensures Canonical("0") && Value("0") == 0 && AllDigits("5") && Value("5") == 5 && AllDigits("001") &&
            Value("001") == 1
  {
    assert "5"[..0] == "" && "0"[..0] == "";
    assert "001"[..2] == "00" && "00"[..1] == "0";
    assert Value("00") == 0;
  }

  lemma {:induction false} Fifteen()
    ensures Scaled(1, 15) == 1_000_000_000_000_000 && Scaled(5, 1) == 50
  {
    assert Scaled(5, 0) == 5;
    assert Scaled(1, 3) == 1_000;
    assert Scaled(1, 6) == 1_000_000;
    assert Scaled(1, 9) == 1_000_000_000;
    assert Scaled(1, 12) == 1_000_000_000_000;
  }

  lemma {:induction false} SuggestionReads(capital: nat, f: Limit)
    ensures RawOf(Suggestion(capital, f), Units(f)) == Some(SuggestedRaw(capital, f))
  {
    hide RawOf, Shown, AllDigits;
    FractionConstantsRead();
    match f
    case MaxExposurePpm => TwoDigits("95"); ConstantReads("95", 95, 4);
    case MaxDrawdownPpm => TwoDigits("10"); ConstantReads("10", 10, 4);
    case MinDeploymentPpm => TwoDigits("10"); ConstantReads("10", 10, 4);
    case MaxSwapInputPpm => TwoDigits("50"); ConstantReads("50", 50, 4);
    case MaxLiquiditySharePpm => TwoDigits("95"); ConstantReads("95", 95, 4);
    case MaxRecenters => TwoDigits("5"); ConstantReads("5", 5, 0);
    case MaxObservationGapSeconds => TwoDigits("90"); ConstantReads("90", 90, 0);
    case ExitReserveWei =>
    case MaxSlippageBps =>
    case _ => RawOfShown(SuggestedRaw(capital, f), 18);
  }

  lemma {:induction false} TwoDigits(text: string)
    requires text == "95" || text == "10" || text == "50" || text == "5" || text == "90"
    ensures AllDigits(text)
  {
  }

  lemma {:induction false} CapitalIsLarge(raw: nat)
    requires raw > 0
    ensures Scaled(raw, 12) >= 100
  {
    ScaledAtLeast(raw, 10);
  }

  lemma {:induction false} ScaledAtLeast(a: nat, d: nat)
    ensures Scaled(a, d) >= a
  {
    if d > 0 { ScaledAtLeast(a, d - 1); }
  }

  lemma {:induction false} SuggestedConsistent(capital: nat, l: Limits, rangeKeeper: bool)
    requires forall f :: f in LimitsFor(rangeKeeper) ==> f in l && l[f] == SuggestedRaw(capital, f)
    requires capital >= 100
    ensures Consistent(l, rangeKeeper)
  {
    SharedListed(rangeKeeper);
    if rangeKeeper { RangeKeeperListed(); }
  }

  lemma {:induction false} SharedListed(rangeKeeper: bool)
    ensures forall f :: f in SHARED_LIMITS ==> f in LimitsFor(rangeKeeper)
    ensures MaxDeploymentValue in SHARED_LIMITS && MinDeploymentValue in SHARED_LIMITS &&
            MaxExposurePpm in SHARED_LIMITS
    ensures MaxDrawdownPpm in SHARED_LIMITS && MaxActionCost in SHARED_LIMITS && MaxRollingCost in SHARED_LIMITS
    ensures MaxCampaignCost in SHARED_LIMITS && MaxSlippageBps in SHARED_LIMITS
  {
    var s := SHARED_LIMITS;
    assert s[0] in s && s[1] in s && s[2] in s && s[4] in s && s[5] in s && s[6] in s && s[7] in s && s[9] in s;
  }

  lemma {:induction false} RangeKeeperListed()
    ensures MinDeploymentPpm in LimitsFor(true) && MaxSwapInputPpm in LimitsFor(true)
    ensures MaxLiquiditySharePpm in LimitsFor(true) && MaxObservationGapSeconds in LimitsFor(true)
  {
    var s := RANGE_KEEPER_LIMITS;
    assert s[0] in s && s[2] in s && s[5] in s && s[6] in s;
  }

  /** The suggestions parse, field by field. */
  lemma {:induction false} SuggestionsParse(js: JsNumber, c: nat, h: Texts, rangeKeeper: bool)
    requires Lawful(js) && c >= 100
    requires h == map f | f in LimitsFor(rangeKeeper) :: Suggestion(c, f)
    ensures var t := Built(LimitsFor(rangeKeeper), HumanField(js, h));
            && t.Some? && (forall f :: f in LimitsFor(rangeKeeper) ==> f in t.value)
            && (forall f :: f in t.value ==> t.value[f] == TextOf(js, f, SuggestedRaw(c, f)))
  {
    hide RawOf, Canonical, Value, Units, LimitsFor, Suggestion, SuggestedRaw, Consistent;
    var fields := LimitsFor(rangeKeeper);
    forall i | 0 <= i < |fields|
      ensures HumanField(js, h)(fields[i]) == Some(TextOf(js, fields[i], SuggestedRaw(c, fields[i])))
    {
      SuggestionReads(c, fields[i]);
      SuggestedSafe(js, c, fields[i]);
    }
    BuiltOk(fields, HumanField(js, h));
  }

  /** What they parse to passes validation. */
  lemma {:induction false} SuggestionsValidate(js: JsNumber, c: nat, t: Texts, rangeKeeper: bool)
    requires Lawful(js) && c >= 100 && forall f :: f in LimitsFor(rangeKeeper) ==> f in t
    requires forall f :: f in t ==> t[f] == TextOf(js, f, SuggestedRaw(c, f))
    ensures Normalized(js, t, rangeKeeper).Some?
  {
    hide RawOf, Canonical, Value, Units, LimitsFor, Suggestion, SuggestedRaw, Consistent;
    var fields := LimitsFor(rangeKeeper);
    forall i | 0 <= i < |fields|
      ensures NormalizedField(js, t)(fields[i]) == Some(SuggestedRaw(c, fields[i]))
    {
      SuggestedSafe(js, c, fields[i]);
    }
    BuiltOk(fields, NormalizedField(js, t));
    SuggestedConsistent(c, Built(fields, NormalizedField(js, t)).value, rangeKeeper);
  }

  /** For every capital the form accepts, the suggested limits of both strategies parse and pass validation. */
  lemma {:induction false} SuggestionsAreValid(js: JsNumber, capital: string, rangeKeeper: bool)
    requires Lawful(js) && CapitalToQuoteRaw(capital).Some?
    ensures HumanToRaw(js, SuggestedSetupLimits(capital, rangeKeeper).value, rangeKeeper).Some?
  {
    hide LimitsFor, Suggestion, SuggestedRaw, CapitalToQuoteRaw, Scaled, Normalized, HumanField, TextOf;
    var c := Scaled(CapitalToQuoteRaw(capital).value, 12);
    var h := SuggestedSetupLimits(capital, rangeKeeper).value;
    CapitalPositive(capital);
    SuggestionsParse(js, c, h, rangeKeeper);
    SuggestionsValidate(js, c, Built(LimitsFor(rangeKeeper), HumanField(js, h)).value, rangeKeeper);
  }

  lemma {:induction false} CapitalPositive(capital: string)
    requires CapitalToQuoteRaw(capital).Some?
    ensures Scaled(CapitalToQuoteRaw(capital).value, 12) >= 100
  {
    CapitalIsLarge(CapitalToQuoteRaw(capital).value);
  }

  lemma {:induction false} SuggestedSafe(js: JsNumber, c: nat, f: Limit)
    requires Lawful(js) && c >= 100
    ensures var n := SuggestedRaw(c, f);
            && Positive(f, n) && Held(js, f, n) == n
            && Canonical(TextOf(js, f, n)) && Value(TextOf(js, f, n)) == n
  {
    DigitsCanonical(SuggestedRaw(c, f));
  }
}
