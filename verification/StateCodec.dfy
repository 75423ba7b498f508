/** The bigint-aware JSON codec of the paper state (json/parse in src/adaptive-paper.ts) and the runtime migration
    that rewrites the encoded state without decoding it (src/adaptive-paper-runtime.ts). */
module StateCodec {
  import opened Prelude
  import opened Decimal

  /** A value before encoding; without BigInt it is a JSON document. */
  datatype Value =
    | Null
    | Bool(b: bool)
    | Num(x: real)
    | BigInt(n: int)
    | Str(s: string)
    | Arr(items: seq<Value>)
    | Obj(fields: seq<Field>)

  datatype Field = Field(key: string, value: Value)

  const TAG := "bigint"

  /** What BigInt() makes of a text that is no canonical decimal (hexadecimal, padding, a SyntaxError): nothing
      below depends on it. */
  type Lenient = string -> Option<int>

  predicate LooksLikeBigInt(fields: seq<Field>)
  {
    |fields| == 1 && fields[0].key == TAG && fields[0].value.Str?
  }

  /** The replacer of JSON.stringify. */
  function Encode(v: Value): Value
    decreases v, 1
  {
    match v
    case BigInt(n) => Obj([Field(TAG, Str(IntText(n)))])
    case Arr(items) => Arr(EncodeItems(items))
    case Obj(fields) => Obj(EncodeFields(fields))
    case _ => v
  }

  function EncodeItems(items: seq<Value>): (r: seq<Value>)
    ensures |r| == |items|
    decreases items, 0
  {
    if items == [] then [] else [Encode(items[0])] + EncodeItems(items[1..])
  }

  function EncodeFields(fields: seq<Field>): (r: seq<Field>)
    ensures |r| == |fields| && forall i :: 0 <= i < |r| ==> r[i].key == fields[i].key
    decreases fields, 0
  {
    if fields == [] then [] else [Field(fields[0].key, Encode(fields[0].value))] + EncodeFields(fields[1..])
  }

  function ToBigInt(s: string, lenient: Lenient): Option<Value>
  {
    if IsIntText(s) then Some(BigInt(IntValue(s)))
    else match lenient(s) case None => None case Some(n) => Some(BigInt(n))
  }

  /** The reviver of JSON.parse, innermost values first; None is a SyntaxError. */
  function Decode(v: Value, lenient: Lenient): Option<Value>
    decreases v, 1
  {
    match v
    case Arr(items) => (match DecodeItems(items, lenient) case None => None case Some(r) => Some(Arr(r)))
    case Obj(fields) =>
      (match DecodeFields(fields, lenient)
       case None => None
       case Some(r) => if LooksLikeBigInt(r) then ToBigInt(r[0].value.s, lenient) else Some(Obj(r)))
    case _ => Some(v)
  }

  function DecodeItems(items: seq<Value>, lenient: Lenient): Option<seq<Value>>
    decreases items, 0
  {
    if items == [] then Some([])
    else match (Decode(items[0], lenient), DecodeItems(items[1..], lenient))
      case (Some(first), Some(rest)) => Some([first] + rest)
      case _ => None
  }

  function DecodeFields(fields: seq<Field>, lenient: Lenient): Option<seq<Field>>
    decreases fields, 0
  {
    if fields == [] then Some([])
    else match (Decode(fields[0].value, lenient), DecodeFields(fields[1..], lenient))
      case (Some(first), Some(rest)) => Some([Field(fields[0].key, first)] + rest)
      case _ => None
  }

  /** No object inside v looks like an encoded bigint. */
  predicate Plain(v: Value)
    decreases v, 1
  {
    match v
    case Arr(items) => PlainItems(items)
    case Obj(fields) => !LooksLikeBigInt(fields) && PlainFields(fields)
    case _ => true
  }

  predicate PlainItems(items: seq<Value>)
    decreases items, 0
  {
    items == [] || (Plain(items[0]) && PlainItems(items[1..]))
  }

  predicate PlainFields(fields: seq<Field>)
    decreases fields, 0
  {
    fields == [] || (Plain(fields[0].value) && PlainFields(fields[1..]))
  }

  lemma {:induction false} DecodeOne(f: Field, lenient: Lenient)
    ensures DecodeFields([f], lenient) ==
            match Decode(f.value, lenient) { case None => None case Some(v) => Some([Field(f.key, v)]) }
  {
    assert [f][1..] == [] && DecodeFields([], lenient) == Some([]);
    assert forall x: Field :: [x] + [] == [x];
  }

  /** A state decodes to itself exactly when it holds no bigint look-alike. */
  lemma {:induction false} RoundTrip(v: Value, lenient: Lenient)
    ensures Decode(Encode(v), lenient) == Some(v) <==> Plain(v)
    decreases v, 1
  {
    match v
    case BigInt(n) =>
      IntTextRoundTrip(n);
      DecodeOne(Field(TAG, Str(IntText(n))), lenient);
    case Arr(items) => ItemsRoundTrip(items, lenient);
    case Obj(fields) => FieldsRoundTrip(fields, lenient);
    case _ =>
  }

  lemma {:induction false} ItemsRoundTrip(items: seq<Value>, lenient: Lenient)
    ensures DecodeItems(EncodeItems(items), lenient) == Some(items) <==> PlainItems(items)
    decreases items, 0
  {
    if items != [] {
      RoundTrip(items[0], lenient);
      ItemsRoundTrip(items[1..], lenient);
      var encoded := EncodeItems(items);
      assert encoded[0] == Encode(items[0]) && encoded[1..] == EncodeItems(items[1..]);
      assert items == [items[0]] + items[1..];
    }
  }

  lemma {:induction false} FieldsRoundTrip(fields: seq<Field>, lenient: Lenient)
    ensures DecodeFields(EncodeFields(fields), lenient) == Some(fields) <==> PlainFields(fields)
    decreases fields, 0
  {
    if fields != [] {
      hide Encode, Decode, Plain;
      RoundTrip(fields[0].value, lenient);
      FieldsRoundTrip(fields[1..], lenient);
      var encoded := EncodeFields(fields);
      assert encoded[0].value == Encode(fields[0].value) && encoded[1..] == EncodeFields(fields[1..]);
      assert fields == [fields[0]] + fields[1..];
      assert fields[0] == Field(fields[0].key, fields[0].value);
    }
  }

  // ---- objects as keyed records ----

  function Get(fields: seq<Field>, key: string): Option<Value>
  {
    if fields == [] then None else if fields[0].key == key then Some(fields[0].value) else Get(fields[1..], key)
  }

  /** Assignment to a property: in place when the key exists, appended otherwise. */
  function Set(fields: seq<Field>, key: string, v: Value): seq<Field>
  {
    if fields == [] then [Field(key, v)]
    else if fields[0].key == key then [Field(key, v)] + fields[1..]
    else [fields[0]] + Set(fields[1..], key, v)
  }

  lemma {:induction false} GetAfterSet(fields: seq<Field>, key: string, v: Value, k: string)
    ensures Get(Set(fields, key, v), k) == if k == key then Some(v) else Get(fields, k)
  {
    if fields != [] && fields[0].key != key { GetAfterSet(fields[1..], key, v, k); }
  }

  lemma {:induction false} EncodeCommutesWithSet(fields: seq<Field>, key: string, v: Value)
    ensures EncodeFields(Set(fields, key, v)) == Set(EncodeFields(fields), key, Encode(v))
  {
    var after, encoded := Set(fields, key, v), EncodeFields(fields);
    if fields == [] {
      assert after[1..] == [];
    } else if fields[0].key == key {
      assert after[1..] == fields[1..] && encoded[1..] == EncodeFields(fields[1..]);
    } else {
      EncodeCommutesWithSet(fields[1..], key, v);
      assert after[1..] == Set(fields[1..], key, v) && encoded[1..] == EncodeFields(fields[1..]);
    }
  }

  lemma {:induction false} EncodedGet(fields: seq<Field>, key: string)
    ensures Get(EncodeFields(fields), key) ==
            match Get(fields, key) { case None => None case Some(v) => Some(Encode(v)) }
  {
    if fields != [] {
      assert EncodeFields(fields)[1..] == EncodeFields(fields[1..]);
      if fields[0].key != key { EncodedGet(fields[1..], key); }
    }
  }

  lemma {:induction false} PlainSet(fields: seq<Field>, key: string, v: Value)
    requires PlainFields(fields) && Plain(v)
    ensures PlainFields(Set(fields, key, v))
  {
    var after := Set(fields, key, v);
    if fields == [] {
      assert after[1..] == [];
    } else if fields[0].key == key {
      assert after[1..] == fields[1..];
    } else {
      PlainSet(fields[1..], key, v);
      assert after[1..] == Set(fields[1..], key, v);
    }
  }

  lemma {:induction false} PlainGet(fields: seq<Field>, key: string)
    requires PlainFields(fields) && Get(fields, key).Some?
    ensures Plain(Get(fields, key).value)
  {
    if fields[0].key != key { PlainGet(fields[1..], key); }
  }

  lemma {:induction false} ItemsAppend(items: seq<Value>, v: Value)
    ensures EncodeItems(items + [v]) == EncodeItems(items) + [Encode(v)]
    ensures PlainItems(items) && Plain(v) ==> PlainItems(items + [v])
  {
    var all := items + [v];
    if items == [] {
      assert all[1..] == [];
    } else {
      ItemsAppend(items[1..], v);
      assert all[1..] == items[1..] + [v];
    }
  }

  // ---- the migration ----

  datatype MigrationError =
    | VersionChanged | RuntimeMissing | PriorRuntimeChanged | SameBuild | EnvironmentChanged | NodeChanged
    | StrategyChanged | HistoryUnusable

  /** SHA-256 of the pretty-printed document: any function of the document. */
  type Hash = Value -> string

  function Member(v: Value, key: string): Value
  {
    if v.Obj? then match Get(v.fields, key) { case None => Null case Some(x) => x } else Null
  }

  /** JavaScript truthiness of a decoded property. */
  predicate Truthy(v: Value)
  {
    match v
    case Null => false
    case Bool(b) => b
    case Num(x) => x != 0.0
    case BigInt(n) => n != 0
    case Str(s) => s != ""
    case _ => true
  }

  /** Where the history of an earlier migration is kept: absent before the first one. */
  function HistoryOf(fields: seq<Field>): Option<seq<Value>>
  {
    match Get(fields, "runtimeHistory")
    case None => Some([])
    case Some(Null) => Some([])
    case Some(Arr(items)) => Some(items)
    case _ => None
  }

  function Entry(at: string, from: Value, to: Value, stateHash: string): Value
  {
    Obj([Field("at", Str(at)), Field("from", from), Field("to", to), Field("stateSha256", Str(stateHash))])
  }

  function Migrated(raw: seq<Field>, expectedBuild: string, current: Value, at: string, stateHash: string, hash: Hash)
    : Result<seq<Field>, MigrationError>
  {
    var runtime := Member(Obj(raw), "runtime");
    if Get(raw, "version") != Some(Num(1.0)) then Err(VersionChanged)
    else if !Truthy(runtime) then Err(RuntimeMissing)
    else if Member(runtime, "buildId") != Str(expectedBuild) then Err(PriorRuntimeChanged)
    else if Member(current, "buildId") == Str(expectedBuild) then Err(SameBuild)
    else if Member(current, "configHash") != Member(runtime, "configHash") then Err(EnvironmentChanged)
    else if Member(current, "nodeVersion") != Member(runtime, "nodeVersion") then Err(NodeChanged)
    else if Member(Obj(raw), "configHash") != Str(hash(Member(Obj(raw), "config"))) then Err(StrategyChanged)
    else match HistoryOf(raw)
      case None => Err(HistoryUnusable)
      case Some(history) =>
        Ok(Set(Set(raw, "runtime", current), "runtimeHistory", Arr(history + [Entry(at, runtime, current, stateHash)])))
  }

  /** The check every tick makes before it uses a state. */
  predicate ConfigurationUnchanged(state: seq<Field>, hash: Hash)
  {
    Get(state, "configHash") == Some(Str(hash(Encode(Member(Obj(state), "config")))))
  }

  method MigrateRuntime(raw: seq<Field>, expectedBuild: string, current: Value, at: string, stateHash: string,
        hash: Hash)
    returns (r: Result<seq<Field>, MigrationError>)
    ensures r == Migrated(raw, expectedBuild, current, at, stateHash, hash)
  {
    var state := raw;
    var runtime := Member(Obj(state), "runtime");
    if Get(state, "version") != Some(Num(1.0)) { return Err(VersionChanged); }
    if !Truthy(runtime) { return Err(RuntimeMissing); }
    if Member(runtime, "buildId") != Str(expectedBuild) { return Err(PriorRuntimeChanged); }
    if Member(current, "buildId") == Str(expectedBuild) { return Err(SameBuild); }
    if Member(current, "configHash") != Member(runtime, "configHash") { return Err(EnvironmentChanged); }
    if Member(current, "nodeVersion") != Member(runtime, "nodeVersion") { return Err(NodeChanged); }
    if Member(Obj(state), "configHash") != Str(hash(Member(Obj(state), "config"))) { return Err(StrategyChanged); }
    var entry := Entry(at, runtime, current, stateHash);
    var history := HistoryOf(state);
    if history.None? { return Err(HistoryUnusable); }
    state := Set(state, "runtime", current);
    state := Set(state, "runtimeHistory", Arr(history.value + [entry]));
    r := Ok(state);
  }

  // ---- what the migration leaves alone ----

  /** The migrated state, computed on decoded values. */
  function MigratedState(state: seq<Field>, current: Value, at: string, stateHash: string): seq<Field>
    requires HistoryOf(state).Some?
  {
    var entry := Entry(at, Member(Obj(state), "runtime"), current, stateHash);
    Set(Set(state, "runtime", current), "runtimeHistory", Arr(HistoryOf(state).value + [entry]))
  }

  lemma {:induction false} FieldsCons(f: Field, rest: seq<Field>)
    ensures EncodeFields([f] + rest) == [Field(f.key, Encode(f.value))] + EncodeFields(rest)
    ensures PlainFields([f] + rest) <==> Plain(f.value) && PlainFields(rest)
  {
    assert ([f] + rest)[1..] == rest;
  }

  lemma {:induction false} EntryEncodes(at: string, from: Value, to: Value, stateHash: string)
    ensures Encode(Entry(at, from, to, stateHash)) == Entry(at, Encode(from), Encode(to), stateHash)
    ensures Plain(from) && Plain(to) ==> Plain(Entry(at, from, to, stateHash))
  {
    var a, b, c, d := Field("at", Str(at)), Field("from", from), Field("to", to), Field("stateSha256", Str(stateHash));
    FieldsCons(d, []);
    FieldsCons(c, [d]);
    FieldsCons(b, [c, d]);
    FieldsCons(a, [b, c, d]);
    assert [a] + [b, c, d] == [a, b, c, d] && [b] + [c, d] == [b, c, d] && [c] + [d] == [c, d] && [d] + [] == [d];
  }

  lemma {:induction false} EncodedMember(fields: seq<Field>, key: string)
    ensures Member(Obj(EncodeFields(fields)), key) == Encode(Member(Obj(fields), key))
    ensures PlainFields(fields) ==> Plain(Member(Obj(fields), key))
  {
    EncodedGet(fields, key);
    if PlainFields(fields) && Get(fields, key).Some? { PlainGet(fields, key); }
  }

  lemma {:induction false} MigratedGet(state: seq<Field>, current: Value, at: string, stateHash: string, key: string)
    requires HistoryOf(state).Some?
    ensures key != "runtime" && key != "runtimeHistory" ==>
              Get(MigratedState(state, current, at, stateHash), key) == Get(state, key)
  {
    var entry := Entry(at, Member(Obj(state), "runtime"), current, stateHash);
    GetAfterSet(state, "runtime", current, key);
    GetAfterSet(Set(state, "runtime", current), "runtimeHistory", Arr(HistoryOf(state).value + [entry]), key);
  }

  /** Migrating the encoded fields is encoding the migrated ones, which stay free of look-alikes. */
  lemma {:induction false} MigrationEncodes(state: seq<Field>, expectedBuild: string, current: Value, at: string,
        stateHash: string, hash: Hash)
    requires PlainFields(state) && Plain(current) && Encode(current) == current
    requires Migrated(EncodeFields(state), expectedBuild, current, at, stateHash, hash).Ok?
    ensures HistoryOf(state).Some?
    ensures var after := MigratedState(state, current, at, stateHash);
            && Migrated(EncodeFields(state), expectedBuild, current, at, stateHash, hash) == Ok(EncodeFields(after))
            && PlainFields(after)
  {
    HistoryEncodes(state);
    EncodedMember(state, "runtime");
    var runtime, history := Member(Obj(state), "runtime"), HistoryOf(state).value;
    var entry, middle := Entry(at, runtime, current, stateHash), Set(state, "runtime", current);
    EntryEncodes(at, runtime, current, stateHash);
    ItemsAppend(history, entry);
    EncodeCommutesWithSet(state, "runtime", current);
    EncodeCommutesWithSet(middle, "runtimeHistory", Arr(history + [entry]));
    PlainSet(state, "runtime", current);
    PlainSet(middle, "runtimeHistory", Arr(history + [entry]));
  }

  /** Rewriting the encoded file is migrating the decoded state: reading the file back gives the old state with
      only runtime and runtimeHistory changed, and the configuration check still passes. */
  lemma {:induction false} MigrationOnlyTouchesRuntime(state: seq<Field>, expectedBuild: string, current: Value,
        at: string,
                                    stateHash: string, hash: Hash, lenient: Lenient)
    requires PlainFields(state) && Plain(current) && Encode(current) == current
    requires Migrated(EncodeFields(state), expectedBuild, current, at, stateHash, hash).Ok?
    ensures HistoryOf(state).Some?
    ensures var after := MigratedState(state, current, at, stateHash);
            && Migrated(EncodeFields(state), expectedBuild, current, at, stateHash, hash) == Ok(EncodeFields(after))
            && Decode(Obj(EncodeFields(after)), lenient) == Some(Obj(after))
            && (forall k :: k != "runtime" && k != "runtimeHistory" ==> Get(after, k) == Get(state, k))
            && ConfigurationUnchanged(state, hash) && ConfigurationUnchanged(after, hash)
  {
    hide EncodeFields, Decode, Encode, PlainFields, Plain, Migrated, HistoryOf;
    MigrationEncodes(state, expectedBuild, current, at, stateHash, hash);
    var after := MigratedState(state, current, at, stateHash);
    forall k | k != "runtime" && k != "runtimeHistory"
      ensures Get(after, k) == Get(state, k)
    {
      MigratedGet(state, current, at, stateHash, k);
    }
    MigrationGuards(EncodeFields(state), expectedBuild, current, at, stateHash, hash);
    EncodedVersion(state);
    ConfigurationKept(state, hash);
    assert ConfigurationUnchanged(after, hash);
    NoLookAlike(after);
    ObjectRoundTrip(after, lenient);
  }

  lemma {:induction false} ObjectRoundTrip(fields: seq<Field>, lenient: Lenient)
    requires PlainFields(fields) && !LooksLikeBigInt(fields)
    ensures Decode(Obj(EncodeFields(fields)), lenient) == Some(Obj(fields))
  {
    RoundTrip(Obj(fields), lenient);
  }

  lemma {:induction false} MigrationGuards(raw: seq<Field>, expectedBuild: string, current: Value, at: string,
        stateHash: string, hash: Hash)
    requires Migrated(raw, expectedBuild, current, at, stateHash, hash).Ok?
    ensures Get(raw, "version") == Some(Num(1.0))
    ensures Member(Obj(raw), "configHash") == Str(hash(Member(Obj(raw), "config")))
  {
  }

  /** The guard on the encoded file is the check on the decoded state. */
  lemma {:induction false} ConfigurationKept(state: seq<Field>, hash: Hash)
    requires Member(Obj(EncodeFields(state)), "configHash") == Str(hash(Member(Obj(EncodeFields(state)), "config")))
    ensures ConfigurationUnchanged(state, hash)
  {
    EncodedMember(state, "config");
    EncodedMember(state, "configHash");
  }

  lemma {:induction false} EncodedVersion(state: seq<Field>)
    requires Get(EncodeFields(state), "version") == Some(Num(1.0))
    ensures Get(state, "version") == Some(Num(1.0))
  {
    EncodedGet(state, "version");
  }

  lemma {:induction false} NoLookAlike(fields: seq<Field>)
    requires Get(fields, "version").Some?
    ensures !LooksLikeBigInt(fields)
  {
    if |fields| == 1 { assert Get(fields[1..], "version").None?; }
  }

  lemma {:induction false} HistoryEncodes(state: seq<Field>)
    requires PlainFields(state) && HistoryOf(EncodeFields(state)).Some?
    ensures HistoryOf(state).Some? && HistoryOf(EncodeFields(state)).value == EncodeItems(HistoryOf(state).value)
    ensures PlainItems(HistoryOf(state).value)
  {
    EncodedGet(state, "runtimeHistory");
    if Get(state, "runtimeHistory").Some? { PlainGet(state, "runtimeHistory"); }
  }
}
