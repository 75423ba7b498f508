/** Saved acceptance requests in localStorage and the panel that resends them (pendingAcceptanceKey to
    mountPendingPaperAcceptanceRecovery in dashboard/deployment-actions.js). */
module RecoveryPanel {
  import opened Prelude

  datatype Payload = Payload(previewId: string, contentDigest: string, expectedRevision: int, idempotencyKey: string)

  /** A stored text as JSON.parse sees it. Absent texts and numbers stand as "" and 0, which no check accepts. */
  datatype Doc = Garbage | Doc(campaignId: string, kind: string, strategyId: Option<string>, payload: Payload)

  type Storage = map<string, Doc>

  datatype Record =
    | Request(campaignId: string, kind: string, strategyId: string, payload: Payload)
    | Invalid(campaignId: string, kind: string)

  // ---- the regular expressions ----

  predicate IsHex(c: char)
  {
    '0' <= c <= '9' || 'a' <= c <= 'f' || 'A' <= c <= 'F'
  }

  predicate IsUuid(s: string)
  {
    |s| == 36 && forall i :: 0 <= i < 36 ==>
      if i == 8 || i == 13 || i == 18 || i == 23 then s[i] == '-' else IsHex(s[i])
  }

  predicate IsDigest(s: string)
  {
    |s| == 64 && forall i :: 0 <= i < 64 ==> '0' <= s[i] <= '9' || 'a' <= s[i] <= 'f'
  }

  function LowerChar(c: char): char
  {
    if 'A' <= c <= 'Z' then (c as int + 32) as char else c
  }

  function Lower(s: string): (r: string)
    ensures |r| == |s|
  {
    seq(|s|, i requires 0 <= i < |s| => LowerChar(s[i]))
  }

  const ACTION_PREFIX := "concliq.operator.paper-action.pending.v1."
  const CONVERT_PREFIX := "concliq.operator.paper-convert.pending.v1."
  const CLOSE_CONVERT := "close_convert"

  predicate IsActionKind(kind: string)
  {
    kind == "pause" || kind == "resume" || kind == "close_retain"
  }

  function ActionKey(campaignId: string, kind: string): string
  {
    ACTION_PREFIX + campaignId + "." + kind
  }

  function ConvertKey(campaignId: string): string
  {
    CONVERT_PREFIX + campaignId
  }

  predicate HasPrefix(key: string, prefix: string)
  {
    |key| >= |prefix| && Lower(key[..|prefix|]) == prefix
  }

  /** The first expression; matching ignores case, the groups keep it. */
  function MatchAction(key: string): Option<(string, string)>
  {
    var n := |ACTION_PREFIX|;
    if !HasPrefix(key, ACTION_PREFIX) || |key| < n + 37 || key[n + 36] != '.' || !IsUuid(key[n..n + 36]) ||
       !IsActionKind(Lower(key[n + 37..]))
    then None
    else Some((key[n..n + 36], key[n + 37..]))
  }

  function MatchConvert(key: string): Option<string>
  {
    var n := |CONVERT_PREFIX|;
    if !HasPrefix(key, CONVERT_PREFIX) || |key| != n + 36 || !IsUuid(key[n..]) then None else Some(key[n..])
  }

  // ---- reading, writing and scanning ----

  const MAX_SAFE_INTEGER := 0x1F_FFFF_FFFF_FFFF

  predicate Valid(d: Doc, campaignId: string, kind: string)
  {
    && d.Doc? && d.campaignId == campaignId && d.kind == kind
    && (d.strategyId == None || d.strategyId.value in ["", "static_manual_v1", "rangekeeper_v1"])
    && IsUuid(d.payload.previewId) && IsDigest(d.payload.contentDigest)
    && 0 < d.payload.expectedRevision <= MAX_SAFE_INTEGER && IsUuid(d.payload.idempotencyKey)
  }

  function Normalized(d: Doc, campaignId: string, kind: string): Record
  {
    if Valid(d, campaignId, kind) then
      Request(campaignId, kind, if d.strategyId == None then "static_manual_v1" else d.strategyId.value, d.payload)
    else Invalid(campaignId, kind)
  }

  /** readPendingAcceptance */
  function Read(s: Storage, campaignId: string, kind: string): Option<Record>
  {
    var key := ActionKey(campaignId, kind);
    if key in s then Some(Normalized(s[key], campaignId, kind)) else None
  }

  function Written(campaignId: string, kind: string, payload: Payload, strategyId: string): Doc
  {
    Doc(campaignId, kind, if strategyId == "rangekeeper_v1" then Some(strategyId) else None, payload)
  }

  /** persistPendingAcceptance; None when the request is not valid. */
  function Persisted(s: Storage, campaignId: string, kind: string, payload: Payload,
        strategyId: string): Option<Storage>
  {
    if !Valid(Doc(campaignId, kind, Some(strategyId), payload), campaignId, kind) then None
    else Some(s[ActionKey(campaignId, kind) := Written(campaignId, kind, payload, strategyId)])
  }

  /** What the convert widget stores. */
  function ConvertPersisted(s: Storage, campaignId: string, payload: Payload, strategyId: string): Storage
  {
    s[ConvertKey(campaignId) := Written(campaignId, CLOSE_CONVERT, payload, strategyId)]
  }

  /** What the scan makes of one key. */
  function Recognised(s: Storage, key: string): Option<Record>
    requires key in s
  {
    match MatchAction(key)
    case Some((campaignId, kind)) => Read(s, campaignId, kind)
    case None =>
      match MatchConvert(key)
      case None => None
      case Some(campaignId) =>
        var d := s[key];
        Some(Normalized(if d.Doc? then d.(kind := CLOSE_CONVERT) else d, campaignId, CLOSE_CONVERT))
  }

  /** savedPaperAcceptances, by key. */
  function Found(s: Storage): map<string, Record>
  {
    map key | key in s && Recognised(s, key).Some? :: Recognised(s, key).value
  }

  /** The scan: localStorage.key(0), localStorage.key(1), and so on. */
  method Scan(s: Storage, keys: seq<string>) returns (records: map<string, Record>)
    requires forall k :: k in keys <==> k in s
    ensures records == Found(s)
  {
    records := map[];
    for i := 0 to |keys|
      invariant forall k :: k in records <==> k in keys[..i] && Recognised(s, k).Some?
      invariant forall k :: k in records ==> records[k] == Recognised(s, k).value
    {
      var key := keys[i];
      var record := Recognised(s, key);
      if record.Some? { records := records[key := record.value]; }
    }
    assert keys[..|keys|] == keys;
  }

  // ---- keys ----

  lemma {:induction false} LowerSame(s: string)
    requires forall i :: 0 <= i < |s| ==> !('A' <= s[i] <= 'Z')
    ensures Lower(s) == s
  {
  }

  /** The scan's expression reads back the campaign and kind a key was made of. */
  lemma {:induction false} ActionKeyMatches(campaignId: string, kind: string)
    requires IsUuid(campaignId) && IsActionKind(kind)
    ensures MatchAction(ActionKey(campaignId, kind)) == Some((campaignId, kind))
  {
    var key, n := ActionKey(campaignId, kind), |ACTION_PREFIX|;
    LowerSame(ACTION_PREFIX);
    LowerSame(kind);
    assert key[..n] == ACTION_PREFIX && key[n..n + 36] == campaignId && key[n + 37..] == kind;
  }

  lemma {:induction false} ConvertKeyMatches(campaignId: string)
    requires IsUuid(campaignId)
    ensures MatchConvert(ConvertKey(campaignId)) == Some(campaignId) && MatchAction(ConvertKey(campaignId)) == None
  {
    var key, n := ConvertKey(campaignId), |CONVERT_PREFIX|;
    LowerSame(CONVERT_PREFIX);
    assert key[..n] == CONVERT_PREFIX && key[n..] == campaignId;
    var m := |ACTION_PREFIX|;
    assert key[..m][23] == CONVERT_PREFIX[23] == 'c' && ACTION_PREFIX[23] == 'a';
    assert Lower(key[..m])[23] == 'c';
  }

  /** Distinct campaigns or kinds never share a key, and action and convert records never do. */
  lemma {:induction false} KeysNeverCollide(c: string, k: string, d: string, l: string)
    requires IsUuid(c) && IsUuid(d) && IsActionKind(k) && IsActionKind(l)
    ensures ActionKey(c, k) == ActionKey(d, l) <==> c == d && k == l
    ensures ConvertKey(c) == ConvertKey(d) <==> c == d
    ensures ActionKey(c, k) != ConvertKey(d)
  {
    ActionKeyMatches(c, k);
    ActionKeyMatches(d, l);
    ConvertKeyMatches(c);
    ConvertKeyMatches(d);
  }

  // ---- the scan finds what was written, and only that changes ----

  /** Every key the widgets write is in canonical case, so a record is read under the key it was found by. */
  predicate OwnKeys(s: Storage)
  {
    forall key :: key in s && MatchAction(key).Some? ==>
      ActionKey(MatchAction(key).value.0, MatchAction(key).value.1) == key
  }

  lemma {:induction false} RecognisedLocally(s: Storage, t: Storage, key: string)
    requires key in s && key in t && s[key] == t[key]
    requires MatchAction(key).Some? ==> ActionKey(MatchAction(key).value.0, MatchAction(key).value.1) == key
    ensures Recognised(s, key) == Recognised(t, key)
  {
  }

  /** After a widget saved a request the scan finds exactly what it found before, with this request under its key:
      the campaign, kind, strategy and payload that were written. */
  lemma {:induction false} ScanFindsSaved(s: Storage, campaignId: string, kind: string, payload: Payload,
        strategyId: string)
    requires OwnKeys(s) && IsUuid(campaignId) && IsActionKind(kind)
    requires strategyId == "static_manual_v1" || strategyId == "rangekeeper_v1"
    requires Persisted(s, campaignId, kind, payload, strategyId).Some?
    ensures var after := Persisted(s, campaignId, kind, payload, strategyId).value;
            OwnKeys(after) &&
            Found(after) == Found(s)[ActionKey(campaignId, kind) := Request(campaignId, kind, strategyId, payload)]
  {
    var after, key := Persisted(s, campaignId, kind, payload, strategyId).value, ActionKey(campaignId, kind);
    ActionKeyMatches(campaignId, kind);
    forall k | k in s && k != key
      ensures Recognised(after, k) == Recognised(s, k)
    {
      RecognisedLocally(s, after, k);
    }
    assert Recognised(after, key) == Some(Request(campaignId, kind, strategyId, payload));
  }

  lemma {:induction false} ConvertRecognised(s: Storage, campaignId: string, payload: Payload, strategyId: string)
    requires IsUuid(campaignId) && (strategyId == "static_manual_v1" || strategyId == "rangekeeper_v1")
    requires Valid(Doc(campaignId, CLOSE_CONVERT, Some(strategyId), payload), campaignId, CLOSE_CONVERT)
    ensures Recognised(ConvertPersisted(s, campaignId, payload, strategyId), ConvertKey(campaignId)) ==
            Some(Request(campaignId, CLOSE_CONVERT, strategyId, payload))
  {
    hide MatchAction, MatchConvert, ConvertKey, IsUuid, IsDigest;
    ConvertKeyMatches(campaignId);
    var doc := Written(campaignId, CLOSE_CONVERT, payload, strategyId);
    assert doc.(kind := CLOSE_CONVERT) == doc;
  }

  lemma {:induction false} ScanFindsConvert(s: Storage, campaignId: string, payload: Payload, strategyId: string)
    requires OwnKeys(s) && IsUuid(campaignId)
    requires strategyId == "static_manual_v1" || strategyId == "rangekeeper_v1"
    requires Valid(Doc(campaignId, CLOSE_CONVERT, Some(strategyId), payload), campaignId, CLOSE_CONVERT)
    ensures var after := ConvertPersisted(s, campaignId, payload, strategyId);
            OwnKeys(after) &&
            Found(after) == Found(s)[ConvertKey(campaignId) := Request(campaignId, CLOSE_CONVERT, strategyId, payload)]
  {
    hide Recognised, Valid, MatchAction, MatchConvert;
    var after, key := ConvertPersisted(s, campaignId, payload, strategyId), ConvertKey(campaignId);
    ConvertKeyMatches(campaignId);
    forall k | k in s && k != key
      ensures Recognised(after, k) == Recognised(s, k)
    {
      RecognisedLocally(s, after, k);
    }
    ConvertRecognised(s, campaignId, payload, strategyId);
  }

  /** Erasing one key takes away its record and no other. */
  lemma {:induction false} ScanAfterErase(s: Storage, key: string)
    requires OwnKeys(s)
    ensures OwnKeys(s - {key}) && Found(s - {key}) == Found(s) - {key}
  {
    forall k | k in s && k != key
      ensures Recognised(s - {key}, k) == Recognised(s, k)
    {
      RecognisedLocally(s, s - {key}, k);
    }
  }

  // ---- recovery ----

  /** The path a request is sent to, by the widgets and by the panel. */
  function RouteOf(kind: string, strategyId: string): string
  {
    if kind == "close_retain" then
      (if strategyId == "rangekeeper_v1" then "rangekeeper/close-operations" else "operations")
    else if kind == CLOSE_CONVERT then
      (if strategyId == "rangekeeper_v1" then "rangekeeper/close-operations" else "close-convert-operations")
    else "lifecycle-operations"
  }

  datatype Reply = Accepted | Refused | Unknown

  /** clearSameRequest: the storage afterwards. */
  function ClearedSame(s: Storage, key: string, payload: Payload): Storage
  {
    if key in Found(s) && Found(s)[key].Request? && Found(s)[key].payload == payload then s - {key} else s
  }

  /** A send of the panel: the key it was found by and the record that was submitted. */
  datatype Panel = Panel(storage: Storage, inFlight: set<string>, wire: map<string, Record>)

  class Recovery {
    var inFlight: set<string>

    constructor ()
      ensures inFlight == {}
    {
      inFlight := {};
    }

    /** A click on a record's button; a request goes out on Some. */
    method Click(key: string, record: Record, authenticated: bool) returns (send: Option<(string, Payload)>)
      modifies this
      ensures send.Some? <==> record.Request? && authenticated && key !in old(inFlight)
      ensures send.Some? ==> send.value == (RouteOf(record.kind, record.strategyId), record.payload)
      ensures inFlight == if send.Some? then old(inFlight) + {key} else old(inFlight)
    {
      if !record.Request? || !authenticated || key in inFlight { return None; }
      inFlight := inFlight + {key};
      send := Some((RouteOf(record.kind, record.strategyId), record.payload));
    }

    /** The reply; storage is whatever the other widgets have made of it meanwhile. */
    method Settle(storage: Storage, keys: seq<string>, key: string, payload: Payload, r: Reply) returns (after: Storage)
      requires forall k :: k in keys <==> k in storage
      modifies this
      ensures after == if r == Unknown then storage else ClearedSame(storage, key, payload)
      ensures inFlight == old(inFlight) - {key}
    {
      after := storage;
      if r != Unknown {
        var current := Scan(storage, keys);
        if key in current && current[key].Request? && current[key].payload == payload { after := storage - {key}; }
      }
      inFlight := inFlight - {key};
    }
  }

  /** A click resends the record as it was rendered, however long ago; Others is any write of the other widgets. */
  datatype Step =
    | Others(storage: Storage)
    | Click(key: string, rendered: Record)
    | Settle(key: string, reply: Reply)

  function Next(p: Panel, step: Step): Option<Panel>
  {
    match step
    case Others(storage) => Some(p.(storage := storage))
    case Click(key, rendered) =>
      if rendered.Request? && key !in p.inFlight
      then Some(p.(inFlight := p.inFlight + {key}, wire := p.wire[key := rendered]))
      else None
    case Settle(key, r) =>
      if key !in p.wire then None
      else
        var sent := p.wire[key];
        var storage := if r == Unknown || !sent.Request? then p.storage else ClearedSame(p.storage, key, sent.payload);
        Some(Panel(storage, p.inFlight - {key}, p.wire - {key}))
  }

  function Stepper(): (Panel, Step) -> Option<Panel>
  {
    (p, step) => Next(p, step)
  }

  predicate OneSendPerKey(p: Panel)
  {
    p.inFlight == p.wire.Keys && forall k :: k in p.wire ==> p.wire[k].Request?
  }

  /** Whatever other widgets write meanwhile, each key has at most one recovery under way. */
  lemma {:induction false} OneRecoveryPerKey(storage: Storage, steps: seq<Step>)
    requires Fold(Stepper(), Panel(storage, {}, map[]), steps).Some?
    ensures OneSendPerKey(Fold(Stepper(), Panel(storage, {}, map[]), steps).value)
  {
    var step, inv := Stepper(), (p: Panel) => OneSendPerKey(p);
    forall p, e | inv(p) && step(p, e).Some?
      ensures inv(step(p, e).value)
    {
    }
    FoldKeeps(step, Panel(storage, {}, map[]), steps, inv, (e: Step) => true);
  }

  lemma {:induction false} SettleErases(p: Panel, key: string, r: Reply)
    requires OneSendPerKey(p) && key in p.wire && OwnKeys(p.storage)
    ensures var after, payload := Next(p, Settle(key, r)).value.storage, p.wire[key].payload;
            && (after != p.storage <==> r != Unknown && key in Found(p.storage) && Found(p.storage)[key].Request? &&
                                         Found(p.storage)[key].payload == payload)
            && (after != p.storage ==> Found(after) == Found(p.storage) - {key})
            && OwnKeys(after)
  {
    var payload := p.wire[key].payload;
    ScanAfterErase(p.storage, key);
    assert key in Found(p.storage) ==> key in p.storage && key !in p.storage - {key};
  }

  /** Other widgets write keys in the case they are made in. */
  predicate Canonical(step: Step)
  {
    step.Others? ==> OwnKeys(step.storage)
  }

  lemma {:induction false} KeysStayOwn(storage: Storage, steps: seq<Step>)
    requires OwnKeys(storage) && (forall i :: 0 <= i < |steps| ==> Canonical(steps[i]))
    requires Fold(Stepper(), Panel(storage, {}, map[]), steps).Some?
    ensures OwnKeys(Fold(Stepper(), Panel(storage, {}, map[]), steps).value.storage)
  {
    hide OwnKeys, ClearedSame;
    var step, inv := Stepper(), (p: Panel) => OneSendPerKey(p) && OwnKeys(p.storage);
    forall p, e | inv(p) && Canonical(e) && step(p, e).Some?
      ensures inv(step(p, e).value)
    {
      if e.Settle? { SettleErases(p, e.key, e.reply); }
    }
    FoldKeeps(step, Panel(storage, {}, map[]), steps, inv, (e: Step) => Canonical(e));
  }

  /** Step i is the click that sent this record, and no reply to that key has come since. */
  predicate SentAt(steps: seq<Step>, i: nat, key: string, record: Record)
    requires i < |steps|
  {
    steps[i] == Click(key, record) && forall j :: i < j < |steps| ==> !(steps[j].Settle? && steps[j].key == key)
  }

  lemma {:induction false} WireHoldsClicked(storage: Storage, steps: seq<Step>, key: string) returns (i: nat)
    requires Fold(Stepper(), Panel(storage, {}, map[]), steps).Some?
    requires key in Fold(Stepper(), Panel(storage, {}, map[]), steps).value.wire
    ensures i < |steps| && SentAt(steps, i, key, Fold(Stepper(), Panel(storage, {}, map[]), steps).value.wire[key])
    decreases |steps|
  {
    hide ClearedSame;
    var n := |steps| - 1;
    if steps[n].Click? && steps[n].key == key {
      i := n;
    } else {
      i := WireHoldsClicked(storage, steps[..n], key);
    }
  }

  /** In every run a reply erases a record exactly when it settles the request and the record stored under the key at
      that moment still holds the payload of the click it answers; every other record stays as it is. */
  lemma {:induction false} ErasesOnlyTheSubmitted(storage: Storage, steps: seq<Step>, key: string, r: Reply)
      returns (i: nat)
    requires OwnKeys(storage) && (forall j :: 0 <= j < |steps| ==> Canonical(steps[j]))
    requires Fold(Stepper(), Panel(storage, {}, map[]), steps).Some?
    requires Next(Fold(Stepper(), Panel(storage, {}, map[]), steps).value, Settle(key, r)).Some?
    ensures i < |steps| && steps[i].Click? && SentAt(steps, i, key, steps[i].rendered) && steps[i].rendered.Request?
    ensures var p := Fold(Stepper(), Panel(storage, {}, map[]), steps).value;
            var after, now := Next(p, Settle(key, r)).value.storage, Found(p.storage);
            && (after != p.storage <==> r != Unknown && key in now && now[key].Request? &&
                                         now[key].payload == steps[i].rendered.payload)
            && (after != p.storage ==> Found(after) == now - {key})
  {
    hide OwnKeys, Found, ClearedSame;
    OneRecoveryPerKey(storage, steps);
    KeysStayOwn(storage, steps);
    i := WireHoldsClicked(storage, steps, key);
    SettleErases(Fold(Stepper(), Panel(storage, {}, map[]), steps).value, key, r);
  }
}
