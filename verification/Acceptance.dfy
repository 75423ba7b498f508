/** One retain-close, pause or resume widget, its browser's storage, a lossy network and an idempotent server
    (mountStaticRetainAction and mountPaperLifecycleAction in dashboard/deployment-actions.js). Every step is the
    code between two awaits. */
module Acceptance {
  import opened Prelude
  import R = RecoveryPanel

  datatype Preview = Preview(id: string, contentDigest: string, expectedRevision: int)

  /** retainAcceptPayload and lifecycleAcceptPayload. */
  datatype Payload = Payload(preview: Preview, key: string)

  /** What readPendingAcceptance makes of the stored text, and what the widget holds in memory. */
  datatype Slot = Empty | Saved(payload: Payload) | Unreadable

  datatype Button = AcceptButton | RetryButton

  datatype Reply = Accepted(operation: string) | Failed(status: int, error: string)

  const NETWORK_ERROR := Failed(0, "command_failed")

  predicate KnownNoAcceptance(r: Reply)
  {
    r.Failed? && (r.status == 409 ||
                  (r.status == 503 && (r.error == "operation_worker_not_ready" ||
                                       r.error == "paper_close_convert_acceptance_unavailable" ||
                                       r.error == "paper_close_convert_preparation_unavailable")))
  }

  /** A reply that settles whether the request became an operation. */
  predicate Decisive(r: Reply)
  {
    r.Accepted? || KnownNoAcceptance(r)
  }

  // ---- the page ----

  /** previewing: a preview request is under way; acceptLive: an enabled accept button is on display; route:
      where requests of this page's kind and strategy go. */
  datatype Client = Client(storage: Slot, pending: Slot, preview: Option<Preview>, previewing: bool,
                           acceptedOperation: bool, acceptLive: bool, route: string)

  function Mounted(storage: Slot, route: string): Client
  {
    Client(storage, storage, None, false, false, false, route)
  }

  predicate CanPreview(c: Client)
  {
    c.pending == Empty && !c.acceptedOperation && !c.previewing
  }

  function PreviewClicked(c: Client): Client
  {
    c.(preview := None, previewing := true, acceptLive := false)
  }

  function PreviewReplied(c: Client, result: Option<Preview>, canAccept: bool): Client
  {
    c.(preview := result, previewing := false, acceptLive := canAccept && result.Some?)
  }

  /** The payload a click on accept would send: the saved one, or a new one under a fresh key. */
  function AcceptPayload(c: Client, key: string): Option<Payload>
  {
    if c.pending.Saved? then Some(c.pending.payload)
    else if c.pending == Empty && c.preview.Some? then Some(Payload(c.preview.value, key))
    else None
  }

  /** stored: the browser could write the record; nothing is sent otherwise. */
  function AcceptClicked(c: Client, key: string, stored: bool): Client
  {
    if c.pending != Empty then c.(acceptLive := c.acceptLive && !c.pending.Saved?)
    else if c.preview.None? || !stored then c.(acceptLive := false)
    else
      var slot := Saved(Payload(c.preview.value, key));
      c.(storage := slot, pending := slot, acceptLive := false)
  }

  /** The catch and success branches of submitPending; cleared: the browser could erase the record. */
  function Settled(c: Client, button: Button, r: Reply, cleared: bool): Client
  {
    if Decisive(r) then
      var shown := c.(acceptedOperation := c.acceptedOperation || r.Accepted?,
                      acceptLive := c.acceptLive && button == RetryButton);
      if cleared then shown.(pending := Empty, storage := Empty) else shown.(pending := Unreadable)
    else c.(acceptLive := c.acceptLive || button == AcceptButton)
  }

  class Widget {
    var storage: Slot
    var pending: Slot
    var preview: Option<Preview>
    var previewing: bool
    var acceptedOperation: bool
    var acceptLive: bool
    const route: string

    function State(): Client
      reads this
    {
      Client(storage, pending, preview, previewing, acceptedOperation, acceptLive, route)
    }

    /** Mounting: the only state that survives a reload is what the browser stored. */
    constructor (storage: Slot, kind: string, strategyId: string)
      ensures State() == Mounted(storage, R.RouteOf(kind, strategyId))
    {
      this.storage, pending, route := storage, storage, R.RouteOf(kind, strategyId);
      preview, previewing, acceptedOperation, acceptLive := None, false, false, false;
    }

    method ClickPreview() returns (send: bool)
      modifies this
      ensures send == CanPreview(old(State()))
      ensures State() == if send then PreviewClicked(old(State())) else old(State())
    {
      if pending != Empty || acceptedOperation || previewing { return false; }
      previewing, acceptLive := true, false;
      preview := None;
      send := true;
    }

    method PreviewReply(result: Option<Preview>, canAccept: bool)
      modifies this
      ensures State() == PreviewReplied(old(State()), result, canAccept)
    {
      preview := result;
      acceptLive := canAccept && result.Some?;
      previewing := false;
    }

    /** The record is stored before the request is sent. */
    method ClickAccept(key: string, stored: bool) returns (send: Option<(string, Payload)>)
      modifies this
      ensures State() == AcceptClicked(old(State()), key, stored)
      ensures var p := AcceptPayload(old(State()), key);
              send == if p.None? || (old(pending) == Empty && !stored) then None else Some((route, p.value))
      ensures send.Some? ==> storage == Saved(send.value.1) || old(pending) == Saved(send.value.1)
    {
      if pending != Empty {
        if !pending.Saved? { return None; }
        acceptLive := false;
        return Some((route, pending.payload));
      }
      acceptLive := false;
      if preview.None? || !stored { return None; }
      var payload := Payload(preview.value, key);
      storage := Saved(payload);
      pending := storage;
      send := Some((route, payload));
    }

    method Settle(button: Button, r: Reply, cleared: bool)
      modifies this
      ensures State() == Settled(old(State()), button, r, cleared)
    {
      if Decisive(r) {
        if r.Accepted? { acceptedOperation := true; }
        if button == AcceptButton { acceptLive := false; }
        ClearPending(cleared);
      } else if button == AcceptButton {
        acceptLive := true;
      }
    }

    method ClearPending(cleared: bool)
      modifies this`pending, this`storage
      ensures pending == if cleared then Empty else Unreadable
      ensures storage == if cleared then Empty else old(storage)
    {
      if cleared {
        pending, storage := Empty, Empty;
      } else {
        pending := Unreadable;
      }
    }
  }

  // ---- the whole system ----

  /** A request that may still reach the server, and its reply once the server has made one. A page that was reloaded,
      or that was told of a network error, has given the request up, but the request itself goes on. */
  datatype Flight = Flight(payload: Payload, button: Button, route: string, reply: Option<Reply>, live: bool)

  datatype Operation = Operation(id: string, payload: Payload)

  /** wire and sent: the newest first; sent: every request ever sent; took: the keys sent, each with the route it took;
      told: the keys whose acceptance the page has learnt; closed: the keys for which it has had a decisive reply;
      erased: the keys whose record it has erased; keys and previews: every key and every preview there has been;
      retryDecided: the retry button has had a decisive reply since the preview was shown. */
  datatype System = System(client: Client, wire: seq<Flight>, operations: map<string, Operation>,
                           sent: seq<Payload>, took: set<(string, string)>, told: set<string>, closed: set<string>,
                           erased: set<string>, keys: set<string>, previews: set<string>, retryDecided: bool)

  /** What the server does with a request: refuse it without effect, create an operation (and answer, or fail
      afterwards), or find the operation it already made. */
  datatype Outcome = Refuse(reply: Reply) | Create(id: string, reply: Reply) | Replay

  /** The lookup by key comes first. Nothing here keeps a second key from making a second operation. */
  predicate Possible(operations: map<string, Operation>, p: Payload, o: Outcome)
  {
    match o
    case Refuse(r) => r.Failed? && (p.key in operations && operations[p.key].payload == p ==> !KnownNoAcceptance(r))
    case Create(id, r) => p.key !in operations && (r == Accepted(id) || (r.Failed? && !KnownNoAcceptance(r)))
    case Replay => p.key in operations && operations[p.key].payload == p
  }

  function OutcomeReply(operations: map<string, Operation>, p: Payload, o: Outcome): Reply
    requires Possible(operations, p, o)
  {
    match o
    case Refuse(r) => r
    case Create(_, r) => r
    case Replay => Accepted(operations[p.key].id)
  }

  /** Lose: the page gives a request up on a network error. Vanish: a request given up never has an effect again. */
  datatype Step =
    | Reload(route: string)
    | ClickPreview
    | PreviewReply(result: Option<Preview>, canAccept: bool)
    | ClickAccept(key: string, stored: bool)
    | ClickRetry
    | Process(at: nat, outcome: Outcome)
    | Deliver(at: nat, cleared: bool)
    | Lose(at: nat)
    | Vanish(at: nat)

  function Launched(s: System, client: Client, p: Payload, button: Button): System
  {
    s.(client := client, wire := [Flight(p, button, client.route, None, true)] + s.wire, sent := [p] + s.sent,
       took := s.took + {(p.key, client.route)}, keys := s.keys + {p.key})
  }

  function Without(wire: seq<Flight>, at: nat): (r: seq<Flight>)
    requires at < |wire|
    ensures |r| == |wire| - 1
    ensures forall i :: 0 <= i < |r| ==> r[i] == wire[if i < at then i else i + 1]
  {
    if at == 0 then wire[1..] else [wire[0]] + Without(wire[1..], at - 1)
  }

  function KeyOf(slot: Slot): set<string>
  {
    if slot.Saved? then {slot.payload.key} else {}
  }

  function Delivered(s: System, at: nat, r: Reply, cleared: bool): System
    requires at < |s.wire|
  {
    var f := s.wire[at];
    s.(client := Settled(s.client, f.button, r, cleared), wire := Without(s.wire, at),
       told := if r.Accepted? then s.told + {f.payload.key} else s.told,
       closed := if Decisive(r) then s.closed + {f.payload.key} else s.closed,
       erased := if Decisive(r) && cleared then s.erased + KeyOf(s.client.storage) else s.erased,
       retryDecided := s.retryDecided || (Decisive(r) && f.button == RetryButton))
  }

  function Lost(s: System, at: nat): System
    requires at < |s.wire|
  {
    var f := s.wire[at];
    s.(client := Settled(s.client, f.button, NETWORK_ERROR, false), wire := s.wire[at := f.(live := false)])
  }

  function Abandoned(wire: seq<Flight>): (r: seq<Flight>)
    ensures |r| == |wire| && forall i :: 0 <= i < |r| ==> r[i] == wire[i].(live := false)
  {
    if wire == [] then [] else [wire[0].(live := false)] + Abandoned(wire[1..])
  }

  function Processed(s: System, at: nat, o: Outcome): System
    requires at < |s.wire| && Possible(s.operations, s.wire[at].payload, o)
  {
    var f := s.wire[at];
    var r := OutcomeReply(s.operations, f.payload, o);
    var operations := if o.Create? then s.operations[f.payload.key := Operation(o.id, f.payload)] else s.operations;
    s.(wire := s.wire[at := f.(reply := Some(r))], operations := operations)
  }

  function Next(s: System, step: Step): Option<System>
  {
    match step
    case Reload(route) =>
      Some(s.(client := Mounted(s.client.storage, route), wire := Abandoned(s.wire), retryDecided := false))
    case ClickPreview => if CanPreview(s.client) then Some(s.(client := PreviewClicked(s.client))) else None
    case PreviewReply(result, canAccept) =>
      if !s.client.previewing then None
      else Some(s.(client := PreviewReplied(s.client, result, canAccept), retryDecided := false,
                   previews := if result.Some? then s.previews + {result.value.id} else s.previews))
    case ClickAccept(key, stored) =>
      if !s.client.acceptLive || key in s.keys then None
      else
        var client, p := AcceptClicked(s.client, key, stored), AcceptPayload(s.client, key);
        if p.None? || (s.client.pending == Empty && !stored) then Some(s.(client := client))
        else Some(Launched(s, client, p.value, AcceptButton))
    case ClickRetry =>
      if s.client.pending.Saved? then Some(Launched(s, s.client, s.client.pending.payload, RetryButton)) else None
    case Process(at, o) =>
      if at >= |s.wire| || s.wire[at].reply.Some? || !Possible(s.operations, s.wire[at].payload, o) then None
      else Some(Processed(s, at, o))
    case Deliver(at, cleared) =>
      if at >= |s.wire| || !s.wire[at].live || s.wire[at].reply.None? then None
      else Some(Delivered(s, at, s.wire[at].reply.value, cleared))
    case Lose(at) =>
      if at >= |s.wire| || !s.wire[at].live then None else Some(Lost(s, at))
    case Vanish(at) =>
      if at >= |s.wire| || s.wire[at].live then None else Some(s.(wire := Without(s.wire, at)))
  }

  function Stepper(): (System, Step) -> Option<System>
  {
    (s, step) => Next(s, step)
  }

  /** One send outstanding: no request is sent while another can still reach the server, page or no page. */
  predicate Single(s: System)
  {
    |s.wire| <= 1
  }

  function SoloNext(s: System, step: Step): Option<System>
  {
    match Next(s, step) case None => None case Some(after) => if Single(after) then Some(after) else None
  }

  function SoloStepper(): (System, Step) -> Option<System>
  {
    (s, step) => SoloNext(s, step)
  }

  /** The page a run begins with. */
  datatype Mount = Mount(storage: Slot, route: string)

  function Start(mount: Mount): System
  {
    System(Mounted(mount.storage, mount.route), [], map[], [], {}, {}, {}, {}, KeyOf(mount.storage),
           if mount.storage.Saved? then {mount.storage.payload.preview.id} else {}, false)
  }

  // ---- what every step keeps while one send is outstanding ----

  /** Memory and storage agree, and a request on its way is the stored one. */
  predicate Aligned(s: System)
  {
    var c := s.client;
    && (c.pending.Saved? ==> c.storage == c.pending)
    && (c.pending == Empty ==> c.storage == Empty)
    && (c.previewing ==> c.pending == Empty && !c.acceptLive)
    && Single(s) && (s.wire != [] ==> c.pending == Saved(s.wire[0].payload) && s.wire[0].payload in s.sent)
  }

  /** A key is only ever sent with one payload, and the stored record agrees with it. */
  predicate Unchanging(s: System)
  {
    && (forall i, j :: 0 <= i < |s.sent| && 0 <= j < |s.sent| && s.sent[i].key == s.sent[j].key ==>
        s.sent[i] == s.sent[j])
    && KeyOf(s.client.storage) <= s.keys
    && (s.client.storage.Saved? ==>
          forall i :: 0 <= i < |s.sent| && s.sent[i].key == s.client.storage.payload.key ==>
            s.sent[i] == s.client.storage.payload)
  }

  /** A sent key without a decisive reply is still stored. */
  predicate Open(s: System)
  {
    forall i :: 0 <= i < |s.sent| ==>
      s.sent[i].key in s.keys && (s.sent[i].key in s.closed || s.client.storage == Saved(s.sent[i]))
  }

  /** Operations come from requests; each is known to the page or can still be recovered. */
  predicate Recoverable(s: System)
  {
    forall k :: k in s.operations ==>
      && s.operations[k].payload.key == k && s.operations[k].payload in s.sent
      && (k in s.told || s.client.storage == Saved(s.operations[k].payload))
  }

  /** A reply on its way says what is so. */
  predicate Truthful(s: System)
  {
    forall i :: 0 <= i < |s.wire| && s.wire[i].reply.Some? ==>
      var key, r := s.wire[i].payload.key, s.wire[i].reply.value;
      && (r.Accepted? ==> key in s.operations && s.operations[key].id == r.operation)
      && (KnownNoAcceptance(r) ==> key !in s.operations)
  }

  predicate Kept(s: System)
  {
    Aligned(s) && Unchanging(s) && Open(s) && Recoverable(s) && Truthful(s)
  }

  lemma {:induction false} LaunchKeeps(s: System, client: Client, p: Payload, button: Button)
    requires Kept(s) && s.wire == []
    requires client.pending == Saved(p) && client.storage == client.pending && !client.previewing
    requires s.client.storage == client.storage || (s.client.storage == Empty && p.key !in s.keys)
    ensures Kept(Launched(s, client, p, button))
  {
    var after := Launched(s, client, p, button);
    assert after.sent[0] == p;
    forall i | 0 <= i < |s.sent|
      ensures s.sent[i].key == p.key ==> s.sent[i] == p
    {
    }
  }

  lemma {:induction false} DeliverKeeps(s: System, r: Reply, cleared: bool)
    requires Kept(s) && s.wire != [] && s.wire[0].reply == Some(r)
    ensures Kept(Delivered(s, 0, r, cleared))
  {
    var after := Delivered(s, 0, r, cleared);
    assert after.wire == [];
    var p := s.wire[0].payload;
    assert s.client.storage == Saved(p);
  }

  lemma {:induction false} ProcessKeeps(s: System, o: Outcome)
    requires Kept(s) && s.wire != [] && s.wire[0].reply.None? && Possible(s.operations, s.wire[0].payload, o)
    ensures Kept(Processed(s, 0, o))
  {
    var p := s.wire[0].payload;
    assert p.key in s.operations ==> s.operations[p.key].payload == p;
  }

  lemma {:induction false} VanishKeeps(s: System)
    requires Kept(s) && s.wire != []
    ensures Kept(s.(wire := Without(s.wire, 0)))
  {
    assert Without(s.wire, 0) == [];
  }

  lemma {:induction false} GivingUpKeeps(s: System)
    requires Kept(s)
    ensures forall route :: Kept(Next(s, Reload(route)).value)
    ensures s.wire != [] ==> Kept(Lost(s, 0))
  {
  }

  lemma {:induction false} StepKeeps(s: System, step: Step)
    requires Kept(s) && SoloNext(s, step).Some?
    ensures Kept(SoloNext(s, step).value)
  {
    hide Kept;
    match step
    case Reload(_) => GivingUpKeeps(s);
    case ClickPreview => PreviewKeeps(s, step);
    case PreviewReply(_, _) => PreviewKeeps(s, step);
    case ClickAccept(key, stored) => AcceptKeeps(s, key, stored);
    case ClickRetry => RetryKeeps(s);
    case _ => WireKeeps(s, step);
  }

  lemma {:induction false} PreviewKeeps(s: System, step: Step)
    requires Kept(s) && Next(s, step).Some? && (step.ClickPreview? || step.PreviewReply?)
    ensures Kept(Next(s, step).value)
  {
  }

  lemma {:induction false} AcceptKeeps(s: System, key: string, stored: bool)
    requires Kept(s) && SoloNext(s, ClickAccept(key, stored)).Some?
    ensures Kept(Next(s, ClickAccept(key, stored)).value)
  {
    var client, p := AcceptClicked(s.client, key, stored), AcceptPayload(s.client, key);
    if p.Some? && (s.client.pending != Empty || stored) { LaunchKeeps(s, client, p.value, AcceptButton); }
  }

  lemma {:induction false} RetryKeeps(s: System)
    requires Kept(s) && SoloNext(s, ClickRetry).Some?
    ensures Kept(Next(s, ClickRetry).value)
  {
    LaunchKeeps(s, s.client, s.client.pending.payload, RetryButton);
  }

  /** The one request on its way is taken up, answered, given up, or gone. */
  lemma {:induction false} WireKeeps(s: System, step: Step)
    requires Kept(s) && Next(s, step).Some? && (step.Process? || step.Deliver? || step.Lose? || step.Vanish?)
    ensures Kept(Next(s, step).value)
  {
    hide Delivered, Processed, Lost, Unchanging, Open, Recoverable, Truthful;
    assert step.at == 0;
    match step
    case Process(_, o) => ProcessKeeps(s, o);
    case Deliver(_, cleared) => DeliverKeeps(s, s.wire[0].reply.value, cleared);
    case Lose(_) => GivingUpKeeps(s);
    case Vanish(_) => VanishKeeps(s);
    case _ =>
  }

  lemma {:induction false} RunKeeps(mount: Mount, steps: seq<Step>)
    requires Fold(SoloStepper(), Start(mount), steps).Some?
    ensures Kept(Fold(SoloStepper(), Start(mount), steps).value)
  {
    var step, inv := SoloStepper(), (s: System) => Kept(s);
    forall s, e | inv(s) && step(s, e).Some?
      ensures inv(step(s, e).value)
    {
      StepKeeps(s, e);
    }
    FoldKeeps(step, Start(mount), steps, inv, (e: Step) => true);
  }

  /** Over every run in which no request is sent while another can still reach the server, with lost replies, retries
      and reloads in the middle of a request: at most one key is unresolved, and it is the stored one; a key is only
      sent with one payload, and by one route unless the page is mounted again for another; no preview is open or
      possible while a key is unresolved; and every operation is known to the page or can be recovered from storage. */
  lemma {:induction false} RunIsSafe(mount: Mount, steps: seq<Step>)
    requires Fold(SoloStepper(), Start(mount), steps).Some?
    ensures var s := Fold(SoloStepper(), Start(mount), steps).value;
            && (forall i, j ::
                  0 <= i < |s.sent| && 0 <= j < |s.sent| && s.sent[i].key !in s.closed && s.sent[j].key !in s.closed ==>
                  s.sent[i] == s.sent[j] && s.client.storage == Saved(s.sent[i]))
            && (forall i, j :: 0 <= i < |s.sent| && 0 <= j < |s.sent| && s.sent[i].key == s.sent[j].key ==>
                s.sent[i] == s.sent[j])
            && (CanPreview(s.client) || s.client.previewing ==> forall i :: 0 <= i < |s.sent| ==>
                s.sent[i].key in s.closed)
            && (forall k :: k in s.operations ==> k in s.told || s.client.storage == Saved(s.operations[k].payload))
            && (OneRoute(mount, steps) ==> forall key, route :: (key, route) in s.took ==> route == mount.route)
  {
    RunKeeps(mount, steps);
    if OneRoute(mount, steps) { RoutesStay(mount, steps); }
  }

  /** The page is only ever mounted for the same route. */
  predicate OneRoute(mount: Mount, steps: seq<Step>)
  {
    forall i :: 0 <= i < |steps| && steps[i].Reload? ==> steps[i].route == mount.route
  }

  /** A resend takes the route of the first send. */
  lemma {:induction false} RoutesStay(mount: Mount, steps: seq<Step>)
    requires Fold(SoloStepper(), Start(mount), steps).Some? && OneRoute(mount, steps)
    ensures forall key, route :: (key, route) in Fold(SoloStepper(), Start(mount), steps).value.took ==>
            route == mount.route
  {
    var step, inv := SoloStepper(), (s: System) => RoutedBy(s, mount.route);
    var sane := (e: Step) => e.Reload? ==> e.route == mount.route;
    forall s, e | inv(s) && sane(e) && step(s, e).Some?
      ensures inv(step(s, e).value)
    {
      StepKeepsRoute(s, e, mount.route);
    }
    FoldKeeps(step, Start(mount), steps, inv, sane);
  }

  lemma {:induction false} StepKeepsRoute(s: System, step: Step, route: string)
    requires RoutedBy(s, route) && SoloNext(s, step).Some? && (step.Reload? ==> step.route == route)
    ensures RoutedBy(SoloNext(s, step).value, route)
  {
    hide Without, Abandoned;
  }

  ghost predicate RoutedBy(s: System, route: string)
  {
    s.client.route == route && forall key, r :: (key, r) in s.took ==> r == route
  }

  /** A readable record leaves the storage only when a decisive reply to that very request is delivered. */
  lemma {:induction false} RecordGoesOnDecision(mount: Mount, steps: seq<Step>, step: Step)
    requires Fold(SoloStepper(), Start(mount), steps).Some?
    requires var s := Fold(SoloStepper(), Start(mount), steps).value;
             && SoloNext(s, step).Some? && s.client.storage.Saved?
             && SoloNext(s, step).value.client.storage != s.client.storage
    ensures var s := Fold(SoloStepper(), Start(mount), steps).value;
            && step.Deliver? && step.cleared && s.wire != [] && s.wire[0].payload == s.client.storage.payload
            && s.wire[0].reply.Some? && Decisive(s.wire[0].reply.value)
            && SoloNext(s, step).value.client.storage == Empty
  {
    RunKeeps(mount, steps);
  }

  // ---- any number of sends: which operations are lost ----

  /** What holds in every run, however many requests are on their way. */
  predicate Traced(s: System)
  {
    && (s.client.pending.Saved? ==> s.client.storage == s.client.pending)
    && (s.client.pending == Empty ==> s.client.storage == Empty)
    && KeyOf(s.client.storage) <= s.keys
    && (forall i :: 0 <= i < |s.sent| ==>
          s.sent[i].key in s.keys && (s.sent[i].key in s.erased || s.client.storage == Saved(s.sent[i])))
    && (forall i :: 0 <= i < |s.wire| ==> s.wire[i].payload in s.sent)
    && (forall k :: k in s.operations ==> s.operations[k].payload.key == k && s.operations[k].payload in s.sent)
  }

  lemma {:induction false} LaunchTraces(s: System, client: Client, p: Payload, button: Button)
    requires Traced(s) && client.pending == client.storage == Saved(p)
    requires s.client.storage == client.storage || s.client.storage == Empty
    ensures Traced(Launched(s, client, p, button))
  {
    var after := Launched(s, client, p, button);
    assert after.sent[0] == p;
    assert forall q :: q in s.sent ==> q in after.sent;
  }

  lemma {:induction false} DeliverTraces(s: System, at: nat, r: Reply, cleared: bool)
    requires Traced(s) && at < |s.wire|
    ensures Traced(Delivered(s, at, r, cleared))
  {
  }

  lemma {:induction false} ProcessTraces(s: System, at: nat, o: Outcome)
    requires Traced(s) && at < |s.wire| && Possible(s.operations, s.wire[at].payload, o)
    ensures Traced(Processed(s, at, o))
  {
  }

  lemma {:induction false} StepTraces(s: System, step: Step)
    requires Traced(s) && Next(s, step).Some?
    ensures Traced(Next(s, step).value)
  {
    hide Delivered, Processed, Traced;
    match step
    case Deliver(at, cleared) => DeliverTraces(s, at, s.wire[at].reply.value, cleared);
    case Process(at, o) => ProcessTraces(s, at, o);
    case ClickAccept(_, _) => SendTraces(s, step);
    case ClickRetry => SendTraces(s, step);
    case _ => QuietTraces(s, step);
  }

  lemma {:induction false} SendTraces(s: System, step: Step)
    requires Traced(s) && Next(s, step).Some? && (step.ClickAccept? || step.ClickRetry?)
    ensures Traced(Next(s, step).value)
  {
    if step.ClickRetry? {
      LaunchTraces(s, s.client, s.client.pending.payload, RetryButton);
    } else {
      var client, p := AcceptClicked(s.client, step.key, step.stored), AcceptPayload(s.client, step.key);
      if p.Some? && (s.client.pending != Empty || step.stored) { LaunchTraces(s, client, p.value, AcceptButton); }
    }
  }

  lemma {:induction false} QuietTraces(s: System, step: Step)
    requires Traced(s) && Next(s, step).Some?
    requires !step.Deliver? && !step.Process? && !step.ClickAccept? && !step.ClickRetry?
    ensures Traced(Next(s, step).value)
  {
  }

  /** In every run, every operation is stored, or is one whose record a decisive reply erased. */
  lemma {:induction false} OperationStoredOrErased(mount: Mount, steps: seq<Step>)
    requires Fold(Stepper(), Start(mount), steps).Some?
    ensures var s := Fold(Stepper(), Start(mount), steps).value;
            Traced(s) && forall k :: k in s.operations ==>
              k in s.erased || s.client.storage == Saved(s.operations[k].payload)
  {
    var step, inv := Stepper(), (s: System) => Traced(s);
    forall s, e | inv(s) && step(s, e).Some?
      ensures inv(step(s, e).value)
    {
      StepTraces(s, e);
    }
    FoldKeeps(step, Start(mount), steps, inv, (e: Step) => true);
  }

  /** The operation of this key exists, the page was not told and no longer waits to be, and no record leads back to
      it. */
  predicate Orphan(s: System, key: string)
  {
    && key in s.operations && key !in s.told && key !in KeyOf(s.client.storage)
    && forall i :: 0 <= i < |s.wire| && s.wire[i].payload.key == key ==> !s.wire[i].live
  }

  /** Some course of events makes it an orphan. */
  ghost predicate Orphanable(s: System, key: string)
  {
    exists steps :: Fold(Stepper(), s, steps).Some? && Orphan(Fold(Stepper(), s, steps).value, key)
  }

  /** A request under this key that the server has not taken up yet. */
  predicate Untaken(f: Flight, key: string)
  {
    f.payload.key == key && f.reply.None?
  }

  ghost predicate AnyUntaken(s: System, key: string)
  {
    exists i :: 0 <= i < |s.wire| && Untaken(s.wire[i], key)
  }

  /** The page knows the key no longer, the server has made nothing of it, and nothing is left that could. */
  predicate Gone(s: System, key: string)
  {
    && key in s.keys && key !in s.operations && key !in KeyOf(s.client.storage) && key !in KeyOf(s.client.pending)
    && forall i :: 0 <= i < |s.wire| ==> !Untaken(s.wire[i], key)
  }

  lemma {:induction false} GoneStays(s: System, key: string, steps: seq<Step>)
    requires Gone(s, key) && Fold(Stepper(), s, steps).Some?
    ensures Gone(Fold(Stepper(), s, steps).value, key)
  {
    var step, inv := Stepper(), (t: System) => Gone(t, key);
    forall t, e | inv(t) && step(t, e).Some?
      ensures inv(step(t, e).value)
    {
      StepKeepsGone(t, e, key);
    }
    FoldKeeps(step, s, steps, inv, (e: Step) => true);
  }

  lemma {:induction false} StepKeepsGone(s: System, step: Step, key: string)
    requires Gone(s, key) && Next(s, step).Some?
    ensures Gone(Next(s, step).value, key)
  {
    hide Settled, Delivered, Launched, AcceptClicked, AcceptPayload, Processed;
    match step
    case ClickAccept(_, _) => ClickKeepsGone(s, step, key);
    case ClickRetry => ClickKeepsGone(s, step, key);
    case Process(at, o) => ProcessKeepsGone(s, at, o, key);
    case Deliver(at, cleared) => DeliverKeepsGone(s, at, s.wire[at].reply.value, cleared, key);
    case Lose(at) => LoseKeepsGone(s, at, key);
    case _ =>
  }

  lemma {:induction false} ClickKeepsGone(s: System, step: Step, key: string)
    requires Gone(s, key) && Next(s, step).Some? && (step.ClickAccept? || step.ClickRetry?)
    ensures Gone(Next(s, step).value, key)
  {
  }

  lemma {:induction false} ProcessKeepsGone(s: System, at: nat, o: Outcome, key: string)
    requires Gone(s, key) && at < |s.wire| && s.wire[at].reply.None?
    requires Possible(s.operations, s.wire[at].payload, o)
    ensures Gone(Processed(s, at, o), key)
  {
    assert !Untaken(s.wire[at], key);
  }

  lemma {:induction false} DeliverKeepsGone(s: System, at: nat, r: Reply, cleared: bool, key: string)
    requires Gone(s, key) && at < |s.wire|
    ensures Gone(Delivered(s, at, r, cleared), key)
  {
  }

  lemma {:induction false} LoseKeepsGone(s: System, at: nat, key: string)
    requires Gone(s, key) && at < |s.wire|
    ensures Gone(Lost(s, at), key)
  {
  }

  lemma {:induction false} ToldStays(s: System, key: string, steps: seq<Step>)
    requires key in s.told && Fold(Stepper(), s, steps).Some?
    ensures key in Fold(Stepper(), s, steps).value.told
  {
    FoldKeeps(Stepper(), s, steps, (t: System) => key in t.told, (e: Step) => true);
  }

  /** When a decisive reply erases the stored record, the record's operation can be lost exactly if the page has not
      been told of it and the server has made it already or still has a request for it before it. */
  lemma {:induction false} EraseOrphansExactlyWhen(mount: Mount, steps: seq<Step>, at: nat)
    requires Fold(Stepper(), Start(mount), steps).Some?
    requires var s := Fold(Stepper(), Start(mount), steps).value;
             && s.client.storage.Saved? && Next(s, Deliver(at, true)).Some? && Decisive(s.wire[at].reply.value)
    ensures var s := Fold(Stepper(), Start(mount), steps).value;
            var after, key := Next(s, Deliver(at, true)).value, s.client.storage.payload.key;
            Orphanable(after, key) <==> key !in after.told && (key in after.operations || AnyUntaken(after, key))
  {
    var s := Fold(Stepper(), Start(mount), steps).value;
    var after, key := Next(s, Deliver(at, true)).value, s.client.storage.payload.key;
    OperationStoredOrErased(mount, steps);
    if key in after.told {
      forall es | Fold(Stepper(), after, es).Some?
        ensures !Orphan(Fold(Stepper(), after, es).value, key)
      {
        ToldStays(after, key, es);
      }
    } else if key in after.operations {
      LostOnReload(after, key);
    } else if AnyUntaken(after, key) {
      TakenUpLate(after, key);
    } else {
      forall es | Fold(Stepper(), after, es).Some?
        ensures !Orphan(Fold(Stepper(), after, es).value, key)
      {
        GoneStays(after, key, es);
      }
    }
  }

  lemma {:induction false} TakenUpLate(s: System, key: string)
    requires key !in s.operations && key !in s.told && key !in KeyOf(s.client.storage) && AnyUntaken(s, key)
    ensures Orphanable(s, key)
  {
    var i :| 0 <= i < |s.wire| && Untaken(s.wire[i], key);
    var late := Process(i, Create("", Accepted("")));
    LostOnReload(Next(s, late).value, key);
    var steps :| Fold(Stepper(), Next(s, late).value, steps).Some? &&
      Orphan(Fold(Stepper(), Next(s, late).value, steps).value, key);
    assert [late][..0] == [] && Fold(Stepper(), s, [late]) == Next(s, late);
    FoldConcat(Stepper(), s, [late], steps);
    assert Fold(Stepper(), s, [late] + steps).Some?;
  }

  /** A reload gives up every request whose reply would have told the page. */
  lemma {:induction false} LostOnReload(s: System, key: string)
    requires key in s.operations && key !in s.told && key !in KeyOf(s.client.storage)
    ensures Orphanable(s, key)
  {
    var reload := Reload(s.client.route);
    assert [reload][..0] == [] && Fold(Stepper(), s, [reload]) == Next(s, reload);
    assert Orphan(Next(s, reload).value, key);
  }

  // ---- when one preview is sent under two keys ----

  /** The server gives every preview an id of its own. */
  function FreshNext(s: System, step: Step): Option<System>
  {
    if step.PreviewReply? && step.result.Some? && step.result.value.id in s.previews then None else SoloNext(s, step)
  }

  function FreshStepper(): (System, Step) -> Option<System>
  {
    (s, step) => FreshNext(s, step)
  }

  ghost predicate SentPreview(s: System, id: string)
  {
    exists i :: 0 <= i < |s.sent| && s.sent[i].preview.id == id
  }

  /** Some preview has gone out under two keys. */
  ghost predicate Doubled(s: System)
  {
    exists i, j :: 0 <= i < |s.sent| && 0 <= j < |s.sent| && s.sent[i].preview.id == s.sent[j].preview.id
                   && s.sent[i].key != s.sent[j].key
  }

  /** Accept is clicked with nothing pending after the retry button has had a decisive reply, on the same preview. */
  predicate SecondClick(s: System, step: Step)
  {
    && step.ClickAccept? && step.stored && s.client.acceptLive && s.client.pending == Empty && s.client.preview.Some?
    && s.retryDecided
  }

  ghost predicate AnySecondClick(mount: Mount, steps: seq<Step>)
    requires Fold(FreshStepper(), Start(mount), steps).Some?
  {
    exists n :: 0 <= n < |steps| && SecondClickAt(mount, steps, n)
  }

  ghost predicate SecondClickAt(mount: Mount, steps: seq<Step>, n: nat)
    requires n < |steps|
  {
    match Fold(FreshStepper(), Start(mount), steps[..n]) case None => false case Some(s) => SecondClick(s, steps[n])
  }

  /** Every preview in use is a known one; the open preview is the one that is pending; it has been sent if the retry
      button was decided, and, while accept is live with nothing pending, only then; a stored record not sent yet is
      the only one of its preview. */
  ghost predicate Shown(s: System)
  {
    var c := s.client;
    && (forall i :: 0 <= i < |s.sent| ==> s.sent[i].preview.id in s.previews)
    && (c.preview.Some? ==> c.preview.value.id in s.previews)
    && (c.storage.Saved? ==> c.storage.payload.preview.id in s.previews)
    && (c.preview.Some? && c.pending.Saved? ==> c.pending.payload.preview == c.preview.value)
    && (c.preview.Some? && s.retryDecided ==> SentPreview(s, c.preview.value.id))
    && (c.preview.Some? && c.pending == Empty && c.acceptLive && !s.retryDecided ==>
        !SentPreview(s, c.preview.value.id))
    && (c.storage.Saved? ==> c.storage.payload in s.sent || !SentPreview(s, c.storage.payload.preview.id))
  }

  lemma {:induction false} SentMore(s: System, client: Client, p: Payload, button: Button, id: string)
    ensures SentPreview(Launched(s, client, p, button), id) <==> SentPreview(s, id) || p.preview.id == id
  {
    var after := Launched(s, client, p, button);
    assert after.sent[0] == p && forall i :: 0 <= i < |s.sent| ==> after.sent[i + 1] == s.sent[i];
  }

  lemma {:induction false} DoubledMore(s: System, client: Client, p: Payload, button: Button)
    ensures Doubled(Launched(s, client, p, button)) <==>
            Doubled(s) ||
            exists i :: 0 <= i < |s.sent| && s.sent[i].preview.id == p.preview.id && s.sent[i].key != p.key
  {
    var after := Launched(s, client, p, button);
    assert after.sent[0] == p && forall i :: 0 <= i < |s.sent| ==> after.sent[i + 1] == s.sent[i];
  }

  lemma {:induction false} LaunchShows(s: System, client: Client, p: Payload, button: Button)
    requires Kept(s) && Shown(s) && s.wire == [] && client.pending == client.storage == Saved(p)
    requires client.preview == s.client.preview && p.preview.id in s.previews
    requires client.preview.Some? ==> p.preview == client.preview.value
    ensures Shown(Launched(s, client, p, button))
  {
    hide Kept;
    var after := Launched(s, client, p, button);
    assert after.sent[0] == p;
    forall id
      ensures SentPreview(after, id) <==> SentPreview(s, id) || p.preview.id == id
    {
      SentMore(s, client, p, button, id);
    }
  }

  lemma {:induction false} DeliverShows(s: System, r: Reply, cleared: bool)
    requires Kept(s) && Shown(s) && s.wire != [] && s.wire[0].reply == Some(r)
    ensures Shown(Delivered(s, 0, r, cleared))
  {
    var after, p := Delivered(s, 0, r, cleared), s.wire[0].payload;
    assert p in s.sent && SentPreview(s, p.preview.id);
    assert forall id :: SentPreview(after, id) <==> SentPreview(s, id);
  }

  /** Neither what was sent, nor the page but for the accept button, nor what it stored. */
  lemma {:induction false} GivingUpShows(s: System, step: Step)
    requires Kept(s) && Shown(s) && FreshNext(s, step).Some? && (step.Reload? || step.Lose?)
    ensures Shown(FreshNext(s, step).value)
  {
    SameSentShows(s, FreshNext(s, step).value);
  }

  lemma {:induction false} PreviewShows(s: System, step: Step)
    requires Kept(s) && Shown(s) && FreshNext(s, step).Some? && (step.ClickPreview? || step.PreviewReply?)
    ensures Shown(FreshNext(s, step).value)
  {
    SameSentShows(s, FreshNext(s, step).value);
  }

  lemma {:induction false} SameSentShows(s: System, after: System)
    requires after.sent == s.sent
    ensures forall id :: SentPreview(after, id) <==> SentPreview(s, id)
  {
  }

  /** The server takes a request up, a request given up is gone, or a click on accept sends nothing. */
  lemma {:induction false} QuietShows(s: System, step: Step)
    requires Kept(s) && Shown(s) && FreshNext(s, step).Some? && (step.Process? || step.Vanish? || step.ClickAccept?)
    requires FreshNext(s, step).value.sent == s.sent
    ensures Shown(FreshNext(s, step).value)
  {
    hide Kept, Without;
    SameSentShows(s, FreshNext(s, step).value);
  }

  lemma {:induction false} StepShows(s: System, step: Step)
    requires Kept(s) && Shown(s) && FreshNext(s, step).Some?
    ensures Shown(FreshNext(s, step).value)
  {
    hide Kept, Shown;
    match step
    case ClickAccept(key, stored) =>
      if FreshNext(s, step).value.sent == s.sent {
        QuietShows(s, step);
      } else {
        AcceptShows(s, key, stored);
      }
    case ClickRetry => RetryShows(s);
    case Deliver(at, cleared) => LandingShows(s, at, cleared);
    case Process(_, _) => QuietShows(s, step);
    case Vanish(_) => QuietShows(s, step);
    case Reload(_) => GivingUpShows(s, step);
    case Lose(_) => GivingUpShows(s, step);
    case _ => PreviewShows(s, step);
  }

  lemma {:induction false} LandingShows(s: System, at: nat, cleared: bool)
    requires Kept(s) && Shown(s) && FreshNext(s, Deliver(at, cleared)).Some?
    ensures Shown(FreshNext(s, Deliver(at, cleared)).value)
  {
    hide Shown, Delivered;
    DeliverShows(s, s.wire[0].reply.value, cleared);
  }

  lemma {:induction false} AcceptShows(s: System, key: string, stored: bool)
    requires Kept(s) && Shown(s) && FreshNext(s, ClickAccept(key, stored)).Some?
    requires FreshNext(s, ClickAccept(key, stored)).value.sent != s.sent
    ensures Shown(FreshNext(s, ClickAccept(key, stored)).value)
  {
    LaunchShows(s, AcceptClicked(s.client, key, stored), AcceptPayload(s.client, key).value, AcceptButton);
  }

  lemma {:induction false} RetryShows(s: System)
    requires Kept(s) && Shown(s) && FreshNext(s, ClickRetry).Some?
    ensures Shown(FreshNext(s, ClickRetry).value)
  {
    LaunchShows(s, s.client, s.client.pending.payload, RetryButton);
  }

  /** A step doubles a preview exactly when it is a second click on accept. */
  lemma {:induction false} StepDoubles(s: System, step: Step)
    requires Kept(s) && Shown(s) && FreshNext(s, step).Some?
    ensures Doubled(FreshNext(s, step).value) <==> Doubled(s) || SecondClick(s, step)
  {
    hide Shown;
    match step
    case ClickAccept(key, stored) =>
      if FreshNext(s, step).value.sent != s.sent { AcceptDoubles(s, key, stored); }
    case ClickRetry => RetryDoubles(s);
    case _ =>
  }

  lemma {:induction false} RetryDoubles(s: System)
    requires Kept(s) && Shown(s) && FreshNext(s, ClickRetry).Some?
    ensures Doubled(FreshNext(s, ClickRetry).value) <==> Doubled(s)
  {
    hide Shown, Doubled;
    ResentDoubles(s, s.client, s.client.pending.payload, RetryButton);
  }

  /** Sending a stored record again adds no second key. */
  lemma {:induction false} ResentDoubles(s: System, client: Client, p: Payload, button: Button)
    requires Kept(s) && Shown(s) && s.client.storage == Saved(p)
    ensures Doubled(Launched(s, client, p, button)) <==> Doubled(s)
  {
    hide Kept;
    DoubledMore(s, client, p, button);
    if p in s.sent {
      var j :| 0 <= j < |s.sent| && s.sent[j] == p;
      assert forall i :: 0 <= i < |s.sent| && s.sent[i].preview.id == p.preview.id && s.sent[i].key != p.key ==>
        s.sent[i].preview.id == s.sent[j].preview.id && s.sent[i].key != s.sent[j].key;
    }
  }

  lemma {:induction false} AcceptDoubles(s: System, key: string, stored: bool)
    requires Kept(s) && Shown(s) && FreshNext(s, ClickAccept(key, stored)).Some?
    requires FreshNext(s, ClickAccept(key, stored)).value.sent != s.sent
    ensures Doubled(FreshNext(s, ClickAccept(key, stored)).value) <==>
            Doubled(s) || SecondClick(s, ClickAccept(key, stored))
  {
    var client, p := AcceptClicked(s.client, key, stored), AcceptPayload(s.client, key).value;
    if s.client.pending.Saved? {
      ResentDoubles(s, client, p, AcceptButton);
    } else {
      DoubledMore(s, client, p, AcceptButton);
      assert forall i :: 0 <= i < |s.sent| ==> s.sent[i].key != key;
    }
  }

  lemma {:induction false} FreshIsSolo(mount: Mount, steps: seq<Step>)
    requires Fold(FreshStepper(), Start(mount), steps).Some?
    ensures Fold(SoloStepper(), Start(mount), steps) == Fold(FreshStepper(), Start(mount), steps)
    decreases |steps|
  {
    if steps != [] {
      hide Next;
      FreshIsSolo(mount, steps[..|steps| - 1]);
    }
  }

  /** In every run a preview has gone out under two keys exactly when accept was clicked with nothing pending after the
      retry button had had a decisive reply to that preview. */
  lemma {:induction false} SecondKeyExactlyWhen(mount: Mount, steps: seq<Step>)
    requires Fold(FreshStepper(), Start(mount), steps).Some?
    ensures Doubled(Fold(FreshStepper(), Start(mount), steps).value) <==> AnySecondClick(mount, steps)
    ensures Shown(Fold(FreshStepper(), Start(mount), steps).value)
    decreases |steps|
  {
    hide FreshNext, Kept, Shown, Doubled, SecondClick;
    if steps == [] {
      StartShown(mount);
    } else {
      var n := |steps| - 1;
      var front := steps[..n];
      SecondKeyExactlyWhen(mount, front);
      FreshIsSolo(mount, front);
      RunKeeps(mount, front);
      var before := Fold(FreshStepper(), Start(mount), front).value;
      StepShows(before, steps[n]);
      StepDoubles(before, steps[n]);
      SecondClicksSplit(mount, steps);
    }
  }

  lemma {:induction false} StartShown(mount: Mount)
    ensures Shown(Start(mount)) && !Doubled(Start(mount))
  {
  }

  lemma {:induction false} SecondClicksSplit(mount: Mount, steps: seq<Step>)
    requires steps != [] && Fold(FreshStepper(), Start(mount), steps).Some?
    ensures var n := |steps| - 1;
            AnySecondClick(mount, steps) <==> AnySecondClick(mount, steps[..n]) || SecondClickAt(mount, steps, n)
  {
    hide FreshNext, SecondClick;
    var n := |steps| - 1;
    forall i | 0 <= i < n
      ensures SecondClickAt(mount, steps, i) <==> SecondClickAt(mount, steps[..n], i)
    {
      assert steps[..n][..i] == steps[..i];
    }
  }

  /** Without such a click no preview becomes two operations, on any server that finds a key's operation again. */
  lemma {:induction false} OneOperationPerPreview(mount: Mount, steps: seq<Step>, j: string, k: string)
    requires Fold(FreshStepper(), Start(mount), steps).Some? && !AnySecondClick(mount, steps)
    requires var s := Fold(FreshStepper(), Start(mount), steps).value;
             j in s.operations && k in s.operations &&
               s.operations[j].payload.preview.id == s.operations[k].payload.preview.id
    ensures j == k
  {
    hide FreshNext, AnySecondClick, Shown;
    SecondKeyExactlyWhen(mount, steps);
    FreshIsSolo(mount, steps);
    RunKeeps(mount, steps);
  }

  // ---- runs that show what the conditions are needed for ----

  const ROUTE := "operations"

  ghost predicate Reached(stepper: (System, Step) -> Option<System>, s: System)
  {
    exists steps :: Fold(stepper, Start(Mount(Empty, ROUTE)), steps) == Some(s)
  }

  lemma {:induction false} ReachedNext(stepper: (System, Step) -> Option<System>, s: System, step: Step)
      returns (after: System)
    requires Reached(stepper, s) && stepper(s, step).Some?
    ensures stepper(s, step) == Some(after) && Reached(stepper, after)
  {
    var steps :| Fold(stepper, Start(Mount(Empty, ROUTE)), steps) == Some(s);
    assert (steps + [step])[..|steps|] == steps;
    after := stepper(s, step).value;
    assert Fold(stepper, Start(Mount(Empty, ROUTE)), steps + [step]) == Some(after);
  }

  function Page(slot: Slot, preview: Preview, accepted: bool, acceptLive: bool): Client
  {
    Client(slot, slot, Some(preview), false, accepted, acceptLive, ROUTE)
  }

  predicate Traffic(s: System, wire: seq<Flight>, sent: seq<Payload>)
  {
    s.wire == wire && s.sent == sent
  }

  /** An acceptance has just been sent. */
  predicate JustAccepted(s: System, preview: Preview, key: string)
  {
    var p := Payload(preview, key);
    && s.client == Page(Saved(p), preview, false, false)
    && Traffic(s, [Flight(p, AcceptButton, ROUTE, None, true)], [p])
    && s.operations == map[] && s.told == {} && s.keys == {key} && s.previews == {preview.id} && !s.retryDecided
  }

  lemma {:induction false} AcceptReached(stepper: (System, Step) -> Option<System>, preview: Preview, key: string)
      returns (s: System)
    requires stepper == Stepper() || stepper == FreshStepper()
    ensures Reached(stepper, s) && JustAccepted(s, preview, key)
  {
    s := Start(Mount(Empty, ROUTE));
    assert Fold(stepper, s, []) == Some(s);
    s := ReachedNext(stepper, s, ClickPreview);
    s := ReachedNext(stepper, s, PreviewReply(Some(preview), true));
    assert s.client == Page(Empty, preview, false, true) && s.previews == {preview.id};
    s := ReachedNext(stepper, s, ClickAccept(key, true));
  }

  lemma {:induction false} RetryReached(s: System, p: Payload) returns (after: System)
    requires Reached(Stepper(), s) && s.client.pending == Saved(p)
    ensures Reached(Stepper(), after) && after == Launched(s, s.client, p, RetryButton)
  {
    after := ReachedNext(Stepper(), s, ClickRetry);
  }

  /** The retry of a stored record is refused while the first request of its key, given up or not, is still on its way:
      the record is erased, the first request becomes an operation, and nobody is told. */
  lemma {:induction false} RefusedRetryOrphans(s: System, p: Payload, first: Flight, id: string) returns (end: System)
    requires Reached(Stepper(), s) && s.wire == [first] && first.payload == p && first.reply == None
    requires s.client.pending == s.client.storage == Saved(p) && p.key !in s.operations && p.key !in s.told
    ensures Reached(Stepper(), end) && Orphan(end, p.key) && end.wire == []
  {
    hide Settled;
    var refused := Failed(503, "operation_worker_not_ready");
    var second := Flight(p, RetryButton, s.client.route, None, true);
    end := RetryReached(s, p);
    assert end.wire == [second, first];
    end := ReachedNext(Stepper(), end, Process(0, Refuse(refused)));
    assert end.wire == [second.(reply := Some(refused)), first];
    end := RefusalErases(end, first, second.(reply := Some(refused)), refused);
    assert end.wire == [first];
    end := ReachedNext(Stepper(), end, Process(0, Create(id, Accepted(id))));
    assert end.wire == [first.(reply := Some(Accepted(id)))];
    end := ReplyNeverComes(end);
  }

  /** The last request on its way is given up, if it was not already, and its reply is lost. */
  lemma {:induction false} ReplyNeverComes(s: System) returns (end: System)
    requires Reached(Stepper(), s) && |s.wire| == 1
    ensures Reached(Stepper(), end) && end.wire == [] && end.operations == s.operations && end.told == s.told
    ensures end.client.storage == s.client.storage
  {
    end := s;
    if end.wire[0].live { end := ReachedNext(Stepper(), end, Lose(0)); }
    end := ReachedNext(Stepper(), end, Vanish(0));
  }

  lemma {:induction false} RefusalErases(s: System, first: Flight, second: Flight,
                                         refused: Reply) returns (after: System)
    requires Reached(Stepper(), s) && s.wire == [second, first] && second.live && second.reply == Some(refused)
    requires KnownNoAcceptance(refused)
    ensures Reached(Stepper(), after) && after.wire == [first] && after.client.storage == Empty
    ensures after.operations == s.operations && after.told == s.told
  {
    after := ReachedNext(Stepper(), s, Deliver(0, true));
    assert Without(s.wire, 0) == [first];
  }

  /** Two sends at once, the second refused: an operation nobody can recover. */
  lemma {:induction false} TwoSendsCanOrphan(preview: Preview, key: string, id: string) returns (s: System)
    ensures Reached(Stepper(), s) && Orphan(s, key) && s.wire == []
  {
    s := AcceptReached(Stepper(), preview, key);
    var flight := Flight(Payload(preview, key), AcceptButton, ROUTE, None, true);
    s := RefusedRetryOrphans(s, Payload(preview, key), flight, id);
  }

  /** The same with a page that never has two sends out: the first is left behind by a reload. */
  lemma {:induction false} ReloadCanOrphan(preview: Preview, key: string, id: string) returns (s: System)
    ensures Reached(Stepper(), s) && Orphan(s, key) && s.wire == []
  {
    var p := Payload(preview, key);
    s := AcceptReached(Stepper(), preview, key);
    var was := s;
    s := ReachedNext(Stepper(), s, Reload(ROUTE));
    assert s.wire == [Flight(p, AcceptButton, ROUTE, None, false)] && s.client == Mounted(Saved(p), ROUTE) &&
           s.operations == was.operations;
    s := RefusedRetryOrphans(s, p, Flight(p, AcceptButton, ROUTE, None, false), id);
  }

  lemma {:induction false} ReplyLost(preview: Preview, key: string) returns (s: System)
    ensures var p := Payload(preview, key);
            && Reached(FreshStepper(), s) && Traffic(s, [], [p]) && s.client == Page(Saved(p), preview, false, true)
            && s.operations == map[] && s.keys == {key}
  {
    s := AcceptReached(FreshStepper(), preview, key);
    s := ReachedNext(FreshStepper(), s, Lose(0));
    s := ReachedNext(FreshStepper(), s, Vanish(0));
    assert s.wire == [];
  }

  lemma {:induction false} RetrySucceeds(preview: Preview, key: string, id: string) returns (s: System)
    ensures Reached(FreshStepper(), s) && Traffic(s, [], [Payload(preview, key), Payload(preview, key)])
    ensures s.client == Page(Empty, preview, true, true) &&
            s.operations == map[key := Operation(id, Payload(preview, key))]
    ensures s.retryDecided && s.keys == {key}
  {
    var p := Payload(preview, key);
    s := ReplyLost(preview, key);
    s := ReachedNext(FreshStepper(), s, ClickRetry);
    assert s.wire == [Flight(p, RetryButton, ROUTE, None, true)] && s.sent == [p, p] && s.keys == {key};
    s := ReachedNext(FreshStepper(), s, Process(0, Create(id, Accepted(id))));
    assert s.wire == [Flight(p, RetryButton, ROUTE, Some(Accepted(id)), true)];
    s := ReachedNext(FreshStepper(), s, Deliver(0, true));
    assert s.wire == [];
  }

  /** One send at a time and yet two operations for one preview: accept is clicked again after a retry that succeeds. */
  lemma {:induction false} SecondKeyForOnePreview(preview: Preview, key: string, second: string,
        id: string, other: string) returns (s: System)
    requires key != second
    ensures Reached(FreshStepper(), s) && Doubled(s)
    ensures key in s.operations && second in s.operations
    ensures s.operations[key].payload.preview == s.operations[second].payload.preview == preview
  {
    s := RetrySucceeds(preview, key, id);
    s := ReachedNext(FreshStepper(), s, ClickAccept(second, true));
    assert s.sent == [Payload(preview, second), Payload(preview, key), Payload(preview, key)];
    assert s.sent[0].preview.id == s.sent[2].preview.id && s.sent[0].key != s.sent[2].key;
    s := ReachedNext(FreshStepper(), s, Process(0, Create(other, Accepted(other))));
  }
}
