/** The operator's shared CSRF session: one token, single-flight bootstrap and renewal, and requests that retry once
    (createOperatorSession in dashboard/operator-session.js). Every step is the code between two awaits. */
module OperatorSession {
  import opened Prelude

  type Token = string

  /** bootstrapPromise: who started it, and whether only its finally is still to run. */
  datatype Boot = Boot(force: bool, previous: Option<Token>, settled: bool)

  /** renewalPromise, numbered so that the callers waiting for it can be told apart. */
  datatype Renewal = Renewal(id: nat, settled: bool)

  datatype Session = Session(token: Option<Token>, boot: Option<Boot>, renewal: Option<Renewal>, nextId: nat)

  const NO_SESSION := Session(None, None, None, 0)

  datatype Reply = Success | Unauthorized | OtherFailure

  // ---- the closure's segments as functions of the session ----

  predicate StartsBoot(s: Session, force: bool)
  {
    (s.token.None? || force) && s.boot.None?
  }

  function Bootstrapped(s: Session, force: bool): Session
  {
    if StartsBoot(s, force) then s.(boot := Some(Boot(force, s.token, false))) else s
  }

  function BootFailed(s: Session): Session
    requires s.boot.Some?
  {
    var b := s.boot.value;
    s.(token := if b.force && s.token == b.previous then None else s.token, boot := Some(b.(settled := true)))
  }

  /** Clear a token only if it is still the current one. */
  function ClearSeen(s: Session, seen: Option<Token>): Session
  {
    if s.token == seen then s.(token := None) else s
  }

  function Renewing(s: Session): Session
  {
    if s.renewal.Some? then s else s.(renewal := Some(Renewal(s.nextId, false)), nextId := s.nextId + 1)
  }

  /** What a request does after its first reply was 401: wait for a renewal, or send again with the token that came
      in meanwhile. */
  datatype Retry = Wait(id: nat) | Again(token: Token)

  function AfterUnauthorized(s: Session, sent: Token): (Session, Retry)
  {
    var cleared := ClearSeen(s, Some(sent));
    if cleared.token.None? then var r := Renewing(cleared); (r, Wait(r.renewal.value.id))
    else (cleared, Again(cleared.token.value))
  }

  class OperatorSession {
    var csrfToken: Option<Token>
    var bootstrapPromise: Option<Boot>
    var renewalPromise: Option<Renewal>
    var nextId: nat

    function State(): Session
      reads this
    {
      Session(csrfToken, bootstrapPromise, renewalPromise, nextId)
    }

    constructor ()
      ensures State() == NO_SESSION
    {
      csrfToken, bootstrapPromise, renewalPromise, nextId := None, None, None, 0;
    }

    /** bootstrap: started when a session request goes out, ready when there is a token already. */
    method Bootstrap(force: bool) returns (ready: bool, started: bool)
      modifies this
      ensures ready <==> old(csrfToken).Some? && !force
      ensures started <==> StartsBoot(old(State()), force)
      ensures State() == Bootstrapped(old(State()), force)
    {
      ready, started := csrfToken.Some? && !force, false;
      if !ready && bootstrapPromise.None? {
        bootstrapPromise := Some(Boot(force, csrfToken, false));
        started := true;
      }
    }

    method BootCatch()
      requires bootstrapPromise.Some?
      modifies this
      ensures State() == BootFailed(old(State()))
    {
      var b := bootstrapPromise.value;
      if b.force && csrfToken == b.previous { csrfToken := None; }
      bootstrapPromise := Some(b.(settled := true));
    }

    /** renewSession */
    method Renew() returns (id: nat)
      modifies this
      ensures State() == Renewing(old(State())) && renewalPromise.Some? && id == renewalPromise.value.id
    {
      if renewalPromise.None? {
        renewalPromise := Some(Renewal(nextId, false));
        nextId := nextId + 1;
      }
      id := renewalPromise.value.id;
    }

    /** The catch block of request up to its next await. */
    method OnUnauthorized(sent: Token) returns (retry: Retry)
      modifies this
      ensures (State(), retry) == AfterUnauthorized(old(State()), sent)
    {
      if csrfToken == Some(sent) { csrfToken := None; }
      if csrfToken.None? {
        var id := Renew();
        return Wait(id);
      }
      retry := Again(csrfToken.value);
    }

    /** The inner catch: the retry's own token, which may be none. */
    method OnRetryUnauthorized(retryToken: Option<Token>)
      modifies this
      ensures State() == ClearSeen(old(State()), retryToken)
    {
      if csrfToken == retryToken { csrfToken := None; }
    }
  }

  // ---- many requests at once ----

  datatype Send = Send(token: Option<Token>, body: Option<string>)

  datatype Phase = First(token: Token) | Waiting(id: nat) | Second(retry: Option<Token>) | Finished

  /** One call of request: the body bytes it serialized, every send it made, and whether its first reply was 401. */
  datatype Call = Call(body: Option<string>, phase: Phase, sends: seq<Send>, refused: bool)

  /** issued: every token the server ever gave; cleared: the tokens given up, in order; outcomes: the settled
      renewals, each with the token it brought or None when it failed. */
  datatype System = System(session: Session, calls: map<nat, Call>, outcomes: map<nat, Option<Token>>,
                           issued: set<Token>, cleared: seq<Token>, renewals: nat)

  const EMPTY_SYSTEM := System(NO_SESSION, map[], map[], {}, [], 0)

  datatype Step =
    | Bootstrap(force: bool)
    | BootSuccess(token: Token)
    | BootFailure
    | BootFinally
    | Request(call: nat, body: Option<string>)
    | FirstReply(call: nat, reply: Reply)
    | Resume(call: nat)
    | SecondReply(call: nat, reply: Reply)
    | RenewSuccess(token: Token)
    | RenewFailure
    | RenewFinally

  function ClearedBy(before: Session, after: Session): seq<Token>
  {
    if before.token.Some? && after.token.None? then [before.token.value] else []
  }

  /** The session moved on; a token it gave up is counted. */
  function Moved(s: System, after: Session): System
  {
    s.(session := after, cleared := s.cleared + ClearedBy(s.session, after))
  }

  /** setCsrfToken with a token never issued before. */
  function Issued(s: System, after: Session, token: Token): System
  {
    s.(session := after.(token := Some(token)), issued := s.issued + {token})
  }

  predicate BootFlying(s: System)
  {
    s.session.boot.Some? && !s.session.boot.value.settled
  }

  predicate RenewFlying(s: System)
  {
    s.session.renewal.Some? && !s.session.renewal.value.settled
  }

  function Refused(s: System, id: nat, c: Call, sent: Token): System
  {
    var (after, retry) := AfterUnauthorized(s.session, sent);
    var next := match retry
      case Wait(n) => c.(phase := Waiting(n), refused := true)
      case Again(t) => c.(phase := Second(Some(t)), sends := c.sends + [Send(Some(t), c.body)], refused := true);
    Moved(s, after).(calls := s.calls[id := next])
  }

  function Next(s: System, step: Step): Option<System>
  {
    var session := s.session;
    match step
    case Bootstrap(force) => Some(s.(session := Bootstrapped(session, force)))
    case BootSuccess(t) =>
      if BootFlying(s) && t !in s.issued
      then Some(Issued(s, session.(boot := Some(session.boot.value.(settled := true))), t)) else None
    case BootFailure => if BootFlying(s) then Some(Moved(s, BootFailed(session))) else None
    case BootFinally =>
      if session.boot.Some? && session.boot.value.settled then Some(s.(session := session.(boot := None))) else None
    case Request(id, body) =>
      if session.token.Some? && id !in s.calls
      then
        var t := session.token.value;
        Some(s.(calls := s.calls[id := Call(body, First(t), [Send(Some(t), body)], false)]))
      else None
    case FirstReply(id, r) =>
      if id in s.calls && s.calls[id].phase.First? then
        var c := s.calls[id];
        if r == Unauthorized then Some(Refused(s, id, c, c.phase.token))
        else Some(s.(calls := s.calls[id := c.(phase := Finished)]))
      else None
    case Resume(id) =>
      if id in s.calls && s.calls[id].phase.Waiting? && s.calls[id].phase.id in s.outcomes then
        var c := s.calls[id];
        if s.outcomes[c.phase.id].Some? then
          var next := c.(phase := Second(session.token), sends := c.sends + [Send(session.token, c.body)]);
          Some(s.(calls := s.calls[id := next]))
        else Some(s.(calls := s.calls[id := c.(phase := Finished)]))
      else None
    case SecondReply(id, r) =>
      if id in s.calls && s.calls[id].phase.Second? then
        var c := s.calls[id];
        var after := if r == Unauthorized then ClearSeen(session, c.phase.retry) else session;
        Some(Moved(s, after).(calls := s.calls[id := c.(phase := Finished)]))
      else None
    case RenewSuccess(t) =>
      if RenewFlying(s) && t !in s.issued then
        var r := session.renewal.value;
        Some(Issued(s, session.(renewal := Some(r.(settled := true))), t)
               .(outcomes := s.outcomes[r.id := Some(t)], renewals := s.renewals + 1))
      else None
    case RenewFailure =>
      if RenewFlying(s) then
        var r := session.renewal.value;
        Some(s.(session := session.(renewal := Some(r.(settled := true))), outcomes := s.outcomes[r.id := None]))
      else None
    case RenewFinally =>
      if session.renewal.Some? && session.renewal.value.settled then Some(s.(session := session.(renewal := None)))
      else None
  }

  function Stepper(): (System, Step) -> Option<System>
  {
    (s, step) => Next(s, step)
  }

  // ---- what every step keeps ----

  /** Tokens in play were issued, and no token was given up twice or while it is current. */
  predicate TokensKept(s: System)
  {
    && (s.session.token.Some? ==> s.session.token.value in s.issued && s.session.token.value !in s.cleared)
    && (forall i :: 0 <= i < |s.cleared| ==> s.cleared[i] in s.issued)
    && (forall i, j :: 0 <= i < j < |s.cleared| ==> s.cleared[i] != s.cleared[j])
    && (forall id :: id in s.calls && s.calls[id].phase.First? ==> s.calls[id].phase.token in s.issued)
  }

  /** Renewals, counting one under way, are paid for by tokens given up. */
  predicate RenewalsPaid(s: System)
  {
    if RenewFlying(s) || (s.session.token.None? && s.issued != {}) then s.renewals + 1 <= |s.cleared|
    else s.renewals <= |s.cleared|
  }

  predicate CallKept(c: Call)
  {
    && (forall i :: 0 <= i < |c.sends| ==> c.sends[i].body == c.body)
    && match c.phase
       case First(t) => !c.refused && c.sends == [Send(Some(t), c.body)]
       case Waiting(_) => c.refused && |c.sends| == 1
       case Second(t) => c.refused && |c.sends| == 2 && c.sends[1].token == t
       case Finished => 1 <= |c.sends| <= 2 && (|c.sends| == 2 ==> c.refused)
  }

  predicate Kept(s: System)
  {
    TokensKept(s) && RenewalsPaid(s) && forall id :: id in s.calls ==> CallKept(s.calls[id])
  }

  lemma {:induction false} ClearedOnce(s: System, after: Session)
    requires TokensKept(s) && (after.token == s.session.token || after.token == None)
    ensures TokensKept(Moved(s, after))
    ensures |Moved(s, after).cleared| == |s.cleared| + if s.session.token.Some? && after.token.None? then 1 else 0
  {
  }

  lemma {:induction false} StepKeeps(s: System, step: Step)
    requires Kept(s) && Next(s, step).Some?
    ensures Kept(Next(s, step).value)
  {
    hide Kept;
    match step
    case FirstReply(id, r) => ReplyKeeps(s, id, r);
    case SecondReply(id, r) => SecondReplyKeeps(s, id, r);
    case Request(_, _) => SendKeeps(s, step);
    case Resume(_) => SendKeeps(s, step);
    case _ => SessionStepKeeps(s, step);
  }

  lemma {:induction false} ReplyKeeps(s: System, id: nat, r: Reply)
    requires Kept(s) && Next(s, FirstReply(id, r)).Some?
    ensures Kept(Next(s, FirstReply(id, r)).value)
  {
    hide Refused;
    if r == Unauthorized { RefusedKeeps(s, id); }
  }

  lemma {:induction false} SecondReplyKeeps(s: System, id: nat, r: Reply)
    requires Kept(s) && Next(s, SecondReply(id, r)).Some?
    ensures Kept(Next(s, SecondReply(id, r)).value)
  {
    if r == Unauthorized { ClearedOnce(s, ClearSeen(s.session, s.calls[id].phase.retry)); }
  }

  /** A call starts, or goes on after its renewal. */
  lemma {:induction false} SendKeeps(s: System, step: Step)
    requires Kept(s) && Next(s, step).Some? && (step.Request? || step.Resume?)
    ensures Kept(Next(s, step).value)
  {
  }

  predicate TouchesSession(step: Step)
  {
    !step.FirstReply? && !step.SecondReply? && !step.Request? && !step.Resume?
  }

  /** Bootstraps and renewals touch no call. */
  lemma {:induction false} SessionStepKeeps(s: System, step: Step)
    requires Kept(s) && Next(s, step).Some? && TouchesSession(step)
    ensures Kept(Next(s, step).value)
  {
    if step.BootFailure? { ClearedOnce(s, BootFailed(s.session)); }
  }

  lemma {:induction false} RefusedKeeps(s: System, id: nat)
    requires Kept(s) && id in s.calls && s.calls[id].phase.First?
    ensures Kept(Refused(s, id, s.calls[id], s.calls[id].phase.token))
  {
    var sent := s.calls[id].phase.token;
    ClearedOnce(s, AfterUnauthorized(s.session, sent).0);
  }

  lemma {:induction false} RunKeeps(steps: seq<Step>)
    requires Fold(Stepper(), EMPTY_SYSTEM, steps).Some?
    ensures Kept(Fold(Stepper(), EMPTY_SYSTEM, steps).value)
  {
    var step, inv := Stepper(), (s: System) => Kept(s);
    forall s, e | inv(s) && step(s, e).Some?
      ensures inv(step(s, e).value)
    {
      StepKeeps(s, e);
    }
    FoldKeeps(step, EMPTY_SYSTEM, steps, inv, (e: Step) => true);
  }

  /** In every interleaving: successful renewals never outnumber the tokens given up, no token is given up twice, and
      each call makes at most two sends, of the same body, the second only after a 401. */
  lemma {:induction false} RunIsSafe(steps: seq<Step>)
    requires Fold(Stepper(), EMPTY_SYSTEM, steps).Some?
    ensures var s := Fold(Stepper(), EMPTY_SYSTEM, steps).value;
            && s.renewals <= |s.cleared|
            && (forall i, j :: 0 <= i < j < |s.cleared| ==> s.cleared[i] != s.cleared[j])
            && (forall id :: id in s.calls ==>
                  && 1 <= |s.calls[id].sends| <= 2
                  && (forall i :: 0 <= i < |s.calls[id].sends| ==> s.calls[id].sends[i].body == s.calls[id].body)
                  && (|s.calls[id].sends| == 2 ==> s.calls[id].refused))
  {
    RunKeeps(steps);
  }

  /** The current token is only given up by a call whose send with that very token came back 401, or by a failed
      forced bootstrap that had begun while that token was current. */
  lemma {:induction false} ClearsOnlyWhatFailed(steps: seq<Step>, step: Step)
    requires Fold(Stepper(), EMPTY_SYSTEM, steps).Some?
    requires var s := Fold(Stepper(), EMPTY_SYSTEM, steps).value;
             Next(s, step).Some? && s.session.token.Some? && Next(s, step).value.session.token == None
    ensures var s := Fold(Stepper(), EMPTY_SYSTEM, steps).value;
            var t := s.session.token;
            match step
            case FirstReply(id, r) =>
              r == Unauthorized && id in s.calls && |s.calls[id].sends| == 1 && s.calls[id].sends[0].token == t
            case SecondReply(id, r) =>
              r == Unauthorized && id in s.calls && |s.calls[id].sends| == 2 && s.calls[id].sends[1].token == t
            case BootFailure => s.session.boot.value.force && s.session.boot.value.previous == t
            case _ => false
  {
    RunKeeps(steps);
  }

  // ---- every retry carries a token ----

  /** Steps that begin with a reply from the network: each is a task of its own. */
  predicate FromNetwork(step: Step)
  {
    step.BootSuccess? || step.BootFailure? || step.FirstReply? || step.SecondReply? || step.RenewSuccess? ||
    step.RenewFailure?
  }

  /** Nothing that a settled renewal set off is still to run: neither its finally nor a call that awaits it. */
  predicate Drained(s: System)
  {
    && (s.session.renewal.Some? ==> !s.session.renewal.value.settled)
    && forall id :: id in s.calls && s.calls[id].phase.Waiting? ==> s.calls[id].phase.id !in s.outcomes
  }

  /** Promise reactions run before the next task: a reply is taken up only when everything is drained. */
  function PromptNext(s: System, step: Step): Option<System>
  {
    if FromNetwork(step) && !Drained(s) then None else Next(s, step)
  }

  function PromptStepper(): (System, Step) -> Option<System>
  {
    (s, step) => PromptNext(s, step)
  }

  /** The renewal under way is the one without an outcome. */
  predicate RenewalsNumbered(s: System)
  {
    && (forall n :: n in s.outcomes ==> n < s.session.nextId)
    && (s.session.renewal.Some? ==>
          var r := s.session.renewal.value; r.id < s.session.nextId && (r.settled <==> r.id in s.outcomes))
  }

  /** A call waits for a renewal under way, for one that failed, or for one whose token is still the current one. */
  predicate WaitsWell(s: System, c: Call)
  {
    c.phase.Waiting? ==>
      if c.phase.id !in s.outcomes then s.session.renewal == Some(Renewal(c.phase.id, false))
      else s.outcomes[c.phase.id].Some? ==> s.session.token == s.outcomes[c.phase.id]
  }

  /** A refused token is not the current one again, and no retry goes out with it or without any. */
  predicate RetriesWell(s: System, c: Call)
  {
    && |c.sends| > 0 && c.sends[0].token.Some? && c.sends[0].token.value in s.issued
    && (c.refused ==> s.session.token != c.sends[0].token)
    && (|c.sends| == 2 ==> c.sends[1].token.Some? && c.sends[1].token != c.sends[0].token)
  }

  predicate Prompt(s: System)
  {
    RenewalsNumbered(s) && forall id :: id in s.calls ==> WaitsWell(s, s.calls[id]) && RetriesWell(s, s.calls[id])
  }

  lemma {:induction false} RefusalStaysPrompt(s: System, id: nat)
    requires Kept(s) && Prompt(s) && Drained(s) && id in s.calls && s.calls[id].phase.First?
    ensures Prompt(Refused(s, id, s.calls[id], s.calls[id].phase.token))
  {
    assert WaitsWell(s, s.calls[id]) && RetriesWell(s, s.calls[id]) && CallKept(s.calls[id]);
  }

  lemma {:induction false} ReplyStaysPrompt(s: System, step: Step)
    requires Kept(s) && Prompt(s) && PromptNext(s, step).Some? && (step.FirstReply? || step.SecondReply?)
    ensures Prompt(PromptNext(s, step).value)
  {
    hide Refused;
    assert RetriesWell(s, s.calls[step.call]) && CallKept(s.calls[step.call]);
    if step.FirstReply? && step.reply == Unauthorized { RefusalStaysPrompt(s, step.call); }
  }

  /** A new call, or one that goes on after its renewal. */
  lemma {:induction false} SendStaysPrompt(s: System, step: Step)
    requires Kept(s) && Prompt(s) && PromptNext(s, step).Some? && (step.Request? || step.Resume?)
    ensures Prompt(PromptNext(s, step).value)
  {
    if step.Resume? { assert WaitsWell(s, s.calls[step.call]) && RetriesWell(s, s.calls[step.call]); }
  }

  lemma {:induction false} SessionStaysPrompt(s: System, step: Step)
    requires Kept(s) && Prompt(s) && PromptNext(s, step).Some? && TouchesSession(step)
    ensures Prompt(PromptNext(s, step).value)
  {
    var after := PromptNext(s, step).value;
    forall id | id in after.calls
      ensures WaitsWell(after, after.calls[id]) && RetriesWell(after, after.calls[id])
    {
      assert WaitsWell(s, s.calls[id]) && RetriesWell(s, s.calls[id]);
    }
  }

  lemma {:induction false} PromptRunKeeps(steps: seq<Step>)
    requires Fold(PromptStepper(), EMPTY_SYSTEM, steps).Some?
    ensures Kept(Fold(PromptStepper(), EMPTY_SYSTEM, steps).value)
    ensures Prompt(Fold(PromptStepper(), EMPTY_SYSTEM, steps).value)
  {
    hide Kept, Prompt, Next;
    var step, inv := PromptStepper(), (s: System) => Kept(s) && Prompt(s);
    forall s, e | inv(s) && step(s, e).Some?
      ensures inv(step(s, e).value)
    {
      StepKeeps(s, e);
      if e.FirstReply? || e.SecondReply? {
        ReplyStaysPrompt(s, e);
      } else if e.Request? || e.Resume? {
        SendStaysPrompt(s, e);
      } else {
        SessionStaysPrompt(s, e);
      }
    }
    EmptyIsPrompt();
    FoldKeeps(step, EMPTY_SYSTEM, steps, inv, (e: Step) => true);
  }

  lemma {:induction false} EmptyIsPrompt()
    ensures Kept(EMPTY_SYSTEM) && Prompt(EMPTY_SYSTEM)
  {
  }

  /** In every run in which replies are tasks: every retry carries a token, and never the one that was refused; and
      nobody waits for a renewal that is neither under way nor settled. */
  lemma {:induction false} RetriesCarryToken(steps: seq<Step>)
    requires Fold(PromptStepper(), EMPTY_SYSTEM, steps).Some?
    ensures var s := Fold(PromptStepper(), EMPTY_SYSTEM, steps).value;
            forall id :: id in s.calls ==>
              var c := s.calls[id];
              && (|c.sends| == 2 ==> c.sends[1].token.Some? && c.sends[1].token != c.sends[0].token)
              && (c.phase.Waiting? ==>
                    c.phase.id in s.outcomes || s.session.renewal == Some(Renewal(c.phase.id, false)))
  {
    PromptRunKeeps(steps);
    var s := Fold(PromptStepper(), EMPTY_SYSTEM, steps).value;
    forall id | id in s.calls
      ensures WaitsWell(s, s.calls[id]) && RetriesWell(s, s.calls[id])
    {
    }
  }

  /** A call resumed after a renewal that succeeded sends again with the very token that renewal brought. */
  lemma {:induction false} ResumesWithItsRenewal(steps: seq<Step>, id: nat)
    requires Fold(PromptStepper(), EMPTY_SYSTEM, steps).Some?
    requires var s := Fold(PromptStepper(), EMPTY_SYSTEM, steps).value;
             PromptNext(s, Resume(id)).Some? && s.outcomes[s.calls[id].phase.id].Some?
    ensures var s := Fold(PromptStepper(), EMPTY_SYSTEM, steps).value;
            var c, after := s.calls[id], PromptNext(s, Resume(id)).value.calls[id];
            after.sends == c.sends + [Send(s.outcomes[c.phase.id], c.body)] && |after.sends| == 2
  {
    PromptRunKeeps(steps);
    var s := Fold(PromptStepper(), EMPTY_SYSTEM, steps).value;
    assert WaitsWell(s, s.calls[id]) && CallKept(s.calls[id]);
  }

  // ---- a run in which two calls share one renewal ----

  ghost predicate Reached(s: System)
  {
    exists steps :: Fold(PromptStepper(), EMPTY_SYSTEM, steps) == Some(s)
  }

  lemma {:induction false} ReachedNext(s: System, step: Step) returns (after: System)
    requires Reached(s) && PromptNext(s, step).Some?
    ensures PromptNext(s, step) == Some(after) && Reached(after)
  {
    var steps :| Fold(PromptStepper(), EMPTY_SYSTEM, steps) == Some(s);
    assert (steps + [step])[..|steps|] == steps;
    after := PromptNext(s, step).value;
    assert Fold(PromptStepper(), EMPTY_SYSTEM, steps + [step]) == Some(after);
  }

  lemma {:induction false} SessionUp(t: Token) returns (s: System)
    ensures Reached(s) && s.session.token == Some(t) && s.issued == {t} && s.calls == map[] && s.outcomes == map[]
    ensures s.session.renewal == None && s.session.nextId == 0 && s.renewals == 0
  {
    s := EMPTY_SYSTEM;
    assert Fold(PromptStepper(), EMPTY_SYSTEM, []) == Some(s);
    s := ReachedNext(s, Bootstrap(false));
    s := ReachedNext(s, BootSuccess(t));
  }

  /** Two calls whose only send so far was refused wait for the same renewal. */
  lemma {:induction false} TwoWaiting(t: Token, body: Option<string>) returns (s: System)
    ensures Reached(s) && s.session.token == None && s.session.renewal == Some(Renewal(0, false)) && s.issued == {t}
    ensures s.calls == map[0 := Call(body, Waiting(0), [Send(Some(t), body)], true),
                           1 := Call(body, Waiting(0), [Send(Some(t), body)], true)]
    ensures s.outcomes == map[] && s.renewals == 0
  {
    s := SessionUp(t);
    s := ReachedNext(s, Request(0, body));
    s := ReachedNext(s, Request(1, body));
    s := ReachedNext(s, FirstReply(0, Unauthorized));
    assert s.session.token == None && s.session.renewal == Some(Renewal(0, false));
    s := ReachedNext(s, FirstReply(1, Unauthorized));
  }

  /** Both go on before any later reply, and both send again with the token of the one renewal. */
  lemma {:induction false} SharedRenewal(t: Token, u: Token, body: Option<string>) returns (s: System)
    requires t != u
    ensures Reached(s) && s.renewals == 1 && 0 in s.calls && 1 in s.calls
    ensures s.calls[0].sends == s.calls[1].sends == [Send(Some(t), body), Send(Some(u), body)]
  {
    s := TwoWaiting(t, body);
    s := ReachedNext(s, RenewSuccess(u));
    assert s.outcomes[0] == Some(u) && s.session.token == Some(u);
    s := ReachedNext(s, Resume(0));
    s := ReachedNext(s, Resume(1));
  }
}
