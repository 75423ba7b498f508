/** The paper worker's readiness lease and its sleepers (acquirePaperOperationReadinessLease in
    src/deployments-paper-worker.ts). */
module ReadinessLease {
  import opened Prelude

  /** waiters: the calls asleep, in the order they fell asleep; resolved: the calls that have returned, in order;
      closed: release has finished and the listeners are gone. */
  datatype Lease = Lease(lost: bool, released: bool, closed: bool, pending: bool, waiters: seq<nat>, resolved: seq<nat>)

  const FRESH := Lease(false, false, false, false, [], [])

  /** wake: every sleeper finishes, and a finishing sleeper consumes the notification. */
  function Woken(l: Lease, notification: bool): Lease
  {
    if l.waiters == [] then l.(pending := l.pending || notification)
    else l.(pending := false, waiters := [], resolved := l.resolved + l.waiters)
  }

  function Without(s: seq<nat>, id: nat): seq<nat>
  {
    if s == [] then []
    else if s[|s| - 1] == id then Without(s[..|s| - 1], id)
    else Without(s[..|s| - 1], id) + [s[|s| - 1]]
  }

  /** One sleeper's timer or abort signal. */
  function Fired(l: Lease, id: nat): Lease
  {
    if id in l.waiters then l.(pending := false, waiters := Without(l.waiters, id), resolved := l.resolved + [id])
    else l
  }

  /** sleeps: the duration is finite and positive and the signal has not fired yet. */
  predicate ReturnsAtOnce(l: Lease, sleeps: bool)
  {
    !sleeps || l.lost || l.pending
  }

  function Waited(l: Lease, id: nat, sleeps: bool): Lease
  {
    if ReturnsAtOnce(l, sleeps) then l.(pending := false, resolved := l.resolved + [id])
    else l.(waiters := l.waiters + [id])
  }

  function Closed(l: Lease, failed: bool): Lease
  {
    Woken(l.(lost := l.lost || failed), false).(closed := true)
  }

  class PaperLease {
    var lost: bool
    var released: bool
    var closed: bool
    var notificationPending: bool
    var waiters: seq<nat>
    var resolved: seq<nat>

    function State(): Lease
      reads this
    {
      Lease(lost, released, closed, notificationPending, waiters, resolved)
    }

    constructor ()
      ensures State() == FRESH
    {
      lost, released, closed, notificationPending := false, false, false, false;
      waiters, resolved := [], [];
    }

    method Wake(notification: bool)
      modifies this
      ensures State() == Woken(old(State()), notification)
    {
      if notification { notificationPending := true; }
      var asleep := waiters;
      for i := 0 to |asleep|
        invariant lost == old(lost) && released == old(released) && closed == old(closed)
        invariant waiters == asleep[i..] && resolved == old(resolved) + asleep[..i]
        invariant notificationPending == if i > 0 then false else old(notificationPending) || notification
      {
        waiters := waiters[1..];
        notificationPending := false;
        resolved := resolved + [asleep[i]];
      }
    }

    method OnError()
      modifies this
      ensures State() == Woken(old(State()).(lost := true), false)
    {
      lost := true;
      Wake(false);
    }

    method OnNotification(ours: bool)
      modifies this
      ensures State() == if ours then Woken(old(State()), true) else old(State())
    {
      if ours { Wake(true); }
    }

    /** The catch of assertHealthy: nobody is woken. */
    method ProbeFailed()
      modifies this`lost
      ensures lost
    {
      lost := true;
    }

    /** waitForOperation up to its await. */
    method WaitForOperation(id: nat, sleeps: bool) returns (asleep: bool)
      modifies this
      ensures State() == Waited(old(State()), id, sleeps) && (asleep <==> !ReturnsAtOnce(old(State()), sleeps))
    {
      if !sleeps || lost || notificationPending {
        notificationPending := false;
        resolved := resolved + [id];
        return false;
      }
      waiters := waiters + [id];
      asleep := true;
    }

    /** finish, called by a timer or an abort. */
    method Finish(id: nat)
      modifies this
      ensures State() == Fired(old(State()), id)
    {
      if id !in waiters { return; }
      waiters := Without(waiters, id);
      notificationPending := false;
      resolved := resolved + [id];
    }

    /** The finally of release. */
    method FinishRelease(failed: bool)
      modifies this
      ensures State() == Closed(old(State()), failed)
    {
      if failed { lost := true; }
      Wake(false);
      closed := true;
    }
  }

  // ---- every interleaving ----

  datatype Step =
    | Wait(id: nat, sleeps: bool)
    | Notify(ours: bool)
    | Error
    | Fire(id: nat)
    | ProbeFails
    | ReleaseStarts
    | ReleaseEnds(failed: bool)

  function Next(l: Lease, step: Step): Option<Lease>
  {
    match step
    case Wait(id, sleeps) => if id in l.waiters || id in l.resolved then None else Some(Waited(l, id, sleeps))
    case Notify(ours) => if l.closed then None else Some(if ours then Woken(l, true) else l)
    case Error => if l.closed then None else Some(Woken(l.(lost := true), false))
    case Fire(id) => Some(Fired(l, id))
    case ProbeFails => Some(l.(lost := true))
    case ReleaseStarts => if l.released then None else Some(l.(released := true))
    case ReleaseEnds(failed) => if !l.released || l.closed then None else Some(Closed(l, failed))
  }

  function Stepper(): (Lease, Step) -> Option<Lease>
  {
    (l, step) => Next(l, step)
  }

  function Ran(steps: seq<Step>): Option<Lease>
  {
    Fold(Stepper(), FRESH, steps)
  }

  /** The calls of waitForOperation in a run, in order. */
  function Calls(steps: seq<Step>): seq<nat>
  {
    if steps == [] then []
    else
      var before, step := Calls(steps[..|steps| - 1]), steps[|steps| - 1];
      if step.Wait? then before + [step.id] else before
  }

  predicate Distinct(s: seq<nat>)
  {
    forall i, j :: 0 <= i < j < |s| ==> s[i] != s[j]
  }

  /** A sleeper and an unconsumed notification never coexist, and every call is asleep or has returned, once. */
  ghost predicate Kept(l: Lease, calls: seq<nat>)
  {
    && (l.waiters != [] ==> !l.pending)
    && Distinct(l.waiters) && Distinct(l.resolved)
    && (forall id :: id in l.waiters ==> id !in l.resolved)
    && (forall id :: id in calls <==> id in l.waiters || id in l.resolved)
  }

  lemma {:induction false} WithoutMember(s: seq<nat>, id: nat)
    requires Distinct(s)
    ensures Distinct(Without(s, id)) && forall x :: x in Without(s, id) <==> x in s && x != id
  {
    if s != [] {
      var front, last := s[..|s| - 1], s[|s| - 1];
      WithoutMember(front, id);
      assert s == front + [last];
      assert last !in front;
    }
  }

  lemma {:induction false} WokenKeeps(l: Lease, calls: seq<nat>, notification: bool)
    requires Kept(l, calls)
    ensures Kept(Woken(l, notification), calls)
  {
    assert forall i :: 0 <= i < |l.waiters| ==> l.waiters[i] !in l.resolved;
  }

  lemma {:induction false} FlagsKeep(l: Lease, calls: seq<nat>, lost: bool, released: bool)
    requires Kept(l, calls)
    ensures Kept(l.(lost := lost), calls) && Kept(l.(released := released), calls)
  {
  }

  lemma {:induction false} WaitedKeeps(l: Lease, calls: seq<nat>, id: nat, sleeps: bool)
    requires Kept(l, calls) && id !in l.waiters && id !in l.resolved
    ensures Kept(Waited(l, id, sleeps), calls + [id])
  {
  }

  lemma {:induction false} FiredKeeps(l: Lease, calls: seq<nat>, id: nat)
    requires Kept(l, calls)
    ensures Kept(Fired(l, id), calls)
  {
    hide Without;
    WithoutMember(l.waiters, id);
  }

  lemma {:induction false} ClosedKeeps(l: Lease, calls: seq<nat>, failed: bool)
    requires Kept(l, calls)
    ensures Kept(Closed(l, failed), calls)
  {
    hide Woken;
    WokenKeeps(l.(lost := l.lost || failed), calls, false);
  }

  lemma {:induction false} StepKeeps(l: Lease, calls: seq<nat>, step: Step)
    requires Kept(l, calls) && Next(l, step).Some?
    ensures Kept(Next(l, step).value, if step.Wait? then calls + [step.id] else calls)
  {
    hide Kept, Woken, Waited, Fired;
    match step
    case Wait(id, sleeps) => WaitedKeeps(l, calls, id, sleeps);
    case Notify(_) => WokenKeeps(l, calls, true);
    case Error =>
      FlagsKeep(l, calls, true, l.released);
      WokenKeeps(l.(lost := true), calls, false);
    case Fire(id) => FiredKeeps(l, calls, id);
    case ProbeFails => FlagsKeep(l, calls, true, l.released);
    case ReleaseStarts => FlagsKeep(l, calls, l.lost, true);
    case ReleaseEnds(failed) => ClosedKeeps(l, calls, failed);
  }

  /** In every interleaving each call of waitForOperation is either asleep or has returned exactly once, never both,
      and while anybody sleeps no notification is pending. */
  lemma {:induction false} EachCallReturnsOnce(steps: seq<Step>)
    requires Ran(steps).Some?
    ensures Kept(Ran(steps).value, Calls(steps))
    decreases |steps|
  {
    if steps != [] {
      var front := steps[..|steps| - 1];
      EachCallReturnsOnce(front);
      StepKeeps(Ran(front).value, Calls(front), steps[|steps| - 1]);
    }
  }

  lemma {:induction false} ResolvedStays(l: Lease, steps: seq<Step>, id: nat)
    requires id in l.resolved && Fold(Stepper(), l, steps).Some?
    ensures id in Fold(Stepper(), l, steps).value.resolved
    decreases |steps|
  {
    if steps != [] { ResolvedStays(l, steps[..|steps| - 1], id); }
  }

  /** Whatever happens before and after, a notification, an error or the end of a release leaves nobody asleep and ends
      every wait begun before it, for good. */
  lemma {:induction false} EventsWakeAll(steps: seq<Step>, step: Step, later: seq<Step>, id: nat)
    requires Ran(steps).Some? && Next(Ran(steps).value, step).Some? && id in Calls(steps)
    requires step == Notify(true) || step == Error || step.ReleaseEnds?
    requires Fold(Stepper(), Next(Ran(steps).value, step).value, later).Some?
    ensures Next(Ran(steps).value, step).value.waiters == []
    ensures id in Fold(Stepper(), Next(Ran(steps).value, step).value, later).value.resolved
  {
    EachCallReturnsOnce(steps);
    ResolvedStays(Next(Ran(steps).value, step).value, later, id);
  }

  predicate NoWait(steps: seq<Step>)
  {
    forall i :: 0 <= i < |steps| ==> !steps[i].Wait?
  }

  lemma {:induction false} PendingStays(l: Lease, steps: seq<Step>)
    requires l.pending && l.waiters == [] && NoWait(steps) && Fold(Stepper(), l, steps).Some?
    ensures var after := Fold(Stepper(), l, steps).value; after.pending && after.waiters == []
    decreases |steps|
  {
    if steps != [] { PendingStays(l, steps[..|steps| - 1]); }
  }

  /** No lost wakeup: a notification that finds nobody asleep makes the next wait return at once, whatever happens in
      between. */
  lemma {:induction false} NotificationIsNotLost(steps: seq<Step>, between: seq<Step>, id: nat, sleeps: bool)
    requires Ran(steps).Some? && Ran(steps).value.waiters == [] && !Ran(steps).value.closed
    requires var told := Woken(Ran(steps).value, true);
             NoWait(between) && Fold(Stepper(), told, between).Some? &&
             Next(Fold(Stepper(), told, between).value, Wait(id, sleeps)).Some?
    ensures var after := Next(Fold(Stepper(), Woken(Ran(steps).value, true), between).value, Wait(id, sleeps)).value;
            id in after.resolved && after.waiters == []
  {
    PendingStays(Woken(Ran(steps).value, true), between);
  }

  // ---- a lost lease and its sleepers ----

  /** The lease became lost while this call slept and nothing has woken it: only a failed probe does that. */
  predicate QuietlyLost(steps: seq<Step>)
  {
    steps != [] &&
    (steps[|steps| - 1] == ProbeFails || (steps[|steps| - 1] != Error && !steps[|steps| - 1].ReleaseEnds? &&
                                          steps[|steps| - 1] != Notify(true) && QuietlyLost(steps[..|steps| - 1])))
  }

  /** While anybody sleeps, the lease is lost exactly when a probe has failed with no event since. */
  lemma {:induction false} AsleepOnLostLease(steps: seq<Step>)
    requires Ran(steps).Some?
    ensures Ran(steps).value.waiters != [] ==> (Ran(steps).value.lost <==> QuietlyLost(steps))
    ensures QuietlyLost(steps) ==> Ran(steps).value.lost
    decreases |steps|
  {
    if steps != [] { AsleepOnLostLease(steps[..|steps| - 1]); }
  }

  /** A failed probe wakes nobody: afterwards somebody is asleep on a lost lease exactly when somebody slept before. */
  lemma {:induction false} ProbeLeavesSleepers(steps: seq<Step>)
    requires Ran(steps).Some?
    ensures var after := Ran(steps + [ProbeFails]);
            after.Some? && after.value.lost && (after.value.waiters != [] <==> Ran(steps).value.waiters != [])
  {
    assert (steps + [ProbeFails])[..|steps|] == steps;
  }

  /** The shortest run that strands a sleeper on a lost lease. */
  lemma {:induction false} ProbeCanStrand(id: nat)
    ensures Ran([Wait(id, true)] + [ProbeFails]).Some?
    ensures var l := Ran([Wait(id, true)] + [ProbeFails]).value; l.lost && l.waiters == [id]
  {
    var first := [Wait(id, true)];
    assert first[..0] == [] && Ran([]) == Some(FRESH);
    assert Ran(first) == Next(FRESH, Wait(id, true));
    assert (first + [ProbeFails])[..1] == first;
  }

  /** After a clean release a wait still falls asleep, and then only its own timer or signal ends it. */
  lemma {:induction false} SleepAfterRelease(steps: seq<Step>, id: nat)
    requires Ran(steps).Some? && Ran(steps).value.closed && !Ran(steps).value.lost && !Ran(steps).value.pending
    requires Next(Ran(steps).value, Wait(id, true)).Some?
    ensures var after := Next(Ran(steps).value, Wait(id, true)).value;
            && id in after.waiters
            && forall step :: Next(after, step).Some? && id !in Next(after, step).value.waiters ==> step == Fire(id)
  {
    var after := Next(Ran(steps).value, Wait(id, true)).value;
    EachCallReturnsOnce(steps);
    forall step | Next(after, step).Some? && step != Fire(id)
      ensures id in Next(after, step).value.waiters
    {
      if step.Fire? {
        StepKeeps(Ran(steps).value, Calls(steps), Wait(id, true));
        WithoutMember(after.waiters, step.id);
      }
    }
  }
}
