/** Workers that share a counter and fill one array (mapConcurrent in src/action-cost.ts). A turn is the code of one
    worker between two awaits. */
module ConcurrentMap {
  import opened Prelude

  datatype Phase = Unstarted | Busy(index: nat) | Stopped

  datatype Pool<R> = Pool(next: nat, results: seq<Option<R>>, workers: seq<Phase>)

  /** Array.from({length: Math.min(concurrency, values.length)}) */
  function WorkerCount(n: nat, concurrency: int): nat
  {
    if Min(concurrency, n) < 0 then 0 else Min(concurrency, n)
  }

  function Begun<R>(n: nat, concurrency: int): Pool<R>
  {
    Pool(0, seq(n, _ => None), seq(WorkerCount(n, concurrency), _ => Unstarted))
  }

  predicate CanTurn<R>(p: Pool<R>, w: nat)
  {
    w < |p.workers| && p.workers[w] != Stopped
  }

  function Stored<T, R>(values: seq<T>, op: T -> R, results: seq<Option<R>>, phase: Phase): seq<Option<R>>
  {
    if phase.Busy? && phase.index < |values| && phase.index < |results|
    then results[phase.index := Some(op(values[phase.index]))] else results
  }

  /** Store the finished operation's result, then claim the next index or stop. */
  function Turned<T, R>(values: seq<T>, op: T -> R, p: Pool<R>, w: nat): Option<Pool<R>>
  {
    if !CanTurn(p, w) then None
    else
      var results := Stored(values, op, p.results, p.workers[w]);
      if p.next < |values| then Some(Pool(p.next + 1, results, p.workers[w := Busy(p.next)]))
      else Some(Pool(p.next, results, p.workers[w := Stopped]))
  }

  function Turner<T, R>(values: seq<T>, op: T -> R): (Pool<R>, nat) -> Option<Pool<R>>
  {
    (p: Pool<R>, w: nat) => Turned(values, op, p, w)
  }

  function Mapped<T, R>(values: seq<T>, op: T -> R): seq<Option<R>>
  {
    seq(|values|, i requires 0 <= i < |values| => Some(op(values[i])))
  }

  ghost predicate AllStopped<R>(p: Pool<R>)
  {
    forall w :: 0 <= w < |p.workers| ==> p.workers[w] == Stopped
  }

  // ---- what every turn keeps ----

  ghost predicate InFlight<R>(p: Pool<R>, i: nat)
  {
    exists w :: 0 <= w < |p.workers| && p.workers[w] == Busy(i)
  }

  /** Every index below the counter is either in flight with one worker or holds its result; the rest is untouched. */
  ghost predicate Kept<T, R>(values: seq<T>, op: T -> R, p: Pool<R>)
  {
    && |p.results| == |values| && p.next <= |values|
    && (forall w :: 0 <= w < |p.workers| && p.workers[w].Busy? ==>
          p.workers[w].index < p.next && p.results[p.workers[w].index] == None)
    && (forall v, w :: 0 <= v < w < |p.workers| && p.workers[v].Busy? ==> p.workers[v] != p.workers[w])
    && (forall i :: 0 <= i < p.next ==> p.results[i] == Some(op(values[i])) || InFlight(p, i))
    && (forall i :: p.next <= i < |values| ==> p.results[i] == None)
    && (forall w :: 0 <= w < |p.workers| && p.workers[w] == Stopped ==> p.next == |values|)
  }

  lemma {:induction false} TurnKeeps<T, R>(values: seq<T>, op: T -> R, p: Pool<R>, w: nat)
    requires Kept(values, op, p) && CanTurn(p, w)
    ensures Kept(values, op, Turned(values, op, p, w).value)
  {
    var after := Turned(values, op, p, w).value;
    assert after.workers[w] == if p.next < |values| then Busy(p.next) else Stopped;
    forall i | 0 <= i < after.next
      ensures after.results[i] == Some(op(values[i])) || InFlight(after, i)
    {
      if i < p.next && InFlight(p, i) {
        var v :| 0 <= v < |p.workers| && p.workers[v] == Busy(i);
        assert v != w ==> after.workers[v] == Busy(i);
      }
    }
  }

  /** The indexes claimed by these turns, in order. */
  function Claims<T, R>(values: seq<T>, op: T -> R, p: Pool<R>, turns: seq<nat>): seq<nat>
  {
    if turns == [] then []
    else
      var front := turns[..|turns| - 1];
      var before := Fold(Turner(values, op), p, front);
      Claims(values, op, p, front) +
        if before.Some? && CanTurn(before.value, turns[|turns| - 1]) && before.value.next < |values|
        then [before.value.next] else []
  }

  function Left(workers: seq<Phase>): nat
  {
    if workers == [] then 0 else Left(workers[..|workers| - 1]) + if workers[|workers| - 1] == Stopped then 0 else 1
  }

  lemma {:induction false} LeftAfter(workers: seq<Phase>, w: nat, phase: Phase)
    requires w < |workers| && workers[w] != Stopped
    ensures Left(workers[w := phase]) == Left(workers) - if phase == Stopped then 1 else 0
  {
    var n := |workers| - 1;
    if w < n {
      assert workers[w := phase][..n] == workers[..n][w := phase];
      LeftAfter(workers[..n], w, phase);
    } else {
      assert workers[w := phase][..n] == workers[..n];
    }
  }

  lemma {:induction false} LeftOfUnstarted(n: nat)
    ensures Left(seq(n, _ => Unstarted)) == n
  {
    var s: seq<Phase> := seq(n, _ => Unstarted);
    if n > 0 {
      LeftOfUnstarted(n - 1);
      assert s[..n - 1] == seq(n - 1, _ => Unstarted);
    }
  }

  lemma {:induction false} LeftOfStopped<R>(p: Pool<R>, k: nat)
    requires AllStopped(p) && k <= |p.workers|
    ensures Left(p.workers[..k]) == 0
  {
    if k > 0 {
      LeftOfStopped(p, k - 1);
      assert p.workers[..k][..k - 1] == p.workers[..k - 1];
    }
  }

  function Ran<T, R>(values: seq<T>, op: T -> R, concurrency: int, turns: seq<nat>): Option<Pool<R>>
  {
    Fold(Turner(values, op), Begun(|values|, concurrency), turns)
  }

  function UpTo(n: nat): seq<nat>
  {
    seq(n, i requires 0 <= i < n => i)
  }

  lemma {:induction false} RunKeeps<T, R>(values: seq<T>, op: T -> R, concurrency: int, turns: seq<nat>)
    requires Ran(values, op, concurrency, turns).Some?
    ensures Kept(values, op, Ran(values, op, concurrency, turns).value)
    decreases |turns|
  {
    if turns != [] {
      var front := turns[..|turns| - 1];
      RunKeeps(values, op, concurrency, front);
      TurnKeeps(values, op, Ran(values, op, concurrency, front).value, turns[|turns| - 1]);
    }
  }

  /** Each turn uses up one of the n claims or one of the workers. */
  lemma {:induction false} RunCounts<T, R>(values: seq<T>, op: T -> R, concurrency: int, turns: seq<nat>)
    requires Ran(values, op, concurrency, turns).Some?
    ensures var p := Ran(values, op, concurrency, turns).value;
            && p.next <= |values| && |p.workers| == WorkerCount(|values|, concurrency)
            && |turns| + Left(p.workers) == p.next + |p.workers|
    decreases |turns|
  {
    if turns == [] {
      LeftOfUnstarted(WorkerCount(|values|, concurrency));
    } else {
      var front, w := turns[..|turns| - 1], turns[|turns| - 1];
      RunCounts(values, op, concurrency, front);
      var p := Ran(values, op, concurrency, front).value;
      LeftAfter(p.workers, w, if p.next < |values| then Busy(p.next) else Stopped);
    }
  }

  /** The claims of any run are 0, 1, 2, ... without gap or repetition. */
  lemma {:induction false} ClaimsInOrder<T, R>(values: seq<T>, op: T -> R, concurrency: int, turns: seq<nat>)
    requires Ran(values, op, concurrency, turns).Some?
    ensures var p := Ran(values, op, concurrency, turns).value;
            Claims(values, op, Begun(|values|, concurrency), turns) == UpTo(p.next)
    decreases |turns|
  {
    if turns != [] {
      var front := turns[..|turns| - 1];
      ClaimsInOrder(values, op, concurrency, front);
      var n := Ran(values, op, concurrency, front).value.next;
      assert UpTo(n) + [n] == UpTo(n + 1);
      assert UpTo(n) + [] == UpTo(n);
    }
  }

  /** Every run that ends took exactly n + workers turns, claimed every index once, and left what a sequential map
      leaves; with no worker at all it left nothing. */
  lemma {:induction false} EqualsSequentialMap<T, R>(values: seq<T>, op: T -> R, concurrency: int, turns: seq<nat>)
    requires Ran(values, op, concurrency, turns).Some? && AllStopped(Ran(values, op, concurrency, turns).value)
    ensures var p := Ran(values, op, concurrency, turns).value;
            && (p.results == Mapped(values, op) <==> concurrency >= 1 || values == [])
            && |turns| == p.next + |p.workers|
            && (concurrency >= 1 ==> Claims(values, op, Begun(|values|, concurrency), turns) == UpTo(|values|))
  {
    var p := Ran(values, op, concurrency, turns).value;
    RunKeeps(values, op, concurrency, turns);
    RunCounts(values, op, concurrency, turns);
    ClaimsInOrder(values, op, concurrency, turns);
    LeftOfStopped(p, |p.workers|);
    assert p.workers[..|p.workers|] == p.workers;
    if concurrency >= 1 {
      AllClaimed(values, op, p);
    } else {
      NothingClaimed(values, op, concurrency, turns);
      assert values != [] ==> p.results[0] == None && Mapped(values, op)[0] != None;
      assert values == [] ==> p.results == [] == Mapped(values, op);
    }
  }

  lemma {:induction false} AllClaimed<T, R>(values: seq<T>, op: T -> R, p: Pool<R>)
    requires Kept(values, op, p) && AllStopped(p) && (values != [] ==> p.workers != [])
    ensures p.next == |values| && p.results == Mapped(values, op)
  {
    if values != [] { assert p.workers[0] == Stopped; }
  }

  lemma {:induction false} NothingClaimed<T, R>(values: seq<T>, op: T -> R, concurrency: int, turns: seq<nat>)
    requires Ran(values, op, concurrency, turns).Some? && WorkerCount(|values|, concurrency) == 0
    ensures Ran(values, op, concurrency, turns).value == Begun(|values|, concurrency)
    decreases |turns|
  {
    if turns != [] { NothingClaimed(values, op, concurrency, turns[..|turns| - 1]); }
  }

  function Flying<R>(p: Pool<R>): set<nat>
  {
    set w: nat | w < |p.workers| && p.workers[w].Busy?
  }

  lemma {:induction false} SmallerThan(s: set<nat>, n: nat)
    requires forall w :: w in s ==> w < n
    ensures |s| <= n
  {
    if s != {} {
      if n == 0 {
        var w := Pick(s);
        assert false;
      } else {
        SmallerThan(s - {n - 1}, n - 1);
      }
    }
  }

  /** Never more operations under way than the given concurrency, and a run that has not ended can go on. */
  lemma {:induction false} BoundedAndLive<T, R>(values: seq<T>, op: T -> R, concurrency: nat, turns: seq<nat>)
    requires Ran(values, op, concurrency, turns).Some?
    ensures var p := Ran(values, op, concurrency, turns).value;
            |Flying(p)| <= concurrency && (!AllStopped(p) ==> exists w: nat :: Turned(values, op, p, w).Some?)
  {
    var p := Ran(values, op, concurrency, turns).value;
    RunCounts(values, op, concurrency, turns);
    SmallerThan(Flying(p), |p.workers|);
    if !AllStopped(p) {
      var w :| 0 <= w < |p.workers| && p.workers[w] != Stopped;
      assert Turned(values, op, p, w).Some?;
    }
  }

  /** The worker whose turn is next: the scheduler's choice, or the first that can go on. */
  method Choose(workers: seq<Phase>, schedule: seq<Phase> -> nat) returns (w: nat)
    ensures w <= |workers|
    ensures if w == |workers| then forall v :: 0 <= v < |workers| ==> workers[v] == Stopped else workers[w] != Stopped
  {
    w := schedule(workers);
    if w < |workers| && workers[w] != Stopped { return; }
    w := 0;
    while w < |workers| && workers[w] == Stopped
      invariant w <= |workers|
      invariant forall v :: 0 <= v < w ==> workers[v] == Stopped
    {
      w := w + 1;
    }
  }

  lemma {:induction false} NextTurn<T, R>(values: seq<T>, op: T -> R, concurrency: int, turns: seq<nat>, w: nat)
    requires Ran(values, op, concurrency, turns).Some? && CanTurn(Ran(values, op, concurrency, turns).value, w)
    ensures Ran(values, op, concurrency, turns + [w]) ==
            Turned(values, op, Ran(values, op, concurrency, turns).value, w)
    ensures |turns| < |values| + WorkerCount(|values|, concurrency)
    ensures Kept(values, op, Ran(values, op, concurrency, turns).value)
  {
    assert (turns + [w])[..|turns|] == turns;
    RunCounts(values, op, concurrency, turns + [w]);
    RunKeeps(values, op, concurrency, turns);
  }

  /** The loop itself, over the array it fills, under any scheduler of the workers' turns. */
  method MapConcurrent<T, R>(values: seq<T>, concurrency: int, op: T -> R, schedule: seq<Phase> -> nat)
    returns (results: array<Option<R>>)
    ensures fresh(results)
    ensures concurrency >= 1 || values == [] ==> results[..] == Mapped(values, op)
    ensures concurrency < 1 ==> results[..] == seq(|values|, _ => None)
  {
    results := new Option<R>[|values|](_ => None);
    var next, workers := 0, seq(WorkerCount(|values|, concurrency), _ => Unstarted);
    ghost var turns: seq<nat> := [];
    assert results[..] == seq(|values|, _ => None);
    var w := Choose(workers, schedule);
    while w < |workers|
      invariant fresh(results) && results.Length == |values|
      invariant Ran(values, op, concurrency, turns) == Some(Pool(next, results[..], workers))
      invariant 0 <= w <= |workers|
      invariant if w == |workers| then forall v :: 0 <= v < |workers| ==> workers[v] == Stopped
                else workers[w] != Stopped
      decreases |values| + WorkerCount(|values|, concurrency) - |turns|
    {
      NextTurn(values, op, concurrency, turns, w);
      turns := turns + [w];
      if workers[w].Busy? { results[workers[w].index] := Some(op(values[workers[w].index])); }
      if next < |values| {
        workers := workers[w := Busy(next)];
        next := next + 1;
      } else {
        workers := workers[w := Stopped];
      }
      w := Choose(workers, schedule);
    }
    EqualsSequentialMap(values, op, concurrency, turns);
    if concurrency < 1 { NothingClaimed(values, op, concurrency, turns); }
  }
}
