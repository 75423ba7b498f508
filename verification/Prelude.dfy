/** Small definitions shared by every other module. */
module Prelude {

  datatype Option<+T> = None | Some(value: T)
  {
    predicate IsFailure() { None? }

    function PropagateFailure<U>(): Option<U>
      requires None?
    {
      None
    }

    function Extract(): T
      requires Some?
    {
      value
    }
  }

  datatype Result<+T, +E> = Ok(value: T) | Err(error: E)

  function Min(a: int, b: int): int { if a <= b then a else b }

  function Max(a: int, b: int): int { if a >= b then a else b }

  lemma {:induction false} Pick<T>(s: set<T>) returns (x: T)
    requires s != {}
    ensures x in s
  {
    x :| x in s;
  }

  method AnyOf<T>(s: set<T>) returns (x: T)
    requires s != {}
    ensures x in s
  {
    x :| x in s;
  }

  /** Sums of an integer-valued function over a finite set. */
  ghost function Sum<T(!new)>(s: set<T>, f: T -> int): int
  {
    if s == {} then 0 else var x :| x in s; f(x) + Sum(s - {x}, f)
  }

  lemma {:induction false} SumTake<T(!new)>(s: set<T>, x: T, f: T -> int)
    requires x in s
    ensures Sum(s, f) == f(x) + Sum(s - {x}, f)
    decreases |s|
  {
    var y :| y in s && Sum(s, f) == f(y) + Sum(s - {y}, f);
    if y != x {
      SumTake(s - {y}, x, f);
      SumTake(s - {x}, y, f);
      assert s - {y} - {x} == s - {x} - {y};
    }
  }

  lemma {:induction false} SumWithout<T(!new)>(s: set<T>, x: T, f: T -> int)
    ensures Sum(s, f) == Sum(s - {x}, f) + (if x in s then f(x) else 0)
  {
    if x in s {
      SumTake(s, x, f);
    } else {
      assert s - {x} == s;
    }
  }

  lemma {:induction false} SumCongruent<T(!new)>(s: set<T>, f: T -> int, g: T -> int)
    requires forall x :: x in s ==> f(x) == g(x)
    ensures Sum(s, f) == Sum(s, g)
    decreases |s|
  {
    if s != {} {
      var x :| x in s;
      SumTake(s, x, f);
      SumTake(s, x, g);
      SumCongruent(s - {x}, f, g);
    }
  }

  /** A sum of non-negative terms is non-negative, and zero only when every term is. */
  lemma {:induction false} SumNonNegative<T(!new)>(s: set<T>, f: T -> int)
    requires forall x :: x in s ==> f(x) >= 0
    ensures Sum(s, f) >= 0
    ensures Sum(s, f) == 0 <==> forall x :: x in s ==> f(x) == 0
    decreases |s|
  {
    if s != {} {
      var x :| x in s;
      SumTake(s, x, f);
      SumNonNegative(s - {x}, f);
      assert forall y :: y in s ==> y == x || y in s - {x};
    }
  }

  // ---- running a partial step over a sequence ----

  function Fold<S, E>(step: (S, E) -> Option<S>, s: S, es: seq<E>): Option<S>
    decreases |es|
  {
    if es == [] then Some(s)
    else match Fold(step, s, es[..|es| - 1])
      case None => None
      case Some(before) => step(before, es[|es| - 1])
  }

  /** Running on from where a run ended is running the whole. */
  lemma {:induction false} FoldConcat<S, E>(step: (S, E) -> Option<S>, s: S, a: seq<E>, b: seq<E>)
    ensures Fold(step, s, a + b) ==
            match Fold(step, s, a) case None => None case Some(middle) => Fold(step, middle, b)
    decreases |b|
  {
    if b == [] {
      assert a + b == a;
    } else {
      assert (a + b)[..|a + b| - 1] == a + b[..|b| - 1];
      FoldConcat(step, s, a, b[..|b| - 1]);
    }
  }

  lemma {:induction false} FoldKeeps<S(!new), E(!new)>(step: (S, E) -> Option<S>, s: S, es: seq<E>, inv: S -> bool,
        sane: E -> bool)
    requires inv(s) && Fold(step, s, es).Some? && forall i :: 0 <= i < |es| ==> sane(es[i])
    requires forall x, e :: inv(x) && sane(e) && step(x, e).Some? ==> inv(step(x, e).value)
    ensures inv(Fold(step, s, es).value)
    decreases |es|
  {
    if es != [] { FoldKeeps(step, s, es[..|es| - 1], inv, sane); }
  }

  /** A run that fails part of the way fails as a whole. */
  lemma {:induction false} FoldFails<S, E>(step: (S, E) -> Option<S>, s: S, es: seq<E>, n: nat)
    requires n <= |es| && Fold(step, s, es[..n]).None?
    ensures Fold(step, s, es).None?
  {
    FoldConcat(step, s, es[..n], es[n..]);
    assert es[..n] + es[n..] == es;
  }

  lemma {:induction false} FoldNext<S, E>(step: (S, E) -> Option<S>, s: S, es: seq<E>, n: nat)
    requires n < |es|
    ensures Fold(step, s, es[..n + 1]) ==
            match Fold(step, s, es[..n]) case None => None case Some(before) => step(before, es[n])
  {
    assert es[..n + 1][..n] == es[..n];
  }

  /** What is left of a run that fails: the step that fails may itself leave something behind. */
  function Halted<S, E>(step: (S, E) -> Option<S>, halt: (S, E) -> S, s: S, es: seq<E>): S
    decreases |es|
  {
    if es == [] then s
    else match Fold(step, s, es[..|es| - 1])
      case None => Halted(step, halt, s, es[..|es| - 1])
      case Some(before) => halt(before, es[|es| - 1])
  }

  lemma {:induction false} HaltedAt<S, E>(step: (S, E) -> Option<S>, halt: (S, E) -> S, s: S, es: seq<E>, n: nat)
    requires n < |es| && Fold(step, s, es[..n]).Some? && Fold(step, s, es[..n + 1]).None?
    ensures Fold(step, s, es).None? && Halted(step, halt, s, es) == halt(Fold(step, s, es[..n]).value, es[n])
    decreases |es|
  {
    var front := es[..|es| - 1];
    if n == |front| {
      assert es[..n + 1] == es;
    } else {
      assert front[..n] == es[..n] && front[..n + 1] == es[..n + 1];
      HaltedAt(step, halt, s, front, n);
    }
  }

  /** The keys of a map, in some order. */
  ghost function KeysOf<K(!new), V>(m: map<K, V>): (keys: seq<K>)
    ensures forall k :: k in keys <==> k in m
    decreases |m|
  {
    if m.Keys == {} then []
    else
      var k := PickOf(m.Keys);
      assert |m - {k}| < |m| by { SmallerMap(m, k); }
      KeysOf(m - {k}) + [k]
  }

  ghost function PickOf<T(!new)>(s: set<T>): (x: T)
    requires s != {}
    ensures x in s
  {
    var x :| x in s; x
  }

  lemma {:induction false} SmallerMap<K, V>(m: map<K, V>, k: K)
    requires k in m
    ensures |m - {k}| < |m|
  {
    assert (m - {k}).Keys == m.Keys - {k};
    assert |m| == |m.Keys| && |m - {k}| == |(m - {k}).Keys|;
  }

  function Restricted<K, V>(m: map<K, V>, keys: seq<K>): map<K, V>
    requires forall k :: k in keys ==> k in m
    decreases |keys|
  {
    if keys == [] then map[]
    else var k := keys[|keys| - 1]; assert k in keys; Restricted(m, keys[..|keys| - 1])[k := m[k]]
  }

  lemma {:induction false} RestrictedMeaning<K, V>(m: map<K, V>, keys: seq<K>)
    requires forall k :: k in keys ==> k in m
    ensures forall k :: k in Restricted(m, keys) <==> k in keys
    ensures forall k :: k in keys ==> Restricted(m, keys)[k] == m[k]
    decreases |keys|
  {
    if keys != [] {
      var n := |keys| - 1;
      RestrictedMeaning(m, keys[..n]);
      assert forall k :: k in keys <==> k in keys[..n] || k == keys[n];
    }
  }

  // ---- running a partial step that also puts something out ----

  function Run<S, E, O>(step: (S, E) -> Option<(S, seq<O>)>, s: S, es: seq<E>): Option<(S, seq<O>)>
    decreases |es|
  {
    if es == [] then Some((s, []))
    else match Run(step, s, es[..|es| - 1])
      case None => None
      case Some((before, out)) => Putting(out, step(before, es[|es| - 1]))
  }

  function Putting<S, O>(out: seq<O>, r: Option<(S, seq<O>)>): Option<(S, seq<O>)>
  {
    match r case None => None case Some((after, more)) => Some((after, out + more))
  }

  lemma {:induction false} PuttingTwice<S, O>(a: seq<O>, b: seq<O>, r: Option<(S, seq<O>)>)
    ensures Putting(a, Putting(b, r)) == Putting(a + b, r)
    ensures Putting([], r) == r
  {
    if r.Some? {
      var more := r.value.1;
      assert a + (b + more) == a + b + more && [] + more == more;
    }
  }

  lemma {:induction false} RunConcat<S, E, O>(step: (S, E) -> Option<(S, seq<O>)>, s: S, a: seq<E>, b: seq<E>)
    ensures Run(step, s, a + b) ==
            match Run(step, s, a) case None => None case Some((middle, out)) => Putting(out, Run(step, middle, b))
    decreases |b|
  {
    if b == [] {
      assert a + b == a;
      if Run(step, s, a).Some? { var out := Run(step, s, a).value.1; assert out + [] == out; }
    } else {
      var front, last := b[..|b| - 1], b[|b| - 1];
      assert (a + b)[..|a + b| - 1] == a + front;
      RunConcat(step, s, a, front);
      if Run(step, s, a).Some? {
        var (middle, out) := Run(step, s, a).value;
        if Run(step, middle, front).Some? {
          var (before, more) := Run(step, middle, front).value;
          PuttingTwice(out, more, step(before, last));
        }
      }
    }
  }

  lemma {:induction false} RunOne<S, E, O>(step: (S, E) -> Option<(S, seq<O>)>, s: S, e: E)
    ensures Run(step, s, [e]) == step(s, e)
  {
    assert [e][..0] == [];
    PuttingTwice([], [], step(s, e));
  }
}
