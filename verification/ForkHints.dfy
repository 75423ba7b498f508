/** The bounded map of fork read hints (rangeKeeperForkHints in src/deployments.ts): a JavaScript Map keeps its keys in
    the order of their first insertion, so deleting before setting keeps it in the order of last writes. */
module ForkHints {
  import opened Prelude

  const CAPACITY := 8

  /** The hints themselves are opaque to the map. */
  type Hints = string

  datatype Entry = Entry(key: string, hints: Hints)

  function Deleted(entries: seq<Entry>, key: string): seq<Entry>
  {
    if entries == [] then []
    else
      var rest, last := Deleted(entries[..|entries| - 1], key), entries[|entries| - 1];
      if last.key == key then rest else rest + [last]
  }

  function Evicted(entries: seq<Entry>): seq<Entry>
  {
    if |entries| >= CAPACITY then entries[1..] else entries
  }

  function Written(entries: seq<Entry>, w: Entry): seq<Entry>
  {
    Evicted(Deleted(entries, w.key)) + [w]
  }

  class ReadHints {
    /** The Map's entries in iteration order. */
    var entries: seq<Entry>

    constructor ()
      ensures entries == []
    {
      entries := [];
    }

    /** prefetchHints */
    method Prefetch(key: string) returns (hints: Option<Hints>)
      ensures hints.None? <==> forall i :: 0 <= i < |entries| ==> entries[i].key != key
      ensures hints.Some? ==> exists i :: 0 <= i < |entries| && entries[i].key == key && entries[i].hints == hints.value
    {
      for i := 0 to |entries|
        invariant forall j :: 0 <= j < i ==> entries[j].key != key
      {
        if entries[i].key == key { return Some(entries[i].hints); }
      }
      hints := None;
    }

    /** onReadHints: delete the key, make room, set it again. */
    method OnReadHints(key: string, hints: Hints)
      modifies this
      ensures entries == Written(old(entries), Entry(key, hints))
    {
      entries := Deleted(entries, key);
      if |entries| >= CAPACITY { entries := entries[1..]; }
      entries := entries + [Entry(key, hints)];
    }
  }

  function WrittenAll(writes: seq<Entry>): seq<Entry>
  {
    if writes == [] then [] else Written(WrittenAll(writes[..|writes| - 1]), writes[|writes| - 1])
  }

  // ---- the reference: the last write of every key, in the order of the writes ----

  /** Each key's last write, oldest first. */
  function LastWrites(writes: seq<Entry>): seq<Entry>
  {
    if writes == [] then []
    else Deleted(LastWrites(writes[..|writes| - 1]), writes[|writes| - 1].key) + [writes[|writes| - 1]]
  }

  function Newest(entries: seq<Entry>, n: nat): seq<Entry>
  {
    if |entries| <= n then entries else entries[|entries| - n..]
  }

  predicate DistinctKeys(entries: seq<Entry>)
  {
    forall i, j :: 0 <= i < j < |entries| ==> entries[i].key != entries[j].key
  }

  predicate Lacks(entries: seq<Entry>, key: string)
  {
    forall i :: 0 <= i < |entries| ==> entries[i].key != key
  }

  lemma {:induction false} DeletedMember(entries: seq<Entry>, key: string, e: Entry)
    ensures e in Deleted(entries, key) <==> e in entries && e.key != key
  {
    if entries != [] {
      var front, last := entries[..|entries| - 1], entries[|entries| - 1];
      DeletedMember(front, key, e);
      assert entries == front + [last];
    }
  }

  lemma {:induction false} DeletedLacks(entries: seq<Entry>, key: string, other: string)
    requires key == other || Lacks(entries, other)
    ensures Lacks(Deleted(entries, key), other)
  {
    var rest := Deleted(entries, key);
    forall i | 0 <= i < |rest|
      ensures rest[i].key != other
    {
      DeletedMember(entries, key, rest[i]);
    }
  }

  lemma {:induction false} DeletedDistinct(entries: seq<Entry>, key: string)
    requires DistinctKeys(entries)
    ensures DistinctKeys(Deleted(entries, key))
  {
    if entries != [] {
      var front, last := entries[..|entries| - 1], entries[|entries| - 1];
      DeletedDistinct(front, key);
      assert Lacks(front, last.key);
      DeletedLacks(front, key, last.key);
    }
  }

  lemma {:induction false} DeletedAbsent(entries: seq<Entry>, key: string)
    requires Lacks(entries, key)
    ensures Deleted(entries, key) == entries
  {
    if entries != [] { DeletedAbsent(entries[..|entries| - 1], key); }
  }

  lemma {:induction false} DeletedSize(entries: seq<Entry>, key: string)
    requires DistinctKeys(entries)
    ensures |Deleted(entries, key)| == if Lacks(entries, key) then |entries| else |entries| - 1
  {
    if entries != [] {
      var front, last := entries[..|entries| - 1], entries[|entries| - 1];
      DeletedSize(front, key);
      if last.key == key { assert Lacks(front, key); }
      assert Lacks(entries, key) <==> Lacks(front, key) && last.key != key;
    }
  }

  lemma {:induction false} LastWritesDistinct(writes: seq<Entry>)
    ensures DistinctKeys(LastWrites(writes))
  {
    if writes != [] {
      var before, w := LastWrites(writes[..|writes| - 1]), writes[|writes| - 1];
      LastWritesDistinct(writes[..|writes| - 1]);
      DeletedDistinct(before, w.key);
      DeletedLacks(before, w.key, w.key);
    }
  }

  predicate NotRewritten(writes: seq<Entry>, i: nat)
    requires i < |writes|
  {
    forall j :: i < j < |writes| ==> writes[j].key != writes[i].key
  }

  /** The first k writes without those whose key is written again later. */
  function Unrewritten(writes: seq<Entry>, k: nat): seq<Entry>
    requires k <= |writes|
  {
    if k == 0 then [] else Unrewritten(writes, k - 1) + if NotRewritten(writes, k - 1) then [writes[k - 1]] else []
  }

  lemma {:induction false} OneMoreWrite(writes: seq<Entry>, k: nat)
    requires writes != [] && k < |writes|
    ensures Unrewritten(writes, k) == Deleted(Unrewritten(writes[..|writes| - 1], k), writes[|writes| - 1].key)
  {
    if k > 0 {
      var front, w := writes[..|writes| - 1], writes[|writes| - 1];
      OneMoreWrite(writes, k - 1);
      assert NotRewritten(writes, k - 1) <==> NotRewritten(front, k - 1) && front[k - 1].key != w.key;
      var before := Unrewritten(front, k - 1);
      assert before + [] == before && Deleted(before, w.key) + [] == Deleted(before, w.key);
      assert (before + [front[k - 1]])[..|before|] == before;
    }
  }

  /** LastWrites is the writes whose key was not written again, in the order they were made. */
  lemma {:induction false} LastWritesMeaning(writes: seq<Entry>)
    ensures LastWrites(writes) == Unrewritten(writes, |writes|)
  {
    if writes != [] {
      var n := |writes| - 1;
      LastWritesMeaning(writes[..n]);
      OneMoreWrite(writes, n);
      assert NotRewritten(writes, n);
    }
  }

  lemma {:induction false} DeletedConcat(a: seq<Entry>, b: seq<Entry>, key: string)
    ensures Deleted(a + b, key) == Deleted(a, key) + Deleted(b, key)
    decreases |b|
  {
    if b == [] {
      assert a + b == a && Deleted(a, key) + [] == Deleted(a, key);
    } else {
      var front, last := b[..|b| - 1], b[|b| - 1];
      assert (a + b)[..|a + b| - 1] == a + front;
      DeletedConcat(a, front, key);
      assert Deleted(a, key) + (Deleted(front, key) + [last]) == Deleted(a, key) + Deleted(front, key) + [last];
    }
  }

  lemma {:induction false} NewestOfTail(a: seq<Entry>, b: seq<Entry>, n: nat)
    requires |b| >= n || a == []
    ensures Newest(a + b, n) == Newest(b, n)
  {
    if a == [] { assert a + b == b; }
  }

  lemma {:induction false} MakeRoom(kept: seq<Entry>, w: Entry)
    requires |kept| <= CAPACITY
    ensures Evicted(kept) + [w] == Newest(kept + [w], CAPACITY)
  {
  }

  /** One write on the newest eight is the newest eight after one write. */
  lemma {:induction false} WriteKeepsNewest(all: seq<Entry>, w: Entry)
    requires DistinctKeys(all)
    ensures Written(Newest(all, CAPACITY), w) == Newest(Deleted(all, w.key) + [w], CAPACITY)
  {
    var from := if |all| <= CAPACITY then 0 else |all| - CAPACITY;
    var older, newer := all[..from], all[from..];
    assert all == older + newer && Newest(all, CAPACITY) == newer;
    var kept := Deleted(newer, w.key);
    DeletedConcat(older, newer, w.key);
    DeletedSize(newer, w.key);
    MakeRoom(kept, w);
    assert Deleted(all, w.key) + [w] == Deleted(older, w.key) + (kept + [w]);
    NewestOfTail(Deleted(older, w.key), kept + [w], CAPACITY);
  }

  /** After any writes the map holds exactly the eight most recently written distinct hashes, each with its latest
      hints, in the order of their last writes. */
  lemma {:induction false} HoldsNewest(writes: seq<Entry>)
    ensures WrittenAll(writes) == Newest(Unrewritten(writes, |writes|), CAPACITY) && |WrittenAll(writes)| <= CAPACITY
    ensures DistinctKeys(Unrewritten(writes, |writes|))
  {
    LastWritesMeaning(writes);
    LastWritesDistinct(writes);
    if writes != [] {
      var front := writes[..|writes| - 1];
      HoldsNewest(front);
      LastWritesMeaning(front);
      LastWritesDistinct(front);
      WriteKeepsNewest(LastWrites(front), writes[|writes| - 1]);
    }
  }
}
