/** The checkpoint rows one poll works on (Source.rows in src/adaptive-paper.ts). */
module CheckpointRows {
  import opened Prelude

  datatype Checkpoint = Checkpoint(block: nat, at: int, targetSet: string, price: int, tick: int, liquidity: int,
                                   growth0: int, growth1: int)

  datatype Row = Row(id: int, checkpoint: Checkpoint, canonical: bool, covered: bool, identityValid: bool)
  {
    function Block(): int { checkpoint.block }

    predicate Usable() { canonical && covered && identityValid }
  }

  /** ORDER BY c.block_number,c.id over rows past afterBlock. */
  predicate Fetched(all: seq<Row>, afterBlock: int)
  {
    && (forall i :: 0 <= i < |all| ==> all[i].Block() > afterBlock)
    && (forall i, j :: 0 <= i < j < |all| ==> all[i].Block() <= all[j].Block())
  }

  function Usables(all: seq<Row>): seq<Row>
  {
    if all == [] then []
    else var before, row := Usables(all[..|all| - 1]), all[|all| - 1]; if row.Usable() then before + [row] else before
  }

  /** A row replaces the one before it when both are of the same block. */
  function Merged(unique: seq<Row>, row: Row): seq<Row>
  {
    if unique != [] && unique[|unique| - 1].Block() == row.Block() then unique[|unique| - 1 := row] else unique + [row]
  }

  function Unique(rows: seq<Row>): seq<Row>
  {
    if rows == [] then [] else Merged(Unique(rows[..|rows| - 1]), rows[|rows| - 1])
  }

  function NotCanonical(all: seq<Row>): nat
  {
    if all == [] then 0
    else NotCanonical(all[..|all| - 1]) + if all[|all| - 1].canonical then 0 else 1
  }

  function NotCovered(all: seq<Row>): nat
  {
    if all == [] then 0
    else
      var row := all[|all| - 1];
      NotCovered(all[..|all| - 1]) + if row.canonical && !(row.covered && row.identityValid) then 1 else 0
  }

  datatype Deferred = Deferred(notCanonical: nat, notCovered: nat)

  method Rows(all: seq<Row>) returns (unique: seq<Row>, deferred: Deferred)
    ensures unique == Unique(Usables(all))
    ensures deferred == Deferred(NotCanonical(all), NotCovered(all))
    ensures deferred.notCanonical + deferred.notCovered + |Usables(all)| == |all|
  {
    unique := [];
    var notCanonical, notCovered: nat := 0, 0;
    for i := 0 to |all|
      invariant unique == Unique(Usables(all[..i]))
      invariant notCanonical == NotCanonical(all[..i]) && notCovered == NotCovered(all[..i])
      invariant notCanonical + notCovered + |Usables(all[..i])| == i
    {
      var row := all[i];
      UsablesStep(all, i);
      if row.Usable() {
        var n := |unique|;
        if n > 0 && unique[n - 1].Block() == row.Block() {
          unique := unique[n - 1 := row];
        } else {
          unique := unique + [row];
        }
      } else if !row.canonical {
        notCanonical := notCanonical + 1;
      } else {
        notCovered := notCovered + 1;
      }
    }
    assert all[..|all|] == all;
    deferred := Deferred(notCanonical, notCovered);
  }

  lemma {:induction false} UsablesStep(all: seq<Row>, i: nat)
    requires i < |all|
    ensures Usables(all[..i + 1]) == if all[i].Usable() then Usables(all[..i]) + [all[i]] else Usables(all[..i])
    ensures NotCanonical(all[..i + 1]) == NotCanonical(all[..i]) + if all[i].canonical then 0 else 1
    ensures NotCovered(all[..i + 1]) == NotCovered(all[..i]) + if all[i].canonical && !all[i].Usable() then 1 else 0
    ensures all[i].Usable() ==> Unique(Usables(all[..i + 1])) == Merged(Unique(Usables(all[..i])), all[i])
  {
    assert all[..i + 1][..i] == all[..i];
    if all[i].Usable() {
      var whole := Usables(all[..i + 1]);
      assert whole[..|whole| - 1] == Usables(all[..i]);
    }
  }

  predicate Rising(rows: seq<Row>)
  {
    forall i, j :: 0 <= i < j < |rows| ==> rows[i].Block() < rows[j].Block()
  }

  /** The last usable row of its block. */
  ghost predicate LastUsable(all: seq<Row>, i: nat)
    requires i < |all|
  {
    all[i].Usable() && forall j :: i < j < |all| && all[j].Usable() ==> all[j].Block() != all[i].Block()
  }

  ghost predicate IsLastUsable(all: seq<Row>, row: Row)
  {
    exists i :: 0 <= i < |all| && all[i] == row && LastUsable(all, i)
  }

  /** A poll sees strictly increasing blocks, one row each: exactly the last usable row of every block that has one. */
  lemma {:induction false} RowsAreLastUsable(all: seq<Row>, afterBlock: int, row: Row)
    requires Fetched(all, afterBlock)
    ensures Rising(Unique(Usables(all)))
    ensures row in Unique(Usables(all)) <==> IsLastUsable(all, row)
    decreases |all|
  {
    if all != [] {
      var n := |all| - 1;
      var front, last := all[..n], all[n];
      RowsAreLastUsable(front, afterBlock, row);
      UsablesStep(all, n);
      assert all[..n + 1] == all;
      UniqueBounded(front, last.Block());
      if last.Usable() {
        LastUsableGrows(all, row);
        MergedMembers(Unique(Usables(front)), last, row);
      } else {
        LastUsableSame(all, row);
      }
    }
  }

  lemma {:induction false} UniqueBounded(all: seq<Row>, bound: int)
    requires forall i :: 0 <= i < |all| ==> all[i].Block() <= bound
    ensures forall i :: 0 <= i < |Unique(Usables(all))| ==> Unique(Usables(all))[i].Block() <= bound
    decreases |all|
  {
    if all != [] {
      var n := |all| - 1;
      UniqueBounded(all[..n], bound);
      UsablesStep(all, n);
      assert all[..n + 1] == all;
    }
  }

  lemma {:induction false} MergedMembers(unique: seq<Row>, last: Row, row: Row)
    requires Rising(unique) && forall i :: 0 <= i < |unique| ==> unique[i].Block() <= last.Block()
    ensures Rising(Merged(unique, last))
    ensures row in Merged(unique, last) <==> row == last || (row in unique && row.Block() != last.Block())
  {
    var n := |unique|;
    if n > 0 && unique[n - 1].Block() == last.Block() {
      assert Merged(unique, last) == unique[..n - 1] + [last];
      assert unique == unique[..n - 1] + [unique[n - 1]];
    }
  }

  lemma {:induction false} LastUsableGrows(all: seq<Row>, row: Row)
    requires all != [] && all[|all| - 1].Usable()
    ensures IsLastUsable(all, row) <==>
            row == all[|all| - 1] || (IsLastUsable(all[..|all| - 1], row) && row.Block() != all[|all| - 1].Block())
  {
    var n := |all| - 1;
    var front, last := all[..n], all[n];
    assert LastUsable(all, n);
    if IsLastUsable(all, row) {
      var i :| 0 <= i < |all| && all[i] == row && LastUsable(all, i);
      assert i < n ==> front[i] == row && LastUsable(front, i);
    }
    if IsLastUsable(front, row) && row.Block() != last.Block() {
      var i :| 0 <= i < |front| && front[i] == row && LastUsable(front, i);
      assert all[i] == row && LastUsable(all, i);
    }
  }

  lemma {:induction false} LastUsableSame(all: seq<Row>, row: Row)
    requires all != [] && !all[|all| - 1].Usable()
    ensures IsLastUsable(all, row) <==> IsLastUsable(all[..|all| - 1], row)
  {
    var front := all[..|all| - 1];
    if IsLastUsable(all, row) {
      var i :| 0 <= i < |all| && all[i] == row && LastUsable(all, i);
      assert front[i] == row && LastUsable(front, i);
    }
    if IsLastUsable(front, row) {
      var i :| 0 <= i < |front| && front[i] == row && LastUsable(front, i);
      assert all[i] == row && LastUsable(all, i);
    }
  }

  // ---- what happens to a row the filter dropped ----

  /** Where the next poll's query starts after the asset has worked through these rows. */
  function NextAfter(all: seq<Row>, afterBlock: int): int
  {
    var rows := Unique(Usables(all));
    if rows == [] then afterBlock else rows[|rows| - 1].Block()
  }

  lemma {:induction false} NextAfterStep(all: seq<Row>, afterBlock: int)
    requires all != []
    ensures var n := |all| - 1;
            NextAfter(all, afterBlock) == if all[n].Usable() then all[n].Block() else NextAfter(all[..n], afterBlock)
  {
    hide NotCanonical, NotCovered, Unique, Usables;
    UsablesStep(all, |all| - 1);
    assert all[..|all|] == all;
    NothingUsed();
  }

  lemma {:induction false} NothingUsed()
    ensures Unique(Usables([])) == []
  {
  }

  lemma {:induction false} NextAfterIsLargest(all: seq<Row>, afterBlock: int)
    requires Fetched(all, afterBlock)
    ensures NextAfter(all, afterBlock) >= afterBlock
    ensures forall i :: 0 <= i < |all| && all[i].Usable() ==> all[i].Block() <= NextAfter(all, afterBlock)
    ensures NextAfter(all, afterBlock) > afterBlock ==>
            exists i :: 0 <= i < |all| && all[i].Usable() && all[i].Block() == NextAfter(all, afterBlock)
    decreases |all|
  {
    if all != [] {
      var n := |all| - 1;
      hide NextAfter;
      NextAfterIsLargest(all[..n], afterBlock);
      NextAfterStep(all, afterBlock);
      assert all[..n] + [all[n]] == all;
      if all[n].Usable() {
        assert all[n].Block() == NextAfter(all, afterBlock);
      } else {
        assert forall i :: 0 <= i < n ==> all[..n][i] == all[i];
      }
    }
  }

  /** A dropped row is offered again by the next poll exactly when this poll accepted no row of its block or later;
      otherwise the query has moved past it for good. */
  lemma {:induction false} DroppedRowReoffered(all: seq<Row>, afterBlock: int, i: nat)
    requires Fetched(all, afterBlock) && i < |all| && !all[i].Usable()
    ensures all[i].Block() > NextAfter(all, afterBlock) <==>
            forall j :: 0 <= j < |all| && all[j].Usable() ==> all[j].Block() < all[i].Block()
  {
    NextAfterIsLargest(all, afterBlock);
  }

  /** An uncovered checkpoint followed by a covered one: the first is never offered again. */
  lemma {:induction false} DeferredRowCanBeLost(first: Checkpoint, second: Checkpoint)
    requires 0 < first.block < second.block
    ensures var all := [Row(1, first, true, false, true), Row(2, second, true, true, true)];
            Fetched(all, 0) && !all[0].Usable() && all[0].Block() <= NextAfter(all, 0)
  {
    var all := [Row(1, first, true, false, true), Row(2, second, true, true, true)];
    NextAfterIsLargest(all, 0);
    assert all[1].Usable();
  }
}
