/** The dashboard's reconciliation of tracked with billed spend: a merge of two
    query results over one key, which is the provider or the day. */
module Recon {
  import opened Common

  // A row of a query result; GROUP BY makes its keys distinct.
  datatype Spend = Spend(key: string, usd: int)

  datatype ReconRow = ReconRow(key: string, tracked: int, billed: int)

  ghost predicate DistinctKeys(rows: seq<Spend>) {
    forall i, j :: 0 <= i < j < |rows| ==> rows[i].key != rows[j].key
  }

  // What a result holds for a key.
  function SpendOn(rows: seq<Spend>, key: string): int {
    if rows == [] then 0
    else if rows[|rows| - 1].key == key then rows[|rows| - 1].usd
    else SpendOn(rows[..|rows| - 1], key)
  }

  ghost predicate HasKey(rows: seq<Spend>, key: string) {
    exists i :: 0 <= i < |rows| && rows[i].key == key
  }

  function Total(rows: seq<Spend>): int {
    if rows == [] then 0 else Total(rows[..|rows| - 1]) + rows[|rows| - 1].usd
  }

  function TrackedTotal(rows: seq<ReconRow>): int {
    if rows == [] then 0 else TrackedTotal(rows[..|rows| - 1]) + rows[|rows| - 1].tracked
  }

  function BilledTotal(rows: seq<ReconRow>): int {
    if rows == [] then 0 else BilledTotal(rows[..|rows| - 1]) + rows[|rows| - 1].billed
  }

  // The place of a key in a JavaScript Map, which keeps insertion order; |rows|
  // if it is not there.
  function Place(rows: seq<ReconRow>, key: string, from: nat): (i: nat)
    requires from <= |rows|
    ensures from <= i <= |rows|
    ensures i < |rows| ==> rows[i].key == key
    ensures forall k :: from <= k < i ==> rows[k].key != key
    decreases |rows| - from
  {
    if from == |rows| || rows[from].key == key then from else Place(rows, key, from + 1)
  }

  // Map.set.
  function Put(rows: seq<ReconRow>, row: ReconRow): (r: seq<ReconRow>) {
    var i := Place(rows, row.key, 0);
    if i < |rows| then rows[i := row] else rows + [row]
  }

  ghost predicate Lists(rows: seq<ReconRow>, key: string) {
    exists i :: 0 <= i < |rows| && rows[i].key == key
  }

  // A full outer join: one row for every key of either side, with what each side
  // holds for it, 0 where it holds nothing.
  ghost predicate IsJoin(rows: seq<ReconRow>, tracked: seq<Spend>, billed: seq<Spend>) {
    && (forall i, j :: 0 <= i < j < |rows| ==> rows[i].key != rows[j].key)
    && (forall i :: 0 <= i < |rows| ==>
          && rows[i].tracked == SpendOn(tracked, rows[i].key)
          && rows[i].billed == SpendOn(billed, rows[i].key))
    && (forall key :: Lists(rows, key) <==> HasKey(tracked, key) || HasKey(billed, key))
  }

  lemma HasKeyMore(rows: seq<Spend>, key: string)
    requires rows != []
    ensures var n := |rows| - 1;
            HasKey(rows, key) <==> HasKey(rows[..n], key) || rows[n].key == key
  {
  }

  lemma {:induction false} NoSpend(rows: seq<Spend>, key: string)
    requires !HasKey(rows, key)
    ensures SpendOn(rows, key) == 0
  {
    if rows != [] {
      HasKeyMore(rows, key);
      NoSpend(rows[..|rows| - 1], key);
    }
  }

  lemma PutLists(rows: seq<ReconRow>, row: ReconRow, key: string)
    ensures Lists(Put(rows, row), key) <==> Lists(rows, key) || row.key == key
  {
    var r, i := Put(rows, row), Place(rows, row.key, 0);
    if Lists(rows, key) {
      var k :| 0 <= k < |rows| && rows[k].key == key;
      assert r[k].key == key;
    }
    assert r[i] == row;
    if Lists(r, key) && row.key != key {
      var k :| 0 <= k < |r| && r[k].key == key;
      assert rows[k].key == key;
    }
  }

  // Spending on a key after one more row of a result.
  lemma OneMoreSpend(rows: seq<Spend>, n: nat, key: string)
    requires n < |rows| && DistinctKeys(rows)
    ensures SpendOn(rows[..n + 1], key) == if rows[n].key == key then rows[n].usd else SpendOn(rows[..n], key)
    ensures HasKey(rows[..n + 1], key) <==> HasKey(rows[..n], key) || rows[n].key == key
    ensures rows[n].key == key ==> !HasKey(rows[..n], key)
  {
    assert rows[..n + 1][..n] == rows[..n];
    HasKeyMore(rows[..n + 1], key);
    if HasKey(rows[..n], key) {
      var i :| 0 <= i < n && rows[..n][i].key == key;
      assert rows[i].key == key;
    }
  }

  lemma TrackedRowJoins(rows: seq<ReconRow>, tracked: seq<Spend>, n: nat)
    requires n < |tracked| && DistinctKeys(tracked) && IsJoin(rows, tracked[..n], [])
    ensures IsJoin(Put(rows, ReconRow(tracked[n].key, tracked[n].usd, 0)), tracked[..n + 1], [])
  {
    var row := ReconRow(tracked[n].key, tracked[n].usd, 0);
    var r := Put(rows, row);
    forall key
      ensures Lists(r, key) <==> HasKey(tracked[..n + 1], key) || HasKey([], key)
    {
      PutLists(rows, row, key);
      OneMoreSpend(tracked, n, key);
    }
    forall i | 0 <= i < |r|
      ensures r[i].tracked == SpendOn(tracked[..n + 1], r[i].key) && r[i].billed == SpendOn([], r[i].key)
    {
      OneMoreSpend(tracked, n, r[i].key);
    }
  }

  lemma {:induction false} BilledRowJoins(rows: seq<ReconRow>, tracked: seq<Spend>, billed: seq<Spend>, n: nat,
        row: ReconRow)
    requires n < |billed| && DistinctKeys(billed) && IsJoin(rows, tracked, billed[..n])
    requires row.key == billed[n].key && row.billed == billed[n].usd
    requires var i := Place(rows, row.key, 0); row.tracked == if i < |rows| then rows[i].tracked else 0
    ensures IsJoin(Put(rows, row), tracked, billed[..n + 1])
  {
    var r := Put(rows, row);
    assert row.tracked == SpendOn(tracked, row.key) by {
      if Place(rows, row.key, 0) == |rows| {
        assert !Lists(rows, row.key);
        NoSpend(tracked, row.key);
      }
    }
    forall key
      ensures Lists(r, key) <==> HasKey(tracked, key) || HasKey(billed[..n + 1], key)
    {
      PutLists(rows, row, key);
      OneMoreSpend(billed, n, key);
    }
    forall i | 0 <= i < |r|
      ensures r[i].tracked == SpendOn(tracked, r[i].key) && r[i].billed == SpendOn(billed[..n + 1], r[i].key)
    {
      OneMoreSpend(billed, n, r[i].key);
    }
  }

  /** The merge of getReconciliationByProvider and getReconciliationDaily, up to
      the order in which the rows are shown. */
  method Merge(tracked: seq<Spend>, billed: seq<Spend>) returns (rows: seq<ReconRow>)
    requires DistinctKeys(tracked) && DistinctKeys(billed)
    ensures IsJoin(rows, tracked, billed)
  {
    rows := [];
    for i := 0 to |tracked|
      invariant IsJoin(rows, tracked[..i], [])
    {
      TrackedRowJoins(rows, tracked, i);
      rows := Put(rows, ReconRow(tracked[i].key, tracked[i].usd, 0));
    }
    assert tracked[..|tracked|] == tracked && billed[..0] == [];
    for i := 0 to |billed|
      invariant IsJoin(rows, tracked, billed[..i])
    {
      var at := Place(rows, billed[i].key, 0);
      var row := if at < |rows| then rows[at] else ReconRow(billed[i].key, 0, 0);
      row := row.(billed := billed[i].usd);
      BilledRowJoins(rows, tracked, billed, i, row);
      rows := Put(rows, row);
    }
    assert billed[..|billed|] == billed;
  }

  // ------------------------------------------------------------------- totals

  // The spending on the keys of the first n joined rows.
  function SpendOver(side: seq<Spend>, rows: seq<ReconRow>, n: nat): int
    requires n <= |rows|
  {
    if n == 0 then 0 else SpendOver(side, rows, n - 1) + SpendOn(side, rows[n - 1].key)
  }

  lemma {:induction false} NothingOver(rows: seq<ReconRow>, n: nat)
    requires n <= |rows|
    ensures SpendOver([], rows, n) == 0
  {
    if n > 0 {
      NothingOver(rows, n - 1);
    }
  }

  // A result row counts once, in the joined row of its key.
  lemma {:induction false} SpendOverMore(side: seq<Spend>, rows: seq<ReconRow>, n: nat)
    requires side != [] && DistinctKeys(side) && n <= |rows|
    requires forall i, j :: 0 <= i < j < |rows| ==> rows[i].key != rows[j].key
    ensures var last := side[|side| - 1];
            SpendOver(side, rows, n)
            == SpendOver(side[..|side| - 1], rows, n) + if Place(rows, last.key, 0) < n then last.usd else 0
  {
    if n > 0 {
      var k := |side| - 1;
      SpendOverMore(side, rows, n - 1);
      var key := rows[n - 1].key;
      assert side[..k + 1] == side;
      OneMoreSpend(side, k, key);
      if side[k].key == key {
        NoSpend(side[..k], key);
        PlaceOf(rows, n - 1);
      }
    }
  }

  lemma {:induction false} PlaceOf(rows: seq<ReconRow>, i: nat)
    requires i < |rows| && forall i, j :: 0 <= i < j < |rows| ==> rows[i].key != rows[j].key
    ensures Place(rows, rows[i].key, 0) == i
  {
  }

  lemma {:induction false} SpendOverAll(side: seq<Spend>, rows: seq<ReconRow>)
    requires DistinctKeys(side) && forall i, j :: 0 <= i < j < |rows| ==> rows[i].key != rows[j].key
    requires forall i :: 0 <= i < |side| ==> Lists(rows, side[i].key)
    ensures SpendOver(side, rows, |rows|) == Total(side)
  {
    if side == [] {
      NothingOver(rows, |rows|);
    } else {
      var k := |side| - 1;
      SpendOverMore(side, rows, |rows|);
      assert Lists(rows, side[k].key);
      SpendOverAll(side[..k], rows);
    }
  }

  lemma {:induction false} ColumnsAreSpend(rows: seq<ReconRow>, tracked: seq<Spend>, billed: seq<Spend>, n: nat)
    requires IsJoin(rows, tracked, billed) && n <= |rows|
    ensures TrackedTotal(rows[..n]) == SpendOver(tracked, rows, n)
    ensures BilledTotal(rows[..n]) == SpendOver(billed, rows, n)
  {
    if n > 0 {
      assert rows[..n][..n - 1] == rows[..n - 1];
      ColumnsAreSpend(rows, tracked, billed, n - 1);
    }
  }

  /** The merge keeps both totals: what was tracked and what was billed. */
  lemma TotalsAreKept(rows: seq<ReconRow>, tracked: seq<Spend>, billed: seq<Spend>)
    requires DistinctKeys(tracked) && DistinctKeys(billed) && IsJoin(rows, tracked, billed)
    ensures TrackedTotal(rows) == Total(tracked) && BilledTotal(rows) == Total(billed)
  {
    ColumnsAreSpend(rows, tracked, billed, |rows|);
    assert rows[..|rows|] == rows;
    forall i | 0 <= i < |tracked|
      ensures Lists(rows, tracked[i].key)
    {
      assert HasKey(tracked, tracked[i].key);
    }
    forall i | 0 <= i < |billed|
      ensures Lists(rows, billed[i].key)
    {
      assert HasKey(billed, billed[i].key);
    }
    SpendOverAll(tracked, rows);
    SpendOverAll(billed, rows);
  }
}
