/** The retention rule of pipeline.py.

    A clone's rows are listed in the order its window query ranks them: newest period first, equal
    periods in one fixed order. Row i of the list therefore has rank i + 1, and nothing below
    depends on how ties are broken. Each row is held against the retain count of the tier it was
    made under, so the stale rows need not be the last ones. */
module Retention {
  import opened Wrappers
  import opened Subscriptions
  import opened ObjectStorage

  datatype Backup = Backup(id: nat, periodStart: int, periodEnd: int, entryCount: nat,
                           key: Key, tier: Tier, restoredAt: Option<int>)

  type Rows = seq<Backup>

  ghost predicate NewestFirst(rows: Rows) {
    forall i, j :: 0 <= i < j < |rows| ==> rows[i].periodEnd >= rows[j].periodEnd
  }

  /** Rank beyond the row's own retain count. */
  predicate Stale(rows: Rows, i: nat)
    requires i < |rows|
  {
    i + 1 > Retain(rows[i].tier)
  }

  /** The rows the ranking query returns, `rank` being the rank of the first one listed. */
  function StaleFrom(rows: Rows, rank: nat): (stale: Rows) {
    if rows == [] then []
    else if rank > Retain(rows[0].tier) then [rows[0]] + StaleFrom(rows[1..], rank + 1)
    else StaleFrom(rows[1..], rank + 1)
  }

  function StaleRows(rows: Rows): (stale: Rows) {
    StaleFrom(rows, 1)
  }

  function KeepFrom(rows: Rows, rank: nat): (kept: Rows) {
    if rows == [] then []
    else if rank > Retain(rows[0].tier) then KeepFrom(rows[1..], rank + 1)
    else [rows[0]] + KeepFrom(rows[1..], rank + 1)
  }

  /** What a completed prune leaves. */
  function Prune(rows: Rows): (kept: Rows) {
    KeepFrom(rows, 1)
  }

  /** DELETE ... WHERE id IN (ids). */
  function Without(rows: Rows, ids: set<nat>): (kept: Rows) {
    if rows == [] then []
    else if rows[0].id in ids then Without(rows[1..], ids)
    else [rows[0]] + Without(rows[1..], ids)
  }

  function Ids(rows: Rows): (ids: set<nat>) {
    set i | 0 <= i < |rows| :: rows[i].id
  }

  function KeysOf(rows: Rows): (keys: set<Key>) {
    set i | 0 <= i < |rows| :: rows[i].key
  }

  ghost predicate DistinctIds(rows: Rows) {
    forall i, j :: 0 <= i < j < |rows| ==> rows[i].id != rows[j].id
  }

  // ----- what the query selects -----

  lemma {:induction false} StaleFromExact(rows: Rows, rank: nat, x: Backup)
    ensures x in StaleFrom(rows, rank) <==>
            exists i :: 0 <= i < |rows| && rows[i] == x && rank + i > Retain(x.tier)
  {
    if rows != [] {
      var tail := rows[1..];
      StaleFromExact(tail, rank + 1, x);
      if x in StaleFrom(tail, rank + 1) {
        var i :| 0 <= i < |tail| && tail[i] == x && rank + 1 + i > Retain(x.tier);
        assert rows[i + 1] == x;
      }
      if i :| 0 <= i < |rows| && rows[i] == x && rank + i > Retain(x.tier) {
        if i > 0 {
          assert tail[i - 1] == x;
        }
      }
    }
  }

  /** A row is selected just when at least its own tier's retain count of rows rank above it. */
  lemma StaleRowsExact(rows: Rows, x: Backup)
    ensures x in StaleRows(rows) <==> exists i :: 0 <= i < |rows| && rows[i] == x && Stale(rows, i)
  {
    StaleFromExact(rows, 1, x);
    forall i | 0 <= i < |rows| && rows[i] == x
      ensures Stale(rows, i) <==> 1 + i > Retain(x.tier)
    {
    }
    if x in StaleRows(rows) {
      var i :| 0 <= i < |rows| && rows[i] == x && 1 + i > Retain(x.tier);
      assert Stale(rows, i);
    }
  }

  lemma {:induction false} DeleteFromExact(rows: Rows, rank: nat, ids: set<nat>)
    requires forall i :: 0 <= i < |rows| ==> (rows[i].id in ids <==> rank + i > Retain(rows[i].tier))
    ensures Without(rows, ids) == KeepFrom(rows, rank)
  {
    if rows != [] {
      DeleteFromExact(rows[1..], rank + 1, ids);
    }
  }

  /** Deleting the selected ids leaves what the rule keeps. */
  lemma DeleteStaleIsPrune(rows: Rows)
    requires DistinctIds(rows)
    ensures Without(rows, Ids(StaleRows(rows))) == Prune(rows)
  {
    var ids := Ids(StaleRows(rows));
    forall i | 0 <= i < |rows|
      ensures rows[i].id in ids <==> 1 + i > Retain(rows[i].tier)
    {
      StaleRowsExact(rows, rows[i]);
      if rows[i].id in ids {
        var k :| 0 <= k < |StaleRows(rows)| && StaleRows(rows)[k].id == rows[i].id;
        var x := StaleRows(rows)[k];
        StaleRowsExact(rows, x);
        var j :| 0 <= j < |rows| && rows[j] == x && Stale(rows, j);
        assert j == i;
      }
      if 1 + i > Retain(rows[i].tier) {
        assert Stale(rows, i);
        var k :| 0 <= k < |StaleRows(rows)| && StaleRows(rows)[k] == rows[i];
        assert StaleRows(rows)[k].id in ids;
      }
    }
    DeleteFromExact(rows, 1, ids);
  }

  // ----- properties of a prune -----

  /** Nothing is invented or reordered away: the kept and the stale rows are all the rows. */
  lemma {:induction false} PrunePartitions(rows: Rows, rank: nat)
    ensures multiset(KeepFrom(rows, rank)) + multiset(StaleFrom(rows, rank)) == multiset(rows)
  {
    if rows != [] {
      PrunePartitions(rows[1..], rank + 1);
      assert rows == [rows[0]] + rows[1..];
    }
  }

  lemma NewestSurvives(rows: Rows)
    requires rows != []
    ensures Prune(rows) != [] && Prune(rows)[0] == rows[0]
  {
  }

  lemma {:induction false} KeepAgain(rows: Rows, rank: nat, earlier: nat)
    requires earlier <= rank
    ensures KeepFrom(KeepFrom(rows, rank), earlier) == KeepFrom(rows, rank)
  {
    if rows != [] {
      var others := KeepFrom(rows[1..], rank + 1);
      KeepAgain(rows[1..], rank + 1, earlier);
      if rank <= Retain(rows[0].tier) {
        KeepAgain(rows[1..], rank + 1, earlier + 1);
        assert KeepFrom(rows, rank) == [rows[0]] + others;
        assert ([rows[0]] + others)[1..] == others;
      }
    }
  }

  /** A second prune finds nothing to do. */
  lemma PruneIdempotent(rows: Rows)
    ensures Prune(Prune(rows)) == Prune(rows)
    ensures StaleRows(Prune(rows)) == []
  {
    KeepAgain(rows, 1, 1);
    PrunePartitions(Prune(rows), 1);
    var kept, again := Prune(rows), StaleRows(Prune(rows));
    assert |multiset(kept) + multiset(again)| == |kept| + |again|;
  }

  /** How many rows have a retain count of at most k. */
  function Poor(rows: Rows, k: nat): (count: nat) {
    if rows == [] then 0
    else (if Retain(rows[0].tier) <= k then 1 else 0) + Poor(rows[1..], k)
  }

  lemma {:induction false} KeepBound(rows: Rows, rank: nat, k: nat)
    requires rank >= 1
    ensures Poor(KeepFrom(rows, rank), k) <= if rank <= k then k - rank + 1 else 0
  {
    if rows != [] {
      KeepBound(rows[1..], rank + 1, k);
      var others := KeepFrom(rows[1..], rank + 1);
      if rank <= Retain(rows[0].tier) {
        assert ([rows[0]] + others)[1..] == others;
      }
    }
  }

  /** After a prune at most k rows have a retain count of k or less, for any mix of tiers: at most
      1 free row, 4 free or standard rows, 30 rows in all. */
  lemma RetentionBound(rows: Rows)
    ensures forall k: nat :: Poor(Prune(rows), k) <= k
    ensures |Prune(rows)| <= 30
  {
    forall k: nat
      ensures Poor(Prune(rows), k) <= k
    {
      KeepBound(rows, 1, k);
    }
    EveryRowIsPoor(Prune(rows));
  }

  lemma {:induction false} EveryRowIsPoor(rows: Rows)
    ensures Poor(rows, 30) == |rows|
  {
    if rows != [] {
      EveryRowIsPoor(rows[1..]);
    }
  }

  // ----- what a prune removes -----

  lemma {:induction false} KeepExact(rows: Rows, rank: nat, x: Backup)
    ensures x in KeepFrom(rows, rank) <==>
            exists i :: 0 <= i < |rows| && rows[i] == x && rank + i <= Retain(x.tier)
  {
    if rows != [] {
      var tail := rows[1..];
      KeepExact(tail, rank + 1, x);
      if x in KeepFrom(tail, rank + 1) {
        var i :| 0 <= i < |tail| && tail[i] == x && rank + 1 + i <= Retain(x.tier);
        assert rows[i + 1] == x;
      }
      if i :| 0 <= i < |rows| && rows[i] == x && rank + i <= Retain(x.tier) {
        if i > 0 {
          assert tail[i - 1] == x;
        }
      }
    }
  }

  /** Of rows with distinct ids exactly the stale ones go. */
  lemma PrunedIff(rows: Rows, i: nat)
    requires DistinctIds(rows) && i < |rows|
    ensures rows[i] !in Prune(rows) <==> Stale(rows, i)
  {
    KeepExact(rows, 1, rows[i]);
    if j :| 0 <= j < |rows| && rows[j] == rows[i] && 1 + j <= Retain(rows[i].tier) {
      assert j == i;
    }
  }

  /** Rows no older than `end`. */
  function AtLeastAsNew(rows: Rows, end: int): (count: nat) {
    if rows == [] then 0
    else (if rows[0].periodEnd >= end then 1 else 0) + AtLeastAsNew(rows[1..], end)
  }

  lemma {:induction false} FirstOnesAreNewer(rows: Rows, n: nat, end: int)
    requires n <= |rows| && forall i :: 0 <= i < n ==> rows[i].periodEnd >= end
    ensures AtLeastAsNew(rows, end) >= n
  {
    if n > 0 {
      FirstOnesAreNewer(rows[1..], n - 1, end);
    }
  }

  /** A row that a prune removes is surplus: besides itself there are at least its own tier's retain
      count of rows as new as it. And no row of its tier that stays is older. */
  lemma PruneOnlySurplus(rows: Rows, x: Backup)
    requires NewestFirst(rows) && DistinctIds(rows) && x in rows && x !in Prune(rows)
    ensures AtLeastAsNew(rows, x.periodEnd) >= Retain(x.tier) + 1
    ensures forall y :: y in Prune(rows) && y.tier == x.tier ==> y.periodEnd >= x.periodEnd
  {
    var i :| 0 <= i < |rows| && rows[i] == x;
    PrunedIff(rows, i);
    FirstOnesAreNewer(rows, i + 1, x.periodEnd);
    forall y | y in Prune(rows) && y.tier == x.tier
      ensures y.periodEnd >= x.periodEnd
    {
      KeepExact(rows, 1, y);
      var j :| 0 <= j < |rows| && rows[j] == y && 1 + j <= Retain(y.tier);
      assert j < i;
    }
  }

  lemma {:induction false} KeepNone(rows: Rows, rank: nat)
    requires forall i :: 0 <= i < |rows| ==> rank + i > Retain(rows[i].tier)
    ensures KeepFrom(rows, rank) == []
  {
    if rows != [] {
      assert forall i :: 0 <= i < |rows[1..]| ==> rows[1..][i] == rows[i + 1];
      KeepNone(rows[1..], rank + 1);
    }
  }

  lemma {:induction false} KeepPrefix(rows: Rows, rank: nat)
    requires forall i, j :: 0 <= i < j < |rows| && rank + i > Retain(rows[i].tier) ==> rank + j > Retain(rows[j].tier)
    ensures KeepFrom(rows, rank) <= rows
  {
    if rows != [] {
      var tail := rows[1..];
      assert forall i :: 0 <= i < |tail| ==> tail[i] == rows[i + 1];
      if rank > Retain(rows[0].tier) {
        KeepNone(rows, rank);
      } else {
        KeepPrefix(tail, rank + 1);
        assert rows == [rows[0]] + tail;
      }
    }
  }

  /** Only the oldest rows go, that is, those kept are the first of the list, if and only if every
      row below a stale one is stale too. */
  lemma OnlyOldestGoIff(rows: Rows)
    requires DistinctIds(rows)
    ensures Prune(rows) <= rows <==> forall i, j :: 0 <= i < j < |rows| && Stale(rows, i) ==> Stale(rows, j)
  {
    if Prune(rows) <= rows {
      var m := |Prune(rows)|;
      assert Prune(rows) == rows[..m];
      forall n | 0 <= n < m
        ensures rows[n] in Prune(rows)
      {
        assert Prune(rows)[n] == rows[n];
      }
      forall i, j | 0 <= i < j < |rows| && Stale(rows, i)
        ensures Stale(rows, j)
      {
        PrunedIff(rows, i);
        PrunedIff(rows, j);
      }
    }
    if forall i, j :: 0 <= i < j < |rows| && Stale(rows, i) ==> Stale(rows, j) {
      forall i, j | 0 <= i < j < |rows| && 1 + i > Retain(rows[i].tier)
        ensures 1 + j > Retain(rows[j].tier)
      {
        assert Stale(rows, i);
        assert Stale(rows, j);
      }
      KeepPrefix(rows, 1);
    }
  }

  /** It does fail: a free row between two premium ones goes, and an older row stays. */
  lemma MiddleRowGoes(a: Backup, b: Backup, c: Backup)
    requires a.tier == c.tier == Premium && b.tier == Free
    ensures Prune([a, b, c]) == [a, c]
  {
    assert [a, b, c][1..] == [b, c] && [b, c][1..] == [c] && [c][1..] == [];
    assert KeepFrom([c], 3) == [c];
    assert KeepFrom([b, c], 2) == [c];
  }

  lemma {:induction false} KeepOneTier(rows: Rows, rank: nat, tier: Tier)
    requires 1 <= rank
    requires forall i :: 0 <= i < |rows| ==> rows[i].tier == tier
    ensures KeepFrom(rows, rank) ==
            if rank > Retain(tier) then []
            else if |rows| <= Retain(tier) + 1 - rank then rows
            else rows[..Retain(tier) + 1 - rank]
  {
    if rows != [] {
      KeepOneTier(rows[1..], rank + 1, tier);
      if rank <= Retain(tier) {
        assert rows == [rows[0]] + rows[1..];
      }
    }
  }

  // ----- inserting rows -----

  /** Where a row ending at `end` can rank: after everything newer, before everything older. */
  predicate RanksAt(rows: Rows, pos: nat, end: int) {
    && pos <= |rows|
    && (forall i :: 0 <= i < pos ==> rows[i].periodEnd >= end)
    && (forall i :: pos <= i < |rows| ==> end >= rows[i].periodEnd)
  }

  function InsertAt(rows: Rows, pos: nat, row: Backup): (out: Rows)
    requires pos <= |rows|
  {
    rows[..pos] + [row] + rows[pos..]
  }

  /** Rows strictly newer than `end`. */
  function Newer(rows: Rows, end: int): (count: nat) {
    if rows == [] then 0
    else (if rows[0].periodEnd > end then 1 else 0) + Newer(rows[1..], end)
  }

  lemma {:induction false} RankIsBetween(rows: Rows, pos: nat, end: int)
    requires RanksAt(rows, pos, end)
    ensures Newer(rows, end) <= pos <= AtLeastAsNew(rows, end)
  {
    if rows != [] {
      RankIsBetween(rows[1..], if pos == 0 then 0 else pos - 1, end);
    }
  }

  /** A rollup prunes right after inserting its row, and the new row is not exempt. It survives
      exactly when it ranks within its tier's retain count, where its rank lies between the number
      of newer rows and the number of rows at least as new as the `now` the rollup was given. So
      with that many newer rows the backup just taken is deleted at once; among equal period ends
      the tie-break decides. */
  lemma OwnRowSurvivesIff(rows: Rows, pos: nat, row: Backup)
    requires RanksAt(rows, pos, row.periodEnd) && DistinctIds(InsertAt(rows, pos, row))
    ensures row in Prune(InsertAt(rows, pos, row)) <==> pos < Retain(row.tier)
    ensures Newer(rows, row.periodEnd) <= pos <= AtLeastAsNew(rows, row.periodEnd)
    ensures Newer(rows, row.periodEnd) >= Retain(row.tier) ==> row !in Prune(InsertAt(rows, pos, row))
    ensures AtLeastAsNew(rows, row.periodEnd) < Retain(row.tier) ==> row in Prune(InsertAt(rows, pos, row))
  {
    RankIsBetween(rows, pos, row.periodEnd);
    assert InsertAt(rows, pos, row)[pos] == row;
    PrunedIff(InsertAt(rows, pos, row), pos);
  }

  /** The failing case is real: a free clone that already holds a newer row loses the rollup. */
  lemma OwnRowCanBeLost(newer: Backup, row: Backup)
    requires newer.periodEnd > row.periodEnd && newer.tier == Free && row.tier == Free
    ensures RanksAt([newer], 1, row.periodEnd)
    ensures Prune(InsertAt([newer], 1, row)) == [newer]
  {
    var rows := InsertAt([newer], 1, row);
    assert rows == [newer, row];
    assert rows[1..] == [row];
    assert KeepFrom([row], 2) == [];
  }
}
