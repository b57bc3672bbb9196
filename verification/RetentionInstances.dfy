/** Runs of the service that show where the retention rule and the prune do less than they are meant to. */
module RetentionInstances {
  import opened BackupCodec
  import opened Streams
  import opened Subscriptions
  import opened ObjectStorage
  import opened Retention
  import opened Machine
  import opened Invariant
  import opened Reachable
  import opened Pipeline
  import opened Memories
  import opened RollupRuns
  import opened RunBlocks
  import opened Instances

  // ----- rollups at the end of a run from the start -----

  /** A rollup has put its row in the clone's list; `rows` is what it left. */
  predicate Added(s: State, s': State, c: nat, n: nat, row: Backup, rows: Rows) {
    && Beside(s, s', c) && s'.nextId == s.nextId + 1 == row.id + 1 && row.key == Name(c, n)
    && s'.clones[c].rows == rows && s'.clones[c].rollups == s.clones[c].rollups && s'.clones[c].tier == row.tier
  }

  lemma AddedOf(cfg: Config, s: State, s': State, c: nat, n: nat, tier: Tier, entry: Entry, now: int)
    requires cfg.Valid() && c in s.clones && Fits([entry])
    requires Took(cfg, s, s', c, n, tier, entry, TakenFrom(cfg, s, c, n, tier, entry, now, 0, Completes))
    requires NoneAfter(s.clones[c].rows, now)
    ensures var row := RowTaken(cfg, s, c, n, tier, entry, now);
      Added(s, s', c, n, row, Retention.Prune([row] + s.clones[c].rows)) && NoneAfter(s'.clones[c].rows, now)
  {
    var row := RowTaken(cfg, s, c, n, tier, entry, now);
    KeptEnds([row] + s.clones[c].rows, 1, now);
    TakenRows(cfg, s, c, n, tier, entry, now, 0, Completes);
    assert InsertAt(s.clones[c].rows, 0, row) == [row] + s.clones[c].rows;
  }

  /** A completed rollup later than every row there is. */
  lemma Stack(cfg: Config, s0: State, past: seq<Step>, s: State, c: nat, n: nat, tier: Tier, entry: Entry, now: int)
    returns (steps: seq<Step>, s': State, row: Backup)
    requires cfg.Valid() && Start(s0) && Reaches(cfg, s0, past, s) && Prepared(s, c, n) && n + 1 < MAX64
    requires Fits([entry]) && s.clones[c].rollups == map[] && NoneAfter(s.clones[c].rows, now)
    ensures Reaches(cfg, s0, past + steps, s') && Prepared(s', c, n + 1)
    ensures row.tier == tier && row.periodEnd == now
    ensures Added(s, s', c, n, row, Retention.Prune([row] + s.clones[c].rows))
    ensures NoneAfter(s'.clones[c].rows, now)
  {
    ReachableInv(cfg, s0, past);
    steps, s' := Deposit(cfg, s, c, n, tier, entry, now, 0, 0, Completes);
    row := RowTaken(cfg, s, c, n, tier, entry, now);
    AddedOf(cfg, s, s', c, n, tier, entry, now);
    Onward(cfg, s0, past, s, steps, s');
  }

  lemma PruneOnNothing(row: Backup)
    ensures Retention.Prune([row] + []) == [row]
  {
    assert [row] + [] == [row];
    PruneOne(row);
  }

  lemma FirstOn(cfg: Config, s0: State, past: seq<Step>, s: State, c: nat, tier: Tier, entry: Entry, now: int)
    returns (steps: seq<Step>, s': State, row: Backup)
    requires cfg.Valid() && Start(s0) && Reaches(cfg, s0, past, s) && Prepared(s, c, 0) && Fits([entry])
    requires s.clones[c].rows == [] && s.clones[c].rollups == map[]
    ensures Reaches(cfg, s0, past + steps, s') && Prepared(s', c, 1)
    ensures row.tier == tier && row.periodEnd == now && Added(s, s', c, 0, row, [row])
  {
    steps, s', row := Stack(cfg, s0, past, s, c, 0, tier, entry, now);
    PruneOnNothing(row);
  }

  lemma First(cfg: Config, s0: State, c: nat, tier: Tier, entry: Entry, now: int)
    returns (steps: seq<Step>, s: State, row: Backup)
    requires cfg.Valid() && Start(s0) && c in s0.clones && Fits([entry])
    ensures Reaches(cfg, s0, steps, s) && Prepared(s, c, 1)
    ensures row.tier == tier && row.periodEnd == now && Added(s0, s, c, 0, row, [row]) && s.clones[c].rollups == map[]
  {
    ReadyAtStart(cfg, s0, c);
    assert Reaches(cfg, s0, [], s0);
    steps, s, row := FirstOn(cfg, s0, [], s0, c, tier, entry, now);
    assert [] + steps == steps;
  }

  /** Below one more row, the one at index i is stale. */
  lemma SomeStale(row: Backup, rows: Rows, i: nat)
    requires i < |rows| && i + 2 > Retain(rows[i].tier)
    ensures StaleRows([row] + rows) != []
  {
    StaleRowsExact([row] + rows, rows[i]);
    assert ([row] + rows)[i + 1] == rows[i] && Stale([row] + rows, i + 1);
  }

  /** A rollup has put its row on top, selected what is stale, and is not done. */
  predicate Chose(s: State, s': State, c: nat, row: Backup, rows: Rows) {
    && Beside(s, s', c) && s'.nextId == s.nextId + 1 == row.id + 1 && s'.clones[c].tier == row.tier
    && s'.clones[c].rows == rows && s'.clones[c].rollups == map[0 := Pruning(rows, StaleRows(rows), 0)]
  }

  lemma ChoseOf(cfg: Config, s: State, s': State, c: nat, row: Backup)
    requires c in s.clones && s.clones[c].rollups == map[] && row.id == s.nextId
    requires Selecting(cfg, s, s', c, 0, [row] + s.clones[c].rows) && s'.clones[c].tier == row.tier
    ensures Chose(s, s', c, row, [row] + s.clones[c].rows)
  {
  }

  lemma OnTop(cfg: Config, s: State, c: nat, n: nat, tier: Tier, entry: Entry, now: int, i: nat)
    requires c in s.clones && NoneAfter(s.clones[c].rows, now)
    requires i < |s.clones[c].rows| && i + 2 > Retain(s.clones[c].rows[i].tier)
    ensures var rows, row := s.clones[c].rows, RowTaken(cfg, s, c, n, tier, entry, now);
      && row.id == s.nextId && row.tier == tier && row.periodEnd == now
      && RanksAt(rows, 0, now) && InsertAt(rows, 0, row) == [row] + rows && StaleRows([row] + rows) != []
  {
    var row := RowTaken(cfg, s, c, n, tier, entry, now);
    SomeStale(row, s.clones[c].rows, i);
    assert InsertAt(s.clones[c].rows, 0, row) == [row] + s.clones[c].rows;
  }

  lemma SelectFrom(cfg: Config, s: State, c: nat, n: nat, tier: Tier, entry: Entry, now: int, i: nat)
    returns (steps: seq<Step>, s': State, row: Backup)
    requires cfg.Valid() && Ready(cfg, s, c, n) && n + 1 < MAX64
    requires Fits([entry]) && s.clones[c].rollups == map[] && NoneAfter(s.clones[c].rows, now)
    requires i < |s.clones[c].rows| && i + 2 > Retain(s.clones[c].rows[i].tier)
    ensures Leads(cfg, s, steps, s') && Ready(cfg, s', c, n + 1)
    ensures row.tier == tier && row.periodEnd == now && Chose(s, s', c, row, [row] + s.clones[c].rows)
  {
    row := RowTaken(cfg, s, c, n, tier, entry, now);
    OnTop(cfg, s, c, n, tier, entry, now, i);
    steps, s' := DepositAndSelect(cfg, s, c, n, tier, entry, now, 0, 0);
    ChoseOf(cfg, s, s', c, row);
  }

  /** A rollup later than every row there is, that leaves the row at index i stale and stops there for
      now. */
  lemma SelectOn(cfg: Config, s0: State, past: seq<Step>, s: State, c: nat, n: nat, tier: Tier, entry: Entry, now: int,
                 i: nat)
    returns (steps: seq<Step>, s': State, row: Backup)
    requires cfg.Valid() && Start(s0) && Reaches(cfg, s0, past, s) && Prepared(s, c, n) && n + 1 < MAX64
    requires Fits([entry]) && s.clones[c].rollups == map[] && NoneAfter(s.clones[c].rows, now)
    requires i < |s.clones[c].rows| && i + 2 > Retain(s.clones[c].rows[i].tier)
    ensures Reaches(cfg, s0, past + steps, s') && Prepared(s', c, n + 1)
    ensures row.tier == tier && row.periodEnd == now && Chose(s, s', c, row, [row] + s.clones[c].rows)
  {
    ReachableInv(cfg, s0, past);
    steps, s', row := SelectFrom(cfg, s, c, n, tier, entry, now, i);
    Onward(cfg, s0, past, s, steps, s');
  }

  /** None of the objects of the listed rows is there. */
  predicate Gone(rows: Rows, objects: map<Key, Bytes>) {
    forall i :: 0 <= i < |rows| ==> rows[i].key !in objects
  }

  lemma StoppedOf(cfg: Config, s: State, s': State, c: nat, n: nat, tier: Tier, entry: Entry, now: int)
    requires cfg.Valid() && c in s.clones && Fits([entry])
    requires Took(cfg, s, s', c, n, tier, entry, TakenFrom(cfg, s, c, n, tier, entry, now, 0, LastCommitFails))
    ensures var row := RowTaken(cfg, s, c, n, tier, entry, now); var rows := [row] + s.clones[c].rows;
      Added(s, s', c, n, row, rows) && Gone(StaleRows(rows), s'.objects)
  {
    var row := RowTaken(cfg, s, c, n, tier, entry, now);
    TakenRows(cfg, s, c, n, tier, entry, now, 0, LastCommitFails);
    assert InsertAt(s.clones[c].rows, 0, row) == [row] + s.clones[c].rows;
  }

  /** A rollup in slot 1 that stops before its row delete. */
  lemma StopOn(cfg: Config, s0: State, past: seq<Step>, s: State, c: nat, n: nat, tier: Tier, entry: Entry, now: int)
    returns (steps: seq<Step>, s': State, row: Backup)
    requires cfg.Valid() && Start(s0) && Reaches(cfg, s0, past, s) && Prepared(s, c, n) && n + 1 < MAX64
    requires Fits([entry]) && 1 !in s.clones[c].rollups && NoneAfter(s.clones[c].rows, now)
    ensures Reaches(cfg, s0, past + steps, s') && row.tier == tier && Added(s, s', c, n, row, [row] + s.clones[c].rows)
    ensures Gone(StaleRows([row] + s.clones[c].rows), s'.objects)
  {
    ReachableInv(cfg, s0, past);
    steps, s' := Deposit(cfg, s, c, n, tier, entry, now, 0, 1, LastCommitFails);
    row := RowTaken(cfg, s, c, n, tier, entry, now);
    StoppedOf(cfg, s, s', c, n, tier, entry, now);
    Onward(cfg, s0, past, s, steps, s');
  }

  lemma FinishOn(cfg: Config, s0: State, past: seq<Step>, s: State, c: nat, from: Rows, x: Backup)
    returns (steps: seq<Step>, s': State)
    requires cfg.Valid() && Start(s0) && Reaches(cfg, s0, past, s) && c in s.clones && 0 in s.clones[c].rollups
    requires s.clones[c].rollups[0] == Pruning(from, [x], 0)
    ensures Reaches(cfg, s0, past + steps, s') && c in s'.clones && steps == [PruneObject(c, 0), PruneRows(c, 0)]
    ensures s'.clones[c].rows == Without(s.clones[c].rows, Ids([x])) && s'.objects == s.objects - {x.key}
  {
    ReachableInv(cfg, s0, past);
    steps, s' := FinishPrune(cfg, s, c, 0, from, x);
    Onward(cfg, s0, past, s, steps, s');
  }

  lemma ResurrectOn(cfg: Config, s0: State, past: seq<Step>, s: State, c: nat, source: nat, n: nat, pos: nat, at: int)
    returns (steps: seq<Step>, s': State, row: Backup)
    requires cfg.Valid() && Start(s0) && Reaches(cfg, s0, past, s) && Prepared(s, c, n)
    requires source in s.clones && source != c && !s.clones[source].active && s.clones[source].rows != []
    requires RanksAt(s.clones[c].rows, pos, s.clones[source].rows[0].periodEnd)
    ensures Reaches(cfg, s0, past + steps, s') && c in s'.clones && row.id == s.nextId && row.tier == s.clones[c].tier
    ensures s'.clones[c].rows == InsertAt(s.clones[c].rows, pos, row) && s'.clones[c].rollups == s.clones[c].rollups
  {
    ReachableInv(cfg, s0, past);
    NextName(s, c, n);
    steps, s' := ResurrectIt(cfg, s, c, source, n, pos, at);
    var latest := s.clones[source].rows[0];
    row := CopiedRow(latest, s.nextId, TicketOf(c, n, s.clones[c].tier, latest.periodEnd, pos), at);
    Onward(cfg, s0, past, s, steps, s');
  }

  // ----- the middle row -----

  lemma TwoOnTop(a: Backup, b: Backup)
    requires Retain(b.tier) >= 2
    ensures Retention.Prune([a] + [b]) == [a, b]
  {
    assert ([a] + [b])[1..] == [b] && [b][1..] == [];
    assert KeepFrom([b], 2) == [b];
    assert [a] + [b] == [a, b];
  }

  /** One row on another. */
  predicate TwoRows(s: State, c: nat, b: Backup, x: Backup) {
    && c in s.clones && s.clones[c].rows == [b, x] && s.clones[c].rollups == map[]
    && x.periodEnd == 1 && b.periodEnd == 2 && NoneAfter([b, x], 2) && x.id < b.id < s.nextId
  }

  lemma TwoRollups(cfg: Config, s0: State, c: nat, low: Tier, top: Tier, entry: Entry)
    returns (steps: seq<Step>, s: State, b: Backup, x: Backup)
    requires cfg.Valid() && Start(s0) && c in s0.clones && Fits([entry]) && Retain(low) >= 2
    ensures Reaches(cfg, s0, steps, s) && Prepared(s, c, 2)
    ensures TwoRows(s, c, b, x) && x.tier == low && b.tier == top
  {
    var q, s1;
    steps, s1, x := First(cfg, s0, c, low, entry, 1);
    q, s, b := Stack(cfg, s0, steps, s1, c, 1, top, entry, 2);
    TwoOnTop(b, x);
    steps := steps + q;
  }

  /** From any start: a premium, then a free, then a premium rollup. The free row goes, and the older
      premium row stays. */
  lemma MiddleRowGoesInRun(cfg: Config, s0: State, c: nat, entry: Entry)
    returns (before: seq<Step>, s: State, after: seq<Step>, s': State)
    requires cfg.Valid() && Start(s0) && c in s0.clones && Fits([entry])
    ensures Reaches(cfg, s0, before, s) && Reaches(cfg, s0, before + after, s') && c in s.clones && c in s'.clones
    ensures var rows, rows' := s.clones[c].rows, s'.clones[c].rows;
      |rows| == 2 && rows[0].periodEnd > rows[1].periodEnd && rows[0] !in rows' && rows[1] in rows'
  {
    var x, y, z;
    before, s, y, z := TwoRollups(cfg, s0, c, Premium, Free, entry);
    after, s', x := Stack(cfg, s0, before, s, c, 2, Premium, entry, 3);
    MiddleGone(x, y, z);
  }

  lemma MiddleGone(x: Backup, y: Backup, z: Backup)
    requires x.tier == z.tier == Premium && y.tier == Free
    ensures y !in Retention.Prune([x] + [y, z]) && z in Retention.Prune([x] + [y, z])
  {
    assert [x] + [y, z] == [x, y, z];
    MiddleRowGoes(x, y, z);
    assert [x, z][1] == z;
  }

  // ----- the row just taken -----

  lemma LostIsStale(newer: Backup, row: Backup)
    requires row.tier == Free
    ensures InsertAt([newer], 1, row) == [newer, row]
    ensures StaleRows([newer, row]) == [row] && row == StaleRows([newer, row])[0]
  {
    assert [newer, row][1..] == [row] && [row][1..] == [];
    assert StaleFrom([row], 2) == [row];
  }

  /** A free rollup with an earlier `now` than the free row there is. */
  lemma LateRollup(cfg: Config, s0: State, past: seq<Step>, s: State, c: nat, newer: Backup, entry: Entry, now: int)
    returns (steps: seq<Step>, s': State)
    requires cfg.Valid() && Start(s0) && Reaches(cfg, s0, past, s) && Prepared(s, c, 1)
    requires s.clones[c].rollups == map[] && s.clones[c].rows == [newer]
    requires Fits([entry]) && newer.tier == Free && now < newer.periodEnd
    ensures Reaches(cfg, s0, past + steps, s') && c in s'.clones && s'.clones[c].rows == [newer] && Idle(s'.clones[c])
    ensures s'.clones[c].history == s.clones[c].history + [entry]
    ensures s'.clones[c].rolled == s.clones[c].rolled + [Name(c, 1)] && Name(c, 1) !in s'.objects
  {
    var row := RowTaken(cfg, s, c, 1, Free, entry, now);
    ReachableInv(cfg, s0, past);
    steps, s' := Deposit(cfg, s, c, 1, Free, entry, now, 1, 0, Completes);
    TakenRows(cfg, s, c, 1, Free, entry, now, 1, Completes);
    OwnRowCanBeLost(newer, row);
    LostIsStale(newer, row);
    Onward(cfg, s0, past, s, steps, s');
  }

  lemma EarlierRollup(cfg: Config, s0: State, c: nat, entry: Entry) returns (steps: seq<Step>, s: State, row: Backup)
    requires cfg.Valid() && Start(s0) && c in s0.clones && Fits([entry])
    ensures Reaches(cfg, s0, steps, s) && Prepared(s, c, 1) && s.clones[c].rollups == map[]
    ensures s.clones[c].rows == [row] && s.clones[c].history == [entry] && s.clones[c].rolled == [Name(c, 0)]
    ensures row.key == Name(c, 0) && row.tier == Free && row.periodEnd == 2
  {
    ReadyAtStart(cfg, s0, c);
    steps, s := FirstBackup(cfg, s0, c, 0, Free, entry, 2);
    row := RowTaken(cfg, s0, c, 0, Free, entry, 2);
  }

  /** From any start: a free clone rolls up at 2 and again with an earlier `now`. The second backup
      goes with its object at once, and its entry is in no store. */
  lemma OwnRowLostInRun(cfg: Config, s0: State, c: nat, first: Entry, second: Entry)
    returns (steps: seq<Step>, s: State)
    requires cfg.Valid() && Start(s0) && c in s0.clones && Fits([first]) && Fits([second])
    ensures Reaches(cfg, s0, steps, s) && c in s.clones
    ensures var k := s.clones[c];
      && k.history == [first, second] && k.stream == [] && k.buffer.None?
      && |k.rolled| == 2 && |k.rows| == 1 && k.rows[0].key == k.rolled[0] && k.rolled[1] !in s.objects
  {
    var b, s1, newer;
    steps, s1, newer := EarlierRollup(cfg, s0, c, first);
    b, s := LateRollup(cfg, s0, steps, s1, c, newer, second, 1);
    steps := steps + b;
  }

  // ----- a full history -----

  lemma {:induction false} AllStay(rows: Rows, rank: nat)
    requires 1 <= rank && rank + |rows| <= 31 && forall i :: 0 <= i < |rows| ==> rows[i].tier == Premium
    ensures KeepFrom(rows, rank) == rows
  {
    if rows != [] {
      assert forall i :: 0 <= i < |rows[1..]| ==> rows[1..][i] == rows[i + 1];
      AllStay(rows[1..], rank + 1);
      assert rows == [rows[0]] + rows[1..];
    }
  }

  lemma {:induction false} OldestGoes(rows: Rows, rank: nat)
    requires 1 <= rank && rank + |rows| == 32 && forall i :: 0 <= i < |rows| ==> rows[i].tier == Premium
    requires rows != []
    ensures KeepFrom(rows, rank) == rows[..|rows| - 1]
  {
    if |rows| == 1 {
      assert rows[1..] == [];
    } else {
      assert forall i :: 0 <= i < |rows[1..]| ==> rows[1..][i] == rows[i + 1];
      OldestGoes(rows[1..], rank + 1);
      assert rows[..|rows| - 1] == [rows[0]] + rows[1..][..|rows[1..]| - 1];
    }
  }

  /** Premium rows of n rollups, each later than the one before. */
  ghost predicate History(s: State, c: nat, n: nat)
    requires c in s.clones
  {
    && |s.clones[c].rows| == n && NoneAfter(s.clones[c].rows, n) && s.clones[c].rollups == map[]
    && forall i :: 0 <= i < n ==> s.clones[c].rows[i].tier == Premium
  }

  lemma HistoryGrows(s: State, s': State, c: nat, n: nat, row: Backup)
    requires n < 30 && c in s.clones && History(s, c, n) && row.tier == Premium && row.periodEnd == n + 1
    requires Added(s, s', c, n, row, Retention.Prune([row] + s.clones[c].rows))
    ensures History(s', c, n + 1)
  {
    AllStay([row] + s.clones[c].rows, 1);
  }

  lemma {:induction false} PremiumHistory(cfg: Config, s0: State, c: nat, entry: Entry, n: nat)
    returns (steps: seq<Step>, s: State)
    requires cfg.Valid() && Start(s0) && c in s0.clones && Fits([entry]) && n <= 30
    ensures Reaches(cfg, s0, steps, s) && Prepared(s, c, n) && History(s, c, n)
  {
    if n == 0 {
      ReadyAtStart(cfg, s0, c);
      steps, s := [], s0;
    } else {
      var past, s1 := PremiumHistory(cfg, s0, c, entry, n - 1);
      var row;
      steps, s, row := Stack(cfg, s0, past, s1, c, n - 1, Premium, entry, n);
      HistoryGrows(s1, s, c, n - 1, row);
      steps := past + steps;
    }
  }

  lemma FullHistoryPruned(row: Backup, rows: Rows)
    requires row.tier == Standard && |rows| == 30 && forall i :: 0 <= i < |rows| ==> rows[i].tier == Premium
    ensures Retention.Prune([row] + rows) == [row] + rows[..29]
  {
    OldestGoes(rows, 2);
    assert ([row] + rows)[1..] == rows;
  }

  /** From any start: thirty premium rollups and then, the tier changed, a standard one. The oldest
      premium backup is deleted, though all thirty were made under the richer tier. */
  lemma FullHistoryLosesOne(cfg: Config, s0: State, c: nat, entry: Entry)
    returns (before: seq<Step>, s: State, after: seq<Step>, s': State)
    requires cfg.Valid() && Start(s0) && c in s0.clones && Fits([entry])
    ensures Reaches(cfg, s0, before, s) && Reaches(cfg, s0, before + after, s') && c in s.clones && c in s'.clones
    ensures var rows, rows' := s.clones[c].rows, s'.clones[c].rows;
      && |rows| == 30 && (forall i :: 0 <= i < 30 ==> rows[i].tier == Premium)
      && s'.clones[c].tier == Standard && |rows'| == 30 && rows'[0].tier == Standard && rows'[1..] == rows[..29]
  {
    before, s := PremiumHistory(cfg, s0, c, entry, 30);
    var row;
    after, s', row := Stack(cfg, s0, before, s, c, 30, Standard, entry, 31);
    FullHistoryPruned(row, s.clones[c].rows);
  }

  // ----- prunes that overlap -----

  lemma StaleOfFour(a: Backup, f: Backup, b: Backup, x: Backup, rank: nat)
    requires a.tier == b.tier == Premium && f.tier == Free && x.tier == Standard && 1 <= rank <= 2
    ensures StaleFrom([a, f, b, x], rank) == if rank == 1 then [f] else [f, x]
  {
    assert [a, f, b, x][1..] == [f, b, x] && [f, b, x][1..] == [b, x] && [b, x][1..] == [x] && [x][1..] == [];
    assert StaleFrom([x], rank + 3) == if rank == 1 then [] else [x];
    assert StaleFrom([b, x], rank + 2) == StaleFrom([x], rank + 3);
  }

  lemma StaleOfFive(n: Backup, a: Backup, f: Backup, b: Backup, x: Backup)
    requires n.tier == a.tier == b.tier == Premium && f.tier == Free && x.tier == Standard
    ensures [n] + [a, f, b, x] == [n, a, f, b, x]
    ensures |StaleRows([n, a, f, b, x])| == 2 && StaleRows([n, a, f, b, x])[1] == x
  {
    StaleOfFour(a, f, b, x, 2);
    assert [n, a, f, b, x][1..] == [a, f, b, x];
  }

  lemma WithoutOne(n: Backup, a: Backup, f: Backup, b: Backup, x: Backup)
    requires n.id != f.id && a.id != f.id && b.id != f.id && x.id != f.id
    ensures Without([n, a, f, b, x], Ids([f])) == [n, a, b, x]
  {
    var ids := Ids([f]);
    assert [f][0] == f && f.id in ids;
    assert forall id :: id in ids ==> id == f.id;
    assert [n, a, f, b, x][1..] == [a, f, b, x] && [a, f, b, x][1..] == [f, b, x] && [f, b, x][1..] == [b, x];
    assert [b, x][1..] == [x] && [x][1..] == [];
    assert Without([x], ids) == [x];
    assert Without([b, x], ids) == [b, x];
    assert Without([f, b, x], ids) == [b, x];
  }

  lemma ThreeOnTop(f: Backup, b: Backup, x: Backup)
    requires b.tier == Premium && x.tier == Standard
    ensures Retention.Prune([f] + [b, x]) == [f, b, x]
  {
    assert ([f] + [b, x])[1..] == [b, x] && [b, x][1..] == [x] && [x][1..] == [];
    assert KeepFrom([x], 3) == [x];
    assert KeepFrom([b, x], 2) == [b, x];
  }

  /** A free row on a premium one on a standard one. */
  ghost predicate ThreeRows(s: State, c: nat, f: Backup, b: Backup, x: Backup) {
    && c in s.clones && s.clones[c].rows == [f, b, x] && s.clones[c].rollups == map[]
    && f.tier == Free && b.tier == Premium && x.tier == Standard
    && NoneAfter([f, b, x], 3) && x.id < b.id < f.id < s.nextId
  }

  lemma ThreeRollups(cfg: Config, s0: State, c: nat, entry: Entry)
    returns (steps: seq<Step>, s: State, f: Backup, b: Backup, x: Backup)
    requires cfg.Valid() && Start(s0) && c in s0.clones && Fits([entry])
    ensures Reaches(cfg, s0, steps, s) && Prepared(s, c, 3) && ThreeRows(s, c, f, b, x)
  {
    var r, s2;
    steps, s2, b, x := TwoRollups(cfg, s0, c, Standard, Premium, entry);
    r, s, f := Stack(cfg, s0, steps, s2, c, 2, Free, entry, 3);
    ThreeOnTop(f, b, x);
    steps := steps + r;
  }

  /** A premium rollup on top of these has selected the free row. */
  ghost predicate OneSelects(s: State, c: nat, a: Backup, f: Backup, b: Backup, x: Backup) {
    && c in s.clones && s.clones[c].rows == [a, f, b, x]
    && s.clones[c].rollups == map[0 := Pruning([a, f, b, x], [f], 0)]
    && a.tier == b.tier == Premium && f.tier == Free && x.tier == Standard
    && NoneAfter([a, f, b, x], 4) && x.id < b.id < f.id < a.id < s.nextId
  }

  lemma FirstSelects(cfg: Config, s0: State, past: seq<Step>, s: State, c: nat, entry: Entry, f: Backup, b: Backup,
                     x: Backup)
    returns (steps: seq<Step>, s': State, a: Backup)
    requires cfg.Valid() && Start(s0) && Reaches(cfg, s0, past, s) && Prepared(s, c, 3) && ThreeRows(s, c, f, b, x)
    requires Fits([entry])
    ensures Reaches(cfg, s0, past + steps, s') && Prepared(s', c, 4) && OneSelects(s', c, a, f, b, x)
  {
    steps, s', a := SelectOn(cfg, s0, past, s, c, 3, Premium, entry, 4, 0);
    assert [a] + [f, b, x] == [a, f, b, x];
    StaleOfFour(a, f, b, x, 1);
  }

  /** Another premium rollup, in slot 1, inserts its row, deletes the objects of all that is stale by
      then, and stops. */
  lemma SecondStops(cfg: Config, s0: State, past: seq<Step>, s: State, c: nat, entry: Entry, a: Backup, f: Backup,
                    b: Backup, x: Backup)
    returns (steps: seq<Step>, s': State, n: Backup)
    requires cfg.Valid() && Start(s0) && Reaches(cfg, s0, past, s) && Prepared(s, c, 4) && OneSelects(s, c, a, f, b, x)
    requires Fits([entry])
    ensures Reaches(cfg, s0, past + steps, s') && c in s'.clones && s'.clones[c].rollups == s.clones[c].rollups
    ensures s'.clones[c].rows == [n, a, f, b, x] && n.id == s.nextId && x.key !in s'.objects
  {
    steps, s', n := StopOn(cfg, s0, past, s, c, 4, Premium, entry, 5);
    StaleOfFive(n, a, f, b, x);
  }

  /** From any start, two rollups of one clone can overlap so that a row is left without its object
      and within its retain count: the first selects, the second inserts, deletes objects and stops,
      and then the first deletes the row it had selected. */
  lemma OverlappingPrunesDangle(cfg: Config, s0: State, c: nat, entry: Entry) returns (steps: seq<Step>, s: State)
    requires cfg.Valid() && Start(s0) && c in s0.clones && Fits([entry])
    ensures Reaches(cfg, s0, steps, s) && c in s.clones
    ensures var rows := s.clones[c].rows;
      |rows| == 4 && rows[3].key !in s.objects && !Stale(rows, 3) && !PointersOk(rows, s.objects)
  {
    var q, r, t, s1, s2, s3, a, f, b, x, n;
    steps, s1, f, b, x := ThreeRollups(cfg, s0, c, entry);
    q, s2, a := FirstSelects(cfg, s0, steps, s1, c, entry, f, b, x);
    r, s3, n := SecondStops(cfg, s0, steps + q, s2, c, entry, a, f, b, x);
    t, s := FinishOn(cfg, s0, steps + q + r, s3, c, [a, f, b, x], f);
    WithoutOne(n, a, f, b, x);
    steps := steps + q + r + t;
  }

  // ----- a row inserted beside a prune -----

  lemma StaleOfTwo(p: Backup, q: Backup, x: Backup)
    requires p.tier == q.tier == x.tier == Free && p.id != q.id && x.id != q.id
    ensures InsertAt([q], 0, p) == [p, q] && StaleRows([p, q]) == [q] && InsertAt([p, q], 2, x) == [p, q, x]
    ensures Without([p, q, x], Ids([q])) == [p, x] && Poor([p, x], Retain(Free)) == 2
  {
    var ids := Ids([q]);
    LostIsStale(p, q);
    assert Poor([x], 1) == 1;
    assert [q][0] == q && q.id in ids;
    assert forall id :: id in ids ==> id == q.id;
    assert [p, q, x][1..] == [q, x] && [q, x][1..] == [x] && [x][1..] == [] && [p, x][1..] == [x];
    assert Without([x], ids) == [x];
    assert Without([q, x], ids) == [x];
  }

  /** The free clone's second rollup has selected the first one's row. */
  ghost predicate TwoFree(s: State, c: nat, p: Backup, q: Backup) {
    && c in s.clones && s.clones[c].rows == [p, q] && s.clones[c].rollups == map[0 := Pruning([p, q], [q], 0)]
    && s.clones[c].tier == p.tier == q.tier == Free && NoneAfter([p, q], 2) && 1 <= q.periodEnd
    && q.periodEnd <= p.periodEnd && q.id < p.id < s.nextId
  }

  lemma OneFreeRollup(cfg: Config, s0: State, past: seq<Step>, s: State, c: nat, entry: Entry)
    returns (steps: seq<Step>, s': State, q: Backup)
    requires cfg.Valid() && Start(s0) && Reaches(cfg, s0, past, s) && Prepared(s, c, 0) && Fits([entry])
    requires s.clones[c].rows == [] && s.clones[c].rollups == map[]
    ensures Reaches(cfg, s0, past + steps, s') && Prepared(s', c, 1) && Beside(s, s', c)
    ensures s'.clones[c].rows == [q] && q.tier == Free && q.id < s'.nextId && q.periodEnd == 1
    ensures s'.clones[c].rollups == map[]
  {
    steps, s', q := FirstOn(cfg, s0, past, s, c, Free, entry, 1);
  }

  lemma OneFreeSelects(cfg: Config, s0: State, past: seq<Step>, s: State, c: nat, entry: Entry, q: Backup)
    returns (steps: seq<Step>, s': State, p: Backup)
    requires cfg.Valid() && Start(s0) && Reaches(cfg, s0, past, s) && Prepared(s, c, 1) && Fits([entry])
    requires s.clones[c].rows == [q] && s.clones[c].rollups == map[]
    requires q.tier == Free && q.id < s.nextId && q.periodEnd == 1
    ensures Reaches(cfg, s0, past + steps, s') && Prepared(s', c, 2) && TwoFree(s', c, p, q) && Beside(s, s', c)
  {
    steps, s', p := SelectOn(cfg, s0, past, s, c, 1, Free, entry, 2, 0);
    StaleOfTwo(p, q, p);
    assert [p] + [q] == [p, q];
  }

  lemma BesideBoth(s: State, s1: State, s2: State, c: nat)
    requires Beside(s, s1, c) && Beside(s1, s2, c)
    ensures Beside(s, s2, c)
  {
  }

  lemma TwoFreeRollups(cfg: Config, s0: State, past: seq<Step>, s: State, c: nat, entry: Entry)
    returns (steps: seq<Step>, s': State, p: Backup, q: Backup)
    requires cfg.Valid() && Start(s0) && Reaches(cfg, s0, past, s) && Prepared(s, c, 0) && Fits([entry])
    requires s.clones[c].rows == [] && s.clones[c].rollups == map[]
    ensures Reaches(cfg, s0, past + steps, s') && Prepared(s', c, 2) && TwoFree(s', c, p, q) && Beside(s, s', c)
  {
    var b, s1;
    steps, s1, q := OneFreeRollup(cfg, s0, past, s, c, entry);
    b, s', p := OneFreeSelects(cfg, s0, past + steps, s1, c, entry, q);
    BesideBoth(s, s1, s', c);
    assert past + steps + b == past + (steps + b);
    steps := steps + b;
  }

  /** Another clone, not active, with one backup that ended before any time in these runs. */
  lemma SourceHasOne(cfg: Config, s0: State, c: nat, source: nat, entry: Entry) returns (steps: seq<Step>, s: State)
    requires cfg.Valid() && Start(s0) && c in s0.clones && source in s0.clones && source != c && Fits([entry])
    ensures Reaches(cfg, s0, steps, s) && Prepared(s, c, 0) && s.clones[c].rows == [] && s.clones[c].rollups == map[]
    ensures source in s.clones && |s.clones[source].rows| == 1 && s.clones[source].rows[0].periodEnd == 0
    ensures s.clones[source].active == s0.clones[source].active
  {
    ReadyAtStart(cfg, s0, c);
    ReadyAtStart(cfg, s0, source);
    steps, s := FirstBackup(cfg, s0, source, 0, Premium, entry, 0);
    StillReady(cfg, s0, s, c, source, 0, Premium, entry,
               TakenFrom(cfg, s0, source, 0, Premium, entry, 0, 0, Completes));
  }

  /** A resurrection, and then the end of the prune that selected before it. */
  lemma ResurrectThenFinish(cfg: Config, s0: State, past: seq<Step>, s: State, c: nat, source: nat, p: Backup,
                            q: Backup, at: int)
    returns (steps: seq<Step>, s': State)
    requires cfg.Valid() && Start(s0) && Reaches(cfg, s0, past, s) && Prepared(s, c, 2) && TwoFree(s, c, p, q)
    requires source in s.clones && source != c && !s.clones[source].active
    requires |s.clones[source].rows| == 1 && s.clones[source].rows[0].periodEnd == 0
    ensures Reaches(cfg, s0, past + steps + [PruneObject(c, 0), PruneRows(c, 0)], s') && c in s'.clones
    ensures Poor(s'.clones[c].rows, Retain(Free)) == Retain(Free) + 1
  {
    var e, s1, x;
    steps, s1, x := ResurrectOn(cfg, s0, past, s, c, source, 2, 2, at);
    e, s' := FinishOn(cfg, s0, past + steps, s1, c, [p, q], q);
    StaleOfTwo(p, q, x);
  }

  /** From any start with another clone that is not active: a free clone resurrects that one's backup
      while its own prune is between selecting and deleting, and the prune leaves two free rows. */
  lemma ResurrectionBesidePrune(cfg: Config, s0: State, c: nat, source: nat, entry: Entry, at: int)
    returns (steps: seq<Step>, s: State)
    requires cfg.Valid() && Start(s0) && c in s0.clones && source in s0.clones && source != c
    requires !s0.clones[source].active && Fits([entry])
    ensures Reaches(cfg, s0, steps + [PruneRows(c, 0)], s) && c in s.clones
    ensures Poor(s.clones[c].rows, Retain(Free)) == Retain(Free) + 1
  {
    var b, d, s1, s2, p, q;
    steps, s1 := SourceHasOne(cfg, s0, c, source, entry);
    b, s2, p, q := TwoFreeRollups(cfg, s0, steps, s1, c, entry);
    d, s := ResurrectThenFinish(cfg, s0, steps + b, s2, c, source, p, q, at);
    steps := steps + b + d;
    assert steps + [PruneObject(c, 0), PruneRows(c, 0)] == steps + [PruneObject(c, 0)] + [PruneRows(c, 0)];
    steps := steps + [PruneObject(c, 0)];
  }
}
