/** What a row delete leaves of a clone's rows, over whole runs of the service. */
module PruneRuns {
  import opened Wrappers
  import opened Subscriptions
  import opened Retention
  import opened Machine
  import opened Invariant
  import opened Reachable
  import opened Pointers

  // ----- splitting a list of rows -----

  /** The rows whose ids are listed. */
  function Among(rows: Rows, ids: set<nat>): (found: Rows) {
    if rows == [] then []
    else if rows[0].id in ids then [rows[0]] + Among(rows[1..], ids)
    else Among(rows[1..], ids)
  }

  lemma {:induction false} PoorConcat(a: Rows, b: Rows, n: nat)
    ensures Poor(a + b, n) == Poor(a, n) + Poor(b, n)
  {
    if a == [] {
      assert a + b == b;
    } else {
      PoorConcat(a[1..], b, n);
      assert (a + b)[1..] == a[1..] + b;
    }
  }

  lemma WithoutHead(row: Backup, rows: Rows, ids: set<nat>)
    ensures Without([row] + rows, ids) == if row.id in ids then Without(rows, ids) else [row] + Without(rows, ids)
  {
    assert ([row] + rows)[1..] == rows;
  }

  lemma WithoutCons(row: Backup, a: Rows, b: Rows, ids: set<nat>)
    requires Without(a + b, ids) == Without(a, ids) + Without(b, ids)
    ensures Without([row] + a + b, ids) == Without([row] + a, ids) + Without(b, ids)
  {
    assert [row] + a + b == [row] + (a + b);
    WithoutHead(row, a + b, ids);
    WithoutHead(row, a, ids);
  }

  lemma {:induction false} WithoutConcat(a: Rows, b: Rows, ids: set<nat>)
    ensures Without(a + b, ids) == Without(a, ids) + Without(b, ids)
  {
    if a == [] {
      assert a + b == b;
    } else {
      WithoutConcat(a[1..], b, ids);
      WithoutCons(a[0], a[1..], b, ids);
      assert [a[0]] + a[1..] == a;
    }
  }

  /** The rows of the list and the others. */
  lemma {:induction false} PoorSplit(rows: Rows, ids: set<nat>, n: nat)
    ensures Poor(rows, n) == Poor(Among(rows, ids), n) + Poor(Without(rows, ids), n)
  {
    if rows != [] {
      var tail := Among(rows[1..], ids);
      PoorSplit(rows[1..], ids, n);
      assert ([rows[0]] + tail)[1..] == tail;
    }
  }

  lemma {:induction false} PoorWithout(rows: Rows, ids: set<nat>, n: nat)
    ensures Poor(Without(rows, ids), n) <= Poor(rows, n)
  {
    PoorSplit(rows, ids, n);
  }

  /** Of the rows a prune ranked, those that its row delete will leave if it comes now. */
  function Left(task: RollupTask, rows: Rows): (left: Rows)
    requires task.Pruning?
  {
    Among(Without(rows, Ids(task.stale)), Ids(task.from))
  }

  lemma {:induction false} AmongConcat(a: Rows, b: Rows, ids: set<nat>)
    ensures Among(a + b, ids) == Among(a, ids) + Among(b, ids)
  {
    if a == [] {
      assert a + b == b;
    } else {
      AmongConcat(a[1..], b, ids);
      assert (a + b)[1..] == a[1..] + b;
    }
  }

  lemma LeftConcat(task: RollupTask, a: Rows, b: Rows)
    requires task.Pruning?
    ensures Left(task, a + b) == Left(task, a) + Left(task, b)
  {
    WithoutConcat(a, b, Ids(task.stale));
    AmongConcat(Without(a, Ids(task.stale)), Without(b, Ids(task.stale)), Ids(task.from));
  }

  lemma LeftStep(task: RollupTask, rows: Rows)
    requires task.Pruning? && rows != []
    ensures var stays := rows[0].id !in Ids(task.stale) && rows[0].id in Ids(task.from);
      Left(task, rows) == if stays then [rows[0]] + Left(task, rows[1..]) else Left(task, rows[1..])
  {
    var tail := Without(rows[1..], Ids(task.stale));
    assert ([rows[0]] + tail)[1..] == tail;
  }

  lemma LeftOfInsert(task: RollupTask, rows: Rows, pos: nat, row: Backup)
    requires task.Pruning? && pos <= |rows| && row.id !in Ids(task.from)
    ensures Left(task, InsertAt(rows, pos, row)) == Left(task, rows)
  {
    var a, b := rows[..pos], rows[pos..];
    assert rows == a + b && [row][1..] == [];
    LeftConcat(task, a, b);
    LeftConcat(task, a + [row], b);
    LeftConcat(task, a, [row]);
    LeftStep(task, [row]);
  }

  /** Another prune's row delete takes rows away from what is left. */
  lemma {:induction false} LeftOfDelete(task: RollupTask, rows: Rows, ids: set<nat>)
    requires task.Pruning?
    ensures Left(task, Without(rows, ids)) == Without(Left(task, rows), ids)
  {
    if rows != [] {
      var kept := Without(rows[1..], ids);
      LeftOfDelete(task, rows[1..], ids);
      LeftStep(task, rows);
      assert ([rows[0]] + Left(task, rows[1..]))[1..] == Left(task, rows[1..]);
      if rows[0].id !in ids {
        LeftStep(task, [rows[0]] + kept);
        assert ([rows[0]] + kept)[1..] == kept;
      }
    }
  }

  lemma {:induction false} PoorOfMarked(task: RollupTask, rows: Rows, rows': Rows, n: nat)
    requires task.Pruning? && |rows'| == |rows|
    requires forall i :: 0 <= i < |rows| ==> rows'[i].id == rows[i].id && rows'[i].tier == rows[i].tier
    ensures Poor(Left(task, rows'), n) == Poor(Left(task, rows), n)
  {
    if rows != [] {
      assert forall i :: 0 <= i < |rows[1..]| ==> rows'[1..][i] == rows'[i + 1] && rows[1..][i] == rows[i + 1];
      PoorOfMarked(task, rows[1..], rows'[1..], n);
      LeftStep(task, rows);
      LeftStep(task, rows');
      assert ([rows[0]] + Left(task, rows[1..]))[1..] == Left(task, rows[1..]);
      assert ([rows'[0]] + Left(task, rows'[1..]))[1..] == Left(task, rows'[1..]);
    }
  }

  lemma {:induction false} AmongAll(rows: Rows, ids: set<nat>)
    requires forall i :: 0 <= i < |rows| ==> rows[i].id in ids
    ensures Among(rows, ids) == rows
  {
    if rows != [] {
      assert forall i :: 0 <= i < |rows[1..]| ==> rows[1..][i] == rows[i + 1];
      AmongAll(rows[1..], ids);
    }
  }

  lemma LeftOnSelect(rows: Rows)
    requires DistinctIds(rows)
    ensures Left(Pruning(rows, StaleRows(rows), 0), rows) == Prune(rows)
  {
    var kept := Without(rows, Ids(StaleRows(rows)));
    DeleteStaleIsPrune(rows);
    WithoutMembers(rows, Ids(StaleRows(rows)));
    forall i | 0 <= i < |kept|
      ensures kept[i].id in Ids(rows)
    {
      assert kept[i] in rows;
    }
    AmongAll(kept, Ids(rows));
  }

  /** What a prune in progress will leave of the rows it ranked: never more than the rule. */
  ghost predicate Tracked(task: RollupTask, rows: Rows, nextId: nat) {
    task.Pruning? ==>
      && (forall i :: 0 <= i < |task.from| ==> task.from[i].id < nextId)
      && (forall n: nat :: Poor(Left(task, rows), n) <= Poor(Prune(task.from), n))
  }

  /** And exactly what the rule says, while no other prune deletes rows. */
  ghost predicate Exact(task: RollupTask, rows: Rows) {
    task.Pruning? ==> forall n: nat :: Poor(Left(task, rows), n) == Poor(Prune(task.from), n)
  }

  ghost predicate AllTracked(k: Clone, nextId: nat) {
    forall g :: g in k.rollups ==> Tracked(k.rollups[g], k.rows, nextId)
  }

  ghost predicate AllExact(k: Clone) {
    forall g :: g in k.rollups ==> Exact(k.rollups[g], k.rows)
  }

  lemma TrackedInsert(task: RollupTask, rows: Rows, pos: nat, row: Backup, nextId: nat)
    requires Tracked(task, rows, nextId) && pos <= |rows| && row.id == nextId
    ensures Tracked(task, InsertAt(rows, pos, row), nextId + 1)
    ensures Exact(task, rows) ==> Exact(task, InsertAt(rows, pos, row))
  {
    if task.Pruning? {
      LeftOfInsert(task, rows, pos, row);
    }
  }

  lemma TrackedDelete(task: RollupTask, rows: Rows, ids: set<nat>, nextId: nat)
    requires Tracked(task, rows, nextId)
    ensures Tracked(task, Without(rows, ids), nextId)
  {
    if task.Pruning? {
      LeftOfDelete(task, rows, ids);
      forall n: nat
        ensures Poor(Left(task, Without(rows, ids)), n) <= Poor(Prune(task.from), n)
      {
        PoorWithout(Left(task, rows), ids, n);
      }
    }
  }

  lemma TrackedMark(task: RollupTask, rows: Rows, rows': Rows, nextId: nat)
    requires Tracked(task, rows, nextId) && |rows'| == |rows|
    requires forall i :: 0 <= i < |rows| ==> rows'[i].id == rows[i].id && rows'[i].tier == rows[i].tier
    ensures Tracked(task, rows', nextId)
    ensures Exact(task, rows) ==> Exact(task, rows')
  {
    if task.Pruning? {
      forall n: nat
        ensures Poor(Left(task, rows'), n) == Poor(Left(task, rows), n)
      {
        PoorOfMarked(task, rows, rows', n);
      }
    }
  }

  lemma TrackedSelect(k: Clone, g: nat, nextId: nat)
    requires AllTracked(k, nextId) && DistinctIds(k.rows)
    requires forall i :: 0 <= i < |k.rows| ==> k.rows[i].id < nextId
    ensures AllTracked(SelectStale(k, g), nextId)
    ensures AllExact(k) ==> AllExact(SelectStale(k, g))
  {
    LeftOnSelect(k.rows);
  }

  predicate OnlyPrune(k: Clone, g: nat) {
    forall h :: h in k.rollups && k.rollups[h].Pruning? ==> h == g
  }

  lemma TrackedRows(k: Clone, g: nat, nextId: nat)
    requires AllTracked(k, nextId) && g in k.rollups && k.rollups[g].Pruning?
    ensures var k' := EndRollup(k, g).(rows := Without(k.rows, Ids(k.rollups[g].stale)));
      AllTracked(k', nextId) && (OnlyPrune(k, g) ==> AllExact(k'))
  {
    forall h | h in k.rollups
      ensures Tracked(k.rollups[h], Without(k.rows, Ids(k.rollups[g].stale)), nextId)
    {
      TrackedDelete(k.rollups[h], k.rows, Ids(k.rollups[g].stale), nextId);
    }
  }

  lemma TrackedMarks(k: Clone, rows': Rows, nextId: nat)
    requires AllTracked(k, nextId) && |rows'| == |k.rows|
    requires forall i :: 0 <= i < |k.rows| ==> rows'[i].id == k.rows[i].id && rows'[i].tier == k.rows[i].tier
    ensures AllTracked(k.(rows := rows'), nextId)
    ensures AllExact(k) ==> AllExact(k.(rows := rows'))
  {
    forall g | g in k.rollups
      ensures Tracked(k.rollups[g], rows', nextId)
      ensures Exact(k.rollups[g], k.rows) ==> Exact(k.rollups[g], rows')
    {
      TrackedMark(k.rollups[g], k.rows, rows', nextId);
    }
  }

  lemma TrackedInserts(k: Clone, pos: nat, row: Backup, nextId: nat)
    requires AllTracked(k, nextId) && pos <= |k.rows| && row.id == nextId
    ensures AllTracked(k.(rows := InsertAt(k.rows, pos, row)), nextId + 1)
    ensures AllExact(k) ==> AllExact(k.(rows := InsertAt(k.rows, pos, row)))
  {
    forall g | g in k.rollups
      ensures Tracked(k.rollups[g], InsertAt(k.rows, pos, row), nextId + 1)
      ensures Exact(k.rollups[g], k.rows) ==> Exact(k.rollups[g], InsertAt(k.rows, pos, row))
    {
      TrackedInsert(k.rollups[g], k.rows, pos, row, nextId);
    }
  }

  /** The same rows, and no prune that is not one already. */
  lemma StillTracked(k: Clone, k': Clone, nextId: nat)
    requires AllTracked(k, nextId) && k'.rows == k.rows
    requires forall g :: g in k'.rollups && k'.rollups[g].Pruning? ==>
               g in k.rollups && k.rollups[g].Pruning? && k'.rollups[g].from == k.rollups[g].from
               && k'.rollups[g].stale == k.rollups[g].stale
    ensures AllTracked(k', nextId) && (AllExact(k) ==> AllExact(k'))
  {
    forall g | g in k'.rollups && k'.rollups[g].Pruning?
      ensures Left(k'.rollups[g], k'.rows) == Left(k.rollups[g], k.rows)
      ensures Tracked(k'.rollups[g], k'.rows, nextId)
    {
      assert Tracked(k.rollups[g], k.rows, nextId);
    }
    if AllExact(k) {
      forall g | g in k'.rollups && k'.rollups[g].Pruning?
        ensures Exact(k'.rollups[g], k'.rows)
      {
        assert Exact(k.rollups[g], k.rows);
      }
    }
  }

  /** The step, unless it deletes rows beside another prune, keeps the count exact. */
  ghost predicate KeepsTrack(k: Clone, step: Step, k': Clone, nextId: nat) {
    && AllTracked(k', nextId)
    && (AllExact(k) && (step.PruneRows? ==> OnlyPrune(k, step.g)) ==> AllExact(k'))
  }

  lemma PlainTracked(cfg: Config, k: Clone, step: Step, nextId: nat)
    requires AllTracked(k, nextId) && IsLocal(step) && LocallyEnabled(cfg, k, step)
    requires !step.PruneSelect? && !step.PruneRows? && !step.Restore?
    ensures KeepsTrack(k, step, ApplyLocal(cfg, k, step), nextId)
  {
    if IsFlush(step) {
      FlushFrame(cfg, k, step);
    }
    StillTracked(k, ApplyLocal(cfg, k, step), nextId);
  }

  lemma LocalTracked(cfg: Config, c: nat, k: Clone, step: Step, s: State)
    requires ArchiveOk(cfg, c, k, s.objects, s.made, s.nextId) && AllTracked(k, s.nextId)
    requires IsLocal(step) && LocallyEnabled(cfg, k, step)
    ensures KeepsTrack(k, step, ApplyLocal(cfg, k, step), s.nextId)
  {
    if step.PruneSelect? {
      forall i | 0 <= i < |k.rows|
        ensures k.rows[i].id < s.nextId
      {
        assert Backs(c, k.rows[i], s.made, s.nextId);
      }
      TrackedSelect(k, step.g, s.nextId);
    } else if step.PruneRows? {
      TrackedRows(k, step.g, s.nextId);
    } else if step.Restore? {
      TrackedMarks(k, ApplyLocal(cfg, k, step).rows, s.nextId);
    } else {
      PlainTracked(cfg, k, step, s.nextId);
    }
  }

  lemma CommitTracked(cfg: Config, k: Clone, g: nat, pos: nat, id: nat)
    requires AllTracked(k, id) && g in k.rollups && k.rollups[g].Uploaded? && pos <= |k.rows|
    requires Payload(cfg, Some(k.rollups[g].job.row)) != []
    ensures AllTracked(CommitRollup(cfg, k, g, pos, id), id + 1)
    ensures AllExact(k) ==> AllExact(CommitRollup(cfg, k, g, pos, id))
  {
    var row := RolledUpRow(cfg, id, k.rollups[g].job, k.rollups[g].key);
    TrackedInserts(k, pos, row, id);
    StillTracked(k.(rows := InsertAt(k.rows, pos, row)), CommitRollup(cfg, k, g, pos, id), id + 1);
  }

  lemma InsertTracked(k: Clone, copy: Copy, pos: nat, id: nat, at: int)
    requires AllTracked(k, id) && pos <= |k.rows|
    ensures var k' := k.(copies := k.copies - {copy}, rows := InsertAt(k.rows, pos, ResurrectedRow(id, copy, at)));
      AllTracked(k', id + 1) && (AllExact(k) ==> AllExact(k'))
  {
    var row := ResurrectedRow(id, copy, at);
    TrackedInserts(k, pos, row, id);
    StillTracked(k.(rows := InsertAt(k.rows, pos, row)),
                 k.(copies := k.copies - {copy}, rows := InsertAt(k.rows, pos, row)), id + 1);
  }

  lemma SharedTracked(cfg: Config, s: State, step: Step)
    requires !step.RunBegin? && !step.RunEnd? && step.c in s.clones && AllTracked(s.clones[step.c], s.nextId)
    requires EnabledShared(cfg, s, s.clones[step.c], step)
    ensures var s' := ApplyShared(cfg, s, step);
      step.c in s'.clones && KeepsTrack(s.clones[step.c], step, s'.clones[step.c], s'.nextId)
  {
    var k, s' := s.clones[step.c], ApplyShared(cfg, s, step);
    if step.RollupCommit? {
      CommitTracked(cfg, k, step.g, step.pos, s.nextId);
    } else if step.ResurrectCommit? {
      InsertTracked(k, step.copy, step.pos, s.nextId, step.at);
    } else {
      StillTracked(k, s'.clones[step.c], s.nextId);
    }
  }

  lemma StepTracked(cfg: Config, s: State, step: Step, c: nat)
    requires Inv(cfg, s) && Enabled(cfg, s, step) && c in s.clones && AllTracked(s.clones[c], s.nextId)
    ensures var s' := Apply(cfg, s, step);
      && c in s'.clones && AllTracked(s'.clones[c], s'.nextId)
      && (AllExact(s.clones[c]) && PruneSafe(s.clones[c], s.objects) ==> AllExact(s'.clones[c]))
  {
    StepGrows(cfg, s, step);
    if !On(step, c) {
      LaterTracked(s.clones[c], s.nextId, Apply(cfg, s, step).nextId);
    } else if IsLocal(step) {
      assert CloneOk(cfg, c, s.clones[c], s.objects, s.made, s.nextId);
      LocalTracked(cfg, c, s.clones[c], step, s);
    } else {
      SharedTracked(cfg, s, step);
    }
  }

  lemma LaterTracked(k: Clone, nextId: nat, later: nat)
    requires AllTracked(k, nextId) && nextId <= later
    ensures AllTracked(k, later)
  {
    forall g | g in k.rollups
      ensures Tracked(k.rollups[g], k.rows, later)
    {
      assert Tracked(k.rollups[g], k.rows, nextId);
    }
  }

  lemma {:induction false} RunTracked(cfg: Config, s: State, steps: seq<Step>, c: nat)
    requires cfg.Valid() && Inv(cfg, s) && Legal(cfg, s, steps) && c in s.clones && AllTracked(s.clones[c], s.nextId)
    ensures c in Exec(cfg, s, steps).clones
    ensures AllTracked(Exec(cfg, s, steps).clones[c], Exec(cfg, s, steps).nextId)
    decreases |steps|
  {
    if steps != [] {
      StepKeepsInv(cfg, s, steps[0]);
      StepTracked(cfg, s, steps[0], c);
      RunTracked(cfg, Apply(cfg, s, steps[0]), steps[1..], c);
    }
  }

  lemma {:induction false} RunExact(cfg: Config, s: State, steps: seq<Step>, c: nat)
    requires cfg.Valid() && Inv(cfg, s) && Legal(cfg, s, steps) && c in s.clones && AllTracked(s.clones[c], s.nextId)
    requires PrunesApart(cfg, s, steps, c) && PruneSafe(s.clones[c], s.objects) && AllExact(s.clones[c])
    ensures c in Exec(cfg, s, steps).clones && AllExact(Exec(cfg, s, steps).clones[c])
    decreases |steps|
  {
    if steps != [] {
      StepKeepsInv(cfg, s, steps[0]);
      StepTracked(cfg, s, steps[0], c);
      StepSafe(cfg, s, steps[0], c);
      RunExact(cfg, Apply(cfg, s, steps[0]), steps[1..], c);
    }
  }

  /** Wherever in a run a prune deletes its rows, whatever overlaps: those left are some of the rows it
      had ranked, no more of them with a retain count of n or less than the rule lets stay, and the
      rows inserted since. If the clone's prunes kept apart they are exactly as many as the rule lets
      stay, so the bound of n holds if and only if the inserted rows fit in what that leaves. */
  lemma RetentionAfterPrune(cfg: Config, s: State, steps: seq<Step>, c: nat, g: nat)
    requires cfg.Valid() && Start(s) && Legal(cfg, s, steps) && c in s.clones
    requires Enabled(cfg, Exec(cfg, s, steps), PruneRows(c, g))
    ensures var from := Exec(cfg, s, steps).clones[c].rollups[g].from;
      var rows := Apply(cfg, Exec(cfg, s, steps), PruneRows(c, g)).clones[c].rows;
      var stayed, added := Among(rows, Ids(from)), Without(rows, Ids(from));
      && (forall n: nat ::
            && Poor(rows, n) == Poor(stayed, n) + Poor(added, n)
            && Poor(stayed, n) <= Poor(Prune(from), n) <= n)
      && |rows| <= 30 + |added|
      && (PrunesApart(cfg, s, steps, c) ==>
            forall n: nat ::
              && Poor(stayed, n) == Poor(Prune(from), n)
              && (Poor(rows, n) <= n <==> Poor(added, n) <= n - Poor(Prune(from), n)))
  {
    StartInv(cfg, s);
    assert Fresh(s.clones[c]);
    RunTracked(cfg, s, steps, c);
    var k := Exec(cfg, s, steps).clones[c];
    if PrunesApart(cfg, s, steps, c) {
      RunExact(cfg, s, steps, c);
    }
    DeletedNow(k, g, Exec(cfg, s, steps).nextId);
  }

  lemma DeletedNow(k: Clone, g: nat, nextId: nat)
    requires g in k.rollups && k.rollups[g].Pruning? && AllTracked(k, nextId)
    ensures var task := k.rollups[g];
      var rows, ids := Without(k.rows, Ids(task.stale)), Ids(task.from);
      && (forall n: nat ::
            && Poor(rows, n) == Poor(Among(rows, ids), n) + Poor(Without(rows, ids), n)
            && Poor(Among(rows, ids), n) <= Poor(Prune(task.from), n) <= n)
      && |rows| <= 30 + |Without(rows, ids)|
      && (AllExact(k) ==> forall n: nat :: Poor(Among(rows, ids), n) == Poor(Prune(task.from), n))
  {
    var task := k.rollups[g];
    var rows, ids := Without(k.rows, Ids(task.stale)), Ids(task.from);
    assert Tracked(task, k.rows, nextId) && Left(task, k.rows) == Among(rows, ids);
    RetentionBound(task.from);
    forall n: nat
      ensures Poor(rows, n) == Poor(Among(rows, ids), n) + Poor(Without(rows, ids), n)
    {
      PoorSplit(rows, ids, n);
    }
    EveryRowIsPoor(rows);
    EveryRowIsPoor(Without(rows, ids));
    if AllExact(k) {
      assert Exact(task, k.rows);
    }
  }

  // ----- what an insert adds to a pending delete -----

  /** The rows that the prune's row delete will leave if it comes now. */
  function Pending(k: Clone, g: nat): (rows: Rows)
    requires g in k.rollups && k.rollups[g].Pruning?
  {
    Without(k.rows, Ids(k.rollups[g].stale))
  }

  /** Inserting a row that a pending delete does not name adds to what the delete will leave just when
      the row itself counts. */
  lemma PoorOfInsert(rows: Rows, pos: nat, row: Backup, ids: set<nat>, n: nat)
    requires pos <= |rows| && row.id !in ids
    ensures Poor(Without(InsertAt(rows, pos, row), ids), n)
            == Poor(Without(rows, ids), n) + if Retain(row.tier) <= n then 1 else 0
  {
    var a, b := rows[..pos], rows[pos..];
    assert rows == a + b;
    WithoutConcat(a, b, ids);
    WithoutConcat(a + [row], b, ids);
    WithoutConcat(a, [row], ids);
    PoorConcat(Without(a, ids), Without(b, ids), n);
    PoorConcat(Without(a, ids) + Without([row], ids), Without(b, ids), n);
    PoorConcat(Without(a, ids), Without([row], ids), n);
  }

  /** The tier of the row a step inserts. */
  function TierOfInsert(k: Clone, step: Step): (tier: Tier)
    requires (step.RollupCommit? && step.g in k.rollups && k.rollups[step.g].Uploaded?) || step.ResurrectCommit?
  {
    if step.RollupCommit? then k.rollups[step.g].job.tier else step.copy.tier
  }

  /** What the prune in slot g will leave has grown by a row of the tier. */
  predicate Grown(k: Clone, k': Clone, g: nat, tier: Tier, n: nat)
    requires g in k.rollups && k.rollups[g].Pruning?
  {
    && g in k'.rollups && k'.rollups[g] == k.rollups[g]
    && Poor(Pending(k', g), n) == Poor(Pending(k, g), n) + if Retain(tier) <= n then 1 else 0
  }

  lemma CommitAddsOne(cfg: Config, k: Clone, h: nat, pos: nat, id: nat, g: nat, n: nat)
    requires h in k.rollups && k.rollups[h].Uploaded? && pos <= |k.rows|
    requires Payload(cfg, Some(k.rollups[h].job.row)) != []
    requires g in k.rollups && k.rollups[g].Pruning? && id !in Ids(k.rollups[g].stale)
    ensures Grown(k, CommitRollup(cfg, k, h, pos, id), g, k.rollups[h].job.tier, n)
  {
    PoorOfInsert(k.rows, pos, RolledUpRow(cfg, id, k.rollups[h].job, k.rollups[h].key), Ids(k.rollups[g].stale), n);
  }

  lemma ResurrectAddsOne(k: Clone, copy: Copy, pos: nat, at: int, id: nat, g: nat, n: nat)
    requires pos <= |k.rows| && g in k.rollups && k.rollups[g].Pruning? && id !in Ids(k.rollups[g].stale)
    ensures var k' := k.(copies := k.copies - {copy}, rows := InsertAt(k.rows, pos, ResurrectedRow(id, copy, at)));
      Grown(k, k', g, copy.tier, n)
  {
    PoorOfInsert(k.rows, pos, ResurrectedRow(id, copy, at), Ids(k.rollups[g].stale), n);
  }

  /** A row rolled up or resurrected beside a prune is none of those it deletes, and so counts at once
      among those it will leave. */
  lemma InsertAddsOne(cfg: Config, s: State, step: Step, c: nat, g: nat, n: nat)
    requires Inv(cfg, s) && Enabled(cfg, s, step) && (step.RollupCommit? || step.ResurrectCommit?) && step.c == c
    requires g in s.clones[c].rollups && s.clones[c].rollups[g].Pruning?
    ensures c in Apply(cfg, s, step).clones
    ensures Grown(s.clones[c], Apply(cfg, s, step).clones[c], g, TierOfInsert(s.clones[c], step), n)
  {
    OldIds(cfg, s, c, g);
    InsertGrows(cfg, s, step, g, n);
  }

  lemma InsertGrows(cfg: Config, s: State, step: Step, g: nat, n: nat)
    requires Enabled(cfg, s, step) && (step.RollupCommit? || step.ResurrectCommit?)
    requires var k := s.clones[step.c]; g in k.rollups && k.rollups[g].Pruning? && s.nextId !in Ids(k.rollups[g].stale)
    ensures step.c in Apply(cfg, s, step).clones
    ensures Grown(s.clones[step.c], Apply(cfg, s, step).clones[step.c], g, TierOfInsert(s.clones[step.c], step), n)
  {
    var c := step.c;
    InsertApplied(cfg, s, step);
    if step.RollupCommit? {
      CommitAddsOne(cfg, s.clones[c], step.g, step.pos, s.nextId, g, n);
    } else {
      ResurrectAddsOne(s.clones[c], step.copy, step.pos, step.at, s.nextId, g, n);
    }
  }

  lemma InsertApplied(cfg: Config, s: State, step: Step)
    requires Enabled(cfg, s, step) && (step.RollupCommit? || step.ResurrectCommit?)
    ensures step.c in s.clones && step.c in Apply(cfg, s, step).clones
    ensures var k := s.clones[step.c];
      Apply(cfg, s, step).clones[step.c]
      == if step.RollupCommit? then CommitRollup(cfg, k, step.g, step.pos, s.nextId)
         else k.(copies := k.copies - {step.copy},
                 rows := InsertAt(k.rows, step.pos, ResurrectedRow(s.nextId, step.copy, step.at)))
  {
  }

  lemma OldIds(cfg: Config, s: State, c: nat, g: nat)
    requires Inv(cfg, s) && c in s.clones && g in s.clones[c].rollups && s.clones[c].rollups[g].Pruning?
    ensures s.nextId !in Ids(s.clones[c].rollups[g].stale)
  {
    var k := s.clones[c];
    assert CloneOk(cfg, c, k, s.objects, s.made, s.nextId);
    assert RollupOk(cfg, c, k, k.rollups[g], s.objects, s.made, s.nextId);
    forall j | 0 <= j < |k.rollups[g].stale|
      ensures k.rollups[g].stale[j].id != s.nextId
    {
      assert Condemned(c, k.rollups[g].stale[j], k.rows, s.made, s.nextId);
    }
  }
}
