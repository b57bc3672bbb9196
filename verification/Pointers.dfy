/** When a backup row without its object is one the pruning rule marks stale.

    The newest row has its object in every reachable state. For the others it takes that no prune of
    the clone selects rows while another is between selecting and deleting its own; and step by step
    it is said exactly when a row within its retain count is left without its object. */
module Pointers {
  import opened BackupCodec
  import opened Subscriptions
  import opened ObjectStorage
  import opened Retention
  import opened Machine
  import opened Invariant
  import opened Reachable
  import opened Isolation

  // ----- deleting rows -----

  /** How many of the first i rows are deleted. */
  function Above(rows: Rows, ids: set<nat>, i: nat): (count: nat)
    requires i <= |rows|
    ensures count <= i
  {
    if i == 0 then 0 else Above(rows, ids, i - 1) + if rows[i - 1].id in ids then 1 else 0
  }

  lemma {:induction false} AboveFirst(rows: Rows, ids: set<nat>, i: nat)
    requires 0 < i <= |rows|
    ensures Above(rows, ids, i) == (if rows[0].id in ids then 1 else 0) + Above(rows[1..], ids, i - 1)
  {
    if i > 1 {
      AboveFirst(rows, ids, i - 1);
      assert rows[1..][i - 2] == rows[i - 1];
    }
  }

  /** A row that stays moves up by the deleted ones above it. */
  lemma {:induction false} KeptAt(rows: Rows, ids: set<nat>, i: nat)
    requires i < |rows| && rows[i].id !in ids
    ensures i - Above(rows, ids, i) < |Without(rows, ids)|
    ensures Without(rows, ids)[i - Above(rows, ids, i)] == rows[i]
  {
    if i > 0 {
      KeptAt(rows[1..], ids, i - 1);
      AboveFirst(rows, ids, i);
      assert rows[1..][i - 1] == rows[i];
    }
  }

  lemma {:induction false} KeptFrom(rows: Rows, ids: set<nat>, j: nat) returns (i: nat)
    requires j < |Without(rows, ids)|
    ensures i < |rows| && rows[i].id !in ids && i - Above(rows, ids, i) == j
  {
    if rows[0].id in ids {
      i := KeptFrom(rows[1..], ids, j);
      i := i + 1;
      AboveFirst(rows, ids, i);
    } else if j == 0 {
      i := 0;
    } else {
      i := KeptFrom(rows[1..], ids, j - 1);
      i := i + 1;
      AboveFirst(rows, ids, i);
    }
  }

  /** The row is below its retain count even when the deleted rows above it are gone. */
  predicate StaleWithout(rows: Rows, ids: set<nat>, i: nat)
    requires i < |rows|
  {
    i + 1 > Retain(rows[i].tier) + Above(rows, ids, i)
  }

  /** Deleting rows leaves no live row without its object if and only if every row that stays without
      its object was stale by more than the number of deleted rows above it. */
  lemma DeleteKeepsPointersIff(rows: Rows, ids: set<nat>, objects: map<Key, Bytes>)
    ensures PointersOk(Without(rows, ids), objects)
            <==> forall i :: 0 <= i < |rows| && rows[i].key !in objects && rows[i].id !in ids ==>
                   StaleWithout(rows, ids, i)
  {
    var kept := Without(rows, ids);
    if PointersOk(kept, objects) {
      forall i | 0 <= i < |rows| && rows[i].key !in objects && rows[i].id !in ids
        ensures StaleWithout(rows, ids, i)
      {
        KeptAt(rows, ids, i);
        assert Stale(kept, i - Above(rows, ids, i));
      }
    }
    if forall i :: 0 <= i < |rows| && rows[i].key !in objects && rows[i].id !in ids ==> StaleWithout(rows, ids, i) {
      forall j | 0 <= j < |kept| && kept[j].key !in objects
        ensures Stale(kept, j)
      {
        var i := KeptFrom(rows, ids, j);
        KeptAt(rows, ids, i);
        assert StaleWithout(rows, ids, i);
      }
    }
  }

  /** Deleting an object leaves none if and only if the row that points to it, if any, is stale. */
  lemma LoseObjectIff(rows: Rows, objects: map<Key, Bytes>, key: Key)
    requires PointersOk(rows, objects)
    ensures PointersOk(rows, objects - {key})
            <==> forall i :: 0 <= i < |rows| && rows[i].key == key ==> Stale(rows, i)
  {
    if PointersOk(rows, objects - {key}) {
      forall i | 0 <= i < |rows| && rows[i].key == key
        ensures Stale(rows, i)
      {
      }
    }
  }

  lemma InsertPointersOk(rows: Rows, pos: nat, row: Backup, objects: map<Key, Bytes>)
    requires pos <= |rows| && PointersOk(rows, objects) && row.key in objects
    ensures PointersOk(InsertAt(rows, pos, row), objects)
  {
    var out := InsertAt(rows, pos, row);
    forall i | 0 <= i < |out| && out[i].key !in objects
      ensures Stale(out, i)
    {
      var j := if i < pos then i else i - 1;
      assert i != pos && out[i] == rows[j];
      assert Stale(rows, j);
    }
  }

  lemma MarkedPointers(rows: Rows, rows': Rows, objects: map<Key, Bytes>)
    requires |rows'| == |rows|
    requires forall i :: 0 <= i < |rows| ==> rows'[i].key == rows[i].key && rows'[i].tier == rows[i].tier
    ensures PointersOk(rows, objects) <==> PointersOk(rows', objects)
  {
    forall i | 0 <= i < |rows|
      ensures Stale(rows', i) <==> Stale(rows, i)
    {
    }
  }

  lemma SamePointers(c: nat, rows: Rows, objects: map<Key, Bytes>, objects': map<Key, Bytes>)
    requires SameObjects(c, objects, objects') && forall i :: 0 <= i < |rows| ==> OwnedBy(rows[i].key, c)
    ensures PointersOk(rows, objects) <==> PointersOk(rows, objects')
  {
  }

  lemma MorePointers(rows: Rows, objects: map<Key, Bytes>, key: Key, blob: Bytes)
    requires PointersOk(rows, objects)
    ensures PointersOk(rows, objects[key := blob])
  {
  }

  // ----- one step -----

  /** What the two deleting steps must meet for a clone's rows to stay without live dangling ones. */
  predicate Spares(k: Clone, objects: map<Key, Bytes>, step: Step) {
    && (step.PruneObject? && step.g in k.rollups && k.rollups[step.g].Pruning?
        && k.rollups[step.g].done < |k.rollups[step.g].stale| ==>
          forall i :: 0 <= i < |k.rows| && k.rows[i].key == NextStale(k.rollups[step.g]).key ==> Stale(k.rows, i))
    && (step.PruneRows? && step.g in k.rollups && k.rollups[step.g].Pruning? ==>
          var ids := Ids(k.rollups[step.g].stale);
          forall i :: 0 <= i < |k.rows| && k.rows[i].key !in objects && k.rows[i].id !in ids ==>
            StaleWithout(k.rows, ids, i))
  }

  lemma LocalKeptIff(cfg: Config, c: nat, k: Clone, step: Step, s: State)
    requires ArchiveOk(cfg, c, k, s.objects, s.made, s.nextId) && PointersOk(k.rows, s.objects)
    requires IsLocal(step) && LocallyEnabled(cfg, k, step)
    ensures PointersOk(ApplyLocal(cfg, k, step).rows, s.objects) <==> Spares(k, s.objects, step)
  {
    LocalFrame(cfg, k, step);
    if step.PruneRows? {
      DeleteKeepsPointersIff(k.rows, Ids(k.rollups[step.g].stale), s.objects);
    } else if step.Restore? {
      MarkedPointers(k.rows, ApplyLocal(cfg, k, step).rows, s.objects);
    }
  }

  lemma InsertedPointers(cfg: Config, s: State, step: Step)
    requires Inv(cfg, s) && (step.RollupCommit? || step.ResurrectCommit?) && step.c in s.clones
    requires EnabledShared(cfg, s, s.clones[step.c], step) && PointersOk(s.clones[step.c].rows, s.objects)
    ensures var s' := ApplyShared(cfg, s, step);
      step.c in s'.clones && PointersOk(s'.clones[step.c].rows, s'.objects)
  {
    var k := s.clones[step.c];
    assert CloneOk(cfg, step.c, k, s.objects, s.made, s.nextId);
    if step.RollupCommit? {
      assert RollupOk(cfg, step.c, k, k.rollups[step.g], s.objects, s.made, s.nextId);
      var row := RolledUpRow(cfg, s.nextId, k.rollups[step.g].job, k.rollups[step.g].key);
      InsertPointersOk(k.rows, step.pos, row, s.objects);
    } else {
      assert Reserved(step.c, step.copy.key, k, s.objects, s.made);
      InsertPointersOk(k.rows, step.pos, ResurrectedRow(s.nextId, step.copy, step.at), s.objects);
    }
  }

  lemma ObjectKeptIff(cfg: Config, s: State, step: Step)
    requires step.PruneObject? && step.c in s.clones && EnabledShared(cfg, s, s.clones[step.c], step)
    requires PointersOk(s.clones[step.c].rows, s.objects)
    ensures var s' := ApplyShared(cfg, s, step);
      step.c in s'.clones
      && (PointersOk(s'.clones[step.c].rows, s'.objects) <==> Spares(s.clones[step.c], s.objects, step))
  {
    LoseObjectIff(s.clones[step.c].rows, s.objects, NextStale(s.clones[step.c].rollups[step.g]).key);
  }

  /** The steps that put an object or none. */
  lemma PutKeeps(cfg: Config, s: State, step: Step)
    requires step.RollupScheduled? || step.RollupUpload? || step.ResurrectRead? || step.ResurrectCopy?
    requires step.c in s.clones && EnabledShared(cfg, s, s.clones[step.c], step)
    requires PointersOk(s.clones[step.c].rows, s.objects)
    ensures var s' := ApplyShared(cfg, s, step);
      step.c in s'.clones && s'.clones[step.c].rows == s.clones[step.c].rows
      && PointersOk(s'.clones[step.c].rows, s'.objects)
  {
    if step.RollupUpload? || step.ResurrectCopy? {
      var key := BackupKey(step.c, step.stamp, step.suffix);
      MorePointers(s.clones[step.c].rows, s.objects, key, ApplyShared(cfg, s, step).objects[key]);
    }
  }

  lemma SharedKeptIff(cfg: Config, s: State, step: Step)
    requires Inv(cfg, s) && !step.RunBegin? && !step.RunEnd? && step.c in s.clones
    requires EnabledShared(cfg, s, s.clones[step.c], step) && PointersOk(s.clones[step.c].rows, s.objects)
    ensures var s' := ApplyShared(cfg, s, step);
      step.c in s'.clones
      && (PointersOk(s'.clones[step.c].rows, s'.objects) <==> Spares(s.clones[step.c], s.objects, step))
  {
    var k := s.clones[step.c];
    if step.RollupCommit? || step.ResurrectCommit? {
      InsertedPointers(cfg, s, step);
    } else if step.PruneObject? {
      ObjectKeptIff(cfg, s, step);
    } else {
      PutKeeps(cfg, s, step);
    }
  }

  lemma OwnRows(cfg: Config, s: State, c: nat)
    requires Inv(cfg, s) && c in s.clones
    ensures forall i :: 0 <= i < |s.clones[c].rows| ==> OwnedBy(s.clones[c].rows[i].key, c)
  {
    assert CloneOk(cfg, c, s.clones[c], s.objects, s.made, s.nextId);
    forall i | 0 <= i < |s.clones[c].rows|
      ensures OwnedBy(s.clones[c].rows[i].key, c)
    {
      assert Backs(c, s.clones[c].rows[i], s.made, s.nextId);
    }
  }

  /** From any reachable state in which every row of the clone without its object is stale, overlapping
      prunes or not: the next step keeps that if and only if, when it deletes an object, the row that
      points to it is stale, and when it deletes rows, every row that stays without its object was
      stale by more than the number of deleted rows above it. No other step can break it. */
  lemma PointersKeptIff(cfg: Config, s: State, step: Step, c: nat)
    requires Inv(cfg, s) && Enabled(cfg, s, step) && c in s.clones && PointersOk(s.clones[c].rows, s.objects)
    ensures var s' := Apply(cfg, s, step);
      c in s'.clones
      && (PointersOk(s'.clones[c].rows, s'.objects) <==> (On(step, c) ==> Spares(s.clones[c], s.objects, step)))
  {
    if !On(step, c) {
      StepElsewhere(cfg, s, step, c);
      OwnRows(cfg, s, c);
      SamePointers(c, s.clones[c].rows, s.objects, Apply(cfg, s, step).objects);
    } else if IsLocal(step) {
      assert CloneOk(cfg, c, s.clones[c], s.objects, s.made, s.nextId);
      LocalKeptIff(cfg, c, s.clones[c], step, s);
    } else {
      SharedKeptIff(cfg, s, step);
    }
  }

  // ----- prunes that keep apart -----

  predicate PruningNow(k: Clone) {
    exists g :: g in k.rollups && k.rollups[g].Pruning?
  }

  /** No prune of the clone selects rows while another is between selecting and deleting its own. */
  predicate PrunesApart(cfg: Config, s: State, steps: seq<Step>, c: nat)
    requires Legal(cfg, s, steps)
    decreases |steps|
  {
    steps == []
    || (!(steps[0].PruneSelect? && steps[0].c == c && c in s.clones && PruningNow(s.clones[c]))
        && PrunesApart(cfg, Apply(cfg, s, steps[0]), steps[1..], c))
  }

  ghost predicate StaleNow(rows: Rows, x: Backup) {
    exists i :: 0 <= i < |rows| && rows[i].id == x.id && rows[i].key == x.key && Stale(rows, i)
  }

  /** Every row the prune is to delete is stale, and every row without its object is among them. */
  ghost predicate Covers(task: RollupTask, rows: Rows, objects: map<Key, Bytes>)
    requires task.Pruning?
  {
    && (forall j :: 0 <= j < |task.stale| ==> StaleNow(rows, task.stale[j]))
    && (forall i :: 0 <= i < |rows| && rows[i].key !in objects ==> rows[i].id in Ids(task.stale))
  }

  /** At most one prune, and it covers what is missing. */
  ghost predicate PruneSafe(k: Clone, objects: map<Key, Bytes>) {
    && PointersOk(k.rows, objects)
    && (forall g :: g in k.rollups && k.rollups[g].Pruning? ==> Covers(k.rollups[g], k.rows, objects))
    && (forall g, h :: g in k.rollups && h in k.rollups && k.rollups[g].Pruning? && k.rollups[h].Pruning? ==> g == h)
  }

  lemma StaleRowsCovered(rows: Rows, objects: map<Key, Bytes>)
    requires PointersOk(rows, objects)
    ensures Covers(Pruning(rows, StaleRows(rows), 0), rows, objects)
  {
    var stale := StaleRows(rows);
    forall j | 0 <= j < |stale|
      ensures StaleNow(rows, stale[j])
    {
      StaleRowsExact(rows, stale[j]);
    }
    forall i | 0 <= i < |rows| && rows[i].key !in objects
      ensures rows[i].id in Ids(stale)
    {
      StaleRowsExact(rows, rows[i]);
      var j :| 0 <= j < |stale| && stale[j] == rows[i];
      assert stale[j].id in Ids(stale);
    }
  }

  /** Rows, objects and prunes as they were, or prunes that only end or count on. */
  lemma StillSafe(k: Clone, k': Clone, objects: map<Key, Bytes>)
    requires PruneSafe(k, objects) && k'.rows == k.rows
    requires forall g :: g in k'.rollups && k'.rollups[g].Pruning? ==>
               g in k.rollups && k.rollups[g].Pruning? && k'.rollups[g].stale == k.rollups[g].stale
    ensures PruneSafe(k', objects)
  {
    forall g | g in k'.rollups && k'.rollups[g].Pruning?
      ensures Covers(k'.rollups[g], k'.rows, objects)
    {
      assert Covers(k.rollups[g], k.rows, objects);
    }
  }

  lemma SelectSafe(k: Clone, g: nat, objects: map<Key, Bytes>)
    requires PruneSafe(k, objects) && !PruningNow(k)
    ensures PruneSafe(SelectStale(k, g), objects)
  {
    StaleRowsCovered(k.rows, objects);
  }

  /** The row delete of the only prune takes away all that is missing. */
  lemma RowsSafe(k: Clone, g: nat, objects: map<Key, Bytes>)
    requires PruneSafe(k, objects) && g in k.rollups && k.rollups[g].Pruning?
    ensures PruneSafe(EndRollup(k, g).(rows := Without(k.rows, Ids(k.rollups[g].stale))), objects)
  {
    var kept := Without(k.rows, Ids(k.rollups[g].stale));
    assert Covers(k.rollups[g], k.rows, objects);
    WithoutMembers(k.rows, Ids(k.rollups[g].stale));
    forall i | 0 <= i < |kept|
      ensures kept[i].key in objects
    {
      assert kept[i] in kept;
      var j :| 0 <= j < |k.rows| && k.rows[j] == kept[i];
    }
  }

  lemma MarkSafe(k: Clone, rows': Rows, objects: map<Key, Bytes>)
    requires PruneSafe(k, objects) && |rows'| == |k.rows|
    requires forall i :: 0 <= i < |k.rows| ==>
               rows'[i].key == k.rows[i].key && rows'[i].tier == k.rows[i].tier && rows'[i].id == k.rows[i].id
    ensures PruneSafe(k.(rows := rows'), objects)
  {
    MarkedPointers(k.rows, rows', objects);
    forall g | g in k.rollups && k.rollups[g].Pruning?
      ensures Covers(k.rollups[g], rows', objects)
    {
      assert Covers(k.rollups[g], k.rows, objects);
      forall j | 0 <= j < |k.rollups[g].stale|
        ensures StaleNow(rows', k.rollups[g].stale[j])
      {
        var x := k.rollups[g].stale[j];
        assert StaleNow(k.rows, x);
        var i :| 0 <= i < |k.rows| && k.rows[i].id == x.id && k.rows[i].key == x.key && Stale(k.rows, i);
        assert Stale(rows', i);
      }
    }
  }

  lemma InsertCovers(task: RollupTask, rows: Rows, pos: nat, row: Backup, objects: map<Key, Bytes>)
    requires task.Pruning? && Covers(task, rows, objects) && pos <= |rows| && row.key in objects
    ensures Covers(task, InsertAt(rows, pos, row), objects)
  {
    var out := InsertAt(rows, pos, row);
    forall j | 0 <= j < |task.stale|
      ensures StaleNow(out, task.stale[j])
    {
      var x := task.stale[j];
      assert StaleNow(rows, x);
      var i :| 0 <= i < |rows| && rows[i].id == x.id && rows[i].key == x.key && Stale(rows, i);
      var n := if i < pos then i else i + 1;
      assert out[n] == rows[i] && Stale(out, n);
    }
    forall i | 0 <= i < |out| && out[i].key !in objects
      ensures out[i].id in Ids(task.stale)
    {
      assert out[i] == rows[if i < pos then i else i - 1];
    }
  }

  lemma InsertSafe(k: Clone, pos: nat, row: Backup, objects: map<Key, Bytes>)
    requires PruneSafe(k, objects) && pos <= |k.rows| && row.key in objects
    ensures PruneSafe(k.(rows := InsertAt(k.rows, pos, row)), objects)
  {
    InsertPointersOk(k.rows, pos, row, objects);
    forall g | g in k.rollups && k.rollups[g].Pruning?
      ensures Covers(k.rollups[g], InsertAt(k.rows, pos, row), objects)
    {
      InsertCovers(k.rollups[g], k.rows, pos, row, objects);
    }
  }

  /** Deleting an object of a prune that covers: its row is stale and about to go. */
  lemma LoseSafe(k: Clone, g: nat, objects: map<Key, Bytes>)
    requires PruneSafe(k, objects) && DistinctKeys(k.rows) && g in k.rollups && k.rollups[g].Pruning?
    requires k.rollups[g].done < |k.rollups[g].stale|
    ensures PruneSafe(k, objects - {NextStale(k.rollups[g]).key})
  {
    var task := k.rollups[g];
    var x := NextStale(task);
    var objects' := objects - {x.key};
    assert Covers(task, k.rows, objects) && StaleNow(k.rows, x);
    var n :| 0 <= n < |k.rows| && k.rows[n].id == x.id && k.rows[n].key == x.key && Stale(k.rows, n);
    assert x.id in Ids(task.stale);
    forall i | 0 <= i < |k.rows| && k.rows[i].key !in objects'
      ensures Stale(k.rows, i) && k.rows[i].id in Ids(task.stale)
    {
      if k.rows[i].key in objects {
        assert i == n;
      }
    }
  }

  lemma PutSafe(k: Clone, objects: map<Key, Bytes>, objects': map<Key, Bytes>)
    requires PruneSafe(k, objects)
    requires forall i :: 0 <= i < |k.rows| && k.rows[i].key in objects ==> k.rows[i].key in objects'
    ensures PruneSafe(k, objects')
  {
    forall g | g in k.rollups && k.rollups[g].Pruning?
      ensures Covers(k.rollups[g], k.rows, objects')
    {
      assert Covers(k.rollups[g], k.rows, objects);
    }
  }

  lemma LocalSafe(cfg: Config, k: Clone, step: Step, objects: map<Key, Bytes>)
    requires PruneSafe(k, objects) && IsLocal(step) && LocallyEnabled(cfg, k, step)
    requires step.PruneSelect? ==> !PruningNow(k)
    ensures PruneSafe(ApplyLocal(cfg, k, step), objects)
  {
    if step.PruneSelect? {
      SelectSafe(k, step.g, objects);
    } else if step.PruneRows? {
      RowsSafe(k, step.g, objects);
    } else if step.Restore? {
      MarkSafe(k, ApplyLocal(cfg, k, step).rows, objects);
    } else {
      PlainSafe(cfg, k, step, objects);
    }
  }

  lemma PlainSafe(cfg: Config, k: Clone, step: Step, objects: map<Key, Bytes>)
    requires PruneSafe(k, objects) && IsLocal(step) && LocallyEnabled(cfg, k, step)
    requires !step.PruneSelect? && !step.PruneRows? && !step.Restore?
    ensures PruneSafe(ApplyLocal(cfg, k, step), objects)
  {
    if IsFlush(step) {
      FlushFrame(cfg, k, step);
    }
    StillSafe(k, ApplyLocal(cfg, k, step), objects);
  }

  lemma CommitSafe(cfg: Config, s: State, step: Step)
    requires Inv(cfg, s) && step.RollupCommit? && step.c in s.clones && EnabledShared(cfg, s, s.clones[step.c], step)
    requires PruneSafe(s.clones[step.c], s.objects)
    ensures var s' := ApplyShared(cfg, s, step); step.c in s'.clones && PruneSafe(s'.clones[step.c], s'.objects)
  {
    var k := s.clones[step.c];
    assert CloneOk(cfg, step.c, k, s.objects, s.made, s.nextId);
    assert RollupOk(cfg, step.c, k, k.rollups[step.g], s.objects, s.made, s.nextId);
    var row := RolledUpRow(cfg, s.nextId, k.rollups[step.g].job, k.rollups[step.g].key);
    InsertSafe(k, step.pos, row, s.objects);
    StillSafe(k.(rows := InsertAt(k.rows, step.pos, row)), CommitRollup(cfg, k, step.g, step.pos, s.nextId), s.objects);
  }

  lemma ResurrectSafe(cfg: Config, s: State, step: Step)
    requires Inv(cfg, s) && step.ResurrectCommit? && step.c in s.clones && EnabledShared(cfg, s, s.clones[step.c], step)
    requires PruneSafe(s.clones[step.c], s.objects)
    ensures var s' := ApplyShared(cfg, s, step); step.c in s'.clones && PruneSafe(s'.clones[step.c], s'.objects)
  {
    var k := s.clones[step.c];
    assert CloneOk(cfg, step.c, k, s.objects, s.made, s.nextId);
    assert Reserved(step.c, step.copy.key, k, s.objects, s.made);
    var row := ResurrectedRow(s.nextId, step.copy, step.at);
    InsertSafe(k, step.pos, row, s.objects);
    StillSafe(k.(rows := InsertAt(k.rows, step.pos, row)),
              k.(copies := k.copies - {step.copy}, rows := InsertAt(k.rows, step.pos, row)), s.objects);
  }

  lemma ObjectSafe(cfg: Config, s: State, step: Step)
    requires Inv(cfg, s) && step.PruneObject? && step.c in s.clones && EnabledShared(cfg, s, s.clones[step.c], step)
    requires PruneSafe(s.clones[step.c], s.objects)
    ensures var s' := ApplyShared(cfg, s, step); step.c in s'.clones && PruneSafe(s'.clones[step.c], s'.objects)
  {
    var k := s.clones[step.c];
    assert CloneOk(cfg, step.c, k, s.objects, s.made, s.nextId);
    LoseSafe(k, step.g, s.objects);
    StillSafe(k, DeletedNext(k, step.g), s.objects - {NextStale(k.rollups[step.g]).key});
  }

  lemma AddingSafe(cfg: Config, s: State, step: Step)
    requires step.RollupScheduled? || step.RollupUpload? || step.ResurrectRead? || step.ResurrectCopy?
    requires step.c in s.clones && EnabledShared(cfg, s, s.clones[step.c], step)
    requires PruneSafe(s.clones[step.c], s.objects)
    ensures var s' := ApplyShared(cfg, s, step); step.c in s'.clones && PruneSafe(s'.clones[step.c], s'.objects)
  {
    var s' := ApplyShared(cfg, s, step);
    StillSafe(s.clones[step.c], s'.clones[step.c], s.objects);
    PutSafe(s'.clones[step.c], s.objects, s'.objects);
  }

  lemma StepSafe(cfg: Config, s: State, step: Step, c: nat)
    requires Inv(cfg, s) && Enabled(cfg, s, step) && c in s.clones && PruneSafe(s.clones[c], s.objects)
    requires step.PruneSelect? && step.c == c ==> !PruningNow(s.clones[c])
    ensures c in Apply(cfg, s, step).clones && PruneSafe(Apply(cfg, s, step).clones[c], Apply(cfg, s, step).objects)
  {
    if !On(step, c) {
      StepElsewhere(cfg, s, step, c);
      OwnRows(cfg, s, c);
      PutSafe(s.clones[c], s.objects, Apply(cfg, s, step).objects);
    } else if IsLocal(step) {
      LocalSafe(cfg, s.clones[c], step, s.objects);
    } else if step.RollupCommit? {
      CommitSafe(cfg, s, step);
    } else if step.ResurrectCommit? {
      ResurrectSafe(cfg, s, step);
    } else if step.PruneObject? {
      ObjectSafe(cfg, s, step);
    } else {
      AddingSafe(cfg, s, step);
    }
  }

  lemma {:induction false} RunSafe(cfg: Config, s: State, steps: seq<Step>, c: nat)
    requires cfg.Valid() && Inv(cfg, s) && Legal(cfg, s, steps) && PrunesApart(cfg, s, steps, c)
    requires c in s.clones && PruneSafe(s.clones[c], s.objects)
    ensures var s' := Exec(cfg, s, steps); c in s'.clones && PruneSafe(s'.clones[c], s'.objects)
    decreases |steps|
  {
    if steps != [] {
      StepSafe(cfg, s, steps[0], c);
      StepKeepsInv(cfg, s, steps[0]);
      RunSafe(cfg, Apply(cfg, s, steps[0]), steps[1..], c);
    }
  }
}
