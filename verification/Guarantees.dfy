/** What holds of backup rows, their objects and the safety trigger in every reachable state. */
module Guarantees {
  import opened Wrappers
  import opened BackupCodec
  import opened ObjectStorage
  import opened Retention
  import opened Machine
  import opened Invariant
  import opened Reachable
  import opened Pointers
  import opened Flush

  // ----- pointers -----

  /** In every reachable state, wherever tasks stopped and whatever overlaps, the newest row of a
      clone has its object. And if no prune of the clone selected rows while another was between
      selecting and deleting its own, every row without its object is one the rule marks stale. */
  lemma NoLiveDanglingPointer(cfg: Config, s: State, steps: seq<Step>, c: nat)
    requires cfg.Valid() && Start(s) && Legal(cfg, s, steps) && c in s.clones
    ensures c in Exec(cfg, s, steps).clones
    ensures var s' := Exec(cfg, s, steps); var rows := s'.clones[c].rows;
      && (rows != [] ==> rows[0].key in s'.objects)
      && (PrunesApart(cfg, s, steps, c) ==>
            forall i :: 0 <= i < |rows| && rows[i].key !in s'.objects ==> Stale(rows, i))
  {
    ReachableInv(cfg, s, steps);
    RunKeepsClones(cfg, s, steps);
    var s' := Exec(cfg, s, steps);
    assert CloneOk(cfg, c, s'.clones[c], s'.objects, s'.made, s'.nextId);
    if PrunesApart(cfg, s, steps, c) {
      SafeFromStart(cfg, s, steps, c);
    }
  }

  lemma SafeFromStart(cfg: Config, s: State, steps: seq<Step>, c: nat)
    requires cfg.Valid() && Start(s) && Legal(cfg, s, steps) && c in s.clones && PrunesApart(cfg, s, steps, c)
    ensures var s' := Exec(cfg, s, steps); c in s'.clones && PruneSafe(s'.clones[c], s'.objects)
  {
    StartInv(cfg, s);
    assert Fresh(s.clones[c]);
    RunSafe(cfg, s, steps, c);
  }

  lemma StepNeverReuses(cfg: Config, s: State, step: Step, key: Key)
    requires Enabled(cfg, s, step) && key in s.made && key !in s.objects
    ensures key in Apply(cfg, s, step).made && key !in Apply(cfg, s, step).objects
  {
  }

  lemma {:induction false} DeletedStaysDeleted(cfg: Config, s: State, steps: seq<Step>, key: Key)
    requires Legal(cfg, s, steps) && key in s.made && key !in s.objects
    ensures key in Exec(cfg, s, steps).made && key !in Exec(cfg, s, steps).objects
    decreases |steps|
  {
    if steps != [] {
      StepNeverReuses(cfg, s, steps[0], key);
      DeletedStaysDeleted(cfg, Apply(cfg, s, steps[0]), steps[1..], key);
    }
  }

  /** A deleted object never comes back under its name; and the row that points to it, as long as it
      is there, is not the newest, and is stale as long as prunes keep apart. */
  lemma DanglingStaysStale(cfg: Config, s: State, steps: seq<Step>, later: seq<Step>, c: nat, key: Key)
    requires cfg.Valid() && Start(s) && Legal(cfg, s, steps) && Legal(cfg, Exec(cfg, s, steps), later) && c in s.clones
    requires key in Exec(cfg, s, steps).made && key !in Exec(cfg, s, steps).objects
    ensures var s' := Exec(cfg, Exec(cfg, s, steps), later);
      && key !in s'.objects && c in s'.clones
      && var rows := s'.clones[c].rows;
      forall i :: 0 <= i < |rows| && rows[i].key == key ==>
        && i > 0
        && (PrunesApart(cfg, s, steps, c) && PrunesApart(cfg, Exec(cfg, s, steps), later, c) ==> Stale(rows, i))
  {
    ReachableInv(cfg, s, steps);
    RunKeepsClones(cfg, s, steps);
    DanglingLater(cfg, Exec(cfg, s, steps), later, c, key);
    if PrunesApart(cfg, s, steps, c) && PrunesApart(cfg, Exec(cfg, s, steps), later, c) {
      SafeFromStart(cfg, s, steps, c);
      RunSafe(cfg, Exec(cfg, s, steps), later, c);
    }
  }

  lemma DanglingLater(cfg: Config, s: State, later: seq<Step>, c: nat, key: Key)
    requires cfg.Valid() && Inv(cfg, s) && Legal(cfg, s, later) && c in s.clones && key in s.made && key !in s.objects
    ensures var s' := Exec(cfg, s, later);
      && key !in s'.objects && c in s'.clones
      && (s'.clones[c].rows != [] ==> s'.clones[c].rows[0].key != key)
  {
    RunKeepsInv(cfg, s, later);
    RunKeepsClones(cfg, s, later);
    DeletedStaysDeleted(cfg, s, later, key);
    var s' := Exec(cfg, s, later);
    assert CloneOk(cfg, c, s'.clones[c], s'.objects, s'.made, s'.nextId);
  }

  // ----- rows never change, apart from restored_at -----

  ghost predicate SameRow(x: Backup, y: Backup) {
    x.(restoredAt := None) == y.(restoredAt := None)
  }

  ghost predicate Held(x: Backup, rows: Rows) {
    exists i :: 0 <= i < |rows| && SameRow(x, rows[i])
  }

  lemma HeldAfterInsert(rows: Rows, pos: nat, row: Backup)
    requires pos <= |rows|
    ensures forall x :: x in InsertAt(rows, pos, row) && x != row ==> Held(x, rows)
  {
    forall x | x in InsertAt(rows, pos, row) && x != row
      ensures Held(x, rows)
    {
      var i :| 0 <= i < |rows| + 1 && InsertAt(rows, pos, row)[i] == x;
      var j := if i < pos then i else i - 1;
      assert SameRow(x, rows[j]);
    }
  }

  lemma HeldBefore(rows: Rows, ids: set<nat>)
    ensures forall x :: x in Without(rows, ids) ==> Held(x, rows)
    ensures forall x :: x in rows ==> Held(x, rows)
  {
    WithoutMembers(rows, ids);
    forall x | x in rows
      ensures Held(x, rows)
    {
      var i :| 0 <= i < |rows| && rows[i] == x;
      assert SameRow(x, rows[i]);
    }
  }

  lemma LocalRows(cfg: Config, k: Clone, step: Step, x: Backup)
    requires IsLocal(step) && LocallyEnabled(cfg, k, step) && x in ApplyLocal(cfg, k, step).rows
    ensures Held(x, k.rows)
  {
    HeldBefore(k.rows, if step.PruneRows? then Ids(k.rollups[step.g].stale) else {});
    if step.Restore? {
      var rows := ApplyLocal(cfg, k, step).rows;
      var i :| 0 <= i < |rows| && rows[i] == x;
      assert SameRow(x, k.rows[i]);
    }
  }

  lemma SharedRows(cfg: Config, s: State, step: Step, x: Backup)
    requires !step.RunBegin? && !step.RunEnd? && step.c in s.clones && EnabledShared(cfg, s, s.clones[step.c], step)
    requires step.c in ApplyShared(cfg, s, step).clones && x in ApplyShared(cfg, s, step).clones[step.c].rows
    requires x.id < s.nextId
    ensures Held(x, s.clones[step.c].rows)
  {
    var k := s.clones[step.c];
    if step.RollupCommit? {
      HeldAfterInsert(k.rows, step.pos, RolledUpRow(cfg, s.nextId, k.rollups[step.g].job, k.rollups[step.g].key));
    } else if step.ResurrectCommit? {
      HeldAfterInsert(k.rows, step.pos, ResurrectedRow(s.nextId, step.copy, step.at));
    } else {
      HeldBefore(k.rows, {});
    }
  }

  lemma StepRows(cfg: Config, s: State, step: Step, c: nat, x: Backup)
    requires Enabled(cfg, s, step) && c in s.clones && c in Apply(cfg, s, step).clones
    requires x in Apply(cfg, s, step).clones[c].rows && x.id < s.nextId
    ensures Held(x, s.clones[c].rows)
  {
    if !On(step, c) {
      StepGrows(cfg, s, step);
      HeldBefore(s.clones[c].rows, {});
    } else if IsLocal(step) {
      LocalRows(cfg, s.clones[c], step, x);
    } else {
      SharedRows(cfg, s, step, x);
    }
  }

  /** Over a whole run, a row is what it was when it was inserted, and so is what its object was
      made from. */
  lemma {:induction false} RunRows(cfg: Config, s: State, steps: seq<Step>, c: nat, x: Backup)
    requires Legal(cfg, s, steps) && c in s.clones
    requires c in Exec(cfg, s, steps).clones && x in Exec(cfg, s, steps).clones[c].rows && x.id < s.nextId
    ensures Held(x, s.clones[c].rows)
    ensures Grows(s.made, Exec(cfg, s, steps).made)
    decreases |steps|
  {
    if steps == [] {
      HeldBefore(s.clones[c].rows, {});
    } else {
      var s1 := Apply(cfg, s, steps[0]);
      StepGrows(cfg, s, steps[0]);
      RunRows(cfg, s1, steps[1..], c, x);
      var i :| 0 <= i < |s1.clones[c].rows| && SameRow(x, s1.clones[c].rows[i]);
      StepRows(cfg, s, steps[0], c, s1.clones[c].rows[i]);
      var j :| 0 <= j < |s.clones[c].rows| && SameRow(s1.clones[c].rows[i], s.clones[c].rows[j]);
      assert SameRow(x, s.clones[c].rows[j]);
    }
  }

  /** Whatever a later run does, a row that is there is what it was and, while its object is, decodes
      to what that was made from. The newest row has its object; any row within its retain count has,
      as long as prunes keep apart. */
  lemma RowDecodes(cfg: Config, s: State, steps: seq<Step>, c: nat, at: nat, row: Backup)
    requires cfg.Valid() && Inv(cfg, s) && Legal(cfg, s, steps) && c in s.clones
    requires at < |s.clones[c].rows| && s.clones[c].rows[at] == row
    ensures c in Exec(cfg, s, steps).clones && row.key in s.made
    ensures var s' := Exec(cfg, s, steps); var rows := s'.clones[c].rows;
      forall i :: 0 <= i < |rows| && rows[i].id == row.id ==>
        && SameRow(rows[i], row) && |s.made[row.key]| == rows[i].entryCount
        && (rows[i].key in s'.objects ==> cfg.decode(s'.objects[rows[i].key]) == Some(s.made[row.key]))
        && (i == 0 ==> rows[i].key in s'.objects)
  {
    RunKeepsInv(cfg, s, steps);
    RunKeepsClones(cfg, s, steps);
    var s' := Exec(cfg, s, steps);
    var rows := s'.clones[c].rows;
    RowIsMade(cfg, s, c, at);
    forall i | 0 <= i < |rows| && rows[i].id == row.id
      ensures SameRow(rows[i], row) && |s.made[row.key]| == rows[i].entryCount
      ensures rows[i].key in s'.objects ==> cfg.decode(s'.objects[rows[i].key]) == Some(s.made[row.key])
      ensures i == 0 ==> rows[i].key in s'.objects
    {
      RowKept(cfg, s, steps, c, at, i);
      DecodesNow(cfg, s', c, i);
    }
  }

  lemma RowIsMade(cfg: Config, s: State, c: nat, i: nat)
    requires Inv(cfg, s) && c in s.clones && i < |s.clones[c].rows|
    ensures s.clones[c].rows[i].key in s.made && s.clones[c].rows[i].id < s.nextId
    ensures DistinctIds(s.clones[c].rows)
  {
    assert CloneOk(cfg, c, s.clones[c], s.objects, s.made, s.nextId);
    assert Backs(c, s.clones[c].rows[i], s.made, s.nextId);
  }

  /** A row decodes while it has its object, and the newest has. */
  lemma DecodesNow(cfg: Config, s: State, c: nat, i: nat)
    requires Inv(cfg, s) && c in s.clones && i < |s.clones[c].rows|
    ensures var row := s.clones[c].rows[i];
      && row.key in s.made && |s.made[row.key]| == row.entryCount
      && (row.key in s.objects ==> cfg.decode(s.objects[row.key]) == Some(s.made[row.key]))
      && (i == 0 ==> row.key in s.objects)
  {
    assert CloneOk(cfg, c, s.clones[c], s.objects, s.made, s.nextId);
    assert Backs(c, s.clones[c].rows[i], s.made, s.nextId);
  }

  lemma RowKept(cfg: Config, s: State, steps: seq<Step>, c: nat, at: nat, i: nat)
    requires Inv(cfg, s) && Legal(cfg, s, steps) && c in s.clones && c in Exec(cfg, s, steps).clones
    requires at < |s.clones[c].rows| && i < |Exec(cfg, s, steps).clones[c].rows|
    requires Exec(cfg, s, steps).clones[c].rows[i].id == s.clones[c].rows[at].id
    ensures SameRow(Exec(cfg, s, steps).clones[c].rows[i], s.clones[c].rows[at])
    ensures Grows(s.made, Exec(cfg, s, steps).made)
  {
    var rows, x := s.clones[c].rows, Exec(cfg, s, steps).clones[c].rows[i];
    RowIsMade(cfg, s, c, at);
    RunRows(cfg, s, steps, c, x);
    var j :| 0 <= j < |rows| && SameRow(x, rows[j]);
    assert j == at;
  }

  lemma {:induction false} RunKeepsClones(cfg: Config, s: State, steps: seq<Step>)
    requires Legal(cfg, s, steps)
    ensures Exec(cfg, s, steps).clones.Keys == s.clones.Keys
    decreases |steps|
  {
    if steps != [] {
      StepGrows(cfg, s, steps[0]);
      RunKeepsClones(cfg, Apply(cfg, s, steps[0]), steps[1..]);
    }
  }

  // ----- restore fidelity -----

  /** What becomes of the row a rollup commits: as it is committed, and in a later run. */
  ghost predicate Restorable(cfg: Config, s: State, c: nat, g: nat, pos: nat, later: seq<Step>)
    requires Enabled(cfg, s, RollupCommit(c, g, pos))
    requires Legal(cfg, Apply(cfg, s, RollupCommit(c, g, pos)), later)
  {
    var stored := Apply(cfg, s, RollupCommit(c, g, pos));
    var s', task := Exec(cfg, stored, later), s.clones[c].rollups[g];
    var payload := Payload(cfg, Some(task.job.row));
    && c in stored.clones && pos < |stored.clones[c].rows| && stored.clones[c].rows[pos].id == s.nextId
    && stored.clones[c].rows[pos].restoredAt == None
    && c in s'.clones
    && var rows := s'.clones[c].rows;
    forall i :: 0 <= i < |rows| && rows[i].id == s.nextId ==>
      && rows[i].entryCount == |payload| && IsEarliest(cfg, rows[i].periodStart, payload)
      && rows[i].periodEnd == task.job.now && rows[i].tier == task.job.tier && rows[i].key == task.key
      && (rows[i].key in s'.objects ==> cfg.decode(s'.objects[rows[i].key]) == Some(payload))
      && (i == 0 ==> rows[i].key in s'.objects)
  }

  lemma RollupDecodes(cfg: Config, s: State, c: nat, g: nat, pos: nat, later: seq<Step>)
    requires cfg.Valid() && Inv(cfg, s) && Enabled(cfg, s, RollupCommit(c, g, pos))
    requires Legal(cfg, Apply(cfg, s, RollupCommit(c, g, pos)), later)
    ensures Restorable(cfg, s, c, g, pos, later)
  {
    var task := s.clones[c].rollups[g];
    UploadedIs(cfg, s, c, g);
    StepKeepsInv(cfg, s, RollupCommit(c, g, pos));
    InsertedRollup(cfg, s, c, g, pos);
    MinCapturedIsEarliest(cfg, Payload(cfg, Some(task.job.row)));
    var row := RolledUpRow(cfg, s.nextId, task.job, task.key);
    RowDecodes(cfg, Apply(cfg, s, RollupCommit(c, g, pos)), later, c, pos, row);
  }

  lemma UploadedIs(cfg: Config, s: State, c: nat, g: nat)
    requires cfg.Valid() && Inv(cfg, s) && c in s.clones && g in s.clones[c].rollups && s.clones[c].rollups[g].Uploaded?
    ensures var task := s.clones[c].rollups[g]; var payload := Payload(cfg, Some(task.job.row));
      task.key in s.made && s.made[task.key] == payload && |payload| == task.job.row.count
  {
    var task := s.clones[c].rollups[g];
    assert CloneOk(cfg, c, s.clones[c], s.objects, s.made, s.nextId);
    assert RollupOk(cfg, c, s.clones[c], task, s.objects, s.made, s.nextId);
    WrittenLength(cfg, task.job.row);
  }

  /** The row a rollup commits, whatever overlaps before and after: in every later state its
      entry_count is the length of the payload of the buffer row that rollup had read, its period runs
      from the earliest capture in that payload to the time the rollup was given, its tier and name are
      the rollup's, and its object, while it is there, decodes to exactly that payload. It is there as
      long as the row is the newest, and as long as the row is not stale if no prune of the clone
      selected rows while another was between selecting and deleting its own. */
  lemma RestoreFidelity(cfg: Config, s: State, steps: seq<Step>, c: nat, g: nat, pos: nat, later: seq<Step>)
    requires cfg.Valid() && Start(s) && Legal(cfg, s, steps) && c in s.clones
    requires Enabled(cfg, Exec(cfg, s, steps), RollupCommit(c, g, pos))
    requires Legal(cfg, Apply(cfg, Exec(cfg, s, steps), RollupCommit(c, g, pos)), later)
    ensures Restorable(cfg, Exec(cfg, s, steps), c, g, pos, later)
    ensures var stored := Apply(cfg, Exec(cfg, s, steps), RollupCommit(c, g, pos));
      PrunesApart(cfg, s, steps, c) && PrunesApart(cfg, stored, later, c) ==>
        c in Exec(cfg, stored, later).clones
        && PointersOk(Exec(cfg, stored, later).clones[c].rows, Exec(cfg, stored, later).objects)
  {
    ReachableInv(cfg, s, steps);
    RollupDecodes(cfg, Exec(cfg, s, steps), c, g, pos, later);
    if PrunesApart(cfg, s, steps, c)
       && PrunesApart(cfg, Apply(cfg, Exec(cfg, s, steps), RollupCommit(c, g, pos)), later, c)
    {
      RunKeepsClones(cfg, s, steps);
      SafeFromStart(cfg, s, steps, c);
      SafeThrough(cfg, Exec(cfg, s, steps), RollupCommit(c, g, pos), later, c);
    }
  }

  lemma InsertedRollup(cfg: Config, s: State, c: nat, g: nat, pos: nat)
    requires Enabled(cfg, s, RollupCommit(c, g, pos))
    ensures var s' := Apply(cfg, s, RollupCommit(c, g, pos)); var task := s.clones[c].rollups[g];
      && c in s'.clones && pos < |s'.clones[c].rows|
      && s'.clones[c].rows[pos] == RolledUpRow(cfg, s.nextId, task.job, task.key)
      && s'.made == s.made
  {
  }

  // ----- resurrection -----

  /** At some point of the run, `x` was read as the newest row of another clone, not active then. */
  ghost predicate Offered(cfg: Config, s: State, steps: seq<Step>, c: nat, x: Candidate)
    requires Legal(cfg, s, steps)
    decreases |steps|
  {
    && steps != []
    && (|| ReadNow(s, steps[0], c, x)
        || Offered(cfg, Apply(cfg, s, steps[0]), steps[1..], c, x))
  }

  ghost predicate ReadNow(s: State, step: Step, c: nat, x: Candidate) {
    && step.ResurrectRead? && step.c == c && step.source != c && step.source in s.clones
    && var source := s.clones[step.source];
    && !source.active && source.rows != [] && x.row == source.rows[0]
  }

  lemma SharedCandidates(cfg: Config, s: State, step: Step, x: Candidate)
    requires !step.RunBegin? && !step.RunEnd? && step.c in s.clones
    requires EnabledShared(cfg, s, s.clones[step.c], step) && step.c in ApplyShared(cfg, s, step).clones
    requires x in ApplyShared(cfg, s, step).clones[step.c].candidates
    ensures x in s.clones[step.c].candidates || ReadNow(s, step, step.c, x)
  {
  }

  lemma StepCandidates(cfg: Config, s: State, step: Step, c: nat, x: Candidate)
    requires Enabled(cfg, s, step) && c in s.clones && c in Apply(cfg, s, step).clones
    requires x in Apply(cfg, s, step).clones[c].candidates
    ensures x in s.clones[c].candidates || ReadNow(s, step, c, x)
  {
    if !On(step, c) {
      StepGrows(cfg, s, step);
    } else if IsLocal(step) {
      LocalFrame(cfg, s.clones[c], step);
    } else {
      SharedCandidates(cfg, s, step, x);
    }
  }

  lemma {:induction false} CandidateOrigin(cfg: Config, s: State, steps: seq<Step>, c: nat, x: Candidate)
    requires Legal(cfg, s, steps) && c in s.clones
    requires c in Exec(cfg, s, steps).clones && x in Exec(cfg, s, steps).clones[c].candidates
    ensures x in s.clones[c].candidates || Offered(cfg, s, steps, c, x)
    decreases |steps|
  {
    if steps != [] {
      StepGrows(cfg, s, steps[0]);
      CandidateOrigin(cfg, Apply(cfg, s, steps[0]), steps[1..], c, x);
      if x in Apply(cfg, s, steps[0]).clones[c].candidates {
        StepCandidates(cfg, s, steps[0], c, x);
      }
    }
  }

  lemma InsertedCopy(cfg: Config, s: State, c: nat, copy: Copy, pos: nat, at: int)
    requires Enabled(cfg, s, ResurrectCommit(c, copy, pos, at))
    ensures var s' := Apply(cfg, s, ResurrectCommit(c, copy, pos, at));
      && c in s'.clones && pos < |s'.clones[c].rows|
      && s'.clones[c].rows[pos] == ResurrectedRow(s.nextId, copy, at) && s'.made == s.made
  {
  }

  /** A resurrected row comes only from a row that was the newest one of another, non-active clone;
      it carries that row's period and count, and in every later state its object, while it is there,
      decodes to exactly what that row's object was made from, even if that row is long gone. It is
      there as long as the row is the newest, and as long as it is not stale if the clone's prunes
      keep apart. */
  lemma ResurrectionFaithful(cfg: Config, s: State, steps: seq<Step>, c: nat, copy: Copy, pos: nat, at: int,
                             later: seq<Step>)
    requires cfg.Valid() && Start(s) && Legal(cfg, s, steps) && c in s.clones
    requires Enabled(cfg, Exec(cfg, s, steps), ResurrectCommit(c, copy, pos, at))
    requires Legal(cfg, Apply(cfg, Exec(cfg, s, steps), ResurrectCommit(c, copy, pos, at)), later)
    ensures Offered(cfg, s, steps, c, Candidate(copy.row, copy.tier))
    ensures Resurrected(cfg, Exec(cfg, s, steps), c, copy, pos, at, later)
    ensures var inserted := Apply(cfg, Exec(cfg, s, steps), ResurrectCommit(c, copy, pos, at));
      PrunesApart(cfg, s, steps, c) && PrunesApart(cfg, inserted, later, c) ==>
        c in Exec(cfg, inserted, later).clones
        && PointersOk(Exec(cfg, inserted, later).clones[c].rows, Exec(cfg, inserted, later).objects)
  {
    ReachableInv(cfg, s, steps);
    RunKeepsClones(cfg, s, steps);
    assert Fresh(s.clones[c]);
    CopyIsOffered(cfg, Exec(cfg, s, steps), c, copy, pos, at);
    CandidateOrigin(cfg, s, steps, c, Candidate(copy.row, copy.tier));
    CopyDecodes(cfg, Exec(cfg, s, steps), c, copy, pos, at, later);
    if PrunesApart(cfg, s, steps, c)
       && PrunesApart(cfg, Apply(cfg, Exec(cfg, s, steps), ResurrectCommit(c, copy, pos, at)), later, c)
    {
      SafeFromStart(cfg, s, steps, c);
      SafeThrough(cfg, Exec(cfg, s, steps), ResurrectCommit(c, copy, pos, at), later, c);
    }
  }

  lemma SafeThrough(cfg: Config, s: State, step: Step, later: seq<Step>, c: nat)
    requires cfg.Valid() && Inv(cfg, s) && Enabled(cfg, s, step) && !step.PruneSelect? && c in s.clones
    requires Legal(cfg, Apply(cfg, s, step), later) && PrunesApart(cfg, Apply(cfg, s, step), later, c)
    requires PruneSafe(s.clones[c], s.objects)
    ensures var s' := Exec(cfg, Apply(cfg, s, step), later); c in s'.clones && PruneSafe(s'.clones[c], s'.objects)
  {
    StepSafe(cfg, s, step, c);
    StepKeepsInv(cfg, s, step);
    RunSafe(cfg, Apply(cfg, s, step), later, c);
  }

  lemma CopyIsOffered(cfg: Config, s: State, c: nat, copy: Copy, pos: nat, at: int)
    requires Inv(cfg, s) && Enabled(cfg, s, ResurrectCommit(c, copy, pos, at))
    ensures c in s.clones && copy in s.clones[c].copies
    ensures Candidate(copy.row, copy.tier) in s.clones[c].candidates
    ensures copy.row.key in s.made && copy.key in s.made && s.made[copy.key] == s.made[copy.row.key]
  {
    assert CloneOk(cfg, c, s.clones[c], s.objects, s.made, s.nextId);
    assert Reserved(c, copy.key, s.clones[c], s.objects, s.made);
  }

  /** What becomes of the resurrected row in a later run. */
  ghost predicate Resurrected(cfg: Config, s: State, c: nat, copy: Copy, pos: nat, at: int, later: seq<Step>)
    requires Enabled(cfg, s, ResurrectCommit(c, copy, pos, at))
    requires Legal(cfg, Apply(cfg, s, ResurrectCommit(c, copy, pos, at)), later)
  {
    var s' := Exec(cfg, Apply(cfg, s, ResurrectCommit(c, copy, pos, at)), later);
    && copy.row.key in s.made && c in s'.clones
    && var rows := s'.clones[c].rows;
    forall i :: 0 <= i < |rows| && rows[i].id == s.nextId ==>
      && rows[i].periodStart == copy.row.periodStart && rows[i].periodEnd == copy.row.periodEnd
      && rows[i].entryCount == copy.row.entryCount && rows[i].tier == copy.tier && rows[i].key == copy.key
      && (rows[i].key in s'.objects ==> cfg.decode(s'.objects[rows[i].key]) == Some(s.made[copy.row.key]))
      && (i == 0 ==> rows[i].key in s'.objects)
  }

  lemma CopyDecodes(cfg: Config, s: State, c: nat, copy: Copy, pos: nat, at: int, later: seq<Step>)
    requires cfg.Valid() && Inv(cfg, s) && Enabled(cfg, s, ResurrectCommit(c, copy, pos, at))
    requires Legal(cfg, Apply(cfg, s, ResurrectCommit(c, copy, pos, at)), later)
    ensures Resurrected(cfg, s, c, copy, pos, at, later)
  {
    CopyIsOffered(cfg, s, c, copy, pos, at);
    StepKeepsInv(cfg, s, ResurrectCommit(c, copy, pos, at));
    InsertedCopy(cfg, s, c, copy, pos, at);
    RowDecodes(cfg, Apply(cfg, s, ResurrectCommit(c, copy, pos, at)), later, c, pos,
               ResurrectedRow(s.nextId, copy, at));
  }

  // ----- which form is stored -----

  /** In every reachable state of the service, with its own codec, each buffer row and each object in the
      bucket holds the smaller of the packed and the compressed form of its entries. */
  lemma SmallerIsArchived(gz: GzipPair, iso: Bytes -> int, maxlen: int, overrideSeconds: Option<int>, s: State,
                          steps: seq<Step>)
    requires gz.Lossless() && Start(s) && Legal(ServiceConfig(gz, iso, maxlen, overrideSeconds), s, steps)
    ensures var cfg := ServiceConfig(gz, iso, maxlen, overrideSeconds);
      var s' := Exec(cfg, s, steps);
      && (forall key :: key in s'.objects ==>
            key in s'.made && Fits(s'.made[key]) && IsSmaller(gz, s'.objects[key], s'.made[key]))
      && (forall c :: c in s'.clones && s'.clones[c].buffer.Some? ==>
            var row := s'.clones[c].buffer;
            Fits(Payload(cfg, row)) && IsSmaller(gz, row.value.blob, Payload(cfg, row)))
  {
    var cfg := ServiceConfig(gz, iso, maxlen, overrideSeconds);
    ServiceConfigValid(gz, iso, maxlen, overrideSeconds);
    ReachableInv(cfg, s, steps);
    var s' := Exec(cfg, s, steps);
    forall key | key in s'.objects
      ensures key in s'.made && Fits(s'.made[key]) && IsSmaller(gz, s'.objects[key], s'.made[key])
    {
      RoundTrip(gz, s'.made[key]);
      SmallerIsStored(gz, s'.made[key]);
    }
    forall c | c in s'.clones && s'.clones[c].buffer.Some?
      ensures Fits(Payload(cfg, s'.clones[c].buffer))
      ensures IsSmaller(gz, s'.clones[c].buffer.value.blob, Payload(cfg, s'.clones[c].buffer))
    {
      assert CloneOk(cfg, c, s'.clones[c], s'.objects, s'.made, s'.nextId);
      RowIsSmaller(gz, iso, maxlen, overrideSeconds, s'.clones[c].buffer);
    }
  }

  // ----- the safety trigger -----

  /** Whenever no writer is between its append and its length check and the stream has reached the
      threshold, a flush was requested after the last append if and only if some writer got through
      since then. So the trigger is missed exactly when every writer that finished since the last
      append, and there was one, died before its check or had its request refused. */
  lemma NoMissedTrigger(cfg: Config, s: State, steps: seq<Step>, c: nat)
    requires cfg.Valid() && Start(s) && Legal(cfg, s, steps) && c in Exec(cfg, s, steps).clones
    ensures var k := Exec(cfg, s, steps).clones[c];
      k.history != [] && k.checking == 0 && |k.stream| >= cfg.maxlen ==>
        && (k.requested <==> k.served > 0)
        && (!k.requested <==> k.served == 0 && k.lost > 0)
  {
    ReachableInv(cfg, s, steps);
    var s' := Exec(cfg, s, steps);
    assert CloneOk(cfg, c, s'.clones[c], s'.objects, s'.made, s'.nextId);
  }
}
