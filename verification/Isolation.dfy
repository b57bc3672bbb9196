/** No step on one clone touches another clone or an object of its own. */
module Isolation {
  import opened BackupCodec
  import opened ObjectStorage
  import opened Machine
  import opened Invariant
  import opened Reachable

  ghost predicate SameObjects(c: nat, objects: map<Key, Bytes>, objects': map<Key, Bytes>) {
    forall key :: OwnedBy(key, c) ==>
      (key in objects <==> key in objects') && (key in objects ==> objects'[key] == objects[key])
  }

  /** A put or delete under a name of another clone. */
  lemma ForeignObject(c: nat, d: nat, key: Key, objects: map<Key, Bytes>, blob: Bytes)
    requires c != d && OwnedBy(key, d)
    ensures SameObjects(c, objects, objects[key := blob]) && SameObjects(c, objects, objects - {key})
  {
    if OwnedBy(key, c) {
      OneOwner(key, c, d);
    }
  }

  lemma PutElsewhere(cfg: Config, s: State, step: Step, c: nat)
    requires (step.RollupUpload? || step.ResurrectCopy?) && step.c in s.clones && step.c != c
    requires EnabledShared(cfg, s, s.clones[step.c], step)
    ensures SameObjects(c, s.objects, ApplyShared(cfg, s, step).objects)
  {
    var key := BackupKey(step.c, step.stamp, step.suffix);
    BackupKeyOwned(step.c, step.stamp, step.suffix);
    ForeignObject(c, step.c, key, s.objects, ApplyShared(cfg, s, step).objects[key]);
  }

  lemma SharedElsewhere(cfg: Config, s: State, step: Step, c: nat)
    requires Inv(cfg, s) && !step.RunBegin? && !step.RunEnd? && step.c in s.clones && step.c != c
    requires EnabledShared(cfg, s, s.clones[step.c], step)
    ensures SameObjects(c, s.objects, ApplyShared(cfg, s, step).objects)
  {
    if step.RollupUpload? || step.ResurrectCopy? {
      PutElsewhere(cfg, s, step, c);
    } else if step.PruneObject? {
      DeletedElsewhere(cfg, s, step.c, step.g, c);
    }
  }

  lemma DeletedElsewhere(cfg: Config, s: State, d: nat, g: nat, c: nat)
    requires Inv(cfg, s) && d in s.clones && d != c && g in s.clones[d].rollups
    requires s.clones[d].rollups[g].Pruning? && s.clones[d].rollups[g].done < |s.clones[d].rollups[g].stale|
    ensures SameObjects(c, s.objects, s.objects - {NextStale(s.clones[d].rollups[g]).key})
  {
    assert CloneOk(cfg, d, s.clones[d], s.objects, s.made, s.nextId);
    CondemnedDeletedOk(cfg, d, s.clones[d], g, s);
    ForeignObject(c, d, NextStale(s.clones[d].rollups[g]).key, s.objects, []);
  }

  lemma NoObjects(cfg: Config, s: State, step: Step)
    requires Enabled(cfg, s, step) && (step.RunBegin? || step.RunEnd? || IsLocal(step))
    ensures Apply(cfg, s, step).objects == s.objects
  {
  }

  lemma StepElsewhere(cfg: Config, s: State, step: Step, c: nat)
    requires Inv(cfg, s) && Enabled(cfg, s, step) && c in s.clones && !On(step, c)
    ensures var s' := Apply(cfg, s, step);
      c in s'.clones && s'.clones[c] == s.clones[c] && SameObjects(c, s.objects, s'.objects)
  {
    StepGrows(cfg, s, step);
    if step.RunBegin? || step.RunEnd? || IsLocal(step) {
      NoObjects(cfg, s, step);
    } else {
      SharedElsewhere(cfg, s, step, c);
    }
  }

  lemma FlushOnRow(cfg: Config, k: Clone, step: Step)
    requires cfg.Valid() && LiveOk(cfg, k) && IsFlush(step) && FlushEnabled(cfg, k, step)
    ensures ApplyFlush(cfg, k, step).buffer.Some? <==> step.FlushCommit? || k.buffer.Some?
  {
    if step.FlushRevert? {
      assert FlushOk(k.flushes[step.f]);
    }
  }

  lemma LocalOnRow(cfg: Config, k: Clone, step: Step)
    requires cfg.Valid() && LiveOk(cfg, k) && IsLocal(step) && LocallyEnabled(cfg, k, step)
    ensures ApplyLocal(cfg, k, step).buffer.Some? <==> step.FlushCommit? || k.buffer.Some?
  {
    if IsFlush(step) {
      FlushOnRow(cfg, k, step);
    }
  }

  lemma SharedOnRow(cfg: Config, s: State, step: Step)
    requires !step.RunBegin? && !step.RunEnd? && step.c in s.clones
    requires EnabledShared(cfg, s, s.clones[step.c], step)
    ensures step.c in ApplyShared(cfg, s, step).clones
    ensures var row, row' := s.clones[step.c].buffer, ApplyShared(cfg, s, step).clones[step.c].buffer;
      if step.RollupCommit? then row'.None? else row' == row
  {
  }

  lemma StepOnRow(cfg: Config, s: State, step: Step)
    requires cfg.Valid() && !step.RunBegin? && !step.RunEnd? && Enabled(cfg, s, step)
    requires step.c in s.clones && LiveOk(cfg, s.clones[step.c])
    ensures step.c in Apply(cfg, s, step).clones
    ensures Apply(cfg, s, step).clones[step.c].buffer.Some?
            <==> step.FlushCommit? || (s.clones[step.c].buffer.Some? && !step.RollupCommit?)
  {
    if IsLocal(step) {
      LocalOnRow(cfg, s.clones[step.c], step);
    } else {
      SharedOnRow(cfg, s, step);
    }
  }

  /** A clone gets a buffer row only by a flush of it that commits, and loses it only by a rollup of
      it that does: a revert that comes after the rollup does not bring the row back. */
  lemma RowComesAndGoes(cfg: Config, s: State, step: Step, c: nat)
    requires cfg.Valid() && Inv(cfg, s) && Enabled(cfg, s, step) && c in s.clones
    ensures var s' := Apply(cfg, s, step);
      && c in s'.clones
      && (s'.clones[c].buffer.Some? <==>
            (On(step, c) && step.FlushCommit?) || (s.clones[c].buffer.Some? && !(On(step, c) && step.RollupCommit?)))
  {
    if !On(step, c) {
      StepElsewhere(cfg, s, step, c);
    } else {
      assert CloneOk(cfg, c, s.clones[c], s.objects, s.made, s.nextId);
      StepOnRow(cfg, s, step);
    }
  }

  lemma SameTwice(c: nat, a: map<Key, Bytes>, b: map<Key, Bytes>, d: map<Key, Bytes>)
    requires SameObjects(c, a, b) && SameObjects(c, b, d)
    ensures SameObjects(c, a, d)
  {
  }

  /** No run of steps on other clones, in particular no rollup or prune of a resurrection's source,
      changes a clone or any object of its own. */
  lemma {:induction false} OthersCannotTouch(cfg: Config, s: State, steps: seq<Step>, c: nat)
    requires cfg.Valid() && Inv(cfg, s) && Legal(cfg, s, steps) && c in s.clones
    requires forall i :: 0 <= i < |steps| ==> !On(steps[i], c)
    ensures var s' := Exec(cfg, s, steps);
      c in s'.clones && s'.clones[c] == s.clones[c] && SameObjects(c, s.objects, s'.objects)
    decreases |steps|
  {
    if steps != [] {
      var s1 := Apply(cfg, s, steps[0]);
      StepElsewhere(cfg, s, steps[0], c);
      StepKeepsInv(cfg, s, steps[0]);
      OthersCannotTouch(cfg, s1, steps[1..], c);
      SameTwice(c, s.objects, s1.objects, Exec(cfg, s1, steps[1..]).objects);
    }
  }
}
