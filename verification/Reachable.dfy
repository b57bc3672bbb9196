/** Every step of every task keeps the invariant, so every reachable state has it. */
module Reachable {
  import opened Wrappers
  import opened BackupCodec
  import opened ObjectStorage
  import opened Retention
  import opened Machine
  import opened Invariant

  /** As Lift, for a step that leaves the live half of the clone as it is, or deletes its buffer row. */
  lemma LiftArchive(cfg: Config, s: State, s': State, c: nat, k: Clone)
    requires Inv(cfg, s) && c in s.clones && s'.clones == s.clones[c := k]
    requires Grows(s.made, s'.made) && SameElsewhere(c, s.objects, s'.objects) && s.nextId <= s'.nextId
    requires StoreOk(cfg, s'.objects, s'.made)
    requires k == s.clones[c].(rows := k.rows, candidates := k.candidates, copies := k.copies, rollups := k.rollups,
                               rolled := k.rolled, slots := k.slots, buffer := k.buffer)
    requires k.buffer == s.clones[c].buffer || k.buffer.None?
    requires ArchiveOk(cfg, c, k, s'.objects, s'.made, s'.nextId)
    ensures Inv(cfg, s')
  {
    assert CloneOk(cfg, c, s.clones[c], s.objects, s.made, s.nextId);
    SameLive(cfg, s.clones[c], k);
    Lift(cfg, s, s', c, k);
  }

  lemma PutObjectOk(cfg: Config, s: State, c: nat, key: Key, blob: Bytes, entries: seq<Entry>)
    requires StoreOk(cfg, s.objects, s.made) && OwnedBy(key, c) && key !in s.made
    requires Encodes(cfg, blob, entries)
    ensures StoreOk(cfg, s.objects[key := blob], s.made[key := entries])
    ensures Grows(s.made, s.made[key := entries]) && SameElsewhere(c, s.objects, s.objects[key := blob])
  {
  }

  /** A put under a new name changes nothing a clone relied on. */
  lemma PutKeepsClone(cfg: Config, s: State, c: nat, k: Clone, key: Key, blob: Bytes, entries: seq<Entry>)
    requires ArchiveOk(cfg, c, k, s.objects, s.made, s.nextId) && StoreOk(cfg, s.objects, s.made)
    requires OwnedBy(key, c) && key !in s.made
    ensures ArchiveOk(cfg, c, k, s.objects[key := blob], s.made[key := entries], s.nextId)
    ensures Reserved(c, key, k, s.objects[key := blob], s.made[key := entries])
    ensures Unnamed(k, key)
  {
    var objects, made := s.objects[key := blob], s.made[key := entries];
    forall i | 0 <= i < |k.rows|
      ensures Backs(c, k.rows[i], made, s.nextId) && k.rows[i].key != key
    {
      assert Backs(c, k.rows[i], s.made, s.nextId);
    }
    forall other | Reserved(c, other, k, s.objects, s.made)
      ensures Reserved(c, other, k, objects, made) && other != key
    {
    }
    forall g | g in k.rollups
      ensures RollupOk(cfg, c, k, k.rollups[g], objects, made, s.nextId) && key !in Doomed(k.rollups[g])
    {
      assert RollupOk(cfg, c, k, k.rollups[g], s.objects, s.made, s.nextId);
      PutKeepsCondemned(c, k.rollups[g], k.rows, s, key, entries);
    }
  }

  lemma PutKeepsCondemned(c: nat, task: RollupTask, rows: Rows, s: State, key: Key, entries: seq<Entry>)
    requires key !in s.made
    requires task.Pruning? ==>
               forall j :: 0 <= j < |task.stale| ==> Condemned(c, task.stale[j], rows, s.made, s.nextId)
    ensures key !in Doomed(task)
    ensures task.Pruning? ==>
              forall j :: 0 <= j < |task.stale| ==> Condemned(c, task.stale[j], rows, s.made[key := entries], s.nextId)
  {
    if task.Pruning? {
      forall j | 0 <= j < |task.stale|
        ensures Condemned(c, task.stale[j], rows, s.made[key := entries], s.nextId) && task.stale[j].key != key
      {
        assert Condemned(c, task.stale[j], rows, s.made, s.nextId);
      }
    }
  }

  /** No copy and no rollup in progress has put an object of this name. */
  ghost predicate Unnamed(k: Clone, key: Key) {
    && (forall x :: x in k.copies ==> x.key != key)
    && (forall g :: g in k.rollups && k.rollups[g].Uploaded? ==> k.rollups[g].key != key)
  }

  /** A rollup takes the name of the object it has put. */
  lemma NamedOk(cfg: Config, c: nat, k: Clone, g: nat, job: Job, key: Key, s: State)
    requires ArchiveOk(cfg, c, k, s.objects, s.made, s.nextId) && g in k.rollups && k.rollups[g] == RollingUp(job)
    requires Reserved(c, key, k, s.objects, s.made) && Unnamed(k, key)
    requires s.made[key] == Payload(cfg, Some(job.row))
    ensures ArchiveOk(cfg, c, SetRollup(k, g, Uploaded(job, key)), s.objects, s.made, s.nextId)
  {
    var k' := SetRollup(k, g, Uploaded(job, key));
    forall other | Reserved(c, other, k, s.objects, s.made)
      ensures Reserved(c, other, k', s.objects, s.made)
    {
    }
    assert RollupOk(cfg, c, k, k.rollups[g], s.objects, s.made, s.nextId);
    forall h | h in k'.rollups
      ensures RollupOk(cfg, c, k', k'.rollups[h], s.objects, s.made, s.nextId)
    {
      if h != g {
        assert RollupOk(cfg, c, k, k.rollups[h], s.objects, s.made, s.nextId);
      }
    }
  }

  lemma UploadOk(cfg: Config, s: State, c: nat, g: nat, stamp: string, suffix: string)
    requires cfg.Valid() && Inv(cfg, s) && c in s.clones
    requires g in s.clones[c].rollups && s.clones[c].rollups[g].RollingUp? && BackupKey(c, stamp, suffix) !in s.made
    ensures Inv(cfg, Upload(cfg, s, c, g, BackupKey(c, stamp, suffix)))
  {
    var k, key, job := s.clones[c], BackupKey(c, stamp, suffix), s.clones[c].rollups[g].job;
    var entries := Payload(cfg, Some(job.row));
    assert RollupOk(cfg, c, k, k.rollups[g], s.objects, s.made, s.nextId) by {
      assert CloneOk(cfg, c, k, s.objects, s.made, s.nextId);
    }
    BackupKeyOwned(c, stamp, suffix);
    PayloadOfRow(cfg, entries);
    PutKeepsClone(cfg, s, c, k, key, job.row.blob, entries);
    PutObjectOk(cfg, s, c, key, job.row.blob, entries);
    NamedOk(cfg, c, k, g, job, key, s.(objects := s.objects[key := job.row.blob], made := s.made[key := entries]));
    LiftArchive(cfg, s, Upload(cfg, s, c, g, key), c, SetRollup(k, g, Uploaded(job, key)));
  }

  lemma CopiedOk(cfg: Config, c: nat, k: Clone, copy: Copy, s: State)
    requires ArchiveOk(cfg, c, k, s.objects, s.made, s.nextId) && Candidate(copy.row, copy.tier) in k.candidates
    requires Reserved(c, copy.key, k, s.objects, s.made) && Unnamed(k, copy.key)
    requires copy.row.key in s.made && s.made[copy.key] == s.made[copy.row.key]
    ensures ArchiveOk(cfg, c, k.(copies := k.copies + {copy}), s.objects, s.made, s.nextId)
  {
    var k' := k.(copies := k.copies + {copy});
    forall key | Reserved(c, key, k, s.objects, s.made)
      ensures Reserved(c, key, k', s.objects, s.made)
    {
    }
    forall h | h in k'.rollups
      ensures RollupOk(cfg, c, k', k'.rollups[h], s.objects, s.made, s.nextId)
    {
      assert RollupOk(cfg, c, k, k.rollups[h], s.objects, s.made, s.nextId);
    }
  }

  lemma CopyObjectOk(cfg: Config, s: State, c: nat, candidate: Candidate, stamp: string, suffix: string)
    requires Inv(cfg, s) && c in s.clones && candidate in s.clones[c].candidates
    requires candidate.row.key in s.objects && candidate.row.key in s.made
    requires BackupKey(c, stamp, suffix) !in s.made
    ensures Inv(cfg, CopyObject(s, c, candidate, BackupKey(c, stamp, suffix)))
  {
    var k, key := s.clones[c], BackupKey(c, stamp, suffix);
    var blob, entries := s.objects[candidate.row.key], s.made[candidate.row.key];
    var copy := Copy(candidate.row, candidate.tier, key);
    BackupKeyOwned(c, stamp, suffix);
    PutKeepsClone(cfg, s, c, k, key, blob, entries);
    PutObjectOk(cfg, s, c, key, blob, entries);
    CopiedOk(cfg, c, k, copy, s.(objects := s.objects[key := blob], made := s.made[key := entries]));
    LiftArchive(cfg, s, CopyObject(s, c, candidate, key), c, k.(copies := k.copies + {copy}));
  }

  /** Inserting a row for an object held in reserve, once nothing else goes by its name. */
  lemma RowInsertedOk(cfg: Config, c: nat, k: Clone, pos: nat, row: Backup, s: State)
    requires ArchiveOk(cfg, c, k, s.objects, s.made, s.nextId)
    requires RanksAt(k.rows, pos, row.periodEnd) && row.id == s.nextId
    requires Reserved(c, row.key, k, s.objects, s.made) && |s.made[row.key]| == row.entryCount && Unnamed(k, row.key)
    ensures ArchiveOk(cfg, c, k.(rows := InsertAt(k.rows, pos, row)), s.objects, s.made, s.nextId + 1)
  {
    var k' := k.(rows := InsertAt(k.rows, pos, row));
    InsertOk(c, k.rows, pos, row, s.made, s.nextId);
    InsertNewest(k.rows, pos, row, s.objects);
    forall key | Reserved(c, key, k, s.objects, s.made) && key != row.key
      ensures Reserved(c, key, k', s.objects, s.made)
    {
    }
    forall g | g in k'.rollups
      ensures RollupOk(cfg, c, k', k'.rollups[g], s.objects, s.made, s.nextId + 1)
    {
      assert RollupOk(cfg, c, k, k.rollups[g], s.objects, s.made, s.nextId);
      InsertKeepsCondemned(c, k.rollups[g], k.rows, pos, row, s);
    }
  }

  lemma InsertKeepsCondemned(c: nat, task: RollupTask, rows: Rows, pos: nat, row: Backup, s: State)
    requires pos <= |rows| && row.id == s.nextId && row.key !in Doomed(task)
    requires task.Pruning? ==>
               forall j :: 0 <= j < |task.stale| ==> Condemned(c, task.stale[j], rows, s.made, s.nextId)
    ensures task.Pruning? ==>
              forall j :: 0 <= j < |task.stale| ==>
                Condemned(c, task.stale[j], InsertAt(rows, pos, row), s.made, s.nextId + 1)
  {
    if task.Pruning? {
      forall j | 0 <= j < |task.stale|
        ensures Condemned(c, task.stale[j], InsertAt(rows, pos, row), s.made, s.nextId + 1)
      {
        assert task.stale[j].key in Doomed(task);
        InsertCondemned(c, task.stale[j], rows, pos, row, s.made, s.nextId);
      }
    }
  }

  lemma WrittenLength(cfg: Config, row: BufferRow)
    requires WrittenRow(cfg, row)
    ensures |Payload(cfg, Some(row))| == row.count
  {
  }

  /** The rollup gives up its name to the row. */
  lemma UnnamedOk(cfg: Config, c: nat, k: Clone, g: nat, s: State)
    requires ArchiveOk(cfg, c, k, s.objects, s.made, s.nextId) && g in k.rollups && k.rollups[g].Uploaded?
    ensures ArchiveOk(cfg, c, SetRollup(k, g, Stored), s.objects, s.made, s.nextId)
    ensures Reserved(c, k.rollups[g].key, SetRollup(k, g, Stored), s.objects, s.made)
    ensures Unnamed(SetRollup(k, g, Stored), k.rollups[g].key)
  {
    var k' := SetRollup(k, g, Stored);
    assert RollupOk(cfg, c, k, k.rollups[g], s.objects, s.made, s.nextId);
    forall key | Reserved(c, key, k, s.objects, s.made)
      ensures Reserved(c, key, k', s.objects, s.made)
    {
    }
    forall h | h in k'.rollups
      ensures RollupOk(cfg, c, k', k'.rollups[h], s.objects, s.made, s.nextId)
      ensures k'.rollups[h].Uploaded? ==> k'.rollups[h].key != k.rollups[g].key
    {
      if h != g {
        assert RollupOk(cfg, c, k, k.rollups[h], s.objects, s.made, s.nextId);
        assert SameName(k.rollups[g], k.rollups[h]) ==> g == h;
      }
    }
  }

  lemma RolledOk(cfg: Config, c: nat, k: Clone, k': Clone, key: Key, s: State)
    requires ArchiveOk(cfg, c, k, s.objects, s.made, s.nextId) && key in s.made
    requires k'.rows == k.rows && k'.candidates == k.candidates && k'.copies == k.copies && k'.rollups == k.rollups
    requires k'.rolled == k.rolled + [key]
    ensures ArchiveOk(cfg, c, k', s.objects, s.made, s.nextId)
  {
    SameArchive(cfg, c, k, k'.(rolled := k.rolled), s);
    var k0 := k'.(rolled := k.rolled);
    SameReserved(c, k0, k', s.objects, s.made);
    forall g | g in k'.rollups
      ensures RollupOk(cfg, c, k', k'.rollups[g], s.objects, s.made, s.nextId)
    {
      assert RollupOk(cfg, c, k0, k0.rollups[g], s.objects, s.made, s.nextId);
    }
  }

  lemma CommittedOk(cfg: Config, s: State, c: nat, k: Clone, g: nat, pos: nat)
    requires ArchiveOk(cfg, c, k, s.objects, s.made, s.nextId) && g in k.rollups && k.rollups[g].Uploaded?
    requires RanksAt(k.rows, pos, k.rollups[g].job.now) && Payload(cfg, Some(k.rollups[g].job.row)) != []
    ensures ArchiveOk(cfg, c, CommitRollup(cfg, k, g, pos, s.nextId), s.objects, s.made, s.nextId + 1)
  {
    var job, key := k.rollups[g].job, k.rollups[g].key;
    var row := RolledUpRow(cfg, s.nextId, job, key);
    assert RollupOk(cfg, c, k, k.rollups[g], s.objects, s.made, s.nextId);
    WrittenLength(cfg, job.row);
    UnnamedOk(cfg, c, k, g, s);
    var k1 := SetRollup(k, g, Stored);
    RowInsertedOk(cfg, c, k1, pos, row, s);
    RolledOk(cfg, c, k1.(rows := InsertAt(k.rows, pos, row)), CommitRollup(cfg, k, g, pos, s.nextId), key,
             s.(nextId := s.nextId + 1));
  }

  lemma RollupCommitOk(cfg: Config, s: State, c: nat, g: nat, pos: nat)
    requires Inv(cfg, s) && c in s.clones && g in s.clones[c].rollups && s.clones[c].rollups[g].Uploaded?
    requires RanksAt(s.clones[c].rows, pos, s.clones[c].rollups[g].job.now)
    requires Payload(cfg, Some(s.clones[c].rollups[g].job.row)) != []
    ensures Inv(cfg, Put(s, c, CommitRollup(cfg, s.clones[c], g, pos, s.nextId)).(nextId := s.nextId + 1))
  {
    var k' := CommitRollup(cfg, s.clones[c], g, pos, s.nextId);
    CommittedOk(cfg, s, c, s.clones[c], g, pos);
    LiftArchive(cfg, s, Put(s, c, k').(nextId := s.nextId + 1), c, k');
  }

  /** The request gives up its name to the row. */
  lemma CopyTakenOk(cfg: Config, c: nat, k: Clone, copy: Copy, s: State)
    requires ArchiveOk(cfg, c, k, s.objects, s.made, s.nextId) && copy in k.copies
    ensures ArchiveOk(cfg, c, k.(copies := k.copies - {copy}), s.objects, s.made, s.nextId)
    ensures Reserved(c, copy.key, k.(copies := k.copies - {copy}), s.objects, s.made)
    ensures Unnamed(k.(copies := k.copies - {copy}), copy.key) && |s.made[copy.key]| == copy.row.entryCount
  {
    var k' := k.(copies := k.copies - {copy});
    SameReserved(c, k, k', s.objects, s.made);
    forall g | g in k'.rollups
      ensures RollupOk(cfg, c, k', k'.rollups[g], s.objects, s.made, s.nextId)
      ensures k'.rollups[g].Uploaded? ==> k'.rollups[g].key != copy.key
    {
      assert RollupOk(cfg, c, k, k.rollups[g], s.objects, s.made, s.nextId);
    }
  }

  lemma InsertCopyOk(cfg: Config, s: State, c: nat, copy: Copy, pos: nat, at: int)
    requires Inv(cfg, s) && c in s.clones && copy in s.clones[c].copies
    requires RanksAt(s.clones[c].rows, pos, copy.row.periodEnd)
    ensures Inv(cfg, InsertCopy(s, c, copy, pos, at))
  {
    assert CloneOk(cfg, c, s.clones[c], s.objects, s.made, s.nextId);
    CopyInsertedOk(cfg, c, s.clones[c], copy, pos, at, s);
    InsertCopyFrame(s, c, copy, pos, at);
    LiftArchive(cfg, s, InsertCopy(s, c, copy, pos, at), c, WithCopy(s.clones[c], copy, pos, at, s.nextId));
  }

  /** The clone with the copy turned into a row. */
  function WithCopy(k: Clone, copy: Copy, pos: nat, at: int, id: nat): (k': Clone)
    requires pos <= |k.rows|
  {
    k.(copies := k.copies - {copy}, rows := InsertAt(k.rows, pos, ResurrectedRow(id, copy, at)))
  }

  lemma InsertCopyFrame(s: State, c: nat, copy: Copy, pos: nat, at: int)
    requires c in s.clones && pos <= |s.clones[c].rows|
    ensures InsertCopy(s, c, copy, pos, at)
            == Put(s, c, WithCopy(s.clones[c], copy, pos, at, s.nextId)).(nextId := s.nextId + 1)
  {
  }

  lemma CopyInsertedOk(cfg: Config, c: nat, k: Clone, copy: Copy, pos: nat, at: int, s: State)
    requires ArchiveOk(cfg, c, k, s.objects, s.made, s.nextId) && copy in k.copies
    requires RanksAt(k.rows, pos, copy.row.periodEnd)
    ensures ArchiveOk(cfg, c, WithCopy(k, copy, pos, at, s.nextId), s.objects, s.made, s.nextId + 1)
  {
    CopyTakenOk(cfg, c, k, copy, s);
    RowInsertedOk(cfg, c, k.(copies := k.copies - {copy}), pos, ResurrectedRow(s.nextId, copy, at), s);
  }

  /** Deleting a condemned object touches no reserved one and not the newest row's. */
  lemma CondemnedDeletedOk(cfg: Config, c: nat, k: Clone, g: nat, s: State)
    requires ArchiveOk(cfg, c, k, s.objects, s.made, s.nextId)
    requires g in k.rollups && k.rollups[g].Pruning? && k.rollups[g].done < |k.rollups[g].stale|
    ensures OwnedBy(NextStale(k.rollups[g]).key, c)
    ensures ArchiveOk(cfg, c, k, s.objects - {NextStale(k.rollups[g]).key}, s.made, s.nextId)
  {
    var x := NextStale(k.rollups[g]);
    var objects := s.objects - {x.key};
    assert RollupOk(cfg, c, k, k.rollups[g], s.objects, s.made, s.nextId);
    assert Condemned(c, x, k.rows, s.made, s.nextId) && x.key in Doomed(k.rollups[g]);
    forall key | Reserved(c, key, k, s.objects, s.made)
      ensures Reserved(c, key, k, objects, s.made)
    {
    }
    forall h | h in k.rollups
      ensures RollupOk(cfg, c, k, k.rollups[h], objects, s.made, s.nextId)
    {
      assert RollupOk(cfg, c, k, k.rollups[h], s.objects, s.made, s.nextId);
    }
  }

  lemma CountedOk(cfg: Config, c: nat, k: Clone, g: nat, s: State)
    requires ArchiveOk(cfg, c, k, s.objects, s.made, s.nextId)
    requires g in k.rollups && k.rollups[g].Pruning? && k.rollups[g].done < |k.rollups[g].stale|
    ensures ArchiveOk(cfg, c, DeletedNext(k, g), s.objects, s.made, s.nextId)
  {
    var k' := DeletedNext(k, g);
    SameReserved(c, k, k', s.objects, s.made);
    forall h | h in k'.rollups
      ensures RollupOk(cfg, c, k', k'.rollups[h], s.objects, s.made, s.nextId)
    {
      assert RollupOk(cfg, c, k, k.rollups[h], s.objects, s.made, s.nextId);
    }
  }

  lemma PruneObjectOk(cfg: Config, s: State, c: nat, g: nat)
    requires Inv(cfg, s) && c in s.clones && g in s.clones[c].rollups && s.clones[c].rollups[g].Pruning?
    requires s.clones[c].rollups[g].done < |s.clones[c].rollups[g].stale|
    ensures Inv(cfg, Put(s, c, DeletedNext(s.clones[c], g))
                       .(objects := s.objects - {NextStale(s.clones[c].rollups[g]).key}))
  {
    var k, key := s.clones[c], NextStale(s.clones[c].rollups[g]).key;
    assert CloneOk(cfg, c, k, s.objects, s.made, s.nextId);
    CondemnedDeletedOk(cfg, c, k, g, s);
    CountedOk(cfg, c, k, g, s.(objects := s.objects - {key}));
    LiftArchive(cfg, s, Put(s, c, DeletedNext(k, g)).(objects := s.objects - {key}), c, DeletedNext(k, g));
  }

  lemma BeginScheduledOk(cfg: Config, s: State, c: nat, g: nat, r: nat)
    requires Inv(cfg, s) && c in s.clones && r in s.runs && c in s.runs[r].due
    requires g !in s.clones[c].rollups
    ensures Inv(cfg, BeginScheduled(s, c, g, r))
  {
    var run := s.runs[r];
    StartedOk(cfg, c, s.clones[c], g, run.now, run.due[c].tier, Some(run.due[c].seen), s);
    LiftArchive(cfg, s, BeginScheduled(s, c, g, r), c, BeginScheduled(s, c, g, r).clones[c]);
  }

  lemma MoreCandidatesOk(cfg: Config, c: nat, k: Clone, x: Candidate, s: State)
    requires ArchiveOk(cfg, c, k, s.objects, s.made, s.nextId)
    requires x.row.key in s.made && |s.made[x.row.key]| == x.row.entryCount
    ensures ArchiveOk(cfg, c, k.(candidates := k.candidates + {x}), s.objects, s.made, s.nextId)
  {
    var k' := k.(candidates := k.candidates + {x});
    SameReserved(c, k, k', s.objects, s.made);
    forall g | g in k'.rollups
      ensures RollupOk(cfg, c, k', k'.rollups[g], s.objects, s.made, s.nextId)
    {
      assert RollupOk(cfg, c, k, k.rollups[g], s.objects, s.made, s.nextId);
    }
  }

  lemma ReadNewestOk(cfg: Config, s: State, c: nat, source: nat)
    requires Inv(cfg, s) && c in s.clones && source in s.clones && s.clones[source].rows != []
    ensures Inv(cfg, ReadNewest(s, c, source))
  {
    var k, row := s.clones[c], s.clones[source].rows[0];
    assert CloneOk(cfg, source, s.clones[source], s.objects, s.made, s.nextId);
    assert CloneOk(cfg, c, k, s.objects, s.made, s.nextId);
    assert Backs(source, row, s.made, s.nextId);
    var k' := k.(candidates := k.candidates + {Candidate(row, k.tier)});
    MoreCandidatesOk(cfg, c, k, Candidate(row, k.tier), s);
    LiftArchive(cfg, s, ReadNewest(s, c, source), c, k');
  }

  lemma UploadStepOk(cfg: Config, s: State, step: Step)
    requires cfg.Valid() && Inv(cfg, s) && step.RollupUpload?
    requires step.c in s.clones && EnabledShared(cfg, s, s.clones[step.c], step)
    ensures Inv(cfg, ApplyShared(cfg, s, step))
  {
    UploadOk(cfg, s, step.c, step.g, step.stamp, step.suffix);
  }

  lemma CommitFrame(cfg: Config, s: State, step: Step)
    requires step.RollupCommit?
    requires step.c in s.clones && EnabledShared(cfg, s, s.clones[step.c], step)
    ensures var k := s.clones[step.c];
      && step.g in k.rollups && k.rollups[step.g].Uploaded?
      && RanksAt(k.rows, step.pos, k.rollups[step.g].job.now)
      && Payload(cfg, Some(k.rollups[step.g].job.row)) != []
      && ApplyShared(cfg, s, step)
         == Put(s, step.c, CommitRollup(cfg, k, step.g, step.pos, s.nextId)).(nextId := s.nextId + 1)
  {
  }

  lemma CommitStepOk(cfg: Config, s: State, step: Step)
    requires Inv(cfg, s) && step.RollupCommit?
    requires step.c in s.clones && EnabledShared(cfg, s, s.clones[step.c], step)
    ensures Inv(cfg, ApplyShared(cfg, s, step))
  {
    CommitFrame(cfg, s, step);
    RollupCommitOk(cfg, s, step.c, step.g, step.pos);
  }

  lemma DeleteStepOk(cfg: Config, s: State, step: Step)
    requires Inv(cfg, s) && step.PruneObject?
    requires step.c in s.clones && EnabledShared(cfg, s, s.clones[step.c], step)
    ensures Inv(cfg, ApplyShared(cfg, s, step))
  {
    PruneObjectOk(cfg, s, step.c, step.g);
  }

  lemma ResurrectStepOk(cfg: Config, s: State, step: Step)
    requires Inv(cfg, s)
    requires step.ResurrectRead? || step.ResurrectCopy? || step.ResurrectCommit?
    requires step.c in s.clones && EnabledShared(cfg, s, s.clones[step.c], step)
    ensures Inv(cfg, ApplyShared(cfg, s, step))
  {
    if step.ResurrectRead? {
      ReadNewestOk(cfg, s, step.c, step.source);
    } else if step.ResurrectCopy? {
      CopyObjectOk(cfg, s, step.c, step.candidate, step.stamp, step.suffix);
    } else {
      InsertCopyOk(cfg, s, step.c, step.copy, step.pos, step.at);
    }
  }

  lemma LocalStepOk(cfg: Config, s: State, step: Step)
    requires cfg.Valid() && Inv(cfg, s) && IsLocal(step) && step.c in s.clones
    requires LocallyEnabled(cfg, s.clones[step.c], step)
    ensures Inv(cfg, Put(s, step.c, ApplyLocal(cfg, s.clones[step.c], step)))
  {
    var k' := ApplyLocal(cfg, s.clones[step.c], step);
    LocalOk(cfg, step.c, s.clones[step.c], step, s);
    Lift(cfg, s, Put(s, step.c, k'), step.c, k');
  }

  /** One step from any state with the invariant leads to a state with the invariant. */
  lemma StepKeepsInv(cfg: Config, s: State, step: Step)
    requires cfg.Valid() && Inv(cfg, s) && Enabled(cfg, s, step)
    ensures Inv(cfg, Apply(cfg, s, step))
  {
    if step.RunBegin? || step.RunEnd? {
    } else if IsLocal(step) {
      LocalStepOk(cfg, s, step);
    } else if step.RollupScheduled? {
      BeginScheduledOk(cfg, s, step.c, step.g, step.run);
    } else if step.ResurrectRead? || step.ResurrectCopy? || step.ResurrectCommit? {
      ResurrectStepOk(cfg, s, step);
    } else if step.RollupUpload? {
      UploadStepOk(cfg, s, step);
    } else if step.RollupCommit? {
      CommitStepOk(cfg, s, step);
    } else {
      DeleteStepOk(cfg, s, step);
    }
  }

  // ----- what any step leaves as it was -----

  predicate On(step: Step, c: nat) {
    !step.RunBegin? && !step.RunEnd? && step.c == c
  }

  lemma SharedStepGrows(cfg: Config, s: State, step: Step)
    requires !step.RunBegin? && !step.RunEnd? && step.c in s.clones
    requires EnabledShared(cfg, s, s.clones[step.c], step)
    ensures var s' := ApplyShared(cfg, s, step);
      && Grows(s.made, s'.made) && s.nextId <= s'.nextId && s'.clones.Keys == s.clones.Keys
      && (forall c :: c in s.clones && c != step.c ==> s'.clones[c] == s.clones[c])
  {
  }

  lemma PutGrows(s: State, c: nat, k: Clone)
    requires c in s.clones
    ensures var s' := Put(s, c, k);
      && s'.made == s.made && s'.nextId == s.nextId && s'.clones.Keys == s.clones.Keys
      && (forall d :: d in s.clones && d != c ==> s'.clones[d] == s.clones[d])
  {
    assert s.clones[c := k].Keys == s.clones.Keys;
  }

  lemma StepGrows(cfg: Config, s: State, step: Step)
    requires Enabled(cfg, s, step)
    ensures Grows(s.made, Apply(cfg, s, step).made) && s.nextId <= Apply(cfg, s, step).nextId
    ensures Apply(cfg, s, step).clones.Keys == s.clones.Keys
    ensures forall c :: c in s.clones && !On(step, c) ==> Apply(cfg, s, step).clones[c] == s.clones[c]
  {
    if !step.RunBegin? && !step.RunEnd? {
      if IsLocal(step) {
        PutGrows(s, step.c, ApplyLocal(cfg, s.clones[step.c], step));
      } else {
        SharedStepGrows(cfg, s, step);
      }
    }
  }

  lemma FlushFrame(cfg: Config, k: Clone, step: Step)
    requires IsFlush(step) && FlushEnabled(cfg, k, step)
    ensures var k' := ApplyFlush(cfg, k, step);
      && k'.candidates == k.candidates && k'.copies == k.copies && k'.rolled == k.rolled && k'.slots == k.slots
      && k'.createdAt == k.createdAt && k'.rows == k.rows && k'.rollups == k.rollups
  {
  }

  /** What no local step touches, and what only two of them do. */
  lemma LocalFrame(cfg: Config, k: Clone, step: Step)
    requires IsLocal(step) && LocallyEnabled(cfg, k, step)
    ensures var k' := ApplyLocal(cfg, k, step);
      && k'.candidates == k.candidates && k'.copies == k.copies && k'.rolled == k.rolled && k'.slots == k.slots
      && k'.createdAt == k.createdAt && (!step.PruneRows? && !step.Restore? ==> k'.rows == k.rows)
  {
    if IsFlush(step) {
      FlushFrame(cfg, k, step);
    }
  }

  /** What the shared steps leave of the clone's own data; only a commit deletes its buffer row. */
  lemma SharedFrame(cfg: Config, s: State, step: Step)
    requires !step.RunBegin? && !step.RunEnd? && step.c in s.clones && EnabledShared(cfg, s, s.clones[step.c], step)
    ensures step.c in ApplyShared(cfg, s, step).clones
    ensures var k, k' := s.clones[step.c], ApplyShared(cfg, s, step).clones[step.c];
      && k'.stream == k.stream && k'.flushes == k.flushes && k'.history == k.history
      && (!step.RollupCommit? ==> k'.buffer == k.buffer && k'.rolled == k.rolled && k'.slots == k.slots)
  {
  }

  // ----- runs -----

  lemma {:induction false} RunKeepsInv(cfg: Config, s: State, steps: seq<Step>)
    requires cfg.Valid() && Inv(cfg, s) && Legal(cfg, s, steps)
    ensures Inv(cfg, Exec(cfg, s, steps))
    decreases |steps|
  {
    if steps != [] {
      StepKeepsInv(cfg, s, steps[0]);
      RunKeepsInv(cfg, Apply(cfg, s, steps[0]), steps[1..]);
    }
  }

  lemma StartInv(cfg: Config, s: State)
    requires Start(s)
    ensures Inv(cfg, s)
  {
    forall c | c in s.clones
      ensures CloneOk(cfg, c, s.clones[c], s.objects, s.made, s.nextId)
    {
      assert Fresh(s.clones[c]);
    }
  }

  lemma ReachableInv(cfg: Config, s: State, steps: seq<Step>)
    requires cfg.Valid() && Start(s) && Legal(cfg, s, steps)
    ensures Inv(cfg, Exec(cfg, s, steps))
  {
    StartInv(cfg, s);
    RunKeepsInv(cfg, s, steps);
  }
}
