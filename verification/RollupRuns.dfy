/** rollup_clone on the stores is a run of the machine, wherever it stops; what holds over every run
    of the machine therefore holds of the code. */
module RollupRuns {
  import opened Wrappers
  import opened BackupCodec
  import opened ObjectStorage
  import opened Retention
  import opened Machine
  import opened Invariant
  import opened Pipeline

  predicate Reaches(cfg: Config, s: State, steps: seq<Step>, s': State) {
    Legal(cfg, s, steps) && Exec(cfg, s, steps) == s'
  }

  predicate Steps(cfg: Config, s: State, step: Step, s': State) {
    Enabled(cfg, s, step) && Apply(cfg, s, step) == s'
  }

  lemma Extend(cfg: Config, s: State, steps: seq<Step>, s1: State, step: Step, s2: State)
    requires Reaches(cfg, s, steps, s1) && Steps(cfg, s1, step, s2)
    ensures Reaches(cfg, s, steps + [step], s2)
  {
    assert [step][1..] == [];
    assert Legal(cfg, s2, []) && Exec(cfg, s2, []) == s2;
    ExecConcat(cfg, s, steps, [step]);
  }

  // ----- the steps, each from the state it finds -----

  /** The state with the task in slot g of the clone. */
  function With(s: State, c: nat, g: nat, task: RollupTask): (s': State)
    requires c in s.clones
  {
    Put(s, c, SetRollup(s.clones[c], g, task))
  }

  predicate Free(s: State, c: nat, g: nat) {
    c in s.clones && g !in s.clones[c].rollups
  }

  lemma SetTwice(k: Clone, g: nat, a: RollupTask, b: RollupTask)
    ensures SetRollup(SetRollup(k, g, a), g, b) == SetRollup(k, g, b)
  {
    assert k.rollups[g := a][g := b] == k.rollups[g := b];
  }

  lemma SetAndEnd(k: Clone, g: nat, task: RollupTask)
    requires g !in k.rollups
    ensures EndRollup(SetRollup(k, g, task), g) == k
  {
    assert k.rollups[g := task] - {g} == k.rollups;
  }

  lemma PutAgain(s: State, c: nat, k: Clone, k': Clone)
    ensures Put(Put(s, c, k), c, k') == Put(s, c, k')
  {
    assert s.clones[c := k][c := k'] == s.clones[c := k'];
  }

  lemma PutSame(s: State, c: nat)
    requires c in s.clones
    ensures Put(s, c, s.clones[c]) == s
  {
    assert s.clones[c := s.clones[c]] == s.clones;
  }

  lemma UploadStep(cfg: Config, s: State, c: nat, g: nat, stamp: string, suffix: string)
    requires c in s.clones && g in s.clones[c].rollups && s.clones[c].rollups[g].RollingUp?
    requires BackupKey(c, stamp, suffix) !in s.made
    ensures Steps(cfg, s, RollupUpload(c, g, stamp, suffix), Upload(cfg, s, c, g, BackupKey(c, stamp, suffix)))
  {
  }

  function Committed(cfg: Config, s: State, c: nat, g: nat, pos: nat): (s': State)
    requires c in s.clones && g in s.clones[c].rollups && s.clones[c].rollups[g].Uploaded? && pos <= |s.clones[c].rows|
    requires Payload(cfg, Some(s.clones[c].rollups[g].job.row)) != []
  {
    Put(s, c, CommitRollup(cfg, s.clones[c], g, pos, s.nextId)).(nextId := s.nextId + 1)
  }

  lemma CommitStep(cfg: Config, s: State, c: nat, g: nat, pos: nat)
    requires c in s.clones && g in s.clones[c].rollups && s.clones[c].rollups[g].Uploaded?
    requires RanksAt(s.clones[c].rows, pos, s.clones[c].rollups[g].job.now)
    requires Payload(cfg, Some(s.clones[c].rollups[g].job.row)) != []
    ensures Steps(cfg, s, Step.RollupCommit(c, g, pos), Committed(cfg, s, c, g, pos))
  {
  }

  lemma DieStep(cfg: Config, s: State, c: nat, g: nat, task: RollupTask)
    requires Free(s, c, g)
    ensures Steps(cfg, With(s, c, g, task), RollupDies(c, g), s)
  {
    SetAndEnd(s.clones[c], g, task);
    PutAgain(s, c, SetRollup(s.clones[c], g, task), s.clones[c]);
    PutSame(s, c);
  }

  /** The state after the ranking query, when it finds something. */
  function Selected(s: State, c: nat, g: nat): (s': State)
    requires c in s.clones
  {
    var rows := s.clones[c].rows;
    if StaleRows(rows) == [] then s else With(s, c, g, Pruning(rows, StaleRows(rows), 0))
  }

  lemma SelectStep(cfg: Config, s: State, c: nat, g: nat)
    requires Free(s, c, g)
    ensures Steps(cfg, With(s, c, g, Stored), PruneSelect(c, g), Selected(s, c, g))
  {
    var k := s.clones[c];
    SetAndEnd(k, g, Stored);
    SetTwice(k, g, Stored, Pruning(k.rows, StaleRows(k.rows), 0));
    PutAgain(s, c, SetRollup(k, g, Stored), SelectStale(SetRollup(k, g, Stored), g));
    PutSame(s, c);
  }

  /** The state with `n` of the selected objects deleted. */
  function Deleted(s: State, c: nat, g: nat, stale: Rows, n: nat): (s': State)
    requires c in s.clones && n <= |stale|
  {
    With(s, c, g, Pruning(s.clones[c].rows, stale, n)).(objects := s.objects - KeysOf(stale[..n]))
  }

  lemma RowsStep(cfg: Config, s: State, c: nat, g: nat, stale: Rows)
    requires Free(s, c, g)
    ensures var k := s.clones[c];
      Steps(cfg, Deleted(s, c, g, stale, |stale|), PruneRows(c, g),
            Put(s, c, k.(rows := Without(k.rows, Ids(stale)))).(objects := s.objects - KeysOf(stale)))
  {
    var k, task := s.clones[c], Pruning(s.clones[c].rows, stale, |stale|);
    SetAndEnd(k, g, task);
    assert stale[..|stale|] == stale;
    PutAgain(s, c, SetRollup(k, g, task), k.(rows := Without(k.rows, Ids(stale))));
  }

  lemma DeleteStep(cfg: Config, s: State, c: nat, g: nat, stale: Rows, n: nat)
    requires c in s.clones && n < |stale|
    ensures Steps(cfg, Deleted(s, c, g, stale, n), PruneObject(c, g), Deleted(s, c, g, stale, n + 1))
  {
    var at, k := Deleted(s, c, g, stale, n), s.clones[c];
    assert KeysOf(stale[..n + 1]) == KeysOf(stale[..n]) + {stale[n].key};
    assert at.objects - {stale[n].key} == s.objects - KeysOf(stale[..n + 1]);
    SetTwice(k, g, Pruning(k.rows, stale, n), Pruning(k.rows, stale, n + 1));
    PutAgain(s, c, at.clones[c], DeletedNext(at.clones[c], g));
  }

  function Deletes(c: nat, g: nat, n: nat): (steps: seq<Step>) {
    if n == 0 then [] else Deletes(c, g, n - 1) + [PruneObject(c, g)]
  }

  lemma {:induction false} DeletesRun(cfg: Config, s0: State, steps: seq<Step>, s: State, c: nat, g: nat, stale: Rows,
                                      n: nat)
    requires c in s.clones && n <= |stale| && Reaches(cfg, s0, steps, Deleted(s, c, g, stale, 0))
    ensures Reaches(cfg, s0, steps + Deletes(c, g, n), Deleted(s, c, g, stale, n))
  {
    if n == 0 {
      assert steps + [] == steps;
    } else {
      DeletesRun(cfg, s0, steps, s, c, g, stale, n - 1);
      OneMore(cfg, s0, steps + Deletes(c, g, n - 1), s, c, g, stale, n - 1);
      assert steps + Deletes(c, g, n - 1) + [PruneObject(c, g)] == steps + Deletes(c, g, n);
    }
  }

  lemma OneMore(cfg: Config, s0: State, steps: seq<Step>, s: State, c: nat, g: nat, stale: Rows, n: nat)
    requires c in s.clones && n < |stale| && Reaches(cfg, s0, steps, Deleted(s, c, g, stale, n))
    ensures Reaches(cfg, s0, steps + [PruneObject(c, g)], Deleted(s, c, g, stale, n + 1))
  {
    DeleteStep(cfg, s, c, g, stale, n);
    Extend(cfg, s0, steps, Deleted(s, c, g, stale, n), PruneObject(c, g), Deleted(s, c, g, stale, n + 1));
  }

  // ----- the rollup -----

  /** A rollup in a free slot, forced now on the clone's own tier, or one of a scheduled run. */
  predicate Starts(s: State, c: nat, first: Step, t: Ticket)
    requires c in s.clones
  {
    || (first.RollupForced? && first.c == c && first.g !in s.clones[c].rollups
        && first.now == t.now && t.tier == s.clones[c].tier)
    || (first.RollupScheduled? && first.c == c && first.g !in s.clones[c].rollups
        && first.run in s.runs && c in s.runs[first.run].due
        && t.now == s.runs[first.run].now && t.tier == s.runs[first.run].due[c].tier)
  }

  function Begun(s: State, c: nat, first: Step, t: Ticket): (s': State)
    requires c in s.clones && Starts(s, c, first, t)
  {
    if first.RollupForced? then Put(s, c, StartRollup(s.clones[c], first.g, t.now, t.tier, None))
    else BeginScheduled(s, c, first.g, first.run)
  }

  /** How many scheduled rollups were committed when the clone was listed. */
  function SeenBy(s: State, c: nat, first: Step, t: Ticket): (seen: Option<nat>)
    requires c in s.clones && Starts(s, c, first, t)
  {
    if first.RollupForced? then None else Some(s.runs[first.run].due[c].seen)
  }

  /** The runs after the first step: a scheduled rollup takes the clone off its run's list. */
  function RunsBegun(s: State, c: nat, first: Step, t: Ticket): (runs: map<nat, Run>)
    requires c in s.clones && Starts(s, c, first, t)
  {
    Begun(s, c, first, t).runs
  }

  lemma BeginStep(cfg: Config, s: State, c: nat, first: Step, t: Ticket)
    requires c in s.clones && Starts(s, c, first, t)
    ensures Steps(cfg, s, first, Begun(s, c, first, t))
    ensures HasBuffer(s.clones[c]) ==>
              Begun(s, c, first, t)
              == With(s, c, first.g, RollingUp(Job(t.now, t.tier, s.clones[c].buffer.value, SeenBy(s, c, first, t))))
                   .(runs := RunsBegun(s, c, first, t))
    ensures !HasBuffer(s.clones[c]) ==> Begun(s, c, first, t) == s.(runs := RunsBegun(s, c, first, t))
  {
    PutSame(s, c);
  }

  /** The steps of the prune over `n` stale rows. */
  function PruneSteps(c: nat, g: nat, n: nat, stop: Stop): (steps: seq<Step>) {
    if n == 0 then []
    else if stop.DeleteFails? && stop.at < n then Deletes(c, g, stop.at) + [RollupDies(c, g)]
    else if stop.LastCommitFails? then Deletes(c, g, n) + [RollupDies(c, g)]
    else Deletes(c, g, n) + [PruneRows(c, g)]
  }

  /** The clone after the rollup: its tables as rollup_clone leaves them, a commit recorded, the rest
      as it was. */
  function RolledUpClone(s: State, c: nat, first: Step, t: Ticket, o: RolledUp, committed: bool): (k': Clone)
    requires c in s.clones && Starts(s, c, first, t)
  {
    var k := s.clones[c];
    k.(buffer := o.row, rows := o.rows,
       rolled := if committed then k.rolled + [t.key] else k.rolled,
       slots := if committed && first.RollupScheduled?
                then k.slots + [Slot(t.now, t.tier, s.runs[first.run].due[c].seen)] else k.slots)
  }

  /** Bucket and id sequence as rollup_clone leaves them, the clone as above, all else but the run's
      own list as it was: other rollups, flushes and requests in progress among it. */
  predicate ShowsOutcome(s: State, s': State, c: nat, first: Step, t: Ticket, o: RolledUp, committed: bool,
                         made: map<Key, seq<Entry>>)
    requires c in s.clones && Starts(s, c, first, t)
  {
    && s'.clones == s.clones[c := RolledUpClone(s, c, first, t, o, committed)]
    && s'.objects == o.objects && s'.nextId == o.nextId && s'.made == made && s'.runs == RunsBegun(s, c, first, t)
  }

  /** From the committed row on. */
  lemma PruneIsARun(cfg: Config, s0: State, steps: seq<Step>, s: State, c: nat, g: nat, stop: Stop)
    requires Free(s, c, g) && Reaches(cfg, s0, steps, With(s, c, g, Stored)) && DistinctIds(s.clones[c].rows)
    ensures var rows := s.clones[c].rows;
      var all := steps + [PruneSelect(c, g)] + PruneSteps(c, g, |StaleRows(rows)|, stop);
      var o := PruneOutcome(rows, s.objects, stop);
      Reaches(cfg, s0, all, Put(s, c, s.clones[c].(rows := o.rows)).(objects := o.objects))
  {
    var k := s.clones[c];
    var stale := StaleRows(k.rows);
    var selected := steps + [PruneSelect(c, g)];
    SelectStep(cfg, s, c, g);
    Extend(cfg, s0, steps, With(s, c, g, Stored), PruneSelect(c, g), Selected(s, c, g));
    if stale == [] {
      NothingStale(k.rows, s.objects);
      PutSame(s, c);
      assert selected + [] == selected;
    } else {
      DeletedNone(s, c, g, stale);
      PruneDeletes(cfg, s0, selected, s, c, g, stop);
    }
  }

  lemma NothingStale(rows: Rows, objects: map<Key, Bytes>)
    requires StaleRows(rows) == [] && DistinctIds(rows)
    ensures Retention.Prune(rows) == rows && objects - KeysOf([]) == objects
  {
    DeleteStaleIsPrune(rows);
    assert Ids([]) == {};
    WithoutNothing(rows);
  }

  lemma {:induction false} WithoutNothing(rows: Rows)
    ensures Without(rows, {}) == rows
  {
    if rows != [] {
      WithoutNothing(rows[1..]);
    }
  }

  lemma DeletedNone(s: State, c: nat, g: nat, stale: Rows)
    requires c in s.clones && stale == StaleRows(s.clones[c].rows) && stale != []
    ensures Deleted(s, c, g, stale, 0) == Selected(s, c, g)
  {
    assert KeysOf(stale[..0]) == {};
    assert s.objects - {} == s.objects;
  }

  lemma PruneDies(cfg: Config, s0: State, steps: seq<Step>, s: State, c: nat, g: nat, stale: Rows, n: nat)
    requires Free(s, c, g) && n <= |stale| && Reaches(cfg, s0, steps, Deleted(s, c, g, stale, 0))
    ensures Reaches(cfg, s0, steps + Deletes(c, g, n) + [RollupDies(c, g)],
                    s.(objects := s.objects - KeysOf(stale[..n])))
  {
    var dead := s.(objects := s.objects - KeysOf(stale[..n]));
    DeletesRun(cfg, s0, steps, s, c, g, stale, n);
    DieStep(cfg, dead, c, g, Pruning(s.clones[c].rows, stale, n));
    Extend(cfg, s0, steps + Deletes(c, g, n), Deleted(s, c, g, stale, n), RollupDies(c, g), dead);
  }

  lemma PruneFinishes(cfg: Config, s0: State, steps: seq<Step>, s: State, c: nat, g: nat, stale: Rows)
    requires Free(s, c, g) && Reaches(cfg, s0, steps, Deleted(s, c, g, stale, 0))
    ensures var k := s.clones[c];
      Reaches(cfg, s0, steps + Deletes(c, g, |stale|) + [PruneRows(c, g)],
              Put(s, c, k.(rows := Without(k.rows, Ids(stale)))).(objects := s.objects - KeysOf(stale)))
  {
    var n, k := |stale|, s.clones[c];
    DeletesRun(cfg, s0, steps, s, c, g, stale, n);
    RowsStep(cfg, s, c, g, stale);
    Extend(cfg, s0, steps + Deletes(c, g, n), Deleted(s, c, g, stale, n), PruneRows(c, g),
           Put(s, c, k.(rows := Without(k.rows, Ids(stale)))).(objects := s.objects - KeysOf(stale)));
  }

  lemma PruneDeletes(cfg: Config, s0: State, steps: seq<Step>, s: State, c: nat, g: nat, stop: Stop)
    requires Free(s, c, g) && DistinctIds(s.clones[c].rows) && StaleRows(s.clones[c].rows) != []
    requires Reaches(cfg, s0, steps, Deleted(s, c, g, StaleRows(s.clones[c].rows), 0))
    ensures var rows := s.clones[c].rows;
      var o := PruneOutcome(rows, s.objects, stop);
      Reaches(cfg, s0, steps + PruneSteps(c, g, |StaleRows(rows)|, stop),
              Put(s, c, s.clones[c].(rows := o.rows)).(objects := o.objects))
  {
    var k := s.clones[c];
    var stale := StaleRows(k.rows);
    var n := |stale|;
    PutSame(s, c);
    if stop.DeleteFails? && stop.at < n {
      PruneDies(cfg, s0, steps, s, c, g, stale, stop.at);
      assert steps + Deletes(c, g, stop.at) + [RollupDies(c, g)] == steps + PruneSteps(c, g, n, stop);
    } else if stop.LastCommitFails? {
      PruneDies(cfg, s0, steps, s, c, g, stale, n);
      assert stale[..n] == stale;
      assert steps + Deletes(c, g, n) + [RollupDies(c, g)] == steps + PruneSteps(c, g, n, stop);
    } else {
      PruneFinishes(cfg, s0, steps, s, c, g, stale);
      DeleteStaleIsPrune(k.rows);
      assert steps + Deletes(c, g, n) + [PruneRows(c, g)] == steps + PruneSteps(c, g, n, stop);
    }
  }

  /** The steps up to the commit. */
  function CommitSteps(c: nat, first: Step, stamp: string, suffix: string, pos: nat): (steps: seq<Step>)
    requires first.RollupForced? || first.RollupScheduled?
  {
    [first, RollupUpload(c, first.g, stamp, suffix), Step.RollupCommit(c, first.g, pos)]
  }

  /** The whole rollup, from its first read. */
  function RollupSteps(c: nat, first: Step, stamp: string, suffix: string, pos: nat, stale: nat, stop: Stop)
    : (steps: seq<Step>)
    requires first.RollupForced? || first.RollupScheduled?
  {
    if stop.PutFails? then [first, RollupDies(c, first.g)]
    else if stop.InsertFails? then [first, RollupUpload(c, first.g, stamp, suffix), RollupDies(c, first.g)]
    else CommitSteps(c, first, stamp, suffix, pos) + [PruneSelect(c, first.g)] + PruneSteps(c, first.g, stale, stop)
  }

  lemma BeginRun(cfg: Config, s: State, c: nat, first: Step, t: Ticket)
    requires c in s.clones && Starts(s, c, first, t)
    ensures Reaches(cfg, s, [first], Begun(s, c, first, t))
  {
    BeginStep(cfg, s, c, first, t);
    assert Legal(cfg, s, []) && Exec(cfg, s, []) == s;
    Extend(cfg, s, [], s, first, Begun(s, c, first, t));
    assert [] + [first] == [first];
  }

  /** The state with the object put, apart from the slot. */
  function ObjectPut(cfg: Config, s: State, c: nat, first: Step, t: Ticket): (s': State)
    requires c in s.clones && Starts(s, c, first, t) && HasBuffer(s.clones[c])
  {
    s.(objects := s.objects[t.key := s.clones[c].buffer.value.blob],
       made := s.made[t.key := Payload(cfg, s.clones[c].buffer)], runs := RunsBegun(s, c, first, t))
  }

  function JobOf(s: State, c: nat, first: Step, t: Ticket): (job: Job)
    requires c in s.clones && Starts(s, c, first, t) && HasBuffer(s.clones[c])
  {
    Job(t.now, t.tier, s.clones[c].buffer.value, SeenBy(s, c, first, t))
  }

  lemma UploadRun(cfg: Config, s: State, c: nat, first: Step, stamp: string, suffix: string, t: Ticket)
    requires c in s.clones && HasBuffer(s.clones[c]) && Starts(s, c, first, t)
    requires t.key == BackupKey(c, stamp, suffix) && t.key !in s.made
    ensures Reaches(cfg, s, [first, RollupUpload(c, first.g, stamp, suffix)],
                    With(ObjectPut(cfg, s, c, first, t), c, first.g, Uploaded(JobOf(s, c, first, t), t.key)))
  {
    var begun, g := Begun(s, c, first, t), first.g;
    var job := JobOf(s, c, first, t);
    BeginRun(cfg, s, c, first, t);
    BeginStep(cfg, s, c, first, t);
    UploadStep(cfg, begun, c, g, stamp, suffix);
    SetTwice(s.clones[c], g, RollingUp(job), Uploaded(job, t.key));
    PutAgain(s, c, begun.clones[c], SetRollup(s.clones[c], g, Uploaded(job, t.key)));
    Extend(cfg, s, [first], begun, RollupUpload(c, g, stamp, suffix), Upload(cfg, begun, c, g, t.key));
    assert [first] + [RollupUpload(c, g, stamp, suffix)] == [first, RollupUpload(c, g, stamp, suffix)];
  }

  /** What the commit leaves for the prune, apart from the slot. */
  function AfterCommit(cfg: Config, s: State, c: nat, first: Step, t: Ticket): (s': State)
    requires c in s.clones && Starts(s, c, first, t) && HasBuffer(s.clones[c])
    requires Payload(cfg, s.clones[c].buffer) != [] && t.pos <= |s.clones[c].rows|
  {
    var k := s.clones[c];
    var rows := InsertAt(k.rows, t.pos, NewRow(cfg, Payload(cfg, k.buffer), k.buffer.value.count, s.nextId, t));
    var put := ObjectPut(cfg, s, c, first, t);
    var o := RolledUp(None, rows, put.objects, s.nextId + 1, Returned(Empty));
    Put(put, c, RolledUpClone(s, c, first, t, o, true)).(nextId := s.nextId + 1)
  }

  lemma CommittedClone(cfg: Config, s: State, c: nat, first: Step, t: Ticket)
    requires c in s.clones && Starts(s, c, first, t) && HasBuffer(s.clones[c])
    requires Payload(cfg, s.clones[c].buffer) != [] && t.pos <= |s.clones[c].rows|
    ensures var k, g := s.clones[c], first.g;
      CommitRollup(cfg, SetRollup(k, g, Uploaded(JobOf(s, c, first, t), t.key)), g, t.pos, s.nextId)
      == SetRollup(AfterCommit(cfg, s, c, first, t).clones[c], g, Stored)
  {
    SetTwice(s.clones[c], first.g, Uploaded(JobOf(s, c, first, t), t.key), Stored);
    assert s.clones[c].buffer == Some(s.clones[c].buffer.value);
  }

  /** The clone with its buffer row turned into a backup row. */
  lemma CommitRun(cfg: Config, s: State, c: nat, first: Step, stamp: string, suffix: string, t: Ticket)
    requires CanRollUp(cfg, s, c, first, stamp, suffix, t)
    ensures Reaches(cfg, s, CommitSteps(c, first, stamp, suffix, t.pos),
                    With(AfterCommit(cfg, s, c, first, t), c, first.g, Stored))
  {
    var g, put := first.g, ObjectPut(cfg, s, c, first, t);
    var uploaded := With(put, c, g, Uploaded(JobOf(s, c, first, t), t.key));
    assert s.clones[c].buffer == Some(s.clones[c].buffer.value);
    UploadRun(cfg, s, c, first, stamp, suffix, t);
    CommitStep(cfg, uploaded, c, g, t.pos);
    CommittedClone(cfg, s, c, first, t);
    PutAgain(put, c, uploaded.clones[c], SetRollup(AfterCommit(cfg, s, c, first, t).clones[c], g, Stored));
    PutAgain(put, c, AfterCommit(cfg, s, c, first, t).clones[c],
             SetRollup(AfterCommit(cfg, s, c, first, t).clones[c], g, Stored));
    Extend(cfg, s, [first, RollupUpload(c, g, stamp, suffix)], uploaded, Step.RollupCommit(c, g, t.pos),
           With(AfterCommit(cfg, s, c, first, t), c, g, Stored));
    assert [first, RollupUpload(c, g, stamp, suffix)] + [Step.RollupCommit(c, g, t.pos)]
           == CommitSteps(c, first, stamp, suffix, t.pos);
  }

  lemma RollupAbandoned(cfg: Config, s: State, steps: seq<Step>, s1: State, c: nat, g: nat, task: RollupTask)
    requires Free(s1, c, g) && Reaches(cfg, s, steps, With(s1, c, g, task))
    ensures Reaches(cfg, s, steps + [RollupDies(c, g)], s1)
  {
    DieStep(cfg, s1, c, g, task);
    Extend(cfg, s, steps, With(s1, c, g, task), RollupDies(c, g), s1);
  }

  lemma RollupWithoutPut(cfg: Config, s: State, c: nat, first: Step, stamp: string, suffix: string, t: Ticket,
                         stop: Stop)
    requires CanRollUp(cfg, s, c, first, stamp, suffix, t) && stop.PutFails?
    ensures RollsUp(cfg, s, c, first, stamp, suffix, t, stop)
  {
    var read := s.(runs := RunsBegun(s, c, first, t));
    BeginRun(cfg, s, c, first, t);
    BeginStep(cfg, s, c, first, t);
    RollupAbandoned(cfg, s, [first], read, c, first.g, RollingUp(JobOf(s, c, first, t)));
    assert [first] + [RollupDies(c, first.g)] == [first, RollupDies(c, first.g)];
    PutSame(s, c);
    assert RunMatches(cfg, s, c, first, stamp, suffix, t, stop, 0);
  }

  lemma RollupWithoutInsert(cfg: Config, s: State, c: nat, first: Step, stamp: string, suffix: string, t: Ticket,
                            stop: Stop)
    requires CanRollUp(cfg, s, c, first, stamp, suffix, t) && stop.InsertFails?
    ensures RollsUp(cfg, s, c, first, stamp, suffix, t, stop)
  {
    var steps := [first, RollupUpload(c, first.g, stamp, suffix)];
    UploadRun(cfg, s, c, first, stamp, suffix, t);
    RollupAbandoned(cfg, s, steps, ObjectPut(cfg, s, c, first, t), c, first.g, Uploaded(JobOf(s, c, first, t), t.key));
    assert steps + [RollupDies(c, first.g)] == RollupSteps(c, first, stamp, suffix, t.pos, 0, stop);
    PutSame(s, c);
    assert RunMatches(cfg, s, c, first, stamp, suffix, t, stop, 0);
  }

  /** What the prune makes of it is the outcome. */
  lemma PrunedShows(cfg: Config, s: State, c: nat, first: Step, stamp: string, suffix: string, t: Ticket, stop: Stop)
    requires CanRollUp(cfg, s, c, first, stamp, suffix, t) && !stop.PutFails? && !stop.InsertFails?
    ensures var k, committed := s.clones[c], AfterCommit(cfg, s, c, first, t);
      var o := RollupOutcome(cfg, k.buffer, k.rows, s.objects, s.nextId, t, stop);
      var p := PruneOutcome(committed.clones[c].rows, committed.objects, stop);
      ShowsOutcome(s, Put(committed, c, committed.clones[c].(rows := p.rows)).(objects := p.objects), c, first, t, o,
                   true, s.made[t.key := Payload(cfg, k.buffer)])
  {
    var committed := AfterCommit(cfg, s, c, first, t);
    var p := PruneOutcome(committed.clones[c].rows, committed.objects, stop);
    PutAgain(s, c, committed.clones[c], committed.clones[c].(rows := p.rows));
  }

  lemma CommittedRollup(cfg: Config, s: State, c: nat, first: Step, stamp: string, suffix: string, t: Ticket,
                        stop: Stop)
    requires CanRollUp(cfg, s, c, first, stamp, suffix, t) && !stop.PutFails? && !stop.InsertFails?
    ensures RollsUp(cfg, s, c, first, stamp, suffix, t, stop)
  {
    var k, committed := s.clones[c], AfterCommit(cfg, s, c, first, t);
    CommitRun(cfg, s, c, first, stamp, suffix, t);
    InsertKeepsIds(k.rows, t.pos, NewRow(cfg, Payload(cfg, k.buffer), k.buffer.value.count, s.nextId, t));
    PruneIsARun(cfg, s, CommitSteps(c, first, stamp, suffix, t.pos), committed, c, first.g, stop);
    PrunedShows(cfg, s, c, first, stamp, suffix, t, stop);
    assert RunMatches(cfg, s, c, first, stamp, suffix, t, stop, |StaleRows(committed.clones[c].rows)|);
  }

  /** What rollup_clone finds: a slot, something to roll up, a fresh name. */
  ghost predicate CanRollUp(cfg: Config, s: State, c: nat, first: Step, stamp: string, suffix: string, t: Ticket) {
    && c in s.clones
    && var k := s.clones[c];
    && HasBuffer(k) && Payload(cfg, k.buffer) != [] && Starts(s, c, first, t)
    && t.key == BackupKey(c, stamp, suffix) && t.key !in s.made && RanksAt(k.rows, t.pos, t.now)
    && DistinctIds(k.rows) && forall i :: 0 <= i < |k.rows| ==> k.rows[i].id < s.nextId
  }

  /** The run with `stale` rows to prune leaves the stores as rollup_clone does. */
  ghost predicate RunMatches(cfg: Config, s: State, c: nat, first: Step, stamp: string, suffix: string, t: Ticket,
                             stop: Stop, stale: nat)
    requires CanRollUp(cfg, s, c, first, stamp, suffix, t)
  {
    var k := s.clones[c];
    var steps := RollupSteps(c, first, stamp, suffix, t.pos, stale, stop);
    var o := RollupOutcome(cfg, k.buffer, k.rows, s.objects, s.nextId, t, stop);
    var committed := !stop.PutFails? && !stop.InsertFails?;
    && Legal(cfg, s, steps)
    && ShowsOutcome(s, Exec(cfg, s, steps), c, first, t, o, committed,
                    if stop.PutFails? then s.made else s.made[t.key := Payload(cfg, k.buffer)])
  }

  ghost predicate RollsUp(cfg: Config, s: State, c: nat, first: Step, stamp: string, suffix: string, t: Ticket,
                          stop: Stop)
    requires CanRollUp(cfg, s, c, first, stamp, suffix, t)
  {
    exists stale: nat :: RunMatches(cfg, s, c, first, stamp, suffix, t, stop, stale)
  }

  /** The refinement: wherever rollup_clone stops, forced or scheduled, and whatever else of the clone
      is in progress, other rollups of it included; with nothing to roll up, the first step is the
      whole run. */
  lemma RollupIsARun(cfg: Config, s: State, c: nat, first: Step, stamp: string, suffix: string, t: Ticket, stop: Stop)
    requires cfg.Valid() && Inv(cfg, s) && c in s.clones
    requires Starts(s, c, first, t) && RanksAt(s.clones[c].rows, t.pos, t.now)
    requires t.key == BackupKey(c, stamp, suffix) && t.key !in s.made
    ensures HasBuffer(s.clones[c]) ==>
              CanRollUp(cfg, s, c, first, stamp, suffix, t) && RollsUp(cfg, s, c, first, stamp, suffix, t, stop)
    ensures !HasBuffer(s.clones[c]) ==>
      var k := s.clones[c];
      && Legal(cfg, s, [first])
      && ShowsOutcome(s, Exec(cfg, s, [first]), c, first, t,
                      RollupOutcome(cfg, k.buffer, k.rows, s.objects, s.nextId, t, stop), false, s.made)
  {
    if !HasBuffer(s.clones[c]) {
      EmptyRollup(cfg, s, c, first, t, stop);
    } else {
      ReadyToRollUp(cfg, s, c, first, stamp, suffix, t);
      ReadyRollup(cfg, s, c, first, stamp, suffix, t, stop);
    }
  }

  lemma ReadyRollup(cfg: Config, s: State, c: nat, first: Step, stamp: string, suffix: string, t: Ticket, stop: Stop)
    requires CanRollUp(cfg, s, c, first, stamp, suffix, t)
    ensures RollsUp(cfg, s, c, first, stamp, suffix, t, stop)
  {
    if stop.PutFails? {
      RollupWithoutPut(cfg, s, c, first, stamp, suffix, t, stop);
    } else if stop.InsertFails? {
      RollupWithoutInsert(cfg, s, c, first, stamp, suffix, t, stop);
    } else {
      CommittedRollup(cfg, s, c, first, stamp, suffix, t, stop);
    }
  }

  lemma EmptyRollup(cfg: Config, s: State, c: nat, first: Step, t: Ticket, stop: Stop)
    requires c in s.clones && !HasBuffer(s.clones[c]) && Starts(s, c, first, t) && t.pos <= |s.clones[c].rows|
    ensures var k := s.clones[c];
      && Legal(cfg, s, [first])
      && ShowsOutcome(s, Exec(cfg, s, [first]), c, first, t,
                      RollupOutcome(cfg, k.buffer, k.rows, s.objects, s.nextId, t, stop), false, s.made)
  {
    BeginRun(cfg, s, c, first, t);
    BeginStep(cfg, s, c, first, t);
    PutSame(s, c);
  }

  lemma ReadyToRollUp(cfg: Config, s: State, c: nat, first: Step, stamp: string, suffix: string, t: Ticket)
    requires Inv(cfg, s) && c in s.clones && HasBuffer(s.clones[c])
    requires Starts(s, c, first, t) && RanksAt(s.clones[c].rows, t.pos, t.now)
    requires t.key == BackupKey(c, stamp, suffix) && t.key !in s.made
    ensures CanRollUp(cfg, s, c, first, stamp, suffix, t)
  {
    var k := s.clones[c];
    assert CloneOk(cfg, c, k, s.objects, s.made, s.nextId);
    forall i | 0 <= i < |k.rows|
      ensures k.rows[i].id < s.nextId
    {
      assert Backs(c, k.rows[i], s.made, s.nextId);
    }
  }
}
