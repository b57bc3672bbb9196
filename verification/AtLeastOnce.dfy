/** At least once, in order, over runs of the service in which flushes of a clone overlap each other,
    its writers and its rollups, and may stop anywhere.

    Two things are ruled out, since either loses entries (`RevertBesideFlushLosesEntries` and
    `FlushBesideRollupLosesEntry` are runs): a flush that reverts, and one that commits while a rollup
    holds the row it read. */
module AtLeastOnce {
  import opened Wrappers
  import opened BackupCodec
  import opened Streams
  import opened Subscriptions
  import opened ObjectStorage
  import opened Machine
  import opened Invariant
  import opened Reachable
  import opened Subsequences
  import opened Conservation

  /** The step may take entries from the buffer row that were never archived. */
  predicate Drops(k: Clone, step: Step) {
    step.FlushRevert? || (step.FlushCommit? && RowHeld(k))
  }

  predicate DropsNothing(cfg: Config, s: State, steps: seq<Step>, c: nat)
    requires Legal(cfg, s, steps)
    decreases |steps|
  {
    steps == []
    || (!(On(steps[0], c) && c in s.clones && Drops(s.clones[c], steps[0]))
        && DropsNothing(cfg, Apply(cfg, s, steps[0]), steps[1..], c))
  }

  // ----- what is covered -----

  /** What the rollups have archived, then the committed buffer. */
  function Kept(cfg: Config, archived: seq<Entry>, k: Clone): (es: seq<Entry>) {
    archived + Payload(cfg, k.buffer)
  }

  /** The snapshot is the part of the log that begins at `from`, where the stream had been trimmed at
      most as far as now; once committed, everything up to its end is kept. */
  ghost predicate TaskFrom(task: FlushTask, log: Stream, from: nat, trimmed: nat, kept: seq<Entry>) {
    && from <= trimmed && from + |task.snapshot| <= |log|
    && task.snapshot == log[from..from + |task.snapshot|]
    && (task.Flushed? ==> Subsequence(Entries(log[..from + |task.snapshot|]), kept))
  }

  ghost predicate TaskCovered(task: FlushTask, log: Stream, trimmed: nat, kept: seq<Entry>) {
    exists from: nat :: TaskFrom(task, log, from, trimmed, kept)
  }

  ghost predicate AllIn(es: seq<Entry>, log: Stream) {
    forall e :: e in es ==> e in Entries(log)
  }

  /** `log` is everything ever appended. The stream is the end of it, and what was trimmed is kept. */
  ghost predicate LogOk(k: Clone, log: Stream) {
    && Ordered(log) && |k.stream| <= |log| && k.stream == log[|log| - |k.stream|..]
    && (forall i :: 0 <= i < |log| ==> !Before(k.lastId, log[i].id))
  }

  ghost predicate Covered(cfg: Config, k: Clone, log: Stream, archived: seq<Entry>) {
    && LogOk(k, log)
    && var trimmed, kept := |log| - |k.stream|, Kept(cfg, archived, k);
    && Subsequence(Entries(log[..trimmed]), kept) && AllIn(kept, log)
    && (forall f :: f in k.flushes ==> TaskCovered(k.flushes[f], log, trimmed, kept))
  }

  /** A rollup holds the row that is there, unless another one has deleted it; what it holds was
      written. */
  ghost predicate HeldOk(cfg: Config, k: Clone, log: Stream) {
    forall g :: g in k.rollups && HoldsRow(k.rollups[g]) ==>
      && k.buffer in {None, Some(k.rollups[g].job.row)}
      && AllIn(Payload(cfg, Some(k.rollups[g].job.row)), log)
  }

  // ----- the log -----

  lemma EntriesPrefix(s: Stream, n: nat, m: nat)
    requires n <= m <= |s|
    ensures Entries(s[..m]) == Entries(s[..n]) + Entries(s[n..m])
  {
    assert s[..m] == s[..n] + s[n..m];
    EntriesConcat(s[..n], s[n..m]);
  }

  /** What a commit adds: with its own snapshot at the end, everything up to the end of the snapshot is
      kept, however many other flushes have trimmed or committed in between. */
  lemma CommitCovers(log: Stream, trimmed: nat, from: nat, to: nat, kept: seq<Entry>)
    requires from <= trimmed <= |log| && from <= to <= |log|
    requires Subsequence(Entries(log[..trimmed]), kept)
    ensures Subsequence(Entries(log[..to]), kept + Entries(log[from..to]))
  {
    if to <= trimmed {
      EntriesPrefix(log, to, trimmed);
      Reflexive(Entries(log[..to]));
      BeforeSuffix(Entries(log[..to]), Entries(log[..to]), Entries(log[to..trimmed]));
      Transitive(Entries(log[..to]), Entries(log[..trimmed]), kept);
      BeforeSuffix(Entries(log[..to]), kept, Entries(log[from..to]));
    } else {
      EntriesPrefix(log, trimmed, to);
      assert log[from..to] == log[from..trimmed] + log[trimmed..to];
      EntriesConcat(log[from..trimmed], log[trimmed..to]);
      Reflexive(Entries(log[trimmed..to]));
      AfterPrefix(Entries(log[from..trimmed]), Entries(log[trimmed..to]), Entries(log[trimmed..to]));
      Concat(Entries(log[..trimmed]), kept, Entries(log[trimmed..to]), Entries(log[from..to]));
    }
  }

  /** A trim by any flush drops exactly the part of its snapshot that is still there. */
  lemma TrimOverlapping(log: Stream, trimmed: nat, to: nat, bound: StreamId)
    requires Ordered(log) && trimmed <= |log| && 0 < to <= |log|
    requires Successor(log[to - 1].id, bound)
    ensures TrimmedFrom(log[trimmed..], bound) == log[if trimmed < to then to else trimmed..]
  {
    var next := if trimmed < to then to else trimmed;
    assert log[trimmed..] == log[trimmed..next] + log[next..];
    forall i | 0 <= i < next - trimmed
      ensures Before(log[trimmed..next][i].id, bound)
    {
      assert trimmed + i < to;
      assert !Before(log[to - 1].id, log[trimmed + i].id);
    }
    TrimDropsPrefix(log[trimmed..next], log[next..], bound);
  }

  lemma PartWritten(log: Stream, from: nat, to: nat)
    requires from <= to <= |log|
    ensures AllIn(Entries(log[from..to]), log)
  {
    forall e | e in Entries(log[from..to])
      ensures e in Entries(log)
    {
      var i :| 0 <= i < to - from && Entries(log[from..to])[i] == e;
      assert Entries(log)[from + i] == e;
    }
  }

  // ----- flushes and writers -----

  lemma LaterTask(task: FlushTask, log: Stream, e: StreamEntry, trimmed: nat, kept: seq<Entry>)
    requires TaskCovered(task, log, trimmed, kept)
    ensures TaskCovered(task, log + [e], trimmed, kept)
  {
    var from: nat :| TaskFrom(task, log, from, trimmed, kept);
    var to := from + |task.snapshot|;
    assert (log + [e])[from..to] == log[from..to] && (log + [e])[..to] == log[..to];
    assert TaskFrom(task, log + [e], from, trimmed, kept);
  }

  lemma AllInLonger(es: seq<Entry>, log: Stream, e: StreamEntry)
    requires AllIn(es, log)
    ensures AllIn(es, log + [e])
  {
    EntriesConcat(log, [e]);
  }

  lemma AppendCovered(cfg: Config, k: Clone, step: Step, log: Stream, archived: seq<Entry>)
    requires Covered(cfg, k, log, archived) && HeldOk(cfg, k, log) && step.Append? && LocallyEnabled(cfg, k, step)
    ensures var k', log' := ApplyLocal(cfg, k, step), log + [StreamEntry(step.id, step.entry)];
      Covered(cfg, k', log', archived) && HeldOk(cfg, k', log')
  {
    var k', e := ApplyLocal(cfg, k, step), StreamEntry(step.id, step.entry);
    var trimmed, kept := |log| - |k.stream|, Kept(cfg, archived, k);
    assert (log + [e])[..trimmed] == log[..trimmed] && (log + [e])[trimmed..] == log[trimmed..] + [e];
    AllInLonger(kept, log, e);
    forall f | f in k'.flushes
      ensures TaskCovered(k'.flushes[f], log + [e], trimmed, kept)
    {
      LaterTask(k.flushes[f], log, e, trimmed, kept);
    }
    forall g | g in k'.rollups && HoldsRow(k'.rollups[g])
      ensures AllIn(Payload(cfg, Some(k'.rollups[g].job.row)), log + [e])
    {
      AllInLonger(Payload(cfg, Some(k.rollups[g].job.row)), log, e);
    }
  }

  /** Keeping more keeps what was kept. */
  lemma MoreKept(task: FlushTask, log: Stream, trimmed: nat, kept: seq<Entry>, trimmed': nat, kept': seq<Entry>)
    requires TaskCovered(task, log, trimmed, kept) && trimmed <= trimmed' && Subsequence(kept, kept')
    ensures TaskCovered(task, log, trimmed', kept')
  {
    var from: nat :| TaskFrom(task, log, from, trimmed, kept);
    if task.Flushed? {
      Transitive(Entries(log[..from + |task.snapshot|]), kept, kept');
    }
    assert TaskFrom(task, log, from, trimmed', kept');
  }

  lemma CommittedTask(task: FlushTask, log: Stream, trimmed: nat, kept: seq<Entry>, existing: seq<Entry>)
    requires task.Flushing? && TaskCovered(task, log, trimmed, kept) && trimmed <= |log|
    requires Subsequence(Entries(log[..trimmed]), kept)
    ensures TaskCovered(Flushed(task.snapshot, existing), log, trimmed, kept + Entries(task.snapshot))
    ensures AllIn(Entries(task.snapshot), log)
  {
    var from: nat :| TaskFrom(task, log, from, trimmed, kept);
    var to := from + |task.snapshot|;
    CommitCovers(log, trimmed, from, to, kept);
    PartWritten(log, from, to);
    assert TaskFrom(Flushed(task.snapshot, existing), log, from, trimmed, kept + Entries(task.snapshot));
  }

  lemma CommitCovered(cfg: Config, k: Clone, f: nat, log: Stream, archived: seq<Entry>, row: Option<BufferRow>)
    requires Covered(cfg, k, log, archived) && f in k.flushes && k.flushes[f].Flushing?
    requires Payload(cfg, row) == Payload(cfg, k.buffer) + Entries(k.flushes[f].snapshot)
    ensures var task := Flushed(k.flushes[f].snapshot, Payload(cfg, k.buffer));
      Covered(cfg, k.(buffer := row, flushes := k.flushes[f := task]), log, archived)
  {
    var task := Flushed(k.flushes[f].snapshot, Payload(cfg, k.buffer));
    var k' := k.(buffer := row, flushes := k.flushes[f := task]);
    var trimmed, kept, added := |log| - |k.stream|, Kept(cfg, archived, k), Entries(k.flushes[f].snapshot);
    assert Kept(cfg, archived, k') == kept + added;
    CommittedTask(k.flushes[f], log, trimmed, kept, Payload(cfg, k.buffer));
    BeforeSuffix(Entries(log[..trimmed]), kept, added);
    Reflexive(kept);
    BeforeSuffix(kept, kept, added);
    forall h | h in k'.flushes
      ensures TaskCovered(k'.flushes[h], log, trimmed, kept + added)
    {
      if h != f {
        MoreKept(k.flushes[h], log, trimmed, kept, trimmed, kept + added);
      }
    }
  }

  lemma ReadCovered(cfg: Config, k: Clone, f: nat, log: Stream, archived: seq<Entry>)
    requires Covered(cfg, k, log, archived)
    ensures Covered(cfg, k.(flushes := k.flushes[f := Flushing(k.stream)]), log, archived)
  {
    var trimmed := |log| - |k.stream|;
    assert log[trimmed..|log|] == log[trimmed..];
    assert TaskFrom(Flushing(k.stream), log, trimmed, trimmed, Kept(cfg, archived, k));
  }

  lemma EndCovered(cfg: Config, k: Clone, f: nat, log: Stream, archived: seq<Entry>)
    requires Covered(cfg, k, log, archived)
    ensures Covered(cfg, k.(flushes := k.flushes - {f}), log, archived)
  {
  }

  /** The stream trimmed on to `next`, which is kept too. */
  lemma TrimmedOn(cfg: Config, k: Clone, next: nat, log: Stream, archived: seq<Entry>)
    requires Covered(cfg, k, log, archived) && |log| - |k.stream| <= next <= |log|
    requires Subsequence(Entries(log[..next]), Kept(cfg, archived, k))
    ensures Covered(cfg, k.(stream := log[next..]), log, archived)
  {
    var kept := Kept(cfg, archived, k);
    Reflexive(kept);
    forall h | h in k.flushes
      ensures TaskCovered(k.flushes[h], log, next, kept)
    {
      MoreKept(k.flushes[h], log, |log| - |k.stream|, kept, next, kept);
    }
  }

  /** Where the trim of a committed flush leaves the stream, and that it is all kept. */
  lemma TrimsTo(cfg: Config, k: Clone, task: FlushTask, bound: StreamId, log: Stream, kept: seq<Entry>)
    returns (next: nat)
    requires cfg.Valid() && LogOk(k, log) && task.Flushed? && task.snapshot != []
    requires TaskCovered(task, log, |log| - |k.stream|, kept)
    requires Subsequence(Entries(log[..|log| - |k.stream|]), kept)
    requires cfg.trimFrom(task.snapshot[|task.snapshot| - 1].id) == Some(bound)
    ensures |log| - |k.stream| <= next <= |log| && TrimmedFrom(k.stream, bound) == log[next..]
    ensures Subsequence(Entries(log[..next]), kept)
  {
    var n := |log| - |k.stream|;
    var from: nat :| TaskFrom(task, log, from, n, kept);
    var to := from + |task.snapshot|;
    assert task.snapshot[|task.snapshot| - 1] == log[to - 1] && Fits64(log[to - 1].id);
    TrimOverlapping(log, n, to, bound);
    next := if n < to then to else n;
  }

  lemma TrimCovered(cfg: Config, k: Clone, f: nat, bound: StreamId, log: Stream, archived: seq<Entry>)
    requires cfg.Valid() && Covered(cfg, k, log, archived) && f in k.flushes && k.flushes[f].Flushed?
    requires k.flushes[f].snapshot != []
    requires cfg.trimFrom(k.flushes[f].snapshot[|k.flushes[f].snapshot| - 1].id) == Some(bound)
    ensures Covered(cfg, k.(stream := TrimmedFrom(k.stream, bound), flushes := k.flushes - {f}), log, archived)
  {
    var next := TrimsTo(cfg, k, k.flushes[f], bound, log, Kept(cfg, archived, k));
    TrimmedOn(cfg, k, next, log, archived);
    EndCovered(cfg, k.(stream := TrimmedFrom(k.stream, bound)), f, log, archived);
  }

  lemma FlushCovered(cfg: Config, k: Clone, step: Step, log: Stream, archived: seq<Entry>)
    requires cfg.Valid() && LiveOk(cfg, k) && Covered(cfg, k, log, archived)
    requires IsFlush(step) && FlushEnabled(cfg, k, step) && !Drops(k, step)
    ensures Covered(cfg, ApplyFlush(cfg, k, step), log, archived)
  {
    if step.FlushRead? {
      ReadCovered(cfg, k, step.f, log, archived);
    } else if step.FlushCommit? {
      var combined := Payload(cfg, k.buffer) + Entries(k.flushes[step.f].snapshot);
      PayloadOfRow(cfg, combined);
      CommitCovered(cfg, k, step.f, log, archived, RowOf(cfg, combined));
    } else if step.FlushTrim? {
      TrimCovered(cfg, k, step.f, step.bound, log, archived);
    } else {
      EndCovered(cfg, k, step.f, log, archived);
    }
  }

  lemma FlushHeld(cfg: Config, k: Clone, step: Step, log: Stream)
    requires HeldOk(cfg, k, log) && IsFlush(step) && FlushEnabled(cfg, k, step) && !Drops(k, step)
    ensures HeldOk(cfg, ApplyFlush(cfg, k, step), log)
  {
  }

  // ----- rollups -----

  /** Stream, buffer and flushes as they were, and no rollup holds a row that none held. */
  lemma StillCovered(cfg: Config, k: Clone, k': Clone, log: Stream, archived: seq<Entry>)
    requires Covered(cfg, k, log, archived) && HeldOk(cfg, k, log)
    requires k'.stream == k.stream && k'.lastId == k.lastId && k'.buffer == k.buffer && k'.flushes == k.flushes
    requires forall g :: g in k'.rollups && HoldsRow(k'.rollups[g]) ==>
               g in k.rollups && HoldsRow(k.rollups[g]) && k'.rollups[g].job == k.rollups[g].job
    ensures Covered(cfg, k', log, archived) && HeldOk(cfg, k', log)
  {
  }

  lemma StartCovered(cfg: Config, k: Clone, g: nat, now: int, tier: Tier, seen: Option<nat>, log: Stream,
                     archived: seq<Entry>)
    requires Covered(cfg, k, log, archived) && HeldOk(cfg, k, log)
    ensures var k' := StartRollup(k, g, now, tier, seen);
      Covered(cfg, k', log, archived) && HeldOk(cfg, k', log)
  {
    var k' := StartRollup(k, g, now, tier, seen);
    if HasBuffer(k) {
      assert k.buffer == Some(k.buffer.value);
      forall e | e in Payload(cfg, k.buffer)
        ensures e in Entries(log)
      {
        assert e in Kept(cfg, archived, k);
      }
    }
  }

  /** A rollup's commit archives what the buffer held, if it still held anything. */
  lemma RollupCovered(cfg: Config, k: Clone, g: nat, pos: nat, id: nat, log: Stream, archived: seq<Entry>)
    requires Covered(cfg, k, log, archived) && HeldOk(cfg, k, log)
    requires g in k.rollups && k.rollups[g].Uploaded? && pos <= |k.rows|
    requires Payload(cfg, Some(k.rollups[g].job.row)) != []
    ensures var k' := CommitRollup(cfg, k, g, pos, id);
      var archived' := archived + Payload(cfg, Some(k.rollups[g].job.row));
      Covered(cfg, k', log, archived') && HeldOk(cfg, k', log)
  {
    var k', payload := CommitRollup(cfg, k, g, pos, id), Payload(cfg, Some(k.rollups[g].job.row));
    var trimmed, kept, kept' := |log| - |k.stream|, Kept(cfg, archived, k), Kept(cfg, archived + payload, k');
    MoreArchived(archived, Payload(cfg, k.buffer), payload);
    assert kept' == archived + payload;
    Transitive(Entries(log[..trimmed]), kept, kept');
    forall h | h in k'.flushes
      ensures TaskCovered(k'.flushes[h], log, trimmed, kept')
    {
      MoreKept(k.flushes[h], log, trimmed, kept, trimmed, kept');
    }
    forall e | e in kept'
      ensures e in Entries(log)
    {
      assert e in archived ==> e in kept;
    }
  }

  lemma MoreArchived(archived: seq<Entry>, buffer: seq<Entry>, payload: seq<Entry>)
    requires buffer == [] || buffer == payload
    ensures Subsequence(archived + buffer, archived + payload)
  {
    Reflexive(archived + payload);
    if buffer == [] {
      Reflexive(archived);
      BeforeSuffix(archived, archived, payload);
      assert archived + buffer == archived;
    }
  }

  // ----- one step -----

  function Logged(log: Stream, step: Step, c: nat): (log': Stream) {
    if step.Append? && step.c == c then log + [StreamEntry(step.id, step.entry)] else log
  }

  ghost predicate Traced(cfg: Config, s: State, c: nat, log: Stream) {
    && c in s.clones && RolledMade(s, c) && Entries(log) == s.clones[c].history
    && Covered(cfg, s.clones[c], log, Archived(s.made, s.clones[c].rolled)) && HeldOk(cfg, s.clones[c], log)
  }

  lemma FlushTraced(cfg: Config, k: Clone, step: Step, log: Stream, archived: seq<Entry>)
    requires cfg.Valid() && LiveOk(cfg, k) && Covered(cfg, k, log, archived) && HeldOk(cfg, k, log)
    requires IsFlush(step) && LocallyEnabled(cfg, k, step) && !Drops(k, step)
    ensures var k' := ApplyLocal(cfg, k, step);
      Covered(cfg, k', log, archived) && HeldOk(cfg, k', log) && k'.history == k.history && k'.rolled == k.rolled
  {
    FlushCovered(cfg, k, step, log, archived);
    FlushHeld(cfg, k, step, log);
  }

  lemma PlainTraced(cfg: Config, k: Clone, step: Step, log: Stream, archived: seq<Entry>)
    requires Covered(cfg, k, log, archived) && HeldOk(cfg, k, log)
    requires IsLocal(step) && LocallyEnabled(cfg, k, step)
    requires !step.Append? && !IsFlush(step) && !step.RollupForced?
    ensures var k' := ApplyLocal(cfg, k, step);
      Covered(cfg, k', log, archived) && HeldOk(cfg, k', log) && k'.history == k.history && k'.rolled == k.rolled
  {
    StillCovered(cfg, k, ApplyLocal(cfg, k, step), log, archived);
  }

  lemma LocalTraced(cfg: Config, k: Clone, step: Step, log: Stream, archived: seq<Entry>)
    requires cfg.Valid() && LiveOk(cfg, k) && Covered(cfg, k, log, archived) && HeldOk(cfg, k, log)
    requires Entries(log) == k.history && IsLocal(step) && LocallyEnabled(cfg, k, step) && !Drops(k, step)
    ensures var k', log' := ApplyLocal(cfg, k, step), Logged(log, step, step.c);
      Covered(cfg, k', log', archived) && HeldOk(cfg, k', log') && Entries(log') == k'.history && k'.rolled == k.rolled
  {
    if step.Append? {
      AppendCovered(cfg, k, step, log, archived);
      EntriesConcat(log, [StreamEntry(step.id, step.entry)]);
    } else if IsFlush(step) {
      FlushTraced(cfg, k, step, log, archived);
    } else if step.RollupForced? {
      StartCovered(cfg, k, step.g, step.now, k.tier, None, log, archived);
    } else {
      PlainTraced(cfg, k, step, log, archived);
    }
  }

  lemma UploadedMade(cfg: Config, s: State, c: nat, g: nat)
    requires Inv(cfg, s) && c in s.clones && g in s.clones[c].rollups && s.clones[c].rollups[g].Uploaded?
    ensures var task := s.clones[c].rollups[g];
      task.key in s.made && s.made[task.key] == Payload(cfg, Some(task.job.row))
  {
    assert CloneOk(cfg, c, s.clones[c], s.objects, s.made, s.nextId);
    assert RollupOk(cfg, c, s.clones[c], s.clones[c].rollups[g], s.objects, s.made, s.nextId);
  }

  lemma CommitTraced(cfg: Config, s: State, step: Step, log: Stream)
    requires step.RollupCommit? && Traced(cfg, s, step.c, log) && EnabledShared(cfg, s, s.clones[step.c], step)
    requires var task := s.clones[step.c].rollups[step.g];
      task.key in s.made && s.made[task.key] == Payload(cfg, Some(task.job.row))
    ensures Traced(cfg, ApplyShared(cfg, s, step), step.c, log)
  {
    var k := s.clones[step.c];
    var k' := CommitRollup(cfg, k, step.g, step.pos, s.nextId);
    ArchivedAppend(s.made, k.rolled, k.rollups[step.g].key);
    RollupCovered(cfg, k, step.g, step.pos, s.nextId, log, Archived(s.made, k.rolled));
    CommitApplied(cfg, s, step);
    TracedOf(cfg, ApplyShared(cfg, s, step), step.c, k', log, Archived(s.made, k'.rolled));
  }

  lemma CommitApplied(cfg: Config, s: State, step: Step)
    requires step.RollupCommit? && step.c in s.clones && EnabledShared(cfg, s, s.clones[step.c], step)
    ensures var k, s' := s.clones[step.c], ApplyShared(cfg, s, step);
      && step.c in s'.clones && s'.made == s.made
      && s'.clones[step.c] == CommitRollup(cfg, k, step.g, step.pos, s.nextId)
      && s'.clones[step.c].rolled == k.rolled + [k.rollups[step.g].key] && s'.clones[step.c].history == k.history
  {
  }

  lemma TracedOf(cfg: Config, s: State, c: nat, k: Clone, log: Stream, archived: seq<Entry>)
    requires c in s.clones && s.clones[c] == k && RolledMade(s, c) && Entries(log) == k.history
    requires Archived(s.made, k.rolled) == archived && Covered(cfg, k, log, archived) && HeldOk(cfg, k, log)
    ensures Traced(cfg, s, c, log)
  {
  }

  lemma SharedTraced(cfg: Config, s: State, step: Step, log: Stream)
    requires !step.RunBegin? && !step.RunEnd? && !IsLocal(step) && !step.RollupCommit? && Traced(cfg, s, step.c, log)
    requires EnabledShared(cfg, s, s.clones[step.c], step)
    ensures Traced(cfg, ApplyShared(cfg, s, step), step.c, log)
  {
    var k, s' := s.clones[step.c], ApplyShared(cfg, s, step);
    SharedStepGrows(cfg, s, step);
    SharedFrame(cfg, s, step);
    ArchivedStable(s.made, s'.made, k.rolled);
    var archived := Archived(s.made, k.rolled);
    if step.RollupScheduled? {
      var run := s.runs[step.run];
      StartCovered(cfg, k, step.g, run.now, run.due[step.c].tier, Some(run.due[step.c].seen), log, archived);
    } else {
      NoMoreHeld(cfg, s, step);
      StillCovered(cfg, k, s'.clones[step.c], log, archived);
    }
  }

  lemma NoMoreHeld(cfg: Config, s: State, step: Step)
    requires !step.RunBegin? && !step.RunEnd? && !IsLocal(step) && !step.RollupCommit? && !step.RollupScheduled?
    requires step.c in s.clones && EnabledShared(cfg, s, s.clones[step.c], step)
    ensures var k, s' := s.clones[step.c], ApplyShared(cfg, s, step);
      && step.c in s'.clones && s'.clones[step.c].lastId == k.lastId
      && forall g :: g in s'.clones[step.c].rollups && HoldsRow(s'.clones[step.c].rollups[g]) ==>
           g in k.rollups && HoldsRow(k.rollups[g]) && s'.clones[step.c].rollups[g].job == k.rollups[g].job
  {
  }

  lemma ElsewhereTraced(cfg: Config, s: State, step: Step, c: nat, log: Stream)
    requires Enabled(cfg, s, step) && !On(step, c) && Traced(cfg, s, c, log)
    ensures Traced(cfg, Apply(cfg, s, step), c, log)
  {
    StepGrows(cfg, s, step);
    ArchivedStable(s.made, Apply(cfg, s, step).made, s.clones[c].rolled);
  }

  lemma StepTraced(cfg: Config, s: State, step: Step, c: nat, log: Stream)
    requires cfg.Valid() && Inv(cfg, s) && Enabled(cfg, s, step) && Traced(cfg, s, c, log)
    requires On(step, c) ==> !Drops(s.clones[c], step)
    ensures Traced(cfg, Apply(cfg, s, step), c, Logged(log, step, c))
  {
    if !On(step, c) {
      ElsewhereTraced(cfg, s, step, c, log);
    } else if IsLocal(step) {
      assert CloneOk(cfg, c, s.clones[c], s.objects, s.made, s.nextId);
      LocalTraced(cfg, s.clones[c], step, log, Archived(s.made, s.clones[c].rolled));
    } else if step.RollupCommit? {
      UploadedMade(cfg, s, c, step.g);
      CommitTraced(cfg, s, step, log);
    } else {
      SharedTraced(cfg, s, step, log);
    }
  }

  // ----- runs -----

  lemma {:induction false} RunTraced(cfg: Config, s: State, steps: seq<Step>, c: nat, log: Stream)
    returns (log': Stream)
    requires cfg.Valid() && Inv(cfg, s) && Legal(cfg, s, steps) && DropsNothing(cfg, s, steps, c)
    requires Traced(cfg, s, c, log)
    ensures Traced(cfg, Exec(cfg, s, steps), c, log')
    decreases |steps|
  {
    if steps == [] {
      log' := log;
    } else {
      StepKeepsInv(cfg, s, steps[0]);
      StepTraced(cfg, s, steps[0], c, log);
      log' := RunTraced(cfg, Apply(cfg, s, steps[0]), steps[1..], c, Logged(log, steps[0], c));
    }
  }

  lemma TracedIsStored(cfg: Config, k: Clone, log: Stream, archived: seq<Entry>)
    requires Covered(cfg, k, log, archived) && Entries(log) == k.history
    ensures Subsequence(k.history, archived + Payload(cfg, k.buffer) + Entries(k.stream))
    ensures forall e :: e in archived + Payload(cfg, k.buffer) + Entries(k.stream) ==> e in k.history
  {
    var n, kept := |log| - |k.stream|, Kept(cfg, archived, k);
    EntriesPrefix(log, n, |log|);
    assert log[..|log|] == log && log[n..|log|] == k.stream;
    Reflexive(Entries(k.stream));
    Concat(Entries(log[..n]), kept, Entries(k.stream), Entries(k.stream));
    PartWritten(log, n, |log|);
  }

  /** At least once, in order: with any number of flushes and rollups of the clone overlapping each
      other and its writers and stopping anywhere, as long as no flush reverts and none commits while
      a rollup holds the row, everything ever appended is, in order, a subsequence of rollup payloads,
      buffer and stream; and these hold nothing that was never appended. */
  lemma AtLeastOnceUnderOverlap(cfg: Config, s: State, steps: seq<Step>, c: nat)
    requires cfg.Valid() && Start(s) && Legal(cfg, s, steps) && c in s.clones && DropsNothing(cfg, s, steps, c)
    ensures c in Exec(cfg, s, steps).clones
    ensures var s' := Exec(cfg, s, steps); var k := s'.clones[c];
      var stored := Archived(s'.made, k.rolled) + Payload(cfg, k.buffer) + Entries(k.stream);
      Subsequence(k.history, stored) && forall e :: e in stored ==> e in k.history
  {
    StartInv(cfg, s);
    assert Fresh(s.clones[c]);
    StartTraced(cfg, s, c);
    var log := RunTraced(cfg, s, steps, c, []);
    var s' := Exec(cfg, s, steps);
    TracedIsStored(cfg, s'.clones[c], log, Archived(s'.made, s'.clones[c].rolled));
  }

  lemma StartTraced(cfg: Config, s: State, c: nat)
    requires c in s.clones && Fresh(s.clones[c])
    ensures Traced(cfg, s, c, [])
  {
    NothingCovered(cfg, s.clones[c], [], []);
    NothingArchived(s.made, s.clones[c].rolled);
    TracedOf(cfg, s, c, s.clones[c], [], []);
  }

  lemma NothingArchived(made: map<Key, seq<Entry>>, rolled: seq<Key>)
    requires rolled == []
    ensures Archived(made, rolled) == []
  {
  }

  lemma NothingCovered(cfg: Config, k: Clone, log: Stream, archived: seq<Entry>)
    requires Fresh(k) && log == [] && archived == []
    ensures Covered(cfg, k, log, archived) && HeldOk(cfg, k, log) && Entries(log) == k.history
  {
    assert log[..0] == log && log[0..] == log && Entries(log) == [];
    assert Kept(cfg, archived, k) == [];
    Reflexive<Entry>([]);
    assert Subsequence(Entries(log[..0]), Kept(cfg, archived, k));
  }
}
