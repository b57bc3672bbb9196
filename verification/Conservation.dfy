/** Where every entry a clone ever wrote is, over whole runs: rolled-up objects, then the buffer,
    then the stream.

    For this the tasks of the clone must keep out of each other's way (Apart): its flushes run one
    after the other, none commits while a rollup holds the row it read, and no rollup reads the row
    while a flush is between its commit and its trim or another rollup holds it. */
module Conservation {
  import opened Wrappers
  import opened BackupCodec
  import opened Streams
  import opened Subscriptions
  import opened ObjectStorage
  import opened Machine
  import opened Invariant
  import opened Reachable
  import opened Subsequences

  /** The payloads of the clone's rollups, in order. */
  function Archived(made: map<Key, seq<Entry>>, rolled: seq<Key>): (es: seq<Entry>) {
    if rolled == [] then []
    else
      var last := rolled[|rolled| - 1];
      Archived(made, rolled[..|rolled| - 1]) + if last in made then made[last] else []
  }

  /** The clone's flush, when its flushes run one after the other: all of them in slot 0. */
  predicate Committed(k: Clone) {
    0 in k.flushes && k.flushes[0].Flushed?
  }

  /** The buffer payload that counts: between a flush's commit and its trim, the one before it. */
  function Settled(cfg: Config, k: Clone): (es: seq<Entry>) {
    if Committed(k) then k.flushes[0].existing else Payload(cfg, k.buffer)
  }

  function Timeline(cfg: Config, made: map<Key, seq<Entry>>, k: Clone): (es: seq<Entry>) {
    Archived(made, k.rolled) + Settled(cfg, k) + Entries(k.stream)
  }

  /** The step that leaves a flush unfinished between its commit and its trim. */
  predicate Interrupts(s: State, step: Step, c: nat) {
    step == FlushDies(c, 0) && c in s.clones && Committed(s.clones[c])
  }

  // ----- keeping apart -----

  /** Some rollup has read the buffer row and not yet deleted it. */
  predicate RowHeld(k: Clone) {
    exists g :: g in k.rollups && HoldsRow(k.rollups[g])
  }

  /** The step gets in the way of a task in progress. */
  predicate Collides(k: Clone, step: Step) {
    || (IsFlush(step) && step.f != 0)
    || (step.FlushCommit? && RowHeld(k))
    || ((step.RollupForced? || step.RollupScheduled?) && (Committed(k) || RowHeld(k)))
  }

  predicate Apart(cfg: Config, s: State, steps: seq<Step>, c: nat)
    requires Legal(cfg, s, steps)
    decreases |steps|
  {
    steps == []
    || (!(On(steps[0], c) && c in s.clones && Collides(s.clones[c], steps[0]))
        && Apart(cfg, Apply(cfg, s, steps[0]), steps[1..], c))
  }

  /** What keeping apart gives: the flush's snapshot begins the stream, a committed flush's entries
      end the buffer, and a rollup holds the row that is there. */
  ghost predicate Alone(cfg: Config, k: Clone) {
    && (0 in k.flushes ==> k.flushes[0].snapshot <= k.stream)
    && (Committed(k) ==>
          && !RowHeld(k) && k.buffer.Some?
          && Payload(cfg, k.buffer) == k.flushes[0].existing + Entries(k.flushes[0].snapshot))
    && (forall g :: g in k.rollups && HoldsRow(k.rollups[g]) ==> k.buffer == Some(k.rollups[g].job.row))
    && (forall g, h :: g in k.rollups && h in k.rollups && HoldsRow(k.rollups[g]) && HoldsRow(k.rollups[h]) ==> g == h)
  }

  /** Neither buffer nor flushes change, and no rollup comes to hold the row. */
  lemma StillAlone(cfg: Config, k: Clone, k': Clone)
    requires Alone(cfg, k) && k'.flushes == k.flushes && k'.buffer == k.buffer && k.stream <= k'.stream
    requires forall g :: g in k'.rollups && HoldsRow(k'.rollups[g]) ==>
               g in k.rollups && HoldsRow(k.rollups[g]) && k'.rollups[g].job == k.rollups[g].job
    ensures Alone(cfg, k')
  {
  }

  lemma ReadAlone(cfg: Config, k: Clone, g: nat, now: int, tier: Tier, seen: Option<nat>)
    requires Alone(cfg, k) && !Committed(k) && !RowHeld(k)
    ensures Alone(cfg, StartRollup(k, g, now, tier, seen))
  {
  }

  lemma WriterAlone(cfg: Config, k: Clone, step: Step)
    requires Alone(cfg, k) && IsLocal(step) && LocallyEnabled(cfg, k, step) && !Collides(k, step) && !IsFlush(step)
    ensures Alone(cfg, ApplyLocal(cfg, k, step))
  {
    if step.RollupForced? {
      ReadAlone(cfg, k, step.g, step.now, k.tier, None);
    } else {
      StillAlone(cfg, k, ApplyLocal(cfg, k, step));
    }
  }

  lemma FlushAlone(cfg: Config, k: Clone, step: Step)
    requires cfg.Valid() && LiveOk(cfg, k) && Alone(cfg, k)
    requires IsFlush(step) && FlushEnabled(cfg, k, step) && !Collides(k, step)
    ensures Alone(cfg, ApplyFlush(cfg, k, step))
  {
    if step.FlushCommit? {
      PayloadOfRow(cfg, Payload(cfg, k.buffer) + Entries(k.flushes[0].snapshot));
    }
  }

  lemma StepAlone(cfg: Config, s: State, step: Step, c: nat)
    requires cfg.Valid() && Inv(cfg, s) && Enabled(cfg, s, step) && c in s.clones && Alone(cfg, s.clones[c])
    requires On(step, c) ==> !Collides(s.clones[c], step)
    ensures c in Apply(cfg, s, step).clones && Alone(cfg, Apply(cfg, s, step).clones[c])
  {
    var k := s.clones[c];
    StepGrows(cfg, s, step);
    if On(step, c) {
      assert CloneOk(cfg, c, k, s.objects, s.made, s.nextId);
      if IsFlush(step) {
        FlushAlone(cfg, k, step);
      } else if IsLocal(step) {
        WriterAlone(cfg, k, step);
      } else {
        SharedAlone(cfg, s, step);
      }
    }
  }

  lemma SharedAlone(cfg: Config, s: State, step: Step)
    requires !step.RunBegin? && !step.RunEnd? && step.c in s.clones && Alone(cfg, s.clones[step.c])
    requires EnabledShared(cfg, s, s.clones[step.c], step) && !Collides(s.clones[step.c], step)
    ensures step.c in ApplyShared(cfg, s, step).clones && Alone(cfg, ApplyShared(cfg, s, step).clones[step.c])
  {
  }

  function Written(step: Step, c: nat): (es: seq<Entry>) {
    if step.Append? && step.c == c then [step.entry] else []
  }

  lemma {:induction false} ArchivedStable(made: map<Key, seq<Entry>>, made': map<Key, seq<Entry>>, rolled: seq<Key>)
    requires Grows(made, made') && forall i :: 0 <= i < |rolled| ==> rolled[i] in made
    ensures Archived(made', rolled) == Archived(made, rolled)
  {
    if rolled != [] {
      assert rolled[|rolled| - 1] in made;
      ArchivedStable(made, made', rolled[..|rolled| - 1]);
    }
  }

  // ----- one step -----

  lemma AppendTimeline(cfg: Config, made: map<Key, seq<Entry>>, k: Clone, step: Step)
    requires step.Append? && LocallyEnabled(cfg, k, step)
    ensures Timeline(cfg, made, ApplyLocal(cfg, k, step)) == Timeline(cfg, made, k) + [step.entry]
  {
    EntriesConcat(k.stream, [StreamEntry(step.id, step.entry)]);
  }

  /** Dropping the snapshot from the stream makes up for counting it in the buffer. */
  lemma DropTimeline(cfg: Config, made: map<Key, seq<Entry>>, k: Clone)
    requires Alone(cfg, k) && Committed(k)
    ensures Timeline(cfg, made, k.(stream := k.stream[|k.flushes[0].snapshot|..], flushes := k.flushes - {0}))
            == Timeline(cfg, made, k)
  {
    var snapshot, later := k.flushes[0].snapshot, k.stream[|k.flushes[0].snapshot|..];
    assert k.stream == snapshot + later;
    EntriesConcat(snapshot, later);
    Regroup(Archived(made, k.rolled), k.flushes[0].existing, Entries(snapshot), Entries(later));
  }

  lemma Regroup(a: seq<Entry>, b: seq<Entry>, c: seq<Entry>, d: seq<Entry>)
    ensures a + (b + c) + d == a + b + (c + d)
  {
  }

  /** The trim of a flush leaves exactly what was appended after its snapshot. */
  lemma TrimTimeline(cfg: Config, made: map<Key, seq<Entry>>, k: Clone, step: Step)
    requires cfg.Valid() && StreamOk(k) && Alone(cfg, k) && step.FlushTrim? && step.f == 0 && FlushEnabled(cfg, k, step)
    ensures Timeline(cfg, made, ApplyFlush(cfg, k, step)) == Timeline(cfg, made, k)
  {
    var snapshot := k.flushes[0].snapshot;
    assert k.stream == snapshot + k.stream[|snapshot|..];
    assert Fits64(k.stream[|snapshot| - 1].id);
    TrimExact(snapshot, k.stream[|snapshot|..], step.bound);
    DropTimeline(cfg, made, k);
  }

  lemma RevertTimeline(cfg: Config, made: map<Key, seq<Entry>>, k: Clone, step: Step)
    requires cfg.Valid() && LiveOk(cfg, k) && Alone(cfg, k) && step.FlushRevert? && step.f == 0
    requires FlushEnabled(cfg, k, step)
    ensures Timeline(cfg, made, ApplyFlush(cfg, k, step)) == Timeline(cfg, made, k)
  {
    assert FlushOk(k.flushes[0]);
    PayloadOfRow(cfg, k.flushes[0].existing);
  }

  lemma CommitRollupTimeline(cfg: Config, made: map<Key, seq<Entry>>, k: Clone, g: nat, pos: nat, id: nat)
    requires g in k.rollups && k.rollups[g].Uploaded? && pos <= |k.rows|
    requires Payload(cfg, Some(k.rollups[g].job.row)) != [] && Alone(cfg, k)
    requires k.rollups[g].key in made && made[k.rollups[g].key] == Payload(cfg, Some(k.rollups[g].job.row))
    ensures Timeline(cfg, made, CommitRollup(cfg, k, g, pos, id)) == Timeline(cfg, made, k)
  {
    ArchivedAppend(made, k.rolled, k.rollups[g].key);
    MovedTimeline(cfg, made, k, CommitRollup(cfg, k, g, pos, id));
  }

  lemma MovedTimeline(cfg: Config, made: map<Key, seq<Entry>>, k: Clone, k': Clone)
    requires Archived(made, k'.rolled) == Archived(made, k.rolled) + Settled(cfg, k)
    requires Settled(cfg, k') == [] && k'.stream == k.stream
    ensures Timeline(cfg, made, k') == Timeline(cfg, made, k)
  {
  }

  lemma ArchivedAppend(made: map<Key, seq<Entry>>, rolled: seq<Key>, key: Key)
    requires key in made
    ensures Archived(made, rolled + [key]) == Archived(made, rolled) + made[key]
  {
    assert (rolled + [key])[..|rolled|] == rolled;
  }

  /** A step with no effect on the clone's own data keeps its timeline. */
  lemma SameTimeline(cfg: Config, made: map<Key, seq<Entry>>, made': map<Key, seq<Entry>>, k: Clone, k': Clone)
    requires Grows(made, made') && forall i :: 0 <= i < |k.rolled| ==> k.rolled[i] in made
    requires k'.rolled == k.rolled && k'.stream == k.stream && Settled(cfg, k') == Settled(cfg, k)
    ensures Timeline(cfg, made', k') == Timeline(cfg, made, k)
  {
    ArchivedStable(made, made', k.rolled);
  }

  lemma FlushTimeline(cfg: Config, made: map<Key, seq<Entry>>, k: Clone, step: Step)
    requires cfg.Valid() && LiveOk(cfg, k) && Alone(cfg, k) && forall i :: 0 <= i < |k.rolled| ==> k.rolled[i] in made
    requires IsFlush(step) && FlushEnabled(cfg, k, step) && !Collides(k, step) && !(step.FlushDies? && Committed(k))
    ensures Timeline(cfg, made, ApplyFlush(cfg, k, step)) == Timeline(cfg, made, k)
  {
    if step.FlushTrim? {
      TrimTimeline(cfg, made, k, step);
    } else if step.FlushRevert? {
      RevertTimeline(cfg, made, k, step);
    } else {
      SameTimeline(cfg, made, made, k, ApplyFlush(cfg, k, step));
    }
  }

  lemma LocalKeeps(cfg: Config, k: Clone, step: Step)
    requires IsLocal(step) && !IsFlush(step) && !step.Append? && LocallyEnabled(cfg, k, step)
    ensures var k' := ApplyLocal(cfg, k, step);
      && k'.rolled == k.rolled && k'.stream == k.stream && k'.buffer == k.buffer && k'.flushes == k.flushes
      && k'.history == k.history
  {
  }

  lemma LocalTimeline(cfg: Config, made: map<Key, seq<Entry>>, k: Clone, step: Step)
    requires forall i :: 0 <= i < |k.rolled| ==> k.rolled[i] in made
    requires IsLocal(step) && !IsFlush(step) && LocallyEnabled(cfg, k, step)
    ensures Timeline(cfg, made, ApplyLocal(cfg, k, step)) == Timeline(cfg, made, k) + Written(step, step.c)
    ensures ApplyLocal(cfg, k, step).history == k.history + Written(step, step.c)
  {
    if step.Append? {
      AppendTimeline(cfg, made, k, step);
    } else {
      LocalKeeps(cfg, k, step);
      SameTimeline(cfg, made, made, k, ApplyLocal(cfg, k, step));
    }
  }

  lemma SharedTimeline(cfg: Config, s: State, step: Step, c: nat)
    requires Inv(cfg, s) && c in s.clones && On(step, c) && !IsLocal(step) && Alone(cfg, s.clones[c])
    requires EnabledShared(cfg, s, s.clones[c], step)
    ensures c in ApplyShared(cfg, s, step).clones
    ensures Timeline(cfg, ApplyShared(cfg, s, step).made, ApplyShared(cfg, s, step).clones[c])
            == Timeline(cfg, s.made, s.clones[c])
    ensures ApplyShared(cfg, s, step).clones[c].history == s.clones[c].history
  {
    var k, s' := s.clones[c], ApplyShared(cfg, s, step);
    SharedStepGrows(cfg, s, step);
    assert CloneOk(cfg, c, k, s.objects, s.made, s.nextId);
    SharedFrame(cfg, s, step);
    if step.RollupCommit? {
      assert RollupOk(cfg, c, k, k.rollups[step.g], s.objects, s.made, s.nextId);
      CommitRollupTimeline(cfg, s.made, k, step.g, step.pos, s.nextId);
    } else {
      SameTimeline(cfg, s.made, s'.made, k, s'.clones[c]);
    }
  }

  ghost predicate RolledMade(s: State, c: nat)
    requires c in s.clones
  {
    forall i :: 0 <= i < |s.clones[c].rolled| ==> s.clones[c].rolled[i] in s.made
  }

  lemma AllRolledMade(cfg: Config, s: State, c: nat)
    requires Inv(cfg, s) && c in s.clones
    ensures RolledMade(s, c)
  {
    assert CloneOk(cfg, c, s.clones[c], s.objects, s.made, s.nextId);
  }

  lemma TimelineElsewhere(cfg: Config, s: State, step: Step, c: nat)
    requires Enabled(cfg, s, step) && c in s.clones && !On(step, c) && RolledMade(s, c)
    ensures c in Apply(cfg, s, step).clones && Apply(cfg, s, step).clones[c] == s.clones[c]
    ensures Timeline(cfg, Apply(cfg, s, step).made, s.clones[c]) == Timeline(cfg, s.made, s.clones[c])
  {
    StepGrows(cfg, s, step);
    SameTimeline(cfg, s.made, Apply(cfg, s, step).made, s.clones[c], s.clones[c]);
  }

  /** The step takes entries from nowhere to nowhere, but for the one it writes. */
  ghost predicate Moves(cfg: Config, s: State, step: Step, c: nat, s': State) {
    && c in s.clones && c in s'.clones
    && Timeline(cfg, s'.made, s'.clones[c]) == Timeline(cfg, s.made, s.clones[c]) + Written(step, c)
    && s'.clones[c].history == s.clones[c].history + Written(step, c)
  }

  lemma FlushMoves(cfg: Config, s: State, step: Step, c: nat)
    requires c in s.clones && cfg.Valid() && RolledMade(s, c) && LiveOk(cfg, s.clones[c]) && Alone(cfg, s.clones[c])
    requires IsFlush(step) && step.c == c
    requires Enabled(cfg, s, step) && !Collides(s.clones[c], step) && !Interrupts(s, step, c)
    ensures Moves(cfg, s, step, c, Apply(cfg, s, step))
  {
    FlushTimeline(cfg, s.made, s.clones[c], step);
    FlushApplied(cfg, s, step, c);
    SameMoves(cfg, s, step, c, ApplyFlush(cfg, s.clones[c], step));
  }

  lemma FlushApplied(cfg: Config, s: State, step: Step, c: nat)
    requires c in s.clones && IsFlush(step) && step.c == c && Enabled(cfg, s, step)
    ensures Apply(cfg, s, step) == Put(s, c, ApplyFlush(cfg, s.clones[c], step))
    ensures ApplyFlush(cfg, s.clones[c], step).history == s.clones[c].history
  {
  }

  lemma SameMoves(cfg: Config, s: State, step: Step, c: nat, k': Clone)
    requires c in s.clones && !step.Append? && k'.history == s.clones[c].history
    requires Timeline(cfg, s.made, k') == Timeline(cfg, s.made, s.clones[c])
    ensures Moves(cfg, s, step, c, Put(s, c, k'))
  {
  }

  lemma PlainMoves(cfg: Config, s: State, step: Step, c: nat)
    requires c in s.clones && IsLocal(step) && !IsFlush(step) && step.c == c && Enabled(cfg, s, step)
    requires RolledMade(s, c)
    ensures Moves(cfg, s, step, c, Apply(cfg, s, step))
  {
    LocalTimeline(cfg, s.made, s.clones[c], step);
  }

  lemma SharedMoves(cfg: Config, s: State, step: Step, c: nat)
    requires Inv(cfg, s) && c in s.clones && On(step, c) && !IsLocal(step) && Alone(cfg, s.clones[c])
    requires Enabled(cfg, s, step)
    ensures Moves(cfg, s, step, c, Apply(cfg, s, step))
  {
    SharedTimeline(cfg, s, step, c);
  }

  lemma ElsewhereMoves(cfg: Config, s: State, step: Step, c: nat)
    requires Enabled(cfg, s, step) && c in s.clones && !On(step, c) && RolledMade(s, c)
    ensures Moves(cfg, s, step, c, Apply(cfg, s, step))
  {
    TimelineElsewhere(cfg, s, step, c);
    assert Timeline(cfg, s.made, s.clones[c]) + [] == Timeline(cfg, s.made, s.clones[c]);
    assert s.clones[c].history + [] == s.clones[c].history;
  }

  /** Every step of tasks that keep apart, but the interruption of a flush, moves entries without
      losing, repeating or reordering any, and only a write adds one, at the end. */
  lemma StepTimeline(cfg: Config, s: State, step: Step, c: nat)
    requires cfg.Valid() && Inv(cfg, s) && Enabled(cfg, s, step) && c in s.clones && Alone(cfg, s.clones[c])
    requires On(step, c) ==> !Collides(s.clones[c], step)
    requires !Interrupts(s, step, c)
    ensures Moves(cfg, s, step, c, Apply(cfg, s, step))
  {
    AllRolledMade(cfg, s, c);
    if !On(step, c) {
      ElsewhereMoves(cfg, s, step, c);
    } else if IsFlush(step) {
      assert CloneOk(cfg, c, s.clones[c], s.objects, s.made, s.nextId);
      FlushMoves(cfg, s, step, c);
    } else if IsLocal(step) {
      PlainMoves(cfg, s, step, c);
    } else {
      SharedMoves(cfg, s, step, c);
    }
  }

  lemma RepeatedPart(before: seq<Entry>, part: seq<Entry>, rest: seq<Entry>)
    requires part != []
    ensures Subsequence(before + (part + rest), before + (part + (part + rest)))
    ensures |before + (part + (part + rest))| > |before + (part + rest)|
    ensures forall e :: e in before + (part + (part + rest)) ==> e in before + (part + rest)
  {
    var all := part + rest;
    Reflexive(before);
    Reflexive(all);
    AfterPrefix(part, all, all);
    Concat(before, before, all, part + all);
  }

  /** An interrupted flush leaves its snapshot in both stores: the timeline repeats it, and is
      otherwise the same. */
  lemma InterruptedTimeline(cfg: Config, made: map<Key, seq<Entry>>, k: Clone)
    requires Alone(cfg, k) && Committed(k) && k.flushes[0].snapshot != []
    ensures var line, line' := Timeline(cfg, made, k), Timeline(cfg, made, k.(flushes := k.flushes - {0}));
      && Subsequence(line, line') && |line'| > |line| && (forall e :: e in line' ==> e in line)
  {
    var snapshot, later := k.flushes[0].snapshot, k.stream[|k.flushes[0].snapshot|..];
    assert k.stream == snapshot + later;
    EntriesConcat(snapshot, later);
    var before := Archived(made, k.rolled) + k.flushes[0].existing;
    RepeatedPart(before, Entries(snapshot), Entries(later));
    assert Timeline(cfg, made, k.(flushes := k.flushes - {0}))
        == Archived(made, k.rolled) + (k.flushes[0].existing + Entries(snapshot)) + Entries(k.stream);
    Regroup(Archived(made, k.rolled), k.flushes[0].existing, Entries(snapshot), Entries(k.stream));
  }

  lemma InterruptTimeline(cfg: Config, s: State, c: nat)
    requires Inv(cfg, s) && c in s.clones && Alone(cfg, s.clones[c]) && Committed(s.clones[c])
    ensures Enabled(cfg, s, FlushDies(c, 0))
    ensures var k' := s.clones[c].(flushes := s.clones[c].flushes - {0});
      && Apply(cfg, s, FlushDies(c, 0)) == Put(s, c, k')
      && var line, line' := Timeline(cfg, s.made, s.clones[c]), Timeline(cfg, s.made, k');
      Subsequence(line, line') && |line'| > |line| && (forall e :: e in line' ==> e in line)
  {
    assert CloneOk(cfg, c, s.clones[c], s.objects, s.made, s.nextId);
    assert FlushOk(s.clones[c].flushes[0]);
    InterruptedTimeline(cfg, s.made, s.clones[c]);
  }

  // ----- whole runs -----

  /** How often a run interrupts a flush of the clone between its commit and its trim. */
  function Interruptions(cfg: Config, s: State, steps: seq<Step>, c: nat): (n: nat)
    requires Legal(cfg, s, steps)
    decreases |steps|
  {
    if steps == [] then 0
    else (if Interrupts(s, steps[0], c) then 1 else 0)
         + Interruptions(cfg, Apply(cfg, s, steps[0]), steps[1..], c)
  }

  ghost predicate Accounted(cfg: Config, s: State, c: nat, interruptions: nat) {
    && c in s.clones && Alone(cfg, s.clones[c])
    && var k := s.clones[c];
    && (interruptions == 0 ==> Timeline(cfg, s.made, k) == k.history)
    && |Timeline(cfg, s.made, k)| >= |k.history| + interruptions
    && Subsequence(k.history, Timeline(cfg, s.made, k))
    && (forall e :: e in Timeline(cfg, s.made, k) ==> e in k.history)
  }

  lemma StepAccounted(cfg: Config, s: State, step: Step, c: nat, interruptions: nat)
    requires cfg.Valid() && Inv(cfg, s) && Enabled(cfg, s, step) && Accounted(cfg, s, c, interruptions)
    requires On(step, c) ==> !Collides(s.clones[c], step)
    ensures Accounted(cfg, Apply(cfg, s, step), c, interruptions + if Interrupts(s, step, c) then 1 else 0)
  {
    var k := s.clones[c];
    var line := Timeline(cfg, s.made, k);
    StepAlone(cfg, s, step, c);
    if Interrupts(s, step, c) {
      InterruptTimeline(cfg, s, c);
      Transitive(k.history, line, Timeline(cfg, s.made, k.(flushes := k.flushes - {0})));
    } else {
      StepTimeline(cfg, s, step, c);
      Reflexive(Written(step, c));
      Concat(k.history, line, Written(step, c), Written(step, c));
    }
  }

  lemma {:induction false} RunAccounted(cfg: Config, s: State, steps: seq<Step>, c: nat, before: nat)
    requires cfg.Valid() && Inv(cfg, s) && Legal(cfg, s, steps) && Apart(cfg, s, steps, c)
    requires Accounted(cfg, s, c, before)
    ensures Accounted(cfg, Exec(cfg, s, steps), c, before + Interruptions(cfg, s, steps, c))
    decreases |steps|
  {
    if steps != [] {
      StepKeepsInv(cfg, s, steps[0]);
      StepAccounted(cfg, s, steps[0], c, before);
      RunAccounted(cfg, Apply(cfg, s, steps[0]), steps[1..], c,
                   before + if Interrupts(s, steps[0], c) then 1 else 0);
    }
  }

  lemma ReachableAccounted(cfg: Config, s: State, steps: seq<Step>, c: nat)
    requires cfg.Valid() && Start(s) && Legal(cfg, s, steps) && Apart(cfg, s, steps, c) && c in s.clones
    ensures Accounted(cfg, Exec(cfg, s, steps), c, Interruptions(cfg, s, steps, c))
  {
    StartInv(cfg, s);
    assert Fresh(s.clones[c]);
    Reflexive<Entry>([]);
    RunAccounted(cfg, s, steps, c, 0);
  }

  /** Exactly once, in order: after any run of writes, flushes, rollups, prunes, resurrections and
      deaths in which the clone's tasks keep apart, the clone's history is the rollup payloads, then
      the buffer, then the stream, if and only if no flush of the clone died between its commit and
      its trim. While a flush is between the two, its snapshot is in both stores, and the buffer
      counts without it. */
  lemma ExactlyOnceIff(cfg: Config, s: State, steps: seq<Step>, c: nat)
    requires cfg.Valid() && Start(s) && Legal(cfg, s, steps) && Apart(cfg, s, steps, c) && c in s.clones
    ensures c in Exec(cfg, s, steps).clones
    ensures var s' := Exec(cfg, s, steps); var k := s'.clones[c];
      k.history == Archived(s'.made, k.rolled) + Settled(cfg, k) + Entries(k.stream)
      <==> Interruptions(cfg, s, steps, c) == 0
    ensures var s' := Exec(cfg, s, steps); var k := s'.clones[c];
      !Committed(k) ==>
        (k.history == Archived(s'.made, k.rolled) + Payload(cfg, k.buffer) + Entries(k.stream)
         <==> Interruptions(cfg, s, steps, c) == 0)
  {
    ReachableAccounted(cfg, s, steps, c);
  }

  /** Death and redelivery: whatever dies between commit and trim, the history stays a subsequence
      of what the three stores hold, and they hold nothing that was never written. */
  lemma NothingLostOrReordered(cfg: Config, s: State, steps: seq<Step>, c: nat)
    requires cfg.Valid() && Start(s) && Legal(cfg, s, steps) && Apart(cfg, s, steps, c) && c in s.clones
    ensures c in Exec(cfg, s, steps).clones
    ensures var s' := Exec(cfg, s, steps); var k := s'.clones[c];
      var stored := Archived(s'.made, k.rolled) + Payload(cfg, k.buffer) + Entries(k.stream);
      && Subsequence(k.history, stored)
      && (forall e :: e in stored ==> e in k.history)
  {
    ReachableAccounted(cfg, s, steps, c);
    ReachableInv(cfg, s, steps);
    var s' := Exec(cfg, s, steps);
    var k := s'.clones[c];
    if Committed(k) {
      InterruptTimeline(cfg, s', c);
      Transitive(k.history, Timeline(cfg, s'.made, k), Timeline(cfg, s'.made, k.(flushes := k.flushes - {0})));
    }
  }

  /** entry_count is the length of the payload in every reachable state, whatever overlaps. */
  lemma EntryCountIsLength(cfg: Config, s: State, steps: seq<Step>, c: nat)
    requires cfg.Valid() && Start(s) && Legal(cfg, s, steps) && c in Exec(cfg, s, steps).clones
    ensures var buffer := Exec(cfg, s, steps).clones[c].buffer;
      buffer.Some? ==> |Payload(cfg, buffer)| == buffer.value.count
  {
    ReachableInv(cfg, s, steps);
    var s' := Exec(cfg, s, steps);
    assert CloneOk(cfg, c, s'.clones[c], s'.objects, s'.made, s'.nextId);
  }
}
