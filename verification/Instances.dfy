/** Runs of the service that show where its guarantees end: due anchors, spacing, and a flush beside
    a rollup. */
module Instances {
  import opened Wrappers
  import opened BackupCodec
  import opened Streams
  import opened Subscriptions
  import opened ObjectStorage
  import opened Retention
  import opened Machine
  import opened Invariant
  import opened Reachable
  import opened Conservation
  import opened LocalRuns
  import opened Scheduling
  import opened Pipeline
  import opened RollupRuns
  import opened RunBlocks
  import opened Memories
  import opened ResurrectRuns

  lemma ReadyAtStart(cfg: Config, s: State, c: nat)
    requires Start(s) && c in s.clones
    ensures Ready(cfg, s, c, 0) && s.clones[c].rows == [] && s.clones[c].rollups == map[]
    ensures s.clones[c].history == [] && s.clones[c].rolled == []
  {
    StartInv(cfg, s);
    assert Fresh(s.clones[c]);
  }

  lemma PruneOne(row: Backup)
    ensures Retention.Prune([row]) == [row]
  {
    assert [row][1..] == [];
    assert KeepFrom([row][1..], 2) == [];
  }

  /** A clone's first backup. */
  lemma FirstBackup(cfg: Config, s: State, c: nat, n: nat, tier: Tier, entry: Entry, now: int)
    returns (steps: seq<Step>, s': State)
    requires cfg.Valid() && Ready(cfg, s, c, n) && n + 1 < MAX64 && Fits([entry])
    requires s.clones[c].rows == [] && s.clones[c].rollups == map[]
    ensures Leads(cfg, s, steps, s') && Ready(cfg, s', c, n + 1)
    ensures Took(cfg, s, s', c, n, tier, entry, TakenFrom(cfg, s, c, n, tier, entry, now, 0, Completes))
    ensures s'.clones[c].rows == [RowTaken(cfg, s, c, n, tier, entry, now)]
  {
    steps, s' := Deposit(cfg, s, c, n, tier, entry, now, 0, 0, Completes);
    FirstRow(cfg, s, c, n, tier, entry, now);
  }

  lemma FirstRow(cfg: Config, s: State, c: nat, n: nat, tier: Tier, entry: Entry, now: int)
    requires cfg.Valid() && c in s.clones && s.clones[c].rows == [] && Fits([entry])
    ensures TakenFrom(cfg, s, c, n, tier, entry, now, 0, Completes).rows == [RowTaken(cfg, s, c, n, tier, entry, now)]
  {
    TakenRows(cfg, s, c, n, tier, entry, now, 0, Completes);
    PruneOne(RowTaken(cfg, s, c, n, tier, entry, now));
    assert InsertAt([], 0, RowTaken(cfg, s, c, n, tier, entry, now)) == [RowTaken(cfg, s, c, n, tier, entry, now)];
  }

  // ----- the anchor -----

  /** A resurrection from a clone that has one backup. */
  lemma ResurrectIt(cfg: Config, s: State, c: nat, source: nat, n: nat, pos: nat, at: int)
    returns (steps: seq<Step>, s': State)
    requires cfg.Valid() && Inv(cfg, s) && c in s.clones && source in s.clones && source != c
    requires !s.clones[source].active && s.clones[source].rows != [] && Name(c, n) !in s.made
    requires RanksAt(s.clones[c].rows, pos, s.clones[source].rows[0].periodEnd)
    ensures Leads(cfg, s, steps, s') && c in s'.clones
    ensures var k, k', latest := s.clones[c], s'.clones[c], s.clones[source].rows[0];
      var t := TicketOf(c, n, k.tier, latest.periodEnd, pos);
      && k'.rows == InsertAt(k.rows, pos, CopiedRow(latest, s.nextId, t, at))
      && k'.rollups == k.rollups && k'.createdAt == k.createdAt
  {
    var latest := s.clones[source].rows[0];
    var t := TicketOf(c, n, s.clones[c].tier, latest.periodEnd, pos);
    ResurrectIsARun(cfg, s, c, source, "", Suffix(n), t, at, Completes);
    steps := ResurrectSteps(c, source, Candidate(latest, t.tier), "", Suffix(n), t, at, Completes);
    s' := Exec(cfg, s, steps);
    RunKeepsInv(cfg, s, steps);
    NewestHasObject(cfg, s, source);
    ResurrectedIs(cfg, s, s', c, s.clones[source].rows, t, at);
  }

  lemma ResurrectedIs(cfg: Config, s: State, s': State, c: nat, sourceRows: Rows, t: Ticket, at: int)
    requires c in s.clones && sourceRows != [] && t.pos <= |s.clones[c].rows| && sourceRows[0].key in s.objects
    requires ShowsResurrected(s, s', c, ResurrectOutcome(cfg, s.clones[c].rows, sourceRows, s.objects, s.nextId, t, at,
                                                         Completes))
    ensures var k, k' := s.clones[c], s'.clones[c];
      && k'.rows == InsertAt(k.rows, t.pos, CopiedRow(sourceRows[0], s.nextId, t, at))
      && k'.rollups == k.rollups && k'.createdAt == k.createdAt
  {
  }

  lemma NewestHasObject(cfg: Config, s: State, c: nat)
    requires Inv(cfg, s) && c in s.clones && s.clones[c].rows != []
    ensures s.clones[c].rows[0].key in s.objects
  {
    assert CloneOk(cfg, c, s.clones[c], s.objects, s.made, s.nextId);
  }

  /** Names of the source are not names of the clone. */
  lemma StillReady(cfg: Config, s: State, s': State, c: nat, source: nat, n: nat, tier: Tier, entry: Entry, o: RolledUp)
    requires c in s.clones && source != c && Prepared(s, c, 0) && Took(cfg, s, s', source, n, tier, entry, o)
    ensures Prepared(s', c, 0) && s'.clones[c] == s.clones[c]
  {
    forall key | key in s'.made && OwnedBy(key, c)
      ensures key in s.made
    {
      BackupKeyOwned(source, "", Suffix(n));
      if key == Name(source, n) {
        OneOwner(key, c, source);
      }
    }
  }

  /** From any start, a clone without backups can resurrect a period from before its creation and is
      due earlier from then on. */
  lemma ResurrectionMovesAnchorBack(cfg: Config, s0: State, c: nat, source: nat, entry: Entry, end: int, at: int)
    returns (steps: seq<Step>)
    requires cfg.Valid() && Start(s0) && c in s0.clones && source in s0.clones && source != c
    requires !s0.clones[source].active && Fits([entry]) && end < s0.clones[c].createdAt
    ensures Legal(cfg, s0, steps) && c in Exec(cfg, s0, steps).clones
    ensures Exec(cfg, s0, steps).clones[c].createdAt == s0.clones[c].createdAt
    ensures Anchor(Exec(cfg, s0, steps).clones[c]) == end < Anchor(s0.clones[c])
  {
    ReadyAtStart(cfg, s0, c);
    ReadyAtStart(cfg, s0, source);
    var tier := s0.clones[source].tier;
    var a, s1 := FirstBackup(cfg, s0, source, 0, tier, entry, end);
    StillReady(cfg, s0, s1, c, source, 0, tier, entry, TakenFrom(cfg, s0, source, 0, tier, entry, end, 0, Completes));
    NextName(s1, c, 0);
    var b, s2 := ResurrectIt(cfg, s1, c, source, 0, 0, at);
    Join(cfg, s0, a, s1, b, s2);
    steps := a + b;
  }

  // ----- two runs -----

  /** No backup ends after `now`. */
  predicate NoneAfter(rows: Rows, now: int) {
    forall i :: 0 <= i < |rows| ==> rows[i].periodEnd <= now
  }

  lemma {:induction false} KeptEnds(rows: Rows, rank: nat, now: int)
    requires NoneAfter(rows, now)
    ensures NoneAfter(KeepFrom(rows, rank), now)
  {
    if rows != [] {
      assert forall i :: 0 <= i < |rows[1..]| ==> rows[1..][i] == rows[i + 1];
      KeptEnds(rows[1..], rank + 1, now);
    }
  }

  /** What run `r` has done to the clone it had listed. */
  predicate RanBy(s: State, s': State, c: nat, r: nat) {
    && c in s.clones && c in s'.clones && r in s.runs && c in s.runs[r].due
    && var k, k', run := s.clones[c], s'.clones[c], s.runs[r];
    && k'.slots == k.slots + [Slot(run.now, run.due[c].tier, run.due[c].seen)]
    && k'.rollups == k.rollups && NoneAfter(k'.rows, run.now)
    && (forall q :: q in s.runs && q != r ==> q in s'.runs && s'.runs[q] == s.runs[q])
  }

  lemma NoneAfterRollup(cfg: Config, row: BufferRow, rows: Rows, objects: map<Key, Bytes>, id: nat, t: Ticket)
    requires Payload(cfg, Some(row)) != [] && t.pos == 0 && NoneAfter(rows, t.now)
    ensures var o := RollupOutcome(cfg, Some(row), rows, objects, id, t, Completes);
      NoneAfter(o.rows, t.now) && o.row.None?
  {
    var taken := NewRow(cfg, Payload(cfg, Some(row)), row.count, id, t);
    assert NoneAfter(InsertAt(rows, 0, taken), t.now);
    KeptEnds(InsertAt(rows, 0, taken), 1, t.now);
  }

  /** What a scheduled rollup's outcome says of slots, runs and the rest of the clone. */
  lemma ShownRan(s: State, held: State, s': State, c: nat, n: nat, r: nat, t: Ticket, o: RolledUp,
                 made: map<Key, seq<Entry>>)
    requires Prepared(s, c, n) && n + 1 < MAX64 && c in held.clones && held.runs == s.runs && held.made == s.made
    requires held.clones[c].stream == [] && held.clones[c].flushes == map[]
    requires held.clones[c].lastId == StreamId(n + 1, 0)
    requires held.clones[c].slots == s.clones[c].slots && held.clones[c].rollups == s.clones[c].rollups
    requires Starts(held, c, RollupScheduled(c, 0, r), t) && o.row.None? && NoneAfter(o.rows, t.now)
    requires ShowsOutcome(held, s', c, RollupScheduled(c, 0, r), t, o, true, made)
    requires forall key :: key in made ==> key in s.made || key == Name(c, n)
    ensures Prepared(s', c, n + 1) && RanBy(s, s', c, r)
  {
    StillUnused(s, made, s', c, n);
  }

  /** A write, a flush and then the rollup by run `r`. */
  lemma ScheduledDeposit(cfg: Config, s: State, c: nat, n: nat, entry: Entry, r: nat)
    returns (steps: seq<Step>, s': State)
    requires cfg.Valid() && Ready(cfg, s, c, n) && n + 1 < MAX64 && Fits([entry]) && 0 !in s.clones[c].rollups
    requires r in s.runs && c in s.runs[r].due && NoneAfter(s.clones[c].rows, s.runs[r].now)
    ensures Leads(cfg, s, steps, s') && Ready(cfg, s', c, n + 1) && RanBy(s, s', c, r)
  {
    var k, run := s.clones[c], s.runs[r];
    var t := TicketOf(c, n, run.due[c].tier, run.now, 0);
    var held := Put(s, c, Holding(cfg, k, k.tier, StreamId(n + 1, 0), entry));
    var a := Hold(cfg, s, c, k.tier, StreamId(n + 1, 0), entry);
    HoldsOne(cfg, k, k.tier, StreamId(n + 1, 0), entry);
    NextName(s, c, n);
    var b;
    b, s' := BackUp(cfg, held, c, RollupScheduled(c, 0, r), Suffix(n), t, Completes);
    Join(cfg, s, a, held, b, s');
    steps := a + b;
    var row := held.clones[c].buffer.value;
    NoneAfterRollup(cfg, row, k.rows, s.objects, s.nextId, t);
    ShownRan(s, held, s', c, n, r, t, RollupOutcome(cfg, Some(row), k.rows, s.objects, s.nextId, t, Completes),
             s.made[t.key := [entry]]);
  }

  /** The same at the end of a run from the start. */
  lemma RunsOn(cfg: Config, s0: State, past: seq<Step>, s: State, c: nat, n: nat, entry: Entry, r: nat)
    returns (steps: seq<Step>, s': State)
    requires cfg.Valid() && Start(s0) && Reaches(cfg, s0, past, s) && Prepared(s, c, n) && n + 1 < MAX64
    requires Fits([entry]) && 0 !in s.clones[c].rollups
    requires r in s.runs && c in s.runs[r].due && NoneAfter(s.clones[c].rows, s.runs[r].now)
    ensures Reaches(cfg, s0, past + steps, s') && Prepared(s', c, n + 1) && RanBy(s, s', c, r)
  {
    ReachableInv(cfg, s0, past);
    steps, s' := ScheduledDeposit(cfg, s, c, n, entry, r);
    Onward(cfg, s0, past, s, steps, s');
  }

  /** Two runs list a due clone, the second less than an interval after the first, and each rolls it
      up in turn: no two tasks of the clone overlap, and the two rollups are too close. */
  lemma TwoRunsComeTooClose(cfg: Config, s0: State, c: nat, entry: Entry, t1: int, t2: int)
    returns (steps: seq<Step>)
    requires cfg.Valid() && Start(s0) && c in s0.clones && Fits([entry])
    requires Due(cfg, s0.clones[c], t1) && t1 <= t2 < t1 + Interval(cfg.overrideSeconds, s0.clones[c].tier)
    ensures Legal(cfg, s0, steps) && c in Exec(cfg, s0, steps).clones
    ensures var slots := Exec(cfg, s0, steps).clones[c].slots; var tier := s0.clones[c].tier;
      slots == [Slot(t1, tier, 0), Slot(t2, tier, 0)] && !SpacedAt(cfg, slots, 1)
  {
    assert Fresh(s0.clones[c]);
    var past, s2 := BothList(cfg, s0, c, t1, t2);
    var a, s3 := RunsOn(cfg, s0, past, s2, c, 0, entry, 1);
    var b, s4 := RunsOn(cfg, s0, past + a, s3, c, 1, entry, 2);
    steps := past + a + b;
  }

  lemma BothList(cfg: Config, s0: State, c: nat, t1: int, t2: int) returns (steps: seq<Step>, s2: State)
    requires cfg.Valid() && Start(s0) && c in s0.clones && Due(cfg, s0.clones[c], t1) && t1 <= t2
    ensures Reaches(cfg, s0, steps, s2) && s2.clones == s0.clones && Prepared(s2, c, 0)
    ensures 1 in s2.runs && 2 in s2.runs && c in s2.runs[1].due && c in s2.runs[2].due
    ensures s2.runs[1].now == t1 && s2.runs[2].now == t2
    ensures s2.runs[1].due[c] == s2.runs[2].due[c] == Listing(s0.clones[c].tier, 0)
  {
    var s1 := s0.(runs := s0.runs[1 := Run(t1, DueListings(cfg, s0, t1))]);
    s2 := s1.(runs := s1.runs[2 := Run(t2, DueListings(cfg, s1, t2))]);
    assert Fresh(s0.clones[c]);
    Single(cfg, s0, RunBegin(1, t1), s1);
    Extend(cfg, s0, [RunBegin(1, t1)], s1, RunBegin(2, t2), s2);
    steps := [RunBegin(1, t1)] + [RunBegin(2, t2)];
  }

  // ----- a flush beside a rollup -----

  /** The first entry in the buffer, and a rollup that has just read it. */
  ghost predicate HasReadFirst(cfg: Config, k: Clone, entry: Entry, now: int) {
    && k.stream == [] && k.flushes == map[] && k.lastId == StreamId(1, 0) && k.history == [entry]
    && k.rolled == [] && k.rows == [] && HasBuffer(k) && Payload(cfg, k.buffer) == [entry]
    && Reading(cfg, k, 0, entry, now) && 1 !in k.rollups
  }

  lemma ReadHeld(cfg: Config, k: Clone, first: Entry, now: int)
    requires cfg.Valid() && k.stream == [] && k.flushes == map[] && k.rollups == map[] && k.rows == [] && k.rolled == []
    requires k.history == [] && k.buffer.None? && Fits([first])
    ensures HasReadFirst(cfg, StartRollup(Holding(cfg, k, k.tier, StreamId(1, 0), first), 0, now, k.tier, None), first,
                         now)
  {
    HoldsOne(cfg, k, k.tier, StreamId(1, 0), first);
  }

  lemma ReadStep(cfg: Config, s: State, c: nat, g: nat, now: int)
    requires c in s.clones && g !in s.clones[c].rollups
    ensures var k := s.clones[c];
      Steps(cfg, s, RollupForced(c, g, now), Put(s, c, StartRollup(k, g, now, k.tier, None)))
  {
  }

  lemma RowRead(cfg: Config, s0: State, c: nat, first: Entry, now: int) returns (steps: seq<Step>, s2: State)
    requires cfg.Valid() && Ready(cfg, s0, c, 0) && s0.clones[c].rollups == map[] && s0.clones[c].rows == []
    requires s0.clones[c].history == [] && s0.clones[c].rolled == [] && Fits([first])
    ensures Leads(cfg, s0, steps, s2) && c in s2.clones && s2.made == s0.made
    ensures HasReadFirst(cfg, s2.clones[c], first, now)
  {
    var k := s0.clones[c];
    var s1 := Put(s0, c, Holding(cfg, k, k.tier, StreamId(1, 0), first));
    var a := Hold(cfg, s0, c, k.tier, StreamId(1, 0), first);
    s2 := Put(s1, c, StartRollup(s1.clones[c], 0, now, k.tier, None));
    ReadStep(cfg, s1, c, 0, now);
    OneStep(cfg, s1, RollupForced(c, 0, now), s2);
    ReadHeld(cfg, k, first, now);
    Join(cfg, s0, a, s1, [RollupForced(c, 0, now)], s2);
    steps := a + [RollupForced(c, 0, now)];
  }

  lemma FitsOne(first: Entry, second: Entry)
    requires Fits([first, second])
    ensures Fits([first]) && Fits([first] + [second])
  {
    assert [first, second][0] == first && [first, second][1] == second && [first] + [second] == [first, second];
    assert FitsEntry(first) && FitsEntry(second);
  }

  /** The rollup in slot g has archived the one entry it had read, under the n-th name. */
  ghost predicate Archives(s: State, s': State, c: nat, g: nat, n: nat, entry: Entry, now: int) {
    && c in s.clones && c in s'.clones && s'.made == s.made[Name(c, n) := [entry]]
    && var k, k' := s.clones[c], s'.clones[c];
    && k'.rolled == k.rolled + [Name(c, n)] && k'.buffer.None? && k'.rollups == k.rollups[g := Stored]
    && k'.history == k.history && k'.stream == k.stream && (NoneAfter(k.rows, now) ==> NoneAfter(k'.rows, now))
  }

  predicate Reading(cfg: Config, k: Clone, g: nat, entry: Entry, now: int) {
    && g in k.rollups && k.rollups[g].RollingUp? && k.rollups[g].job.now == now
    && Payload(cfg, Some(k.rollups[g].job.row)) == [entry]
  }

  /** Put and commit. */
  lemma FinishRollup(cfg: Config, s: State, c: nat, g: nat, n: nat, entry: Entry, now: int)
    returns (steps: seq<Step>, s': State)
    requires c in s.clones && Reading(cfg, s.clones[c], g, entry, now) && Name(c, n) !in s.made
    requires NoneAfter(s.clones[c].rows, now)
    ensures Reaches(cfg, s, steps, s') && Archives(s, s', c, g, n, entry, now)
  {
    var s1 := Upload(cfg, s, c, g, Name(c, n));
    var upload, commit := RollupUpload(c, g, "", Suffix(n)), Step.RollupCommit(c, g, 0);
    UploadStep(cfg, s, c, g, "", Suffix(n));
    Single(cfg, s, upload, s1);
    CommitStep(cfg, s1, c, g, 0);
    s' := RollupRuns.Committed(cfg, s1, c, g, 0);
    Extend(cfg, s, [upload], s1, commit, s');
    steps := [upload] + [commit];
    FinishedArchives(cfg, s, c, g, n, entry, now);
  }

  lemma FinishedArchives(cfg: Config, s: State, c: nat, g: nat, n: nat, entry: Entry, now: int)
    requires c in s.clones && Reading(cfg, s.clones[c], g, entry, now)
    ensures Archives(s, RollupRuns.Committed(cfg, Upload(cfg, s, c, g, Name(c, n)), c, g, 0), c, g, n, entry, now)
  {
    var k := s.clones[c];
    SetTwice(k, g, Uploaded(k.rollups[g].job, Name(c, n)), Stored);
  }

  lemma ArchivedOnce(cfg: Config, s: State, s': State, c: nat, entry: Entry, now: int)
    requires Archives(s, s', c, 0, 0, entry, now) && s.clones[c].rolled == [] && s.clones[c].stream == []
    ensures var k' := s'.clones[c];
      Archived(s'.made, k'.rolled) + Payload(cfg, k'.buffer) + Entries(k'.stream) == [entry]
  {
    ArchivedAppend(s'.made, [], Name(c, 0));
    assert [] + [Name(c, 0)] == [Name(c, 0)];
  }

  /** A flush that commits between a rollup's read of the buffer row and its commit: the rollup
      deletes the row with the flushed entry in it, and after the trim that entry is nowhere. */
  lemma FlushBesideRollupLosesEntry(cfg: Config, s0: State, c: nat, first: Entry, second: Entry, now: int)
    returns (steps: seq<Step>)
    requires cfg.Valid() && Start(s0) && c in s0.clones && Fits([first, second])
    ensures Legal(cfg, s0, steps) && c in Exec(cfg, s0, steps).clones
    ensures var s := Exec(cfg, s0, steps); var k := s.clones[c];
      && k.history == [first, second]
      && Archived(s.made, k.rolled) + Payload(cfg, k.buffer) + Entries(k.stream) == [first]
  {
    ReadyAtStart(cfg, s0, c);
    FitsOne(first, second);
    var a, s2 := RowRead(cfg, s0, c, first, now);
    var b := WriteAndFlush(cfg, s2, c, StreamId(2, 0), second);
    var s3 := Put(s2, c, Remembered(cfg, s2.clones[c], StreamId(2, 0), second));
    Join(cfg, s0, a, s2, b, s3);
    var d, s5 := FinishRollup(cfg, s3, c, 0, 0, first, now);
    Onward(cfg, s0, a + b, s3, d, s5);
    steps := a + b + d;
    ArchivedOnce(cfg, s3, s5, c, first, now);
  }

  // ----- two rollups of one row -----

  lemma SecondReads(cfg: Config, k: Clone, entry: Entry, now: int)
    requires HasReadFirst(cfg, k, entry, now)
    ensures var k' := StartRollup(k, 1, now, k.tier, None);
      && Reading(cfg, k', 0, entry, now) && Reading(cfg, k', 1, entry, now)
      && k'.rows == [] && k'.rolled == [] && k'.history == [entry] && k'.stream == []
  {
    assert k.buffer == Some(k.buffer.value);
  }

  /** Two rollups that have both read the clone's one entry. */
  lemma BothReading(cfg: Config, s0: State, c: nat, entry: Entry, now: int) returns (steps: seq<Step>, s: State)
    requires cfg.Valid() && Start(s0) && c in s0.clones && Fits([entry])
    ensures Reaches(cfg, s0, steps, s) && c in s.clones && s.made == map[]
    ensures var k := s.clones[c];
      && Reading(cfg, k, 0, entry, now) && Reading(cfg, k, 1, entry, now)
      && k.rows == [] && k.rolled == [] && k.history == [entry] && k.stream == []
  {
    ReadyAtStart(cfg, s0, c);
    var a, s1 := RowRead(cfg, s0, c, entry, now);
    var k := s1.clones[c];
    s := Put(s1, c, StartRollup(k, 1, now, k.tier, None));
    SecondReads(cfg, k, entry, now);
    ReadStep(cfg, s1, c, 1, now);
    Extend(cfg, s0, a, s1, RollupForced(c, 1, now), s);
    steps := a + [RollupForced(c, 1, now)];
  }

  /** A forced rollup beside a scheduled one, or two forced ones: when both read the row before either
      commits, its entry is archived twice. */
  lemma RollupsOverlapRepeatsEntry(cfg: Config, s0: State, c: nat, entry: Entry, now: int)
    returns (steps: seq<Step>, s: State)
    requires cfg.Valid() && Start(s0) && c in s0.clones && Fits([entry])
    ensures Reaches(cfg, s0, steps, s) && c in s.clones
    ensures var k := s.clones[c];
      && k.history == [entry]
      && Archived(s.made, k.rolled) + Payload(cfg, k.buffer) + Entries(k.stream) == [entry, entry]
  {
    var b, d, s1, s2;
    steps, s1 := BothReading(cfg, s0, c, entry, now);
    b, s2 := FinishRollup(cfg, s1, c, 0, 0, entry, now);
    Onward(cfg, s0, steps, s1, b, s2);
    assert |Name(c, 0)| < |Name(c, 1)|;
    d, s := FinishRollup(cfg, s2, c, 1, 1, entry, now);
    Onward(cfg, s0, steps + b, s2, d, s);
    steps := steps + b + d;
    ArchivedAppend(s.made, [], Name(c, 0));
    ArchivedAppend(s.made, [Name(c, 0)], Name(c, 1));
    assert [] + [Name(c, 0)] == [Name(c, 0)];
  }

  // ----- a revert beside another flush -----

  predicate LeadsOn(cfg: Config, k: Clone, c: nat, steps: seq<Step>, k': Clone) {
    LegalOn(cfg, k, c, steps) && ExecOn(cfg, k, c, steps) == k'
  }

  lemma NextOn(cfg: Config, k: Clone, c: nat, steps: seq<Step>, k1: Clone, step: Step, k2: Clone)
    requires LeadsOn(cfg, k, c, steps, k1) && IsLocal(step) && step.c == c
    requires LocallyEnabled(cfg, k1, step) && ApplyLocal(cfg, k1, step) == k2
    ensures LeadsOn(cfg, k, c, steps + [step], k2)
  {
    One(cfg, k1, c, step, k2);
    JoinOn(cfg, k, c, steps, [step]);
  }

  /** Two entries, and two flushes that have read one and both of them. */
  ghost predicate BothRead(k: Clone, k': Clone, first: Entry, second: Entry) {
    && k'.stream == [StreamEntry(StreamId(1, 0), first), StreamEntry(StreamId(2, 0), second)]
    && k'.flushes == map[0 := Flushing(k'.stream[..1]), 1 := Flushing(k'.stream)]
    && k'.history == [first, second] && k'.buffer == k.buffer && k'.rolled == k.rolled
  }

  lemma ReadBoth(cfg: Config, k: Clone, c: nat, first: Entry, second: Entry) returns (steps: seq<Step>, k': Clone)
    requires Fresh(k)
    ensures LeadsOn(cfg, k, c, steps, k') && BothRead(k, k', first, second)
  {
    var k1 := Wrote(k, StreamId(1, 0), first);
    var k2 := k1.(flushes := map[0 := Flushing(k1.stream)]);
    var k3 := Wrote(k2, StreamId(2, 0), second);
    k' := k3.(flushes := map[0 := Flushing(k1.stream), 1 := Flushing(k3.stream)]);
    One(cfg, k, c, Append(c, StreamId(1, 0), first), k1);
    NextOn(cfg, k, c, [Append(c, StreamId(1, 0), first)], k1, FlushRead(c, 0), k2);
    steps := [Append(c, StreamId(1, 0), first)] + [FlushRead(c, 0)];
    NextOn(cfg, k, c, steps, k2, Append(c, StreamId(2, 0), second), k3);
    steps := steps + [Append(c, StreamId(2, 0), second)];
    NextOn(cfg, k, c, steps, k3, FlushRead(c, 1), k');
    steps := steps + [FlushRead(c, 1)];
  }

  /** Both have committed, the first one first. */
  ghost predicate BothCommitted(cfg: Config, k: Clone, k': Clone, first: Entry, second: Entry) {
    && k.stream != [] && k'.stream == k.stream && k'.history == k.history && k'.rolled == k.rolled && k'.buffer.Some?
    && k'.flushes == map[0 := Flushed(k.stream[..1], []), 1 := Flushed(k.stream, [first])]
  }

  lemma CommitIs(cfg: Config, k: Clone, c: nat, f: nat, existing: seq<Entry>, all: seq<Entry>) returns (k': Clone)
    requires cfg.Valid() && f in k.flushes && k.flushes[f].Flushing? && Fits(all)
    requires existing == Payload(cfg, k.buffer) && all == existing + Entries(k.flushes[f].snapshot)
    ensures LocallyEnabled(cfg, k, FlushCommit(c, f)) && ApplyLocal(cfg, k, FlushCommit(c, f)) == k'
    ensures k' == k.(buffer := k'.buffer, flushes := k.flushes[f := Flushed(k.flushes[f].snapshot, existing)])
    ensures k'.buffer.Some? && Payload(cfg, k'.buffer) == all
  {
    PayloadOfRow(cfg, all);
    k' := ApplyLocal(cfg, k, FlushCommit(c, f));
  }

  lemma CommitEach(cfg: Config, k0: Clone, k: Clone, c: nat, first: Entry, second: Entry) returns (k1: Clone, k2: Clone)
    requires cfg.Valid() && Fits([first]) && Fits([first, first, second])
    requires k0.buffer.None? && BothRead(k0, k, first, second)
    ensures LocallyEnabled(cfg, k, FlushCommit(c, 0)) && ApplyLocal(cfg, k, FlushCommit(c, 0)) == k1
    ensures LocallyEnabled(cfg, k1, FlushCommit(c, 1)) && ApplyLocal(cfg, k1, FlushCommit(c, 1)) == k2
    ensures BothCommitted(cfg, k, k2, first, second)
  {
    assert [] + Entries(k.stream[..1]) == [first] && [first] + Entries(k.stream) == [first, first, second];
    k1 := CommitIs(cfg, k, c, 0, [], [first]);
    k2 := CommitIs(cfg, k1, c, 1, [first], [first, first, second]);
  }

  lemma CommitBoth(cfg: Config, k0: Clone, past: seq<Step>, k: Clone, c: nat, first: Entry, second: Entry)
    returns (steps: seq<Step>, k': Clone)
    requires cfg.Valid() && Fits([first]) && Fits([first, first, second])
    requires k0.buffer.None? && LeadsOn(cfg, k0, c, past, k) && BothRead(k0, k, first, second)
    ensures LeadsOn(cfg, k0, c, past + steps, k') && BothCommitted(cfg, k, k', first, second)
  {
    var one, two := [FlushCommit(c, 0)], [FlushCommit(c, 1)];
    var k1;
    k1, k' := CommitEach(cfg, k0, k, c, first, second);
    NextOn(cfg, k0, c, past, k, FlushCommit(c, 0), k1);
    NextOn(cfg, k0, c, past + one, k1, FlushCommit(c, 1), k');
    steps := one + two;
    assert past + one + two == past + steps;
  }

  lemma TrimAndRevert(cfg: Config, k0: Clone, past: seq<Step>, k: Clone, k1: Clone, c: nat, first: Entry, second: Entry)
    returns (steps: seq<Step>, k': Clone)
    requires cfg.Valid() && BothRead(k0, k, first, second) && BothCommitted(cfg, k, k1, first, second)
    requires LeadsOn(cfg, k0, c, past, k1)
    ensures LeadsOn(cfg, k0, c, past + steps, k') && k'.history == [first, second] && k'.rolled == k0.rolled
    ensures k'.stream == [] && Payload(cfg, k'.buffer) == []
  {
    var last := StreamId(2, 0);
    var bound := cfg.trimFrom(last).value;
    assert k1.stream + [] == k1.stream;
    TrimExact(k1.stream, [], bound);
    PayloadOfRow(cfg, []);
    var k2 := k1.(stream := [], flushes := map[0 := Flushed(k.stream[..1], [])]);
    k' := k2.(buffer := RowOf(cfg, []), flushes := map[]);
    assert k1.flushes - {1} == k2.flushes && k2.flushes - {0} == map[];
    NextOn(cfg, k0, c, past, k1, FlushTrim(c, 1, bound), k2);
    NextOn(cfg, k0, c, past + [FlushTrim(c, 1, bound)], k2, FlushRevert(c, 0), k');
    steps := [FlushTrim(c, 1, bound)] + [FlushRevert(c, 0)];
    assert past + [FlushTrim(c, 1, bound)] + [FlushRevert(c, 0)] == past + steps;
  }

  /** Two flushes that overlap: both commit, the second trims the stream, and the first, whose own trim
      raised, writes back what it had found. Then both entries are in no store. */
  lemma RevertBesideFlushLosesEntries(cfg: Config, s0: State, c: nat, first: Entry, second: Entry)
    returns (steps: seq<Step>)
    requires cfg.Valid() && Start(s0) && c in s0.clones && Fits([first]) && Fits([first, first, second])
    ensures Legal(cfg, s0, steps) && c in Exec(cfg, s0, steps).clones
    ensures var s := Exec(cfg, s0, steps); var k := s.clones[c];
      && k.history == [first, second]
      && Archived(s.made, k.rolled) + Payload(cfg, k.buffer) + Entries(k.stream) == []
  {
    var k0 := s0.clones[c];
    assert Fresh(k0);
    var a, k1 := ReadBoth(cfg, k0, c, first, second);
    var b, k2 := CommitBoth(cfg, k0, a, k1, c, first, second);
    var d, k3 := TrimAndRevert(cfg, k0, a + b, k1, k2, c, first, second);
    steps := a + b + d;
    LocalRun(cfg, s0, c, k0, steps);
    PutSame(s0, c);
  }
}
