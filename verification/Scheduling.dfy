/** When scheduled rollups run, over whole runs of the pipeline. */
module Scheduling {
  import opened Wrappers
  import opened Subscriptions
  import opened Retention
  import opened Machine
  import opened Invariant
  import opened Reachable
  import DueQuery

  // ----- the machine's due clones are the query's -----

  ghost predicate EndsAt(rows: Rows, end: int) {
    exists j :: 0 <= j < |rows| && rows[j].periodEnd == end
  }

  /** The two tables the query reads hold exactly the machine's clones and rows. */
  ghost predicate Listed(s: State, profiles: seq<DueQuery.Profile>, ended: seq<DueQuery.Ended>) {
    && (forall p :: p in profiles <==>
          p.id in s.clones && p == DueQuery.Profile(p.id, s.clones[p.id].tier, s.clones[p.id].createdAt))
    && (forall i :: 0 <= i < |ended| ==>
          ended[i].clone in s.clones && EndsAt(s.clones[ended[i].clone].rows, ended[i].periodEnd))
    && (forall c, j :: c in s.clones && 0 <= j < |s.clones[c].rows| ==>
          DueQuery.Ended(c, s.clones[c].rows[j].periodEnd) in ended)
  }

  lemma AnchorIsDue(cfg: Config, s: State, ended: seq<DueQuery.Ended>, profiles: seq<DueQuery.Profile>,
                    c: nat, now: int)
    requires Inv(cfg, s) && Listed(s, profiles, ended) && c in s.clones
    ensures var p := DueQuery.Profile(c, s.clones[c].tier, s.clones[c].createdAt);
      DueQuery.IsDue(cfg.overrideSeconds, ended, now, p) <==> Due(cfg, s.clones[c], now)
  {
    var k := s.clones[c];
    assert CloneOk(cfg, c, k, s.objects, s.made, s.nextId);
    if k.rows == [] {
      assert forall i :: 0 <= i < |ended| ==> ended[i].clone != c;
    } else {
      var newest := DueQuery.Ended(c, k.rows[0].periodEnd);
      assert newest in ended;
      forall i | 0 <= i < |ended| && ended[i].clone == c
        ensures ended[i].periodEnd <= k.rows[0].periodEnd
      {
        var j :| 0 <= j < |k.rows| && k.rows[j].periodEnd == ended[i].periodEnd;
        if j > 0 {
          assert k.rows[0].periodEnd >= k.rows[j].periodEnd;
        }
      }
    }
  }

  /** Beginning a run picks exactly the clones the SQL query returns. */
  lemma DueListingsIsQuery(cfg: Config, s: State, profiles: seq<DueQuery.Profile>, ended: seq<DueQuery.Ended>, now: int)
    requires Inv(cfg, s) && Listed(s, profiles, ended)
    ensures forall c :: c in DueListings(cfg, s, now) <==>
      exists p :: p in DueQuery.FindDueClones(cfg.overrideSeconds, profiles, ended, now) && p.id == c
  {
    DueQuery.FindDueExact(cfg.overrideSeconds, profiles, ended, now);
    var due := DueQuery.FindDueClones(cfg.overrideSeconds, profiles, ended, now);
    forall c
      ensures c in DueListings(cfg, s, now) <==> exists p :: p in due && p.id == c
    {
      if c in s.clones {
        AnchorIsDue(cfg, s, ended, profiles, c, now);
      }
      DueIsListed(cfg, s, profiles, ended, now, c, due);
    }
  }

  lemma DueIsListed(cfg: Config, s: State, profiles: seq<DueQuery.Profile>, ended: seq<DueQuery.Ended>, now: int,
                    c: nat, due: seq<DueQuery.Profile>)
    requires Listed(s, profiles, ended)
    requires forall p :: multiset(due)[p] ==
               if DueQuery.IsDue(cfg.overrideSeconds, ended, now, p) then multiset(profiles)[p] else 0
    requires c in s.clones ==>
               var p := DueQuery.Profile(c, s.clones[c].tier, s.clones[c].createdAt);
               DueQuery.IsDue(cfg.overrideSeconds, ended, now, p) <==> Due(cfg, s.clones[c], now)
    ensures c in DueListings(cfg, s, now) <==> exists p :: p in due && p.id == c
  {
    if c in s.clones {
      var p := DueQuery.Profile(c, s.clones[c].tier, s.clones[c].createdAt);
      assert p in profiles;
      assert multiset(due)[p] == if Due(cfg, s.clones[c], now) then multiset(profiles)[p] else 0;
    }
    if p :| p in due && p.id == c {
      assert multiset(due)[p] > 0;
      assert p in profiles;
    }
  }

  // ----- the anchor -----

  ghost predicate AnchorKept(k: Clone, k': Clone) {
    k.rows != [] ==> k'.rows != [] && k'.rows[0].periodEnd >= k.rows[0].periodEnd
  }

  lemma InsertAnchor(rows: Rows, pos: nat, row: Backup)
    requires RanksAt(rows, pos, row.periodEnd)
    ensures var out := InsertAt(rows, pos, row);
      out != [] && out[0].periodEnd >= row.periodEnd
      && (rows != [] ==> out[0].periodEnd >= rows[0].periodEnd)
  {
    var out := InsertAt(rows, pos, row);
    assert out[0] == if pos == 0 then row else rows[0];
  }

  /** No prune is after the newest row, whatever has been inserted or deleted since it selected. */
  lemma SparesNewest(cfg: Config, c: nat, k: Clone, g: nat, s: State)
    requires ArchiveOk(cfg, c, k, s.objects, s.made, s.nextId) && k.rows != []
    requires g in k.rollups && k.rollups[g].Pruning?
    ensures k.rows[0].id !in Ids(k.rollups[g].stale)
  {
    assert RollupOk(cfg, c, k, k.rollups[g], s.objects, s.made, s.nextId);
    forall j | 0 <= j < |k.rollups[g].stale|
      ensures k.rollups[g].stale[j].id != k.rows[0].id
    {
      assert Condemned(c, k.rollups[g].stale[j], k.rows, s.made, s.nextId);
    }
  }

  lemma LocalAnchor(cfg: Config, c: nat, k: Clone, step: Step, s: State)
    requires ArchiveOk(cfg, c, k, s.objects, s.made, s.nextId) && IsLocal(step) && LocallyEnabled(cfg, k, step)
    ensures var k' := ApplyLocal(cfg, k, step);
      AnchorKept(k, k') && k'.slots == k.slots && k'.createdAt == k.createdAt && (k.rows == [] ==> k'.rows == [])
  {
    LocalFrame(cfg, k, step);
    if step.PruneRows? && k.rows != [] {
      SparesNewest(cfg, c, k, step.g, s);
      DeleteKeepsNewest(k.rows, Ids(k.rollups[step.g].stale));
    }
  }

  lemma SharedAnchor(cfg: Config, s: State, step: Step)
    requires !step.RunBegin? && !step.RunEnd? && step.c in s.clones && EnabledShared(cfg, s, s.clones[step.c], step)
    ensures step.c in ApplyShared(cfg, s, step).clones
    ensures var k, k' := s.clones[step.c], ApplyShared(cfg, s, step).clones[step.c];
      && AnchorKept(k, k') && k'.createdAt == k.createdAt
      && (!step.RollupCommit? && !step.ResurrectCommit? ==> k'.rows == k.rows)
      && (step.RollupCommit? && k.rows == [] ==> Anchor(k') == k.rollups[step.g].job.now)
      && (step.ResurrectCommit? && k.rows == [] ==> Anchor(k') == step.copy.row.periodEnd)
  {
    var k := s.clones[step.c];
    if step.RollupCommit? {
      InsertAnchor(k.rows, step.pos, RolledUpRow(cfg, s.nextId, k.rollups[step.g].job, k.rollups[step.g].key));
    } else if step.ResurrectCommit? {
      InsertAnchor(k.rows, step.pos, ResurrectedRow(s.nextId, step.copy, step.at));
    }
  }

  lemma StepAnchor(cfg: Config, s: State, step: Step, c: nat)
    requires Inv(cfg, s) && Enabled(cfg, s, step) && c in s.clones
    ensures c in Apply(cfg, s, step).clones
    ensures AnchorKept(s.clones[c], Apply(cfg, s, step).clones[c])
  {
    StepGrows(cfg, s, step);
    if On(step, c) {
      if IsLocal(step) {
        assert CloneOk(cfg, c, s.clones[c], s.objects, s.made, s.nextId);
        LocalAnchor(cfg, c, s.clones[c], step, s);
      } else {
        SharedAnchor(cfg, s, step);
      }
    }
  }

  /** Once a clone has a backup row it always has one, and its due anchor never moves back, under
      any run of flushes, rollups, prunes, resurrections and deaths, overlapping as they may. */
  lemma {:induction false} AnchorNeverMovesBack(cfg: Config, s: State, steps: seq<Step>, c: nat)
    requires cfg.Valid() && Inv(cfg, s) && Legal(cfg, s, steps) && c in s.clones && s.clones[c].rows != []
    ensures var s' := Exec(cfg, s, steps);
      c in s'.clones && s'.clones[c].rows != [] && Anchor(s'.clones[c]) >= Anchor(s.clones[c])
    decreases |steps|
  {
    if steps != [] {
      StepAnchor(cfg, s, steps[0], c);
      StepKeepsInv(cfg, s, steps[0]);
      AnchorNeverMovesBack(cfg, Apply(cfg, s, steps[0]), steps[1..], c);
    }
  }

  /** The first row of a clone, ending before the clone was created. */
  predicate StartsBeforeCreation(k: Clone, step: Step) {
    && k.rows == []
    && ((step.RollupCommit? && step.g in k.rollups && k.rollups[step.g].Uploaded?
         && k.rollups[step.g].job.now < k.createdAt)
        || (step.ResurrectCommit? && step.copy.row.periodEnd < k.createdAt))
  }

  lemma LocalNeverBack(cfg: Config, c: nat, k: Clone, step: Step, s: State)
    requires ArchiveOk(cfg, c, k, s.objects, s.made, s.nextId) && IsLocal(step) && LocallyEnabled(cfg, k, step)
    ensures Anchor(ApplyLocal(cfg, k, step)) >= Anchor(k) && !StartsBeforeCreation(k, step)
  {
    LocalAnchor(cfg, c, k, step, s);
  }

  lemma SharedBackIff(cfg: Config, s: State, step: Step)
    requires !step.RunBegin? && !step.RunEnd? && step.c in s.clones && EnabledShared(cfg, s, s.clones[step.c], step)
    ensures step.c in ApplyShared(cfg, s, step).clones
    ensures Anchor(ApplyShared(cfg, s, step).clones[step.c]) < Anchor(s.clones[step.c])
            <==> StartsBeforeCreation(s.clones[step.c], step)
  {
    SharedAnchor(cfg, s, step);
  }

  /** Exactly when a step moves a clone's anchor back: it inserts the clone's first row, rolled up
      at a time or resurrected with a period end from before the clone's creation. */
  lemma AnchorMovesBackIff(cfg: Config, s: State, step: Step, c: nat)
    requires Inv(cfg, s) && Enabled(cfg, s, step) && c in s.clones
    ensures c in Apply(cfg, s, step).clones
    ensures Anchor(Apply(cfg, s, step).clones[c]) < Anchor(s.clones[c])
            <==> On(step, c) && StartsBeforeCreation(s.clones[c], step)
  {
    if !On(step, c) {
      StepGrows(cfg, s, step);
    } else if IsLocal(step) {
      assert CloneOk(cfg, c, s.clones[c], s.objects, s.made, s.nextId);
      LocalNeverBack(cfg, c, s.clones[c], step, s);
    } else {
      SharedBackIff(cfg, s, step);
    }
  }

  /** A scheduled rollup of an empty buffer does nothing to the clone, so it stays due. */
  lemma EmptyRollupStaysDue(cfg: Config, s: State, c: nat, g: nat, r: nat, later: int)
    requires Enabled(cfg, s, RollupScheduled(c, g, r)) && !HasBuffer(s.clones[c])
    requires Due(cfg, s.clones[c], s.runs[r].now) && s.runs[r].now <= later
    ensures c in Apply(cfg, s, RollupScheduled(c, g, r)).clones
    ensures Due(cfg, Apply(cfg, s, RollupScheduled(c, g, r)).clones[c], later)
    ensures Apply(cfg, s, RollupScheduled(c, g, r)).clones[c] == s.clones[c]
  {
  }

  // ----- spacing: any number of runs at a time -----

  /** Each of the first `seen` scheduled rollups is an interval or more before `now`. */
  ghost predicate FitsAfter(cfg: Config, slots: seq<Slot>, seen: nat, now: int, tier: Tier) {
    && seen <= |slots|
    && (forall j :: 0 <= j < seen ==> slots[j].time + Interval(cfg.overrideSeconds, tier) <= now)
  }

  ghost predicate JobFits(cfg: Config, slots: seq<Slot>, job: Job) {
    job.seen.Some? && FitsAfter(cfg, slots, job.seen.value, job.now, job.tier)
  }

  /** Some row ends at `time` or later. */
  predicate Reached(rows: Rows, time: int) {
    rows != [] && time <= rows[0].periodEnd
  }

  ghost predicate CloneSpaced(cfg: Config, k: Clone) {
    && (forall i :: 0 <= i < |k.slots| ==>
          k.slots[i].seen <= i && FitsAfter(cfg, k.slots, k.slots[i].seen, k.slots[i].time, k.slots[i].tier))
    && (forall i :: 0 <= i < |k.slots| ==> Reached(k.rows, k.slots[i].time))
    && (forall g :: g in k.rollups && Scheduled(k.rollups[g]) ==> JobFits(cfg, k.slots, k.rollups[g].job))
  }

  ghost predicate Spacing(cfg: Config, s: State) {
    && (forall c :: c in s.clones ==> CloneSpaced(cfg, s.clones[c]))
    && (forall r, c :: r in s.runs && c in s.runs[r].due && c in s.clones ==>
          FitsAfter(cfg, s.clones[c].slots, s.runs[r].due[c].seen, s.runs[r].now, s.runs[r].due[c].tier))
  }

  /** Enough for a step on one clone: slots are only added and runs only lose listings. */
  lemma SpacingOfPut(cfg: Config, s: State, s': State, c: nat, k: Clone)
    requires Spacing(cfg, s) && c in s.clones && s'.clones == s.clones[c := k]
    requires CloneSpaced(cfg, k) && s.clones[c].slots <= k.slots
    requires forall r :: r in s'.runs ==> r in s.runs && Fewer(s'.runs[r], s.runs[r])
    ensures Spacing(cfg, s')
  {
    forall r, d | r in s'.runs && d in s'.runs[r].due && d in s'.clones
      ensures FitsAfter(cfg, s'.clones[d].slots, s'.runs[r].due[d].seen, s'.runs[r].now, s'.runs[r].due[d].tier)
    {
      assert FitsAfter(cfg, s.clones[d].slots, s.runs[r].due[d].seen, s.runs[r].now, s.runs[r].due[d].tier);
    }
  }

  ghost predicate Fewer(run: Run, run0: Run) {
    run.now == run0.now && forall c :: c in run.due ==> c in run0.due && run.due[c] == run0.due[c]
  }

  lemma CommitSpaced(cfg: Config, k: Clone, g: nat, pos: nat, id: nat)
    requires CloneSpaced(cfg, k) && g in k.rollups && k.rollups[g].Uploaded?
    requires RanksAt(k.rows, pos, k.rollups[g].job.now) && Payload(cfg, Some(k.rollups[g].job.row)) != []
    ensures CloneSpaced(cfg, CommitRollup(cfg, k, g, pos, id)) && k.slots <= CommitRollup(cfg, k, g, pos, id).slots
  {
    var k' := CommitRollup(cfg, k, g, pos, id);
    InsertAnchor(k.rows, pos, RolledUpRow(cfg, id, k.rollups[g].job, k.rollups[g].key));
    assert Scheduled(k.rollups[g]) ==> JobFits(cfg, k.slots, k.rollups[g].job);
    forall h | h in k'.rollups && Scheduled(k'.rollups[h])
      ensures JobFits(cfg, k'.slots, k'.rollups[h].job)
    {
      assert JobFits(cfg, k.slots, k.rollups[h].job);
    }
    forall i | 0 <= i < |k.slots|
      ensures k'.slots[i] == k.slots[i]
      ensures FitsAfter(cfg, k'.slots, k'.slots[i].seen, k'.slots[i].time, k'.slots[i].tier)
    {
      assert FitsAfter(cfg, k.slots, k.slots[i].seen, k.slots[i].time, k.slots[i].tier);
    }
  }

  /** Every scheduled rollup that holds the row did so before. */
  ghost predicate NoNewJobs(k: Clone, k': Clone) {
    forall g :: g in k'.rollups && Scheduled(k'.rollups[g]) ==>
      g in k.rollups && Scheduled(k.rollups[g]) && k'.rollups[g].job == k.rollups[g].job
  }

  /** A step that adds no slot and starts no scheduled rollup. */
  lemma SameSlots(cfg: Config, k: Clone, k': Clone)
    requires CloneSpaced(cfg, k) && k'.slots == k.slots && AnchorKept(k, k')
    requires NoNewJobs(k, k')
    ensures CloneSpaced(cfg, k')
  {
    forall g | g in k'.rollups && Scheduled(k'.rollups[g])
      ensures JobFits(cfg, k'.slots, k'.rollups[g].job)
    {
      assert JobFits(cfg, k.slots, k.rollups[g].job);
    }
    forall i | 0 <= i < |k'.slots|
      ensures k'.slots[i].seen <= i && Reached(k'.rows, k'.slots[i].time)
      ensures FitsAfter(cfg, k'.slots, k'.slots[i].seen, k'.slots[i].time, k'.slots[i].tier)
    {
      assert k.slots[i].seen <= i && Reached(k.rows, k.slots[i].time);
      assert FitsAfter(cfg, k.slots, k.slots[i].seen, k.slots[i].time, k.slots[i].tier);
    }
  }

  lemma SharedStepSpacing(cfg: Config, s: State, step: Step)
    requires Spacing(cfg, s) && !step.RunBegin? && !step.RunEnd? && step.c in s.clones
    requires EnabledShared(cfg, s, s.clones[step.c], step)
    ensures Spacing(cfg, ApplyShared(cfg, s, step))
  {
    var c, s' := step.c, ApplyShared(cfg, s, step);
    SharedAnchor(cfg, s, step);
    if step.RollupCommit? {
      CommitSpaced(cfg, s.clones[c], step.g, step.pos, s.nextId);
    } else if step.RollupScheduled? {
      ScheduledSpaced(cfg, s, c, step.g, step.run);
    } else {
      SameSlots(cfg, s.clones[c], s'.clones[c]);
    }
    SpacingOfPut(cfg, s, s', c, s'.clones[c]);
  }

  lemma ScheduledSpaced(cfg: Config, s: State, c: nat, g: nat, r: nat)
    requires Spacing(cfg, s) && c in s.clones && r in s.runs && c in s.runs[r].due && g !in s.clones[c].rollups
    ensures c in BeginScheduled(s, c, g, r).clones && CloneSpaced(cfg, BeginScheduled(s, c, g, r).clones[c])
  {
    var run, k := s.runs[r], s.clones[c];
    assert CloneSpaced(cfg, k);
    assert FitsAfter(cfg, k.slots, run.due[c].seen, run.now, run.due[c].tier);
    if HasBuffer(k) {
      JobSpaced(cfg, k, g, Job(run.now, run.due[c].tier, k.buffer.value, Some(run.due[c].seen)));
    }
  }

  lemma JobSpaced(cfg: Config, k: Clone, g: nat, job: Job)
    requires CloneSpaced(cfg, k) && g !in k.rollups && (job.seen.Some? ==> JobFits(cfg, k.slots, job))
    ensures CloneSpaced(cfg, SetRollup(k, g, RollingUp(job)))
  {
    var k' := SetRollup(k, g, RollingUp(job));
    forall h | h in k'.rollups && Scheduled(k'.rollups[h])
      ensures JobFits(cfg, k'.slots, k'.rollups[h].job)
    {
      if h != g {
        assert JobFits(cfg, k.slots, k.rollups[h].job);
      }
    }
    forall i | 0 <= i < |k'.slots|
      ensures k'.slots[i].seen <= i && Reached(k'.rows, k'.slots[i].time)
      ensures FitsAfter(cfg, k'.slots, k'.slots[i].seen, k'.slots[i].time, k'.slots[i].tier)
    {
      assert k.slots[i].seen <= i && Reached(k.rows, k.slots[i].time);
      assert FitsAfter(cfg, k.slots, k.slots[i].seen, k.slots[i].time, k.slots[i].tier);
    }
  }

  lemma LocalJobs(cfg: Config, k: Clone, step: Step)
    requires IsLocal(step) && LocallyEnabled(cfg, k, step)
    ensures var k' := ApplyLocal(cfg, k, step);
      k'.slots == k.slots && NoNewJobs(k, k')
  {
    LocalFrame(cfg, k, step);
  }

  lemma LocalSpaced(cfg: Config, c: nat, k: Clone, step: Step, s: State)
    requires ArchiveOk(cfg, c, k, s.objects, s.made, s.nextId) && CloneSpaced(cfg, k)
    requires IsLocal(step) && LocallyEnabled(cfg, k, step)
    ensures CloneSpaced(cfg, ApplyLocal(cfg, k, step)) && ApplyLocal(cfg, k, step).slots == k.slots
  {
    LocalAnchor(cfg, c, k, step, s);
    LocalJobs(cfg, k, step);
    SameSlots(cfg, k, ApplyLocal(cfg, k, step));
  }

  lemma LocalStepSpacing(cfg: Config, s: State, step: Step)
    requires Inv(cfg, s) && Spacing(cfg, s) && IsLocal(step) && step.c in s.clones
    requires LocallyEnabled(cfg, s.clones[step.c], step)
    ensures Spacing(cfg, Put(s, step.c, ApplyLocal(cfg, s.clones[step.c], step)))
  {
    var c, k := step.c, s.clones[step.c];
    var k' := ApplyLocal(cfg, k, step);
    assert CloneOk(cfg, c, k, s.objects, s.made, s.nextId);
    LocalSpaced(cfg, c, k, step, s);
    SpacingOfPut(cfg, s, Put(s, c, k'), c, k');
  }

  /** The query lists a clone only when its anchor, and so every slot, is an interval back. */
  lemma RunBeginSpacing(cfg: Config, s: State, r: nat, now: int)
    requires Spacing(cfg, s)
    ensures Spacing(cfg, s.(runs := s.runs[r := Run(now, DueListings(cfg, s, now))]))
  {
    forall c | c in DueListings(cfg, s, now)
      ensures FitsAfter(cfg, s.clones[c].slots, |s.clones[c].slots|, now, s.clones[c].tier)
    {
      assert CloneSpaced(cfg, s.clones[c]);
    }
  }

  lemma StepSpacing(cfg: Config, s: State, step: Step)
    requires Inv(cfg, s) && Spacing(cfg, s) && Enabled(cfg, s, step)
    ensures Spacing(cfg, Apply(cfg, s, step))
  {
    if step.RunBegin? {
      RunBeginSpacing(cfg, s, step.run, step.now);
    } else if step.RunEnd? {
    } else if IsLocal(step) {
      LocalStepSpacing(cfg, s, step);
    } else {
      SharedStepSpacing(cfg, s, step);
    }
  }

  lemma {:induction false} RunSpacing(cfg: Config, s: State, steps: seq<Step>)
    requires cfg.Valid() && Inv(cfg, s) && Spacing(cfg, s) && Legal(cfg, s, steps)
    ensures Spacing(cfg, Exec(cfg, s, steps))
    decreases |steps|
  {
    if steps != [] {
      StepKeepsInv(cfg, s, steps[0]);
      StepSpacing(cfg, s, steps[0]);
      RunSpacing(cfg, Apply(cfg, s, steps[0]), steps[1..]);
    }
  }

  /** The gap before the i-th scheduled rollup is an interval of its tier or more. */
  predicate SpacedAt(cfg: Config, slots: seq<Slot>, i: nat)
    requires 0 < i < |slots|
  {
    slots[i - 1].time + Interval(cfg.overrideSeconds, slots[i].tier) <= slots[i].time
  }

  /** In every reachable state, with any number of runs in progress at a time: a scheduled rollup is
      an interval or more after every one committed before its own run began. So two that follow
      each other are too close only if the earlier was committed after the later's run had already
      listed the clone. Forced rollups, resurrections, tier changes and a clock that goes back make
      no difference. */
  lemma SpacedSinceListing(cfg: Config, s: State, steps: seq<Step>, c: nat)
    requires cfg.Valid() && Start(s) && Legal(cfg, s, steps) && c in Exec(cfg, s, steps).clones
    ensures var slots := Exec(cfg, s, steps).clones[c].slots;
      && (forall i :: 0 <= i < |slots| ==> slots[i].seen <= i)
      && (forall i, j :: 0 <= i < |slots| && 0 <= j < slots[i].seen && j < |slots| ==>
            slots[j].time + Interval(cfg.overrideSeconds, slots[i].tier) <= slots[i].time)
      && (forall i :: 0 < i < |slots| && !SpacedAt(cfg, slots, i) ==> slots[i].seen < i)
  {
    StartInv(cfg, s);
    forall d | d in s.clones
      ensures CloneSpaced(cfg, s.clones[d])
    {
      assert Fresh(s.clones[d]);
    }
    RunSpacing(cfg, s, steps);
    var slots := Exec(cfg, s, steps).clones[c].slots;
    assert CloneSpaced(cfg, Exec(cfg, s, steps).clones[c]);
    forall i | 0 <= i < |slots|
      ensures FitsAfter(cfg, slots, slots[i].seen, slots[i].time, slots[i].tier)
    {
    }
  }

  // ----- spacing: no run begins while another has the clone -----

  /** Some run has the clone on its list or is rolling it up. */
  predicate Claimed(s: State, c: nat) {
    && c in s.clones
    && ((exists r :: r in s.runs && c in s.runs[r].due)
        || (exists g :: g in s.clones[c].rollups && Scheduled(s.clones[c].rollups[g])))
  }

  /** No run lists the clone while it is claimed. */
  predicate ListedOneAtATime(cfg: Config, s: State, steps: seq<Step>, c: nat)
    requires Legal(cfg, s, steps)
    decreases |steps|
  {
    steps == []
    || (!(steps[0].RunBegin? && Claimed(s, c) && Due(cfg, s.clones[c], steps[0].now))
        && ListedOneAtATime(cfg, Apply(cfg, s, steps[0]), steps[1..], c))
  }

  /** At most one claim, made after every slot so far. */
  ghost predicate OneClaim(s: State, c: nat) {
    && c in s.clones
    && var k := s.clones[c];
    && (forall r, r' :: r in s.runs && r' in s.runs && c in s.runs[r].due && c in s.runs[r'].due ==> r == r')
    && (forall r, g :: r in s.runs && c in s.runs[r].due && g in k.rollups ==> !Scheduled(k.rollups[g]))
    && (forall r :: r in s.runs && c in s.runs[r].due ==> s.runs[r].due[c].seen == |k.slots|)
    && (forall g, h ::
          g in k.rollups && h in k.rollups && Scheduled(k.rollups[g]) && Scheduled(k.rollups[h]) ==> g == h)
    && (forall g :: g in k.rollups && Scheduled(k.rollups[g]) ==> k.rollups[g].job.seen == Some(|k.slots|))
    && (forall i :: 0 <= i < |k.slots| ==> k.slots[i].seen == i)
  }

  lemma LocalOneClaim(cfg: Config, s: State, step: Step)
    requires IsLocal(step) && OneClaim(s, step.c) && LocallyEnabled(cfg, s.clones[step.c], step)
    ensures OneClaim(Put(s, step.c, ApplyLocal(cfg, s.clones[step.c], step)), step.c)
  {
    LocalJobs(cfg, s.clones[step.c], step);
  }

  lemma CommitOneClaim(cfg: Config, s: State, step: Step)
    requires step.RollupCommit? && OneClaim(s, step.c) && EnabledShared(cfg, s, s.clones[step.c], step)
    ensures OneClaim(ApplyShared(cfg, s, step), step.c)
  {
  }

  lemma ScheduledOneClaim(cfg: Config, s: State, step: Step)
    requires step.RollupScheduled? && OneClaim(s, step.c) && EnabledShared(cfg, s, s.clones[step.c], step)
    ensures OneClaim(ApplyShared(cfg, s, step), step.c)
  {
  }

  lemma OtherJobs(cfg: Config, s: State, step: Step)
    requires step.RollupUpload? || step.PruneObject?
          || step.ResurrectRead? || step.ResurrectCopy? || step.ResurrectCommit?
    requires step.c in s.clones && EnabledShared(cfg, s, s.clones[step.c], step)
    ensures var s' := ApplyShared(cfg, s, step);
      && s'.runs == s.runs && step.c in s'.clones
      && s'.clones[step.c].slots == s.clones[step.c].slots && NoNewJobs(s.clones[step.c], s'.clones[step.c])
  {
  }

  lemma OtherOneClaim(cfg: Config, s: State, step: Step)
    requires step.RollupUpload? || step.PruneObject?
          || step.ResurrectRead? || step.ResurrectCopy? || step.ResurrectCommit?
    requires OneClaim(s, step.c) && EnabledShared(cfg, s, s.clones[step.c], step)
    ensures OneClaim(ApplyShared(cfg, s, step), step.c)
  {
    OtherJobs(cfg, s, step);
    StillOneClaim(s, ApplyShared(cfg, s, step), step.c);
  }

  lemma StillOneClaim(s: State, s': State, c: nat)
    requires OneClaim(s, c) && c in s'.clones && s'.runs == s.runs
    requires s'.clones[c].slots == s.clones[c].slots && NoNewJobs(s.clones[c], s'.clones[c])
    ensures OneClaim(s', c)
  {
  }

  lemma SharedOneClaim(cfg: Config, s: State, step: Step)
    requires !step.RunBegin? && !step.RunEnd? && OneClaim(s, step.c)
    requires EnabledShared(cfg, s, s.clones[step.c], step)
    ensures OneClaim(ApplyShared(cfg, s, step), step.c)
  {
    if step.RollupCommit? {
      CommitOneClaim(cfg, s, step);
    } else if step.RollupScheduled? {
      ScheduledOneClaim(cfg, s, step);
    } else {
      OtherOneClaim(cfg, s, step);
    }
  }

  lemma ElsewhereOneClaim(cfg: Config, s: State, step: Step, c: nat)
    requires !step.RunBegin? && !step.RunEnd? && step.c in s.clones && step.c != c && OneClaim(s, c)
    requires EnabledShared(cfg, s, s.clones[step.c], step)
    ensures OneClaim(ApplyShared(cfg, s, step), c)
  {
  }

  lemma StepOneClaim(cfg: Config, s: State, step: Step, c: nat)
    requires Enabled(cfg, s, step) && OneClaim(s, c)
    requires step.RunBegin? ==> !(Claimed(s, c) && Due(cfg, s.clones[c], step.now))
    ensures OneClaim(Apply(cfg, s, step), c)
  {
    if step.RunBegin? || step.RunEnd? {
    } else if step.c == c {
      OwnOneClaim(cfg, s, step);
    } else if !IsLocal(step) {
      ElsewhereOneClaim(cfg, s, step, c);
    }
  }

  lemma OwnOneClaim(cfg: Config, s: State, step: Step)
    requires !step.RunBegin? && !step.RunEnd? && Enabled(cfg, s, step) && OneClaim(s, step.c)
    ensures OneClaim(Apply(cfg, s, step), step.c)
  {
    if IsLocal(step) {
      LocalOneClaim(cfg, s, step);
    } else {
      SharedOneClaim(cfg, s, step);
    }
  }

  lemma {:induction false} RunOneClaim(cfg: Config, s: State, steps: seq<Step>, c: nat)
    requires Legal(cfg, s, steps) && ListedOneAtATime(cfg, s, steps, c) && OneClaim(s, c)
    ensures OneClaim(Exec(cfg, s, steps), c)
    decreases |steps|
  {
    if steps != [] {
      StepOneClaim(cfg, s, steps[0], c);
      RunOneClaim(cfg, Apply(cfg, s, steps[0]), steps[1..], c);
    }
  }

  function Times(slots: seq<Slot>): (times: seq<int>)
    ensures |times| == |slots|
  {
    seq(|slots|, i requires 0 <= i < |slots| => slots[i].time)
  }

  /** When no run lists the clone while another still has it on its list or is rolling it up, every
      scheduled rollup is an interval of its tier or more after the one before. */
  lemma ScheduledRollupsAreSpaced(cfg: Config, s: State, steps: seq<Step>, c: nat)
    requires cfg.Valid() && Start(s) && Legal(cfg, s, steps) && ListedOneAtATime(cfg, s, steps, c) && c in s.clones
    ensures c in Exec(cfg, s, steps).clones
    ensures var slots := Exec(cfg, s, steps).clones[c].slots;
      forall i :: 0 < i < |slots| ==> SpacedAt(cfg, slots, i)
  {
    assert Fresh(s.clones[c]);
    RunOneClaim(cfg, s, steps, c);
    SpacedSinceListing(cfg, s, steps, c);
  }

  /** In seconds: the gap that the tier, or the override, asks for before the i-th. */
  ghost predicate ApartAt(cfg: Config, slots: seq<Slot>, i: nat)
    requires 0 < i < |slots|
  {
    var gap := slots[i].time - slots[i - 1].time;
    match cfg.overrideSeconds
    case Some(n) => gap >= n
    case None =>
      match slots[i].tier
      case Free => gap >= 2592000
      case Standard => gap >= 604800
      case Premium => gap >= 86400
  }

  lemma ScheduledRollupsApart(cfg: Config, s: State, steps: seq<Step>, c: nat)
    requires cfg.Valid() && Start(s) && Legal(cfg, s, steps) && ListedOneAtATime(cfg, s, steps, c) && c in s.clones
    ensures c in Exec(cfg, s, steps).clones
    ensures var slots := Exec(cfg, s, steps).clones[c].slots;
      forall i :: 0 < i < |slots| ==> ApartAt(cfg, slots, i)
  {
    ScheduledRollupsAreSpaced(cfg, s, steps, c);
    var slots := Exec(cfg, s, steps).clones[c].slots;
    forall i | 0 < i < |slots|
      ensures ApartAt(cfg, slots, i)
    {
      assert SpacedAt(cfg, slots, i);
    }
  }

  /** Then a clone on one tier has, in any window of length L, at most floor(L / 2592000) + 1 scheduled
      rollups if free, floor(L / 604800) + 1 if standard, floor(L / 86400) + 1 if premium; with an
      override of n seconds, n positive, floor(L / n) + 1. */
  lemma ScheduledRollupsInWindow(cfg: Config, s: State, steps: seq<Step>, c: nat, tier: Tier, from: int, length: nat)
    requires cfg.Valid() && Start(s) && Legal(cfg, s, steps) && ListedOneAtATime(cfg, s, steps, c) && c in s.clones
    requires (cfg.overrideSeconds.Some? ==> cfg.overrideSeconds.value > 0) && c in Exec(cfg, s, steps).clones
    requires var slots := Exec(cfg, s, steps).clones[c].slots;
      forall i :: 0 <= i < |slots| ==> slots[i].tier == tier
    ensures var count := DueQuery.CountWithin(Times(Exec(cfg, s, steps).clones[c].slots), from, from + length);
      match cfg.overrideSeconds
      case Some(n) => count <= length / n + 1
      case None =>
        match tier
        case Free => count <= length / 2592000 + 1
        case Standard => count <= length / 604800 + 1
        case Premium => count <= length / 86400 + 1
  {
    ScheduledRollupsAreSpaced(cfg, s, steps, c);
    SlotsInWindow(cfg, Exec(cfg, s, steps).clones[c].slots, tier, from, length);
  }

  lemma SlotsInWindow(cfg: Config, slots: seq<Slot>, tier: Tier, from: int, length: nat)
    requires Interval(cfg.overrideSeconds, tier) > 0 && forall i :: 0 <= i < |slots| ==> slots[i].tier == tier
    requires forall i :: 0 < i < |slots| ==> SpacedAt(cfg, slots, i)
    ensures DueQuery.CountWithin(Times(slots), from, from + length) <= length / Interval(cfg.overrideSeconds, tier) + 1
  {
    forall i | 0 < i < |slots|
      ensures Times(slots)[i - 1] + Interval(cfg.overrideSeconds, tier) <= Times(slots)[i]
    {
      assert SpacedAt(cfg, slots, i);
    }
    DueQuery.WindowBound(Times(slots), Interval(cfg.overrideSeconds, tier), from, length);
  }
}
