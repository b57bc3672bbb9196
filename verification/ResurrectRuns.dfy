/** resurrect_from on the stores is a run of the machine, wherever it stops. */
module ResurrectRuns {
  import opened Wrappers
  import opened ObjectStorage
  import opened Retention
  import opened Machine
  import opened Invariant
  import opened Stores
  import opened Pipeline
  import opened Memories
  import opened RollupRuns

  lemma ReadStep(cfg: Config, s: State, c: nat, source: nat)
    requires c in s.clones && source in s.clones && source != c
    requires !s.clones[source].active && s.clones[source].rows != []
    ensures Steps(cfg, s, ResurrectRead(c, source), ReadNewest(s, c, source))
  {
  }

  lemma CopyStep(cfg: Config, s: State, c: nat, candidate: Candidate, stamp: string, suffix: string)
    requires c in s.clones && candidate in s.clones[c].candidates
    requires candidate.row.key in s.objects && candidate.row.key in s.made && BackupKey(c, stamp, suffix) !in s.made
    ensures Steps(cfg, s, ResurrectCopy(c, candidate, stamp, suffix),
                  CopyObject(s, c, candidate, BackupKey(c, stamp, suffix)))
  {
  }

  lemma InsertStep(cfg: Config, s: State, c: nat, copy: Copy, pos: nat, at: int)
    requires c in s.clones && copy in s.clones[c].copies && RanksAt(s.clones[c].rows, pos, copy.row.periodEnd)
    ensures Steps(cfg, s, ResurrectCommit(c, copy, pos, at), InsertCopy(s, c, copy, pos, at))
  {
  }

  function ResurrectSteps(c: nat, source: nat, candidate: Candidate, stamp: string, suffix: string, t: Ticket, at: int,
                          stop: Stop) : (steps: seq<Step>)
  {
    [ResurrectRead(c, source)]
    + (if stop.PutFails? then [] else [ResurrectCopy(c, candidate, stamp, suffix)])
    + (if stop.PutFails? || stop.InsertFails? then []
       else [ResurrectCommit(c, Copy(candidate.row, candidate.tier, t.key), t.pos, at)])
  }

  /** The clone's rows, the bucket and the id sequence are those of the handler; no other clone and
      nothing else of this one that a store shows has changed. */
  ghost predicate ShowsResurrected(s: State, s': State, c: nat, o: Resurrected) {
    && c in s.clones && c in s'.clones
    && s'.clones[c].(candidates := {}, copies := {}) == s.clones[c].(rows := o.rows, candidates := {}, copies := {})
    && s'.objects == o.objects && s'.nextId == o.nextId && s'.runs == s.runs && s'.clones.Keys == s.clones.Keys
    && (forall d :: d in s.clones && d != c ==> s'.clones[d] == s.clones[d])
  }

  /** Read and copy. */
  lemma CopyRun(cfg: Config, s: State, c: nat, source: nat, stamp: string, suffix: string)
    requires c in s.clones && source in s.clones && source != c
    requires !s.clones[source].active && s.clones[source].rows != []
    requires s.clones[source].rows[0].key in s.objects && s.clones[source].rows[0].key in s.made
    requires BackupKey(c, stamp, suffix) !in s.made
    ensures var candidate := Candidate(s.clones[source].rows[0], s.clones[c].tier);
      var read := ReadNewest(s, c, source);
      && Reaches(cfg, s, [ResurrectRead(c, source)], read)
      && Reaches(cfg, s, [ResurrectRead(c, source), ResurrectCopy(c, candidate, stamp, suffix)],
                 CopyObject(read, c, candidate, BackupKey(c, stamp, suffix)))
  {
    var candidate := Candidate(s.clones[source].rows[0], s.clones[c].tier);
    var read := ReadNewest(s, c, source);
    var copied := CopyObject(read, c, candidate, BackupKey(c, stamp, suffix));
    ReadStep(cfg, s, c, source);
    assert Legal(cfg, s, []) && Exec(cfg, s, []) == s;
    Extend(cfg, s, [], s, ResurrectRead(c, source), read);
    assert [] + [ResurrectRead(c, source)] == [ResurrectRead(c, source)];
    CopyStep(cfg, read, c, candidate, stamp, suffix);
    Extend(cfg, s, [ResurrectRead(c, source)], read, ResurrectCopy(c, candidate, stamp, suffix), copied);
    assert [ResurrectRead(c, source)] + [ResurrectCopy(c, candidate, stamp, suffix)]
           == [ResurrectRead(c, source), ResurrectCopy(c, candidate, stamp, suffix)];
  }

  lemma InsertRun(cfg: Config, s: State, c: nat, source: nat, stamp: string, suffix: string, t: Ticket, at: int)
    requires c in s.clones && source in s.clones && source != c
    requires !s.clones[source].active && s.clones[source].rows != []
    requires s.clones[source].rows[0].key in s.objects && s.clones[source].rows[0].key in s.made
    requires t.key == BackupKey(c, stamp, suffix) && t.key !in s.made && t.tier == s.clones[c].tier
    requires RanksAt(s.clones[c].rows, t.pos, s.clones[source].rows[0].periodEnd)
    ensures var candidate := Candidate(s.clones[source].rows[0], t.tier);
      var copied := CopyObject(ReadNewest(s, c, source), c, candidate, t.key);
      Reaches(cfg, s, ResurrectSteps(c, source, candidate, stamp, suffix, t, at, Completes),
              InsertCopy(copied, c, Copy(candidate.row, candidate.tier, t.key), t.pos, at))
  {
    var candidate := Candidate(s.clones[source].rows[0], t.tier);
    var copy := Copy(candidate.row, candidate.tier, t.key);
    var copied := CopyObject(ReadNewest(s, c, source), c, candidate, t.key);
    CopyRun(cfg, s, c, source, stamp, suffix);
    InsertStep(cfg, copied, c, copy, t.pos, at);
    var steps := [ResurrectRead(c, source), ResurrectCopy(c, candidate, stamp, suffix)];
    Extend(cfg, s, steps, copied, ResurrectCommit(c, copy, t.pos, at), InsertCopy(copied, c, copy, t.pos, at));
    assert steps + [ResurrectCommit(c, copy, t.pos, at)]
           == ResurrectSteps(c, source, candidate, stamp, suffix, t, at, Completes);
  }

  /** The state shows these tables. */
  ghost predicate ShowsTables(s: State, profiles: map<nat, ProfileRow>, backups: map<nat, Rows>) {
    forall d :: (d in s.clones <==> d in profiles)
      && (d in s.clones ==>
            && s.clones[d].active == profiles[d].active && s.clones[d].tier == profiles[d].tier
            && s.clones[d].createdAt == profiles[d].createdAt && s.clones[d].rows == RowsOf(backups, d))
  }

  /** A request is not refused exactly when the machine may read the source's newest row for it: so what
      it refuses is what no run offers. */
  lemma NotRefusedIffOffered(cfg: Config, s: State, profiles: map<nat, ProfileRow>, backups: map<nat, Rows>, c: nat,
                             source: nat)
    requires ShowsTables(s, profiles, backups) && c in profiles
    ensures Refusal(profiles, RowsOf(backups, source), c, source).None? <==> Enabled(cfg, s, ResurrectRead(c, source))
    ensures Enabled(cfg, s, ResurrectRead(c, source)) <==>
              source != c && source in profiles && !profiles[source].active && RowsOf(backups, source) != []
  {
  }

  /** restore_own_backup's mark is the machine's step. */
  lemma MarkIsAStep(cfg: Config, s: State, c: nat, i: nat, at: int)
    requires c in s.clones && i < |s.clones[c].rows|
    ensures var k := s.clones[c];
      Steps(cfg, s, Restore(c, i, at), Put(s, c, k.(rows := k.rows[i := k.rows[i].(restoredAt := Some(at))])))
  {
  }

  /** A request that is not refused, and a fresh name for its copy. */
  ghost predicate CanResurrect(s: State, c: nat, source: nat, stamp: string, suffix: string, t: Ticket) {
    && c in s.clones && source in s.clones && source != c
    && !s.clones[source].active && s.clones[source].rows != []
    && t.key == BackupKey(c, stamp, suffix) && t.key !in s.made && t.tier == s.clones[c].tier
    && RanksAt(s.clones[c].rows, t.pos, s.clones[source].rows[0].periodEnd)
  }

  /** The run of the request's steps leaves the stores as resurrect_from does. */
  ghost predicate Resurrects(cfg: Config, s: State, c: nat, source: nat, stamp: string, suffix: string, t: Ticket,
                             at: int, stop: Stop)
    requires CanResurrect(s, c, source, stamp, suffix, t)
  {
    var candidate := Candidate(s.clones[source].rows[0], t.tier);
    var steps := ResurrectSteps(c, source, candidate, stamp, suffix, t, at, stop);
    && Legal(cfg, s, steps)
    && ShowsResurrected(s, Exec(cfg, s, steps), c,
         ResurrectOutcome(cfg, s.clones[c].rows, s.clones[source].rows, s.objects, s.nextId, t, at, stop))
  }

  lemma StoppedBeforeInsert(cfg: Config, s: State, c: nat, source: nat, stamp: string, suffix: string, t: Ticket,
                            at: int, stop: Stop)
    requires CanResurrect(s, c, source, stamp, suffix, t) && (stop.PutFails? || stop.InsertFails?)
    requires s.clones[source].rows[0].key in s.objects && s.clones[source].rows[0].key in s.made
    ensures Resurrects(cfg, s, c, source, stamp, suffix, t, at, stop)
  {
    var candidate := Candidate(s.clones[source].rows[0], t.tier);
    var steps := ResurrectSteps(c, source, candidate, stamp, suffix, t, at, stop);
    CopyRun(cfg, s, c, source, stamp, suffix);
    assert steps == if stop.PutFails? then [ResurrectRead(c, source)]
                    else [ResurrectRead(c, source), ResurrectCopy(c, candidate, stamp, suffix)];
  }

  lemma Inserted(cfg: Config, s: State, c: nat, source: nat, stamp: string, suffix: string, t: Ticket, at: int,
                 stop: Stop)
    requires CanResurrect(s, c, source, stamp, suffix, t) && !stop.PutFails? && !stop.InsertFails?
    requires s.clones[source].rows[0].key in s.objects && s.clones[source].rows[0].key in s.made
    ensures Resurrects(cfg, s, c, source, stamp, suffix, t, at, stop)
  {
    var candidate := Candidate(s.clones[source].rows[0], t.tier);
    InsertRun(cfg, s, c, source, stamp, suffix, t, at);
    assert ResurrectSteps(c, source, candidate, stamp, suffix, t, at, stop)
        == ResurrectSteps(c, source, candidate, stamp, suffix, t, at, Completes);
  }

  /** The refinement: from every state with the invariant, whatever else is in progress. */
  lemma ResurrectIsARun(cfg: Config, s: State, c: nat, source: nat, stamp: string, suffix: string, t: Ticket, at: int,
                        stop: Stop)
    requires cfg.Valid() && Inv(cfg, s) && CanResurrect(s, c, source, stamp, suffix, t)
    ensures Resurrects(cfg, s, c, source, stamp, suffix, t, at, stop)
  {
    var rows := s.clones[source].rows;
    assert CloneOk(cfg, source, s.clones[source], s.objects, s.made, s.nextId);
    assert !Stale(rows, 0) && Backs(source, rows[0], s.made, s.nextId);
    if stop.PutFails? || stop.InsertFails? {
      StoppedBeforeInsert(cfg, s, c, source, stamp, suffix, t, at, stop);
    } else {
      Inserted(cfg, s, c, source, stamp, suffix, t, at, stop);
    }
  }
}
