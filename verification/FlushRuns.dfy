/** flush_one_stream on the stores is a run of the machine: whatever arrives and whatever raises,
    the steps of that run are enabled one after the other and leave stream, row and history as
    flush_one_stream does. What holds over every run of the machine therefore holds of the code. */
module FlushRuns {
  import opened Wrappers
  import opened BackupCodec
  import opened Streams
  import opened Machine
  import opened Invariant
  import opened Reachable
  import opened Conservation
  import opened LocalRuns
  import opened Flush

  // ----- arrivals -----

  function Appends(c: nat, writes: Stream): (steps: seq<Step>) {
    if writes == [] then [] else [Append(c, writes[0].id, writes[0].entry)] + Appends(c, writes[1..])
  }

  function Arrived(k: Clone, writes: Stream): (k': Clone) {
    if writes == [] then k
    else k.(stream := k.stream + writes, lastId := writes[|writes| - 1].id, checking := k.checking + |writes|,
            requested := false, served := 0, lost := 0, history := k.history + Entries(writes))
  }

  ghost predicate After(last: StreamId, writes: Stream) {
    Ordered(writes) && (writes != [] ==> Before(last, writes[0].id))
  }

  lemma ArrivedTwice(k: Clone, a: Stream, b: Stream)
    requires After(k.lastId, a + b)
    ensures After(k.lastId, a) && After(Arrived(k, a).lastId, b)
    ensures Arrived(Arrived(k, a), b) == Arrived(k, a + b)
  {
    var all := a + b;
    assert forall i :: 0 <= i < |a| ==> all[i] == a[i];
    assert forall i :: 0 <= i < |b| ==> all[|a| + i] == b[i];
    EntriesConcat(a, b);
    if a == [] {
      assert all == b;
    } else if b == [] {
      assert all == a;
    } else {
      assert k.stream + a + b == k.stream + all;
      assert k.history + Entries(a) + Entries(b) == k.history + Entries(all);
    }
  }

  lemma OneAppend(cfg: Config, k: Clone, c: nat, w: StreamEntry)
    requires After(k.lastId, [w])
    ensures var steps := [Append(c, w.id, w.entry)];
      && LegalOn(cfg, k, c, steps) && ExecOn(cfg, k, c, steps) == Arrived(k, [w])
      && InterruptionsOn(cfg, k, c, steps) == 0 && ApartOn(cfg, k, c, steps)
  {
    assert [w][0] == w && Fits64([w][0].id) && Entries([w]) == [w.entry];
    One(cfg, k, c, Append(c, w.id, w.entry), Arrived(k, [w]));
  }

  lemma {:induction false} AppendsRun(cfg: Config, k: Clone, c: nat, writes: Stream)
    requires After(k.lastId, writes)
    ensures LegalOn(cfg, k, c, Appends(c, writes))
    ensures ExecOn(cfg, k, c, Appends(c, writes)) == Arrived(k, writes)
    ensures InterruptionsOn(cfg, k, c, Appends(c, writes)) == 0 && ApartOn(cfg, k, c, Appends(c, writes))
    decreases |writes|
  {
    if writes != [] {
      var first, rest := [writes[0]], writes[1..];
      assert writes == first + rest;
      ArrivedTwice(k, first, rest);
      AppendsRun(cfg, Arrived(k, first), c, rest);
      OneAppend(cfg, k, c, writes[0]);
      JoinOn(cfg, k, c, [Append(c, writes[0].id, writes[0].entry)], Appends(c, rest));
    }
  }

  // ----- the flush -----

  predicate Commits(cfg: Config, k: Clone, v: Visit) {
    !v.fault.CommitFails? && Fits(Payload(cfg, k.buffer) + Entries(k.stream))
  }

  /** Its last step: the trim, the revert, or nothing more. */
  function LastStep(cfg: Config, k: Clone, c: nat, f: nat, v: Visit): (step: Step)
    requires cfg.Valid() && k.stream != [] && Ordered(k.stream)
  {
    if v.fault.NoFault? && Trimmable(k.stream) then FlushTrim(c, f, cfg.trimFrom(k.stream[|k.stream| - 1].id).value)
    else if v.fault.RevertFails? then FlushDies(c, f)
    else FlushRevert(c, f)
  }

  function FlushRun(cfg: Config, k: Clone, c: nat, f: nat, v: Visit): (steps: seq<Step>)
    requires cfg.Valid() && Ordered(k.stream)
  {
    if k.stream == [] then []
    else if !Commits(cfg, k, v) then [FlushRead(c, f)] + Appends(c, v.during) + [FlushDies(c, f)]
    else [FlushRead(c, f)] + Appends(c, v.during) + [FlushCommit(c, f)] + Appends(c, v.after)
         + [LastStep(cfg, k, c, f, v)]
  }

  /** What a machine clone looks like after the flush. */
  function FlushedClone(cfg: Config, k: Clone, v: Visit): (k': Clone) {
    var o := FlushOutcome(cfg, k.stream, k.buffer, v);
    Arrived(k, o.arrived).(stream := o.stream, buffer := o.row)
  }

  function InSlot(k: Clone, f: nat, task: FlushTask): (k': Clone) {
    k.(flushes := k.flushes[f := task])
  }

  /** Up to the commit. */
  lemma ReadAndArrive(cfg: Config, k: Clone, c: nat, f: nat, during: Stream)
    requires f !in k.flushes && k.stream != [] && After(k.lastId, during)
    ensures var steps := [FlushRead(c, f)] + Appends(c, during);
      && LegalOn(cfg, k, c, steps) && InterruptionsOn(cfg, k, c, steps) == 0
      && (ApartOn(cfg, k, c, steps) <==> f == 0)
      && ExecOn(cfg, k, c, steps) == InSlot(Arrived(k, during), f, Flushing(k.stream))
  {
    var k1 := InSlot(k, f, Flushing(k.stream));
    One(cfg, k, c, FlushRead(c, f), k1);
    AppendsRun(cfg, k1, c, during);
    JoinOn(cfg, k, c, [FlushRead(c, f)], Appends(c, during));
  }

  /** From the commit to the trim. */
  lemma CommitAndArrive(cfg: Config, k: Clone, c: nat, f: nat, snapshot: Stream, after: Stream)
    requires f in k.flushes && k.flushes[f] == Flushing(snapshot) && After(k.lastId, after)
    requires Fits(Payload(cfg, k.buffer) + Entries(snapshot))
    ensures var steps := [FlushCommit(c, f)] + Appends(c, after);
      var existing := Payload(cfg, k.buffer);
      && LegalOn(cfg, k, c, steps) && InterruptionsOn(cfg, k, c, steps) == 0
      && (ApartOn(cfg, k, c, steps) <==> f == 0 && !RowHeld(k))
      && ExecOn(cfg, k, c, steps)
         == InSlot(Arrived(k, after).(buffer := RowOf(cfg, existing + Entries(snapshot))),
                   f, Flushed(snapshot, existing))
  {
    var existing := Payload(cfg, k.buffer);
    var k1 := InSlot(k.(buffer := RowOf(cfg, existing + Entries(snapshot))), f, Flushed(snapshot, existing));
    One(cfg, k, c, FlushCommit(c, f), k1);
    AppendsRun(cfg, k1, c, after);
    JoinOn(cfg, k, c, [FlushCommit(c, f)], Appends(c, after));
  }

  lemma OutOfSlot(k: Clone, f: nat, task: FlushTask)
    requires f !in k.flushes
    ensures InSlot(k, f, task).flushes - {f} == k.flushes
  {
  }

  lemma AbandonedRun(cfg: Config, k: Clone, c: nat, f: nat, v: Visit)
    requires cfg.Valid() && f !in k.flushes && k.stream != [] && Ordered(k.stream) && !Commits(cfg, k, v)
    requires After(k.lastId, v.during)
    ensures var steps := FlushRun(cfg, k, c, f, v);
      && LegalOn(cfg, k, c, steps) && ExecOn(cfg, k, c, steps) == FlushedClone(cfg, k, v)
      && InterruptionsOn(cfg, k, c, steps) == 0 && (ApartOn(cfg, k, c, steps) <==> f == 0)
  {
    ReadAndArrive(cfg, k, c, f, v.during);
    var k2 := InSlot(Arrived(k, v.during), f, Flushing(k.stream));
    OutOfSlot(Arrived(k, v.during), f, Flushing(k.stream));
    One(cfg, k2, c, FlushDies(c, f), Arrived(k, v.during));
    JoinOn(cfg, k, c, [FlushRead(c, f)] + Appends(c, v.during), [FlushDies(c, f)]);
  }

  /** Committed, with everything arrived and the trim to come. */
  function AtTrim(cfg: Config, k: Clone, f: nat, v: Visit): (k': Clone) {
    InSlot(Arrived(k, v.during + v.after).(buffer := RowOf(cfg, Payload(cfg, k.buffer) + Entries(k.stream))),
           f, Flushed(k.stream, Payload(cfg, k.buffer)))
  }

  lemma CommittedInSlot(k: Clone, f: nat, v: Visit, row: Option<BufferRow>, task: FlushTask)
    requires f !in k.flushes && After(k.lastId, v.during + v.after)
    ensures var k2 := InSlot(Arrived(k, v.during), f, Flushing(k.stream));
      InSlot(Arrived(k2, v.after).(buffer := row), f, task)
      == InSlot(Arrived(k, v.during + v.after).(buffer := row), f, task)
  {
    ArrivedTwice(k, v.during, v.after);
    assert k.flushes[f := Flushing(k.stream)][f := task] == k.flushes[f := task];
  }

  lemma UpToTrim(cfg: Config, k: Clone, c: nat, f: nat, v: Visit)
    requires f !in k.flushes && k.stream != [] && Commits(cfg, k, v) && After(k.lastId, v.during + v.after)
    ensures var steps := [FlushRead(c, f)] + Appends(c, v.during) + ([FlushCommit(c, f)] + Appends(c, v.after));
      && LegalOn(cfg, k, c, steps) && ExecOn(cfg, k, c, steps) == AtTrim(cfg, k, f, v)
      && InterruptionsOn(cfg, k, c, steps) == 0 && (ApartOn(cfg, k, c, steps) <==> f == 0 && !RowHeld(k))
  {
    ArrivedTwice(k, v.during, v.after);
    ReadAndArrive(cfg, k, c, f, v.during);
    var k2 := InSlot(Arrived(k, v.during), f, Flushing(k.stream));
    CommitAndArrive(cfg, k2, c, f, k.stream, v.after);
    JoinOn(cfg, k, c, [FlushRead(c, f)] + Appends(c, v.during), [FlushCommit(c, f)] + Appends(c, v.after));
    CommittedInSlot(k, f, v, RowOf(cfg, Payload(cfg, k.buffer) + Entries(k.stream)),
                    Flushed(k.stream, Payload(cfg, k.buffer)));
  }

  lemma FlushEnds(cfg: Config, k: Clone, c: nat, f: nat, v: Visit)
    requires cfg.Valid() && f !in k.flushes && k.stream != [] && Commits(cfg, k, v)
    requires Ordered(k.stream) && InOrder(k.stream, v)
    ensures LocallyEnabled(cfg, AtTrim(cfg, k, f, v), LastStep(cfg, k, c, f, v))
    ensures ApplyLocal(cfg, AtTrim(cfg, k, f, v), LastStep(cfg, k, c, f, v)) == FlushedClone(cfg, k, v)
  {
    var later := v.during + v.after;
    var at := AtTrim(cfg, k, f, v);
    PayloadOfRow(cfg, Payload(cfg, k.buffer) + Entries(k.stream));
    OutOfSlot(Arrived(k, later), f, at.flushes[f]);
    assert k.stream + v.during + v.after == k.stream + later;
    assert at.stream == k.stream + later;
    if LastStep(cfg, k, c, f, v).FlushTrim? {
      TrimExact(k.stream, later, LastStep(cfg, k, c, f, v).bound);
    }
  }

  lemma CommittedRun(cfg: Config, k: Clone, c: nat, f: nat, v: Visit, steps: seq<Step>)
    requires cfg.Valid() && f !in k.flushes && k.stream != [] && Ordered(k.stream) && Commits(cfg, k, v)
    requires InOrder(k.stream, v)
    requires LegalOn(cfg, k, c, steps) && ExecOn(cfg, k, c, steps) == AtTrim(cfg, k, f, v)
    requires InterruptionsOn(cfg, k, c, steps) == 0 && (ApartOn(cfg, k, c, steps) <==> f == 0 && !RowHeld(k))
    ensures var last := LastStep(cfg, k, c, f, v);
      && LegalOn(cfg, k, c, steps + [last]) && ExecOn(cfg, k, c, steps + [last]) == FlushedClone(cfg, k, v)
      && (ApartOn(cfg, k, c, steps + [last]) <==> f == 0 && !RowHeld(k))
      && InterruptionsOn(cfg, k, c, steps + [last]) == if f == 0 && v.fault.RevertFails? then 1 else 0
  {
    var last := LastStep(cfg, k, c, f, v);
    FlushEnds(cfg, k, c, f, v);
    One(cfg, AtTrim(cfg, k, f, v), c, last, FlushedClone(cfg, k, v));
    JoinOn(cfg, k, c, steps, [last]);
  }

  /** The run of a flush, seen on the clone. */
  ghost predicate RunsTo(cfg: Config, k: Clone, c: nat, f: nat, v: Visit, steps: seq<Step>, k': Clone) {
    && LegalOn(cfg, k, c, steps) && ExecOn(cfg, k, c, steps) == k'
    && (f == 0 && !RowHeld(k) ==> ApartOn(cfg, k, c, steps))
    && (f == 0 ==> (InterruptionsOn(cfg, k, c, steps) > 0 <==>
                      k.stream != [] && Commits(cfg, k, v) && v.fault.RevertFails?))
  }

  lemma RunInParts(cfg: Config, k: Clone, c: nat, f: nat, v: Visit)
    requires cfg.Valid() && k.stream != [] && Ordered(k.stream) && Commits(cfg, k, v)
    ensures FlushRun(cfg, k, c, f, v)
            == [FlushRead(c, f)] + Appends(c, v.during) + ([FlushCommit(c, f)] + Appends(c, v.after))
               + [LastStep(cfg, k, c, f, v)]
  {
  }

  lemma WholeRun(cfg: Config, k: Clone, c: nat, f: nat, v: Visit)
    requires cfg.Valid() && f !in k.flushes && k.stream != [] && Ordered(k.stream) && Commits(cfg, k, v)
    requires InOrder(k.stream, v) && After(k.lastId, v.during + v.after)
    ensures RunsTo(cfg, k, c, f, v, FlushRun(cfg, k, c, f, v), FlushedClone(cfg, k, v))
  {
    UpToTrim(cfg, k, c, f, v);
    var steps := [FlushRead(c, f)] + Appends(c, v.during) + ([FlushCommit(c, f)] + Appends(c, v.after));
    CommittedRun(cfg, k, c, f, v, steps);
    RunInParts(cfg, k, c, f, v);
  }

  lemma FlushRunOnClone(cfg: Config, k: Clone, c: nat, f: nat, v: Visit)
    requires cfg.Valid() && f !in k.flushes && Ordered(k.stream)
    requires InOrder(k.stream, v) && After(k.lastId, v.during + v.after)
    ensures RunsTo(cfg, k, c, f, v, FlushRun(cfg, k, c, f, v), FlushedClone(cfg, k, v))
  {
    if k.stream == [] {
      assert FlushedClone(cfg, k, v) == k;
    } else if Commits(cfg, k, v) {
      WholeRun(cfg, k, c, f, v);
    } else {
      ArrivedTwice(k, v.during, v.after);
      AbandonedRun(cfg, k, c, f, v);
    }
  }

  lemma OnState(cfg: Config, s: State, c: nat, f: nat, v: Visit, steps: seq<Step>, k': Clone)
    requires c in s.clones && RunsTo(cfg, s.clones[c], c, f, v, steps, k')
    ensures Legal(cfg, s, steps) && Exec(cfg, s, steps) == Put(s, c, k')
    ensures f == 0 && !RowHeld(s.clones[c]) ==> Apart(cfg, s, steps, c)
    ensures f == 0 ==> (Interruptions(cfg, s, steps, c) > 0 <==>
                          s.clones[c].stream != [] && Commits(cfg, s.clones[c], v) && v.fault.RevertFails?)
  {
    assert Put(s, c, s.clones[c]) == s;
    LocalRun(cfg, s, c, s.clones[c], steps);
  }

  /** Stream, row and history are as flush_one_stream leaves them; the tasks are as they were. */
  predicate ShowsFlushed(k: Clone, k': Clone, o: Outcome) {
    && k'.stream == o.stream && k'.buffer == o.row && k'.history == k.history + Entries(o.arrived)
    && k'.(stream := [], buffer := None, history := [], lastId := k.lastId, checking := 0, requested := false,
           served := 0, lost := 0)
       == k.(stream := [], buffer := None, history := [], checking := 0, requested := false, served := 0, lost := 0)
  }

  lemma FlushedCloneShows(cfg: Config, k: Clone, v: Visit)
    ensures ShowsFlushed(k, FlushedClone(cfg, k, v), FlushOutcome(cfg, k.stream, k.buffer, v))
  {
    assert k.history + [] == k.history;
  }

  /** The refinement, in any free slot and beside anything: other flushes and rollups may be in
      progress. In slot 0 the run keeps apart from the rollups when none of them holds the row. */
  lemma FlushIsARun(cfg: Config, s: State, c: nat, f: nat, v: Visit)
    requires cfg.Valid() && Inv(cfg, s) && c in s.clones && f !in s.clones[c].flushes
    requires InOrder(s.clones[c].stream, v) && After(s.clones[c].lastId, v.during + v.after)
    ensures Ordered(s.clones[c].stream)
    ensures var k := s.clones[c]; var steps := FlushRun(cfg, k, c, f, v);
      var o := FlushOutcome(cfg, k.stream, k.buffer, v);
      && Legal(cfg, s, steps) && Exec(cfg, s, steps) == Put(s, c, FlushedClone(cfg, k, v))
      && ShowsFlushed(k, FlushedClone(cfg, k, v), o)
      && (f == 0 && !RowHeld(k) ==> Apart(cfg, s, steps, c))
      && (f == 0 ==> (Interruptions(cfg, s, steps, c) > 0 <==>
                        k.stream != [] && Commits(cfg, k, v) && v.fault.RevertFails?))
  {
    var k := s.clones[c];
    assert CloneOk(cfg, c, k, s.objects, s.made, s.nextId);
    FlushedCloneShows(cfg, k, v);
    FlushRunOnClone(cfg, k, c, f, v);
    OnState(cfg, s, c, f, v, FlushRun(cfg, k, c, f, v), FlushedClone(cfg, k, v));
  }

  lemma {:induction false} JoinInterruptions(cfg: Config, s: State, a: seq<Step>, b: seq<Step>, c: nat)
    requires Legal(cfg, s, a) && Legal(cfg, Exec(cfg, s, a), b) && Legal(cfg, s, a + b)
    ensures Interruptions(cfg, s, a + b, c) == Interruptions(cfg, s, a, c) + Interruptions(cfg, Exec(cfg, s, a), b, c)
    decreases |a|
  {
    if a == [] {
      assert a + b == b;
    } else {
      assert (a + b)[0] == a[0] && (a + b)[1..] == a[1..] + b;
      JoinInterruptions(cfg, Apply(cfg, s, a[0]), a[1..], b, c);
    }
  }

  lemma {:induction false} JoinApart(cfg: Config, s: State, a: seq<Step>, b: seq<Step>, c: nat)
    requires Legal(cfg, s, a) && Legal(cfg, Exec(cfg, s, a), b) && Legal(cfg, s, a + b)
    requires Apart(cfg, s, a, c) && Apart(cfg, Exec(cfg, s, a), b, c)
    ensures Apart(cfg, s, a + b, c)
    decreases |a|
  {
    if a == [] {
      assert a + b == b;
    } else {
      assert (a + b)[0] == a[0] && (a + b)[1..] == a[1..] + b;
      JoinApart(cfg, Apply(cfg, s, a[0]), a[1..], b, c);
    }
  }

  /** Any run of the service in which the clone's tasks keep apart, then flush_one_stream with
      anything arriving and anything raising: what the stores then hold is the clone's history
      exactly once and in order if and only if nothing was interrupted before and it is not this
      flush whose revert failed. */
  lemma ExactlyOnceThroughFlush(cfg: Config, s0: State, steps: seq<Step>, c: nat, v: Visit)
    requires cfg.Valid() && Start(s0) && Legal(cfg, s0, steps) && Apart(cfg, s0, steps, c)
    requires c in s0.clones && c in Exec(cfg, s0, steps).clones
    requires 0 !in Exec(cfg, s0, steps).clones[c].flushes && !RowHeld(Exec(cfg, s0, steps).clones[c])
    requires InOrder(Exec(cfg, s0, steps).clones[c].stream, v)
    requires After(Exec(cfg, s0, steps).clones[c].lastId, v.during + v.after)
    ensures var s := Exec(cfg, s0, steps); var k := s.clones[c];
      var o := FlushOutcome(cfg, k.stream, k.buffer, v);
      k.history + Entries(o.arrived) == Archived(s.made, k.rolled) + Payload(cfg, o.row) + Entries(o.stream)
      <==> Interruptions(cfg, s0, steps, c) == 0 && !(k.stream != [] && Commits(cfg, k, v) && v.fault.RevertFails?)
  {
    var s := Exec(cfg, s0, steps);
    ReachableInv(cfg, s0, steps);
    FlushIsARun(cfg, s, c, 0, v);
    var flush := FlushRun(cfg, s.clones[c], c, 0, v);
    ExecConcat(cfg, s0, steps, flush);
    JoinInterruptions(cfg, s0, steps, flush, c);
    JoinApart(cfg, s0, steps, flush, c);
    ExactlyOnceIff(cfg, s0, steps + flush, c);
  }
}
