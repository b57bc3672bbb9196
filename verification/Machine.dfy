/** The memory pipeline as one state machine over many clones.

    A step is one atomic action on one store: an XADD, a commit, a trim, an object put or delete.
    Tasks and requests are sequences of such steps, and any other step may come in between.

    What the environment is taken to guarantee:
    - XADD ids strictly increase; XTRIM MINID drops exactly the entries below its bound; a trim
      that raises left the stream as it was.
    - A commit is atomic, and a flush loads the committed buffer row under its lock.
    - Object put and delete are atomic, and a new object's name was never used before.
    Nothing else is ruled out: flushes and rollups of one clone overlap as they may, each in a slot
    of its own, and so do scheduled runs. */
module Machine {
  import opened Wrappers
  import opened BackupCodec
  import opened Streams
  import opened Subscriptions
  import opened ObjectStorage
  import opened Retention

  /** Deployment settings and library functions. The machine runs on any payload codec that round
      trips and any trim bound that is the successor of the last id read; ServiceConfig gives it
      those of backup_codec.py and streams.py. */
  datatype Config = Config(encode: seq<Entry> -> Option<Bytes>, decode: Bytes -> Option<seq<Entry>>,
                           trimFrom: StreamId -> Option<StreamId>,
                           iso: Bytes -> int, maxlen: int, overrideSeconds: Option<int>) {
    ghost predicate Valid() {
      && (forall entries: seq<Entry> ::
            && (encode(entries).Some? <==> Fits(entries))
            && (Fits(entries) ==> decode(encode(entries).value) == Some(entries)))
      && (forall last: StreamId :: Fits64(last) ==>
            && (trimFrom(last).Some? <==> last.sequence < MAX64)
            && (trimFrom(last).Some? ==> Successor(last, trimFrom(last).value)))
    }
  }

  function ServiceConfig(gz: GzipPair, iso: Bytes -> int, maxlen: int, overrideSeconds: Option<int>)
    : (cfg: Config)
  {
    Config((entries: seq<Entry>) => EncodePayload(gz, entries), (data: Bytes) => DecodePayload(gz, data),
           (last: StreamId) => TrimFrom(last), iso, maxlen, overrideSeconds)
  }

  /** The service's own codec and trim are ones the machine may run on. */
  lemma ServiceConfigValid(gz: GzipPair, iso: Bytes -> int, maxlen: int, overrideSeconds: Option<int>)
    requires gz.Lossless()
    ensures ServiceConfig(gz, iso, maxlen, overrideSeconds).Valid()
  {
    forall entries: seq<Entry>
      ensures EncodePayload(gz, entries).Some? <==> Fits(entries)
      ensures Fits(entries) ==> DecodePayload(gz, EncodePayload(gz, entries).value) == Some(entries)
    {
      RoundTrip(gz, entries);
    }
    forall last: StreamId | Fits64(last)
      ensures TrimFrom(last).Some? <==> last.sequence < MAX64
      ensures TrimFrom(last).Some? ==> Successor(last, TrimFrom(last).value)
    {
      TrimFromIsSuccessor(last);
    }
  }

  // ----- rows -----

  /** The one memory_buffers row of a clone. */
  datatype BufferRow = BufferRow(blob: Bytes, count: nat)

  /** The row a flush writes for a payload; nothing when encoding raises. */
  function RowOf(cfg: Config, payload: seq<Entry>): (row: Option<BufferRow>) {
    match cfg.encode(payload)
    case None => None
    case Some(blob) => Some(BufferRow(blob, |payload|))
  }

  /** MemoryBuffer.payload, with [] for an absent row as in flush_one_stream. */
  function Payload(cfg: Config, row: Option<BufferRow>): (payload: seq<Entry>) {
    if row.None? || row.value.count == 0 then []
    else
      match cfg.decode(row.value.blob)
      case None => []
      case Some(entries) => entries
  }

  /** The bytes are what encoding the entries gives, and decode to them. */
  ghost predicate Encodes(cfg: Config, data: Bytes, entries: seq<Entry>) {
    cfg.encode(entries) == Some(data) && cfg.decode(data) == Some(entries)
  }

  lemma PayloadOfRow(cfg: Config, payload: seq<Entry>)
    requires cfg.Valid()
    ensures RowOf(cfg, payload).Some? <==> Fits(payload)
    ensures Fits(payload) ==> Payload(cfg, RowOf(cfg, payload)) == payload
  {
    var _ := cfg.encode(payload);
  }

  /** min(captured_at) over a payload. */
  function MinCaptured(cfg: Config, payload: seq<Entry>): (start: int)
    requires payload != []
  {
    var first := cfg.iso(payload[0].capturedAt);
    if |payload| == 1 then first else Min(first, MinCaptured(cfg, payload[1..]))
  }

  /** period_start is when the earliest entry was captured, wherever in the payload it stands. */
  lemma {:induction false} MinCapturedIsEarliest(cfg: Config, payload: seq<Entry>)
    requires payload != []
    ensures IsEarliest(cfg, MinCaptured(cfg, payload), payload)
  {
    if |payload| > 1 {
      var tail := payload[1..];
      MinCapturedIsEarliest(cfg, tail);
      var i :| 0 <= i < |tail| && MinCaptured(cfg, tail) == cfg.iso(tail[i].capturedAt);
      assert payload[i + 1] == tail[i];
      assert MinCaptured(cfg, payload) in {cfg.iso(payload[0].capturedAt), cfg.iso(payload[i + 1].capturedAt)};
      forall j | 0 < j < |payload|
        ensures MinCaptured(cfg, tail) <= cfg.iso(payload[j].capturedAt)
      {
        assert tail[j - 1] == payload[j];
      }
    } else {
      assert MinCaptured(cfg, payload) == cfg.iso(payload[0].capturedAt);
    }
  }

  /** `start` is when the earliest entry was captured. */
  ghost predicate IsEarliest(cfg: Config, start: int, payload: seq<Entry>) {
    && (forall i :: 0 <= i < |payload| ==> start <= cfg.iso(payload[i].capturedAt))
    && (exists i :: 0 <= i < |payload| && start == cfg.iso(payload[i].capturedAt))
  }

  // ----- state -----

  /** What a rollup holds in memory: the time and tier it was started with, the row it read, and,
      when scheduled, how many scheduled rollups of the clone were committed when it was listed. */
  datatype Job = Job(now: int, tier: Tier, row: BufferRow, seen: Option<nat>)

  /** How far a flush of the clone has come. */
  datatype FlushTask =
    | Flushing(snapshot: Stream)                           // stream read, nothing written
    | Flushed(snapshot: Stream, existing: seq<Entry>)      // buffer committed, stream not trimmed

  /** How far a rollup of the clone has come. A prune holds the rows it ranked, the stale ones among
      them, and how many of their objects it has deleted. */
  datatype RollupTask =
    | RollingUp(job: Job)                                  // buffer read
    | Uploaded(job: Job, key: Key)                         // object put, row not inserted
    | Stored                                               // row inserted, buffer deleted
    | Pruning(from: Rows, stale: Rows, done: nat)

  /** A resurrection after reading the source's newest row, and after copying its object. */
  datatype Candidate = Candidate(row: Backup, tier: Tier)
  datatype Copy = Copy(row: Backup, tier: Tier, key: Key)

  datatype Slot = Slot(time: int, tier: Tier, seen: nat)

  /** Everything about one clone. `checking` counts the writers between XADD and XLEN; `requested`,
      `served` and `lost` tell of the time since the last append: whether a flush was requested, how
      many writers got through, how many died or had their request refused. The last three fields
      record the entries appended, the keys of the rollups committed, and the scheduled rollups. */
  datatype Clone = Clone(
    tier: Tier, active: bool, createdAt: int,
    stream: Stream, lastId: StreamId, checking: nat, requested: bool, served: nat, lost: nat,
    buffer: Option<BufferRow>, rows: Rows,
    candidates: set<Candidate>, copies: set<Copy>,
    flushes: map<nat, FlushTask>, rollups: map<nat, RollupTask>,
    history: seq<Entry>, rolled: seq<Key>, slots: seq<Slot>)

  /** A run_rollup in progress: its `now` and the due clones it has yet to visit, each with the
      tier it was loaded with and the number of scheduled rollups committed by then. */
  datatype Listing = Listing(tier: Tier, seen: nat)
  datatype Run = Run(now: int, due: map<nat, Listing>)

  /** `made` records for every object ever put the entries that were folded into it. */
  datatype State = State(clones: map<nat, Clone>, objects: map<Key, Bytes>,
                         made: map<Key, seq<Entry>>, nextId: nat, runs: map<nat, Run>)

  function Anchor(k: Clone): (anchor: int) {
    if k.rows == [] then k.createdAt else k.rows[0].periodEnd
  }

  predicate Due(cfg: Config, k: Clone, now: int) {
    Anchor(k) <= now - Interval(cfg.overrideSeconds, k.tier)
  }

  /** The rollup has read the buffer row and not yet deleted it. */
  predicate HoldsRow(task: RollupTask) {
    task.RollingUp? || task.Uploaded?
  }

  predicate Scheduled(task: RollupTask) {
    HoldsRow(task) && task.job.seen.Some?
  }

  // ----- steps -----

  datatype Step =
    | Append(c: nat, id: StreamId, entry: Entry)
    | CheckLength(c: nat, refused: bool)
    | WriterDies(c: nat)
    | FlushRead(c: nat, f: nat)
    | FlushCommit(c: nat, f: nat)
    | FlushTrim(c: nat, f: nat, bound: StreamId)
    | FlushRevert(c: nat, f: nat)
    | FlushDies(c: nat, f: nat)
    | RunBegin(run: nat, now: int)
    | RunEnd(run: nat)
    | RollupScheduled(c: nat, g: nat, run: nat)
    | RollupForced(c: nat, g: nat, now: int)
    | RollupDies(c: nat, g: nat)
    | RollupUpload(c: nat, g: nat, stamp: string, suffix: string)
    | RollupCommit(c: nat, g: nat, pos: nat)
    | PruneSelect(c: nat, g: nat)
    | PruneObject(c: nat, g: nat)
    | PruneRows(c: nat, g: nat)
    | ResurrectRead(c: nat, source: nat)
    | ResurrectCopy(c: nat, candidate: Candidate, stamp: string, suffix: string)
    | ResurrectCommit(c: nat, copy: Copy, pos: nat, at: int)
    | Restore(c: nat, index: nat, at: int)
    | SetTier(c: nat, tier: Tier)
    | SetActive(c: nat, active: bool)

  predicate HasBuffer(k: Clone) {
    k.buffer.Some? && k.buffer.value.count > 0
  }

  /** Steps that touch the stores of one clone and nothing shared. */
  predicate IsLocal(step: Step) {
    || step.Append? || step.CheckLength? || step.WriterDies? || IsFlush(step)
    || step.RollupForced? || step.RollupDies? || step.PruneSelect? || step.PruneRows?
    || step.Restore? || step.SetTier? || step.SetActive?
  }

  predicate IsFlush(step: Step) {
    step.FlushRead? || step.FlushCommit? || step.FlushTrim? || step.FlushRevert? || step.FlushDies?
  }

  predicate LocallyEnabled(cfg: Config, k: Clone, step: Step)
    requires IsLocal(step)
  {
    if IsFlush(step) then FlushEnabled(cfg, k, step)
    else
      match step
      case Append(_, id, _) => Fits64(id) && Before(k.lastId, id)
      case CheckLength(_, _) => k.checking > 0
      case WriterDies(_) => k.checking > 0
      case RollupForced(_, g, _) => g !in k.rollups
      case RollupDies(_, g) => g in k.rollups
      case PruneSelect(_, g) => g in k.rollups && k.rollups[g].Stored?
      case PruneRows(_, g) => g in k.rollups && k.rollups[g].Pruning? && k.rollups[g].done == |k.rollups[g].stale|
      case Restore(_, index, _) => index < |k.rows|
      case SetTier(_, _) => true
      case SetActive(_, _) => true
  }

  predicate FlushEnabled(cfg: Config, k: Clone, step: Step)
    requires IsFlush(step)
  {
    if step.FlushRead? then step.f !in k.flushes && k.stream != []
    else
      step.f in k.flushes
      && var task := k.flushes[step.f];
      match step
      case FlushCommit(_, _) => task.Flushing? && Fits(Payload(cfg, k.buffer) + Entries(task.snapshot))
      case FlushTrim(_, _, bound) =>
        task.Flushed? && task.snapshot != [] && cfg.trimFrom(task.snapshot[|task.snapshot| - 1].id) == Some(bound)
      case FlushRevert(_, _) => task.Flushed?
      case FlushDies(_, _) => true
  }

  /** The steps on one clone that also touch the objects, the run or another clone. */
  predicate EnabledShared(cfg: Config, s: State, k: Clone, step: Step) {
    match step
    case RollupScheduled(c, g, run) => run in s.runs && c in s.runs[run].due && g !in k.rollups
    case RollupUpload(c, g, stamp, suffix) =>
      g in k.rollups && k.rollups[g].RollingUp? && BackupKey(c, stamp, suffix) !in s.made
    case RollupCommit(_, g, pos) =>
      g in k.rollups && k.rollups[g].Uploaded? && RanksAt(k.rows, pos, k.rollups[g].job.now)
      && Payload(cfg, Some(k.rollups[g].job.row)) != []
    case PruneObject(_, g) => g in k.rollups && k.rollups[g].Pruning? && k.rollups[g].done < |k.rollups[g].stale|
    case ResurrectRead(c, source) =>
      source != c && source in s.clones && !s.clones[source].active && s.clones[source].rows != []
    case ResurrectCopy(c, candidate, stamp, suffix) =>
      candidate in k.candidates && candidate.row.key in s.objects && candidate.row.key in s.made
      && BackupKey(c, stamp, suffix) !in s.made
    case ResurrectCommit(_, copy, pos, _) => copy in k.copies && RanksAt(k.rows, pos, copy.row.periodEnd)
    case _ => false
  }

  predicate Enabled(cfg: Config, s: State, step: Step) {
    if step.RunBegin? then step.run !in s.runs
    else if step.RunEnd? then step.run in s.runs
    else
      step.c in s.clones
      && if IsLocal(step) then LocallyEnabled(cfg, s.clones[step.c], step)
         else EnabledShared(cfg, s, s.clones[step.c], step)
  }

  function Put(s: State, c: nat, k: Clone): (s': State) {
    s.(clones := s.clones[c := k])
  }

  function SetRollup(k: Clone, g: nat, task: RollupTask): (k': Clone) {
    k.(rollups := k.rollups[g := task])
  }

  function StartRollup(k: Clone, g: nat, now: int, tier: Tier, seen: Option<nat>): (k': Clone) {
    if HasBuffer(k) then SetRollup(k, g, RollingUp(Job(now, tier, k.buffer.value, seen))) else k
  }

  function RolledUpRow(cfg: Config, id: nat, job: Job, key: Key): (row: Backup)
    requires Payload(cfg, Some(job.row)) != []
  {
    Backup(id, MinCaptured(cfg, Payload(cfg, Some(job.row))), job.now, job.row.count, key, job.tier, None)
  }

  function ResurrectedRow(id: nat, copy: Copy, at: int): (row: Backup) {
    Backup(id, copy.row.periodStart, copy.row.periodEnd, copy.row.entryCount, copy.key, copy.tier, Some(at))
  }

  /** The clones the due query selects at `now`. */
  function DueListings(cfg: Config, s: State, now: int): (due: map<nat, Listing>) {
    map c | c in s.clones && Due(cfg, s.clones[c], now) :: Listing(s.clones[c].tier, |s.clones[c].slots|)
  }

  function Apply(cfg: Config, s: State, step: Step): (s': State)
    requires Enabled(cfg, s, step)
  {
    if step.RunBegin? then s.(runs := s.runs[step.run := Run(step.now, DueListings(cfg, s, step.now))])
    else if step.RunEnd? then s.(runs := s.runs - {step.run})
    else if IsLocal(step) then Put(s, step.c, ApplyLocal(cfg, s.clones[step.c], step))
    else ApplyShared(cfg, s, step)
  }

  function ApplyShared(cfg: Config, s: State, step: Step): (s': State)
    requires !step.RunBegin? && !step.RunEnd? && step.c in s.clones
    requires EnabledShared(cfg, s, s.clones[step.c], step)
  {
    match step
    case RollupScheduled(c, g, run) => BeginScheduled(s, c, g, run)
    case RollupUpload(c, g, stamp, suffix) => Upload(cfg, s, c, g, BackupKey(c, stamp, suffix))
    case RollupCommit(c, g, pos) =>
      Put(s, c, CommitRollup(cfg, s.clones[c], g, pos, s.nextId)).(nextId := s.nextId + 1)
    case PruneObject(c, g) =>
      Put(s, c, DeletedNext(s.clones[c], g)).(objects := s.objects - {NextStale(s.clones[c].rollups[g]).key})
    case ResurrectRead(c, source) => ReadNewest(s, c, source)
    case ResurrectCopy(c, candidate, stamp, suffix) => CopyObject(s, c, candidate, BackupKey(c, stamp, suffix))
    case ResurrectCommit(c, copy, pos, at) => InsertCopy(s, c, copy, pos, at)
  }

  function BeginScheduled(s: State, c: nat, g: nat, r: nat): (s': State)
    requires c in s.clones && r in s.runs && c in s.runs[r].due
  {
    var run := s.runs[r];
    Put(s, c, StartRollup(s.clones[c], g, run.now, run.due[c].tier, Some(run.due[c].seen)))
      .(runs := s.runs[r := run.(due := run.due - {c})])
  }

  function Upload(cfg: Config, s: State, c: nat, g: nat, key: Key): (s': State)
    requires c in s.clones && g in s.clones[c].rollups && s.clones[c].rollups[g].RollingUp?
  {
    var k, job := s.clones[c], s.clones[c].rollups[g].job;
    Put(s, c, SetRollup(k, g, Uploaded(job, key)))
      .(objects := s.objects[key := job.row.blob], made := s.made[key := Payload(cfg, Some(job.row))])
  }

  function NextStale(task: RollupTask): (row: Backup)
    requires task.Pruning? && task.done < |task.stale|
  {
    task.stale[task.done]
  }

  function DeletedNext(k: Clone, g: nat): (k': Clone)
    requires g in k.rollups && k.rollups[g].Pruning?
  {
    SetRollup(k, g, k.rollups[g].(done := k.rollups[g].done + 1))
  }

  function ReadNewest(s: State, c: nat, source: nat): (s': State)
    requires c in s.clones && source in s.clones && s.clones[source].rows != []
  {
    var k := s.clones[c];
    Put(s, c, k.(candidates := k.candidates + {Candidate(s.clones[source].rows[0], k.tier)}))
  }

  function CopyObject(s: State, c: nat, candidate: Candidate, key: Key): (s': State)
    requires c in s.clones && candidate.row.key in s.objects && candidate.row.key in s.made
  {
    var k := s.clones[c];
    Put(s, c, k.(copies := k.copies + {Copy(candidate.row, candidate.tier, key)}))
      .(objects := s.objects[key := s.objects[candidate.row.key]],
        made := s.made[key := s.made[candidate.row.key]])
  }

  function InsertCopy(s: State, c: nat, copy: Copy, pos: nat, at: int): (s': State)
    requires c in s.clones && pos <= |s.clones[c].rows|
  {
    var k := s.clones[c];
    Put(s, c, k.(copies := k.copies - {copy},
                 rows := InsertAt(k.rows, pos, ResurrectedRow(s.nextId, copy, at))))
      .(nextId := s.nextId + 1)
  }

  function ApplyLocal(cfg: Config, k: Clone, step: Step): (k': Clone)
    requires IsLocal(step) && LocallyEnabled(cfg, k, step)
  {
    if IsFlush(step) then ApplyFlush(cfg, k, step)
    else
      match step
      case Append(_, id, entry) =>
        k.(stream := k.stream + [StreamEntry(id, entry)], lastId := id, checking := k.checking + 1,
           requested := false, served := 0, lost := 0, history := k.history + [entry])
      case CheckLength(_, refused) =>
        k.(checking := k.checking - 1,
           requested := k.requested || (|k.stream| >= cfg.maxlen && !refused),
           served := if refused then k.served else k.served + 1,
           lost := if refused then k.lost + 1 else k.lost)
      case WriterDies(_) => k.(checking := k.checking - 1, lost := k.lost + 1)
      case RollupForced(_, g, now) => StartRollup(k, g, now, k.tier, None)
      case RollupDies(_, g) => EndRollup(k, g)
      case PruneSelect(_, g) => SelectStale(k, g)
      case PruneRows(_, g) => EndRollup(k, g).(rows := Without(k.rows, Ids(k.rollups[g].stale)))
      case Restore(_, index, at) => k.(rows := k.rows[index := k.rows[index].(restoredAt := Some(at))])
      case SetTier(_, tier) => k.(tier := tier)
      case SetActive(_, active) => k.(active := active)
  }

  /** A commit loads the row as committed by then. A revert updates the row it wrote to; when a
      rollup has deleted that row meanwhile the update matches nothing, and the revert raises. */
  function ApplyFlush(cfg: Config, k: Clone, step: Step): (k': Clone)
    requires IsFlush(step) && FlushEnabled(cfg, k, step)
  {
    match step
    case FlushRead(_, f) => k.(flushes := k.flushes[f := Flushing(k.stream)])
    case FlushCommit(_, f) =>
      var existing, snapshot := Payload(cfg, k.buffer), k.flushes[f].snapshot;
      k.(buffer := RowOf(cfg, existing + Entries(snapshot)), flushes := k.flushes[f := Flushed(snapshot, existing)])
    case FlushTrim(_, f, bound) => k.(stream := TrimmedFrom(k.stream, bound), flushes := k.flushes - {f})
    case FlushRevert(_, f) =>
      k.(buffer := if k.buffer.None? then None else RowOf(cfg, k.flushes[f].existing), flushes := k.flushes - {f})
    case FlushDies(_, f) => k.(flushes := k.flushes - {f})
  }

  function EndRollup(k: Clone, g: nat): (k': Clone) {
    k.(rollups := k.rollups - {g})
  }

  /** With nothing stale the rollup is over. */
  function SelectStale(k: Clone, g: nat): (k': Clone) {
    var stale := StaleRows(k.rows);
    if stale == [] then EndRollup(k, g) else SetRollup(k, g, Pruning(k.rows, stale, 0))
  }

  /** One transaction: the backup row in; the buffer row, whatever it holds by then, out, which for
      a row that is gone already is no error. */
  function CommitRollup(cfg: Config, k: Clone, g: nat, pos: nat, id: nat): (k': Clone)
    requires g in k.rollups && k.rollups[g].Uploaded? && pos <= |k.rows|
    requires Payload(cfg, Some(k.rollups[g].job.row)) != []
  {
    var job, key := k.rollups[g].job, k.rollups[g].key;
    SetRollup(k, g, Stored)
      .(rows := InsertAt(k.rows, pos, RolledUpRow(cfg, id, job, key)), buffer := None,
        rolled := k.rolled + [key],
        slots := if job.seen.Some? then k.slots + [Slot(job.now, job.tier, job.seen.value)] else k.slots)
  }

  // ----- runs -----

  predicate Legal(cfg: Config, s: State, steps: seq<Step>)
    decreases |steps|
  {
    steps == [] || (Enabled(cfg, s, steps[0]) && Legal(cfg, Apply(cfg, s, steps[0]), steps[1..]))
  }

  function Exec(cfg: Config, s: State, steps: seq<Step>): (s': State)
    requires Legal(cfg, s, steps)
    decreases |steps|
  {
    if steps == [] then s else Exec(cfg, Apply(cfg, s, steps[0]), steps[1..])
  }

  lemma {:induction false} ExecConcat(cfg: Config, s: State, a: seq<Step>, b: seq<Step>)
    requires Legal(cfg, s, a) && Legal(cfg, Exec(cfg, s, a), b)
    ensures Legal(cfg, s, a + b) && Exec(cfg, s, a + b) == Exec(cfg, Exec(cfg, s, a), b)
    decreases |a|
  {
    if a == [] {
      assert a + b == b;
    } else {
      ExecConcat(cfg, Apply(cfg, s, a[0]), a[1..], b);
      assert (a + b)[0] == a[0] && (a + b)[1..] == a[1..] + b;
    }
  }

  /** Clones that have done nothing yet. */
  ghost predicate Fresh(k: Clone) {
    && k.stream == [] && k.lastId == StreamId(0, 0) && k.checking == 0 && !k.requested && k.served == k.lost == 0
    && k.buffer == None && k.rows == [] && k.candidates == {} && k.copies == {}
    && k.flushes == map[] && k.rollups == map[]
    && k.history == [] && k.rolled == [] && k.slots == []
  }

  ghost predicate Start(s: State) {
    && (forall c :: c in s.clones ==> Fresh(s.clones[c]))
    && s.objects == map[] && s.made == map[] && s.runs == map[]
  }
}
