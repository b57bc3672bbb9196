/** Pieces that runs of the service are put together from. */
module RunBlocks {
  import opened Wrappers
  import opened BackupCodec
  import opened Streams
  import opened Subscriptions
  import opened ObjectStorage
  import opened Retention
  import opened Machine
  import opened Invariant
  import opened Reachable
  import opened Flush
  import opened FlushRuns
  import opened Pipeline
  import opened RollupRuns

  /** A legal run between states with the invariant. */
  ghost predicate Leads(cfg: Config, s: State, steps: seq<Step>, s': State) {
    Reaches(cfg, s, steps, s') && Inv(cfg, s')
  }

  lemma Join(cfg: Config, s: State, a: seq<Step>, s1: State, b: seq<Step>, s2: State)
    requires Leads(cfg, s, a, s1) && Leads(cfg, s1, b, s2)
    ensures Leads(cfg, s, a + b, s2)
  {
    ExecConcat(cfg, s, a, b);
  }

  lemma Single(cfg: Config, s: State, step: Step, s': State)
    requires Steps(cfg, s, step, s')
    ensures Reaches(cfg, s, [step], s')
  {
    assert Legal(cfg, s, []) && Exec(cfg, s, []) == s;
    Extend(cfg, s, [], s, step, s');
    assert [] + [step] == [step];
  }

  lemma OneStep(cfg: Config, s: State, step: Step, s': State)
    requires cfg.Valid() && Inv(cfg, s) && Steps(cfg, s, step, s')
    ensures Leads(cfg, s, [step], s')
  {
    StepKeepsInv(cfg, s, step);
    Single(cfg, s, step, s');
  }

  lemma Onward(cfg: Config, s0: State, past: seq<Step>, s: State, steps: seq<Step>, s': State)
    requires Reaches(cfg, s0, past, s) && Reaches(cfg, s, steps, s')
    ensures Reaches(cfg, s0, past + steps, s')
  {
    ExecConcat(cfg, s0, past, steps);
  }

  // ----- a write and a flush -----

  /** The clone after a write and a flush of it alone. */
  function Remembered(cfg: Config, k: Clone, id: StreamId, entry: Entry): (k': Clone) {
    k.(stream := [], lastId := id, checking := k.checking + 1, requested := false, served := 0, lost := 0,
       buffer := RowOf(cfg, Payload(cfg, k.buffer) + [entry]), history := k.history + [entry])
  }

  ghost predicate CanRemember(cfg: Config, k: Clone, id: StreamId, entry: Entry) {
    && k.stream == [] && 0 !in k.flushes && Fits64(id) && id.sequence < MAX64 && Before(k.lastId, id)
    && Fits(Payload(cfg, k.buffer) + [entry])
  }

  function Wrote(k: Clone, id: StreamId, entry: Entry): (k': Clone) {
    k.(stream := k.stream + [StreamEntry(id, entry)], lastId := id, checking := k.checking + 1,
       requested := false, served := 0, lost := 0, history := k.history + [entry])
  }

  lemma WriteStep(cfg: Config, s: State, c: nat, id: StreamId, entry: Entry)
    requires c in s.clones && Fits64(id) && Before(s.clones[c].lastId, id)
    ensures Steps(cfg, s, Append(c, id, entry), Put(s, c, Wrote(s.clones[c], id, entry)))
  {
  }

  lemma FlushedIsRemembered(cfg: Config, k: Clone, id: StreamId, entry: Entry)
    requires CanRemember(cfg, k, id, entry)
    ensures FlushedClone(cfg, Wrote(k, id, entry), Visit([], [], NoFault)) == Remembered(cfg, k, id, entry)
  {
    var stream := Wrote(k, id, entry).stream;
    assert stream == [StreamEntry(id, entry)] && Entries(stream) == [entry];
  }

  lemma FlushWritten(cfg: Config, s: State, c: nat, k: Clone, id: StreamId, entry: Entry) returns (steps: seq<Step>)
    requires cfg.Valid() && Inv(cfg, s) && c in s.clones && s.clones[c] == Wrote(k, id, entry)
    requires CanRemember(cfg, k, id, entry)
    ensures Leads(cfg, s, steps, Put(s, c, Remembered(cfg, k, id, entry)))
  {
    var v := Visit([], [], NoFault);
    assert s.clones[c].stream + [] + [] == s.clones[c].stream == [StreamEntry(id, entry)];
    FlushIsARun(cfg, s, c, 0, v);
    FlushedIsRemembered(cfg, k, id, entry);
    steps := FlushRun(cfg, s.clones[c], c, 0, v);
    RunKeepsInv(cfg, s, steps);
  }

  lemma WriteAndFlush(cfg: Config, s: State, c: nat, id: StreamId, entry: Entry) returns (steps: seq<Step>)
    requires cfg.Valid() && Inv(cfg, s) && c in s.clones && CanRemember(cfg, s.clones[c], id, entry)
    ensures Leads(cfg, s, steps, Put(s, c, Remembered(cfg, s.clones[c], id, entry)))
  {
    var k, step := s.clones[c], Append(c, id, entry);
    WriteStep(cfg, s, c, id, entry);
    OneStep(cfg, s, step, Put(s, c, Wrote(k, id, entry)));
    PutAgain(s, c, Wrote(k, id, entry), Remembered(cfg, k, id, entry));
    var flush := FlushWritten(cfg, Put(s, c, Wrote(k, id, entry)), c, k, id, entry);
    Join(cfg, s, [step], Put(s, c, Wrote(k, id, entry)), flush, Put(s, c, Remembered(cfg, k, id, entry)));
    steps := [step] + flush;
  }

  /** Nothing of the clone waits to be rolled up. */
  predicate Idle(k: Clone) {
    k.stream == [] && k.flushes == map[] && k.buffer.None?
  }

  /** One entry in an idle clone's buffer, on the given tier. */
  function Holding(cfg: Config, k: Clone, tier: Tier, id: StreamId, entry: Entry): (k': Clone) {
    Remembered(cfg, k.(tier := tier), id, entry)
  }

  lemma HoldsOne(cfg: Config, k: Clone, tier: Tier, id: StreamId, entry: Entry)
    requires cfg.Valid() && k.buffer.None? && Fits([entry])
    ensures var k' := Holding(cfg, k, tier, id, entry);
      HasBuffer(k') && Payload(cfg, k'.buffer) == [entry] && k'.buffer == RowOf(cfg, [entry])
  {
    assert [] + [entry] == [entry];
    PayloadOfRow(cfg, [entry]);
  }

  /** A tier change, a write and a flush. */
  lemma Hold(cfg: Config, s: State, c: nat, tier: Tier, id: StreamId, entry: Entry) returns (steps: seq<Step>)
    requires cfg.Valid() && Inv(cfg, s) && c in s.clones && Idle(s.clones[c]) && Fits([entry])
    requires Fits64(id) && id.sequence < MAX64 && Before(s.clones[c].lastId, id)
    ensures Leads(cfg, s, steps, Put(s, c, Holding(cfg, s.clones[c], tier, id, entry)))
  {
    var k := s.clones[c];
    var k1 := k.(tier := tier);
    assert [] + [entry] == [entry];
    OneStep(cfg, s, SetTier(c, tier), Put(s, c, k1));
    PutAgain(s, c, k1, Remembered(cfg, k1, id, entry));
    var write := WriteAndFlush(cfg, Put(s, c, k1), c, id, entry);
    Join(cfg, s, [SetTier(c, tier)], Put(s, c, k1), write, Put(s, c, Remembered(cfg, k1, id, entry)));
    steps := [SetTier(c, tier)] + write;
  }

  // ----- a rollup -----

  /** A rollup of what is in the buffer, wherever it stops. */
  lemma BackUp(cfg: Config, s: State, c: nat, first: Step, suffix: string, t: Ticket, stop: Stop)
    returns (steps: seq<Step>, s': State)
    requires cfg.Valid() && Inv(cfg, s) && c in s.clones && HasBuffer(s.clones[c])
    requires Starts(s, c, first, t) && RanksAt(s.clones[c].rows, t.pos, t.now)
    requires t.key == BackupKey(c, "", suffix) && t.key !in s.made && !stop.PutFails? && !stop.InsertFails?
    ensures Leads(cfg, s, steps, s')
    ensures var k := s.clones[c];
      ShowsOutcome(s, s', c, first, t, RollupOutcome(cfg, k.buffer, k.rows, s.objects, s.nextId, t, stop), true,
                   s.made[t.key := Payload(cfg, k.buffer)])
    ensures Payload(cfg, s.clones[c].buffer) != []
  {
    RollupIsARun(cfg, s, c, first, "", suffix, t, stop);
    var stale: nat :| RunMatches(cfg, s, c, first, "", suffix, t, stop, stale);
    steps := RollupSteps(c, first, "", suffix, t.pos, stale, stop);
    s' := Exec(cfg, s, steps);
    RunKeepsInv(cfg, s, steps);
  }

  // ----- names -----

  function Suffix(n: nat): (text: string)
    ensures |text| == n
  {
    if n == 0 then "" else Suffix(n - 1) + "0"
  }

  /** The n-th name of a clone's objects in these runs. */
  function Name(c: nat, n: nat): (key: Key) {
    BackupKey(c, "", Suffix(n))
  }

  /** Of the clone's names only the first n have been used. */
  predicate Unused(s: State, c: nat, n: nat) {
    forall key :: key in s.made && OwnedBy(key, c) ==> |key| < |Name(c, n)|
  }

  lemma StillUnused(s: State, made: map<Key, seq<Entry>>, s': State, c: nat, n: nat)
    requires Unused(s, c, n) && s'.made == made && forall key :: key in made ==> key in s.made || key == Name(c, n)
    ensures Unused(s', c, n + 1)
  {
  }

  lemma NextName(s: State, c: nat, n: nat)
    requires Unused(s, c, n)
    ensures Name(c, n) !in s.made && |Name(c, n)| < |Name(c, n + 1)|
  {
    BackupKeyOwned(c, "", Suffix(n));
  }

  // ----- one backup after another -----

  /** Ready for the n-th write and rollup. */
  predicate Prepared(s: State, c: nat, n: nat) {
    && c in s.clones && Idle(s.clones[c]) && s.clones[c].lastId == StreamId(n, 0)
    && Unused(s, c, n) && n < MAX64
  }

  ghost predicate Ready(cfg: Config, s: State, c: nat, n: nat) {
    Inv(cfg, s) && Prepared(s, c, n)
  }

  function TicketOf(c: nat, n: nat, tier: Tier, now: int, pos: nat): (t: Ticket) {
    Ticket(now, tier, Name(c, n), pos)
  }

  /** What a rollup of the one entry makes of the clone's rows and the bucket. */
  function TakenFrom(cfg: Config, s: State, c: nat, n: nat, tier: Tier, entry: Entry, now: int, pos: nat, stop: Stop)
    : (o: RolledUp)
    requires c in s.clones && pos <= |s.clones[c].rows|
  {
    RollupOutcome(cfg, RowOf(cfg, [entry]), s.clones[c].rows, s.objects, s.nextId, TicketOf(c, n, tier, now, pos), stop)
  }

  /** The other clones are as they were. */
  predicate Beside(s: State, s': State, c: nat) {
    && c in s.clones && s'.clones.Keys == s.clones.Keys
    && (forall d :: d in s.clones && d != c ==> s'.clones[d] == s.clones[d])
  }

  /** The clone's rows and the bucket as the rollup leaves them; one more entry written and rolled up,
      and nothing else of the clone changed but its tier. */
  ghost predicate Took(cfg: Config, s: State, s': State, c: nat, n: nat, tier: Tier, entry: Entry, o: RolledUp) {
    && Beside(s, s', c) && s'.objects == o.objects && s'.nextId == s.nextId + 1
    && (forall key :: key in s'.made ==> key in s.made || key == Name(c, n))
    && var k, k' := s.clones[c], s'.clones[c];
    && k'.rows == o.rows && k'.rollups == k.rollups && k'.active == k.active && k'.tier == tier
    && k'.history == k.history + [entry] && k'.rolled == k.rolled + [Name(c, n)]
  }

  lemma ShownTook(cfg: Config, s: State, held: State, s': State, c: nat, n: nat, tier: Tier, entry: Entry, g: nat,
                  t: Ticket, o: RolledUp)
    requires Prepared(s, c, n) && n + 1 < MAX64 && t.key == Name(c, n) && t.tier == tier
    requires held == Put(s, c, Holding(cfg, s.clones[c], tier, StreamId(n + 1, 0), entry))
    requires Starts(held, c, RollupForced(c, g, t.now), t) && o.row.None? && o.nextId == s.nextId + 1
    requires ShowsOutcome(held, s', c, RollupForced(c, g, t.now), t, o, true, s.made[t.key := [entry]])
    ensures Prepared(s', c, n + 1) && Took(cfg, s, s', c, n, tier, entry, o)
  {
    var k' := RolledUpClone(held, c, RollupForced(c, g, t.now), t, o, true);
    PutAgain(s, c, held.clones[c], k');
    assert s'.clones == s.clones[c := k'];
    StillUnused(s, s.made[t.key := [entry]], s', c, n);
  }

  lemma OutcomeCommits(cfg: Config, row: Option<BufferRow>, rows: Rows, objects: map<Key, Bytes>, id: nat, t: Ticket,
                       stop: Stop)
    requires t.pos <= |rows| && Payload(cfg, row) != [] && !stop.PutFails? && !stop.InsertFails?
    ensures var o := RollupOutcome(cfg, row, rows, objects, id, t, stop);
      o.row.None? && o.nextId == id + 1
  {
  }

  /** A tier change, a write, a flush, and a rollup forced now that may stop in its prune. */
  lemma Deposit(cfg: Config, s: State, c: nat, n: nat, tier: Tier, entry: Entry, now: int, pos: nat, g: nat, stop: Stop)
    returns (steps: seq<Step>, s': State)
    requires cfg.Valid() && Ready(cfg, s, c, n) && n + 1 < MAX64 && Fits([entry])
    requires g !in s.clones[c].rollups && RanksAt(s.clones[c].rows, pos, now) && !stop.PutFails? && !stop.InsertFails?
    ensures Leads(cfg, s, steps, s') && Ready(cfg, s', c, n + 1)
    ensures Took(cfg, s, s', c, n, tier, entry, TakenFrom(cfg, s, c, n, tier, entry, now, pos, stop))
  {
    var k, t := s.clones[c], TicketOf(c, n, tier, now, pos);
    var id := StreamId(n + 1, 0);
    var held := Put(s, c, Holding(cfg, k, tier, id, entry));
    var a := Hold(cfg, s, c, tier, id, entry);
    HoldsOne(cfg, k, tier, id, entry);
    NextName(s, c, n);
    var b;
    b, s' := BackUp(cfg, held, c, RollupForced(c, g, now), Suffix(n), t, stop);
    Join(cfg, s, a, held, b, s');
    steps := a + b;
    OutcomeCommits(cfg, RowOf(cfg, [entry]), k.rows, s.objects, s.nextId, t, stop);
    ShownTook(cfg, s, held, s', c, n, tier, entry, g, t, TakenFrom(cfg, s, c, n, tier, entry, now, pos, stop));
  }

  /** The row such a rollup inserts. */
  function RowTaken(cfg: Config, s: State, c: nat, n: nat, tier: Tier, entry: Entry, now: int): (row: Backup) {
    NewRow(cfg, [entry], 1, s.nextId, TicketOf(c, n, tier, now, 0))
  }

  /** When it completes. */
  lemma TakenRows(cfg: Config, s: State, c: nat, n: nat, tier: Tier, entry: Entry, now: int, pos: nat, stop: Stop)
    requires cfg.Valid() && c in s.clones && pos <= |s.clones[c].rows| && Fits([entry])
    requires !stop.PutFails? && !stop.InsertFails?
    ensures var o := TakenFrom(cfg, s, c, n, tier, entry, now, pos, stop);
      var inserted := InsertAt(s.clones[c].rows, pos, RowTaken(cfg, s, c, n, tier, entry, now));
      && (stop.Completes? ==> o.rows == Retention.Prune(inserted))
      && (stop.LastCommitFails? ==> o.rows == inserted)
      && (stop.Completes? || stop.LastCommitFails? ==>
            forall i :: 0 <= i < |StaleRows(inserted)| ==> StaleRows(inserted)[i].key !in o.objects)
  {
    PayloadOfRow(cfg, [entry]);
    var inserted := InsertAt(s.clones[c].rows, pos, RowTaken(cfg, s, c, n, tier, entry, now));
    forall i | 0 <= i < |StaleRows(inserted)|
      ensures StaleRows(inserted)[i].key in KeysOf(StaleRows(inserted))
    {
    }
  }

  // ----- a rollup that has selected and goes on later -----

  /** The rollup in slot g has inserted its row, selected what is stale, and not deleted anything. */
  ghost predicate Selecting(cfg: Config, s: State, s': State, c: nat, g: nat, rows: Rows) {
    && Beside(s, s', c) && s'.nextId == s.nextId + 1
    && s'.clones[c].rows == rows
    && s'.clones[c].rollups == s.clones[c].rollups[g := Pruning(rows, StaleRows(rows), 0)]
  }

  /** The commit before that. */
  ghost predicate Inserted(s: State, s': State, c: nat, n: nat, tier: Tier, rows: Rows) {
    && Beside(s, s', c) && s'.nextId == s.nextId + 1 && Prepared(s', c, n + 1)
    && var k, k' := s.clones[c], s'.clones[c];
    && k'.rows == rows && k'.rollups == k.rollups && k'.tier == tier && k'.active == k.active
  }

  lemma CommittedState(cfg: Config, s: State, held: State, c: nat, g: nat, entry: Entry, t: Ticket)
    requires c in s.clones && c in held.clones && held == Put(s, c, held.clones[c]) && HasBuffer(held.clones[c])
    requires Payload(cfg, held.clones[c].buffer) == [entry] && held.clones[c].buffer.value.count == 1
    requires Starts(held, c, RollupForced(c, g, t.now), t) && t.pos <= |held.clones[c].rows|
    ensures var h := held.clones[c];
      var rows := InsertAt(h.rows, t.pos, NewRow(cfg, [entry], 1, s.nextId, t));
      AfterCommit(cfg, held, c, RollupForced(c, g, t.now), t)
      == Put(s, c, h.(buffer := None, rows := rows, rolled := h.rolled + [t.key]))
           .(objects := s.objects[t.key := h.buffer.value.blob], made := s.made[t.key := [entry]],
             nextId := s.nextId + 1)
  {
    var h, s' := held.clones[c], AfterCommit(cfg, held, c, RollupForced(c, g, t.now), t);
    PutAgain(s, c, h, s'.clones[c]);
  }

  lemma CommittedShows(cfg: Config, s: State, held: State, c: nat, n: nat, tier: Tier, entry: Entry, g: nat, t: Ticket)
    requires Prepared(s, c, n) && n + 1 < MAX64 && t == TicketOf(c, n, tier, t.now, t.pos)
    requires held == Put(s, c, Holding(cfg, s.clones[c], tier, StreamId(n + 1, 0), entry))
    requires Payload(cfg, held.clones[c].buffer) == [entry]
    requires HasBuffer(held.clones[c]) && held.clones[c].buffer.value.count == 1
    requires Starts(held, c, RollupForced(c, g, t.now), t) && t.pos <= |s.clones[c].rows|
    ensures var s' := AfterCommit(cfg, held, c, RollupForced(c, g, t.now), t);
      Inserted(s, s', c, n, tier, InsertAt(s.clones[c].rows, t.pos, RowTaken(cfg, s, c, n, tier, entry, t.now)))
  {
    CommittedState(cfg, s, held, c, g, entry, t);
    InsertedShows(s, held.clones[c], AfterCommit(cfg, held, c, RollupForced(c, g, t.now), t), c, n, tier, entry,
                  InsertAt(s.clones[c].rows, t.pos, RowTaken(cfg, s, c, n, tier, entry, t.now)),
                  s.objects[t.key := held.clones[c].buffer.value.blob]);
  }

  lemma InsertedShows(s: State, h: Clone, s': State, c: nat, n: nat, tier: Tier, entry: Entry, rows: Rows,
                      objects: map<Key, Bytes>)
    requires Prepared(s, c, n) && n + 1 < MAX64 && h.stream == [] && h.flushes == map[]
    requires h.lastId == StreamId(n + 1, 0) && h.tier == tier
    requires h.rollups == s.clones[c].rollups && h.active == s.clones[c].active
    requires s' == Put(s, c, h.(buffer := None, rows := rows, rolled := h.rolled + [Name(c, n)]))
                     .(objects := objects, made := s.made[Name(c, n) := [entry]], nextId := s.nextId + 1)
    ensures Inserted(s, s', c, n, tier, rows)
  {
    StillUnused(s, s.made[Name(c, n) := [entry]], s', c, n);
  }

  lemma SelectedShows(cfg: Config, s: State, s': State, c: nat, n: nat, tier: Tier, g: nat, rows: Rows)
    requires Inserted(s, s', c, n, tier, rows) && StaleRows(rows) != []
    ensures Prepared(Selected(s', c, g), c, n + 1) && Selecting(cfg, s, Selected(s', c, g), c, g, rows)
    ensures Selected(s', c, g).clones[c].tier == tier && Selected(s', c, g).clones[c].active == s.clones[c].active
  {
  }

  lemma SelectRun(cfg: Config, s: State, c: nat, g: nat, n: nat, t: Ticket) returns (steps: seq<Step>)
    requires cfg.Valid() && Inv(cfg, s) && c in s.clones && HasBuffer(s.clones[c])
    requires Starts(s, c, RollupForced(c, g, t.now), t) && RanksAt(s.clones[c].rows, t.pos, t.now)
    requires t.key == Name(c, n) && t.key !in s.made
    ensures Payload(cfg, s.clones[c].buffer) != []
    ensures Leads(cfg, s, steps, Selected(AfterCommit(cfg, s, c, RollupForced(c, g, t.now), t), c, g))
  {
    var first := RollupForced(c, g, t.now);
    ReadyToRollUp(cfg, s, c, first, "", Suffix(n), t);
    CommitRun(cfg, s, c, first, "", Suffix(n), t);
    var committed := AfterCommit(cfg, s, c, first, t);
    SelectStep(cfg, committed, c, g);
    steps := CommitSteps(c, first, "", Suffix(n), t.pos);
    Extend(cfg, s, steps, With(committed, c, g, Stored), PruneSelect(c, g), Selected(committed, c, g));
    steps := steps + [PruneSelect(c, g)];
    RunKeepsInv(cfg, s, steps);
  }

  lemma DepositAndSelect(cfg: Config, s: State, c: nat, n: nat, tier: Tier, entry: Entry, now: int, pos: nat, g: nat)
    returns (steps: seq<Step>, s': State)
    requires cfg.Valid() && Ready(cfg, s, c, n) && n + 1 < MAX64 && Fits([entry])
    requires g !in s.clones[c].rollups && RanksAt(s.clones[c].rows, pos, now)
    requires var rows := InsertAt(s.clones[c].rows, pos, RowTaken(cfg, s, c, n, tier, entry, now));
      StaleRows(rows) != []
    ensures Leads(cfg, s, steps, s') && Ready(cfg, s', c, n + 1)
    ensures Selecting(cfg, s, s', c, g, InsertAt(s.clones[c].rows, pos, RowTaken(cfg, s, c, n, tier, entry, now)))
    ensures s'.clones[c].tier == tier && s'.clones[c].active == s.clones[c].active
  {
    var k, t := s.clones[c], TicketOf(c, n, tier, now, pos);
    var id := StreamId(n + 1, 0);
    var held := Put(s, c, Holding(cfg, k, tier, id, entry));
    var a := Hold(cfg, s, c, tier, id, entry);
    HoldsOne(cfg, k, tier, id, entry);
    NextName(s, c, n);
    var b := SelectRun(cfg, held, c, g, n, t);
    s' := Selected(AfterCommit(cfg, held, c, RollupForced(c, g, now), t), c, g);
    Join(cfg, s, a, held, b, s');
    steps := a + b;
    CommittedShows(cfg, s, held, c, n, tier, entry, g, t);
    SelectedShows(cfg, s, AfterCommit(cfg, held, c, RollupForced(c, g, now), t), c, n, tier, g,
                  InsertAt(k.rows, pos, RowTaken(cfg, s, c, n, tier, entry, now)));
  }

  lemma DeleteOne(cfg: Config, s: State, c: nat, g: nat, from: Rows, x: Backup) returns (s': State)
    requires c in s.clones && g in s.clones[c].rollups && s.clones[c].rollups[g] == Pruning(from, [x], 0)
    ensures Steps(cfg, s, PruneObject(c, g), s') && c in s'.clones && s'.clones[c].rows == s.clones[c].rows
    ensures g in s'.clones[c].rollups && s'.clones[c].rollups[g] == Pruning(from, [x], 1)
    ensures s'.objects == s.objects - {x.key}
  {
    s' := Apply(cfg, s, PruneObject(c, g));
  }

  lemma RowsGo(cfg: Config, s: State, c: nat, g: nat, from: Rows, x: Backup) returns (s': State)
    requires c in s.clones && g in s.clones[c].rollups && s.clones[c].rollups[g] == Pruning(from, [x], 1)
    ensures Steps(cfg, s, PruneRows(c, g), s') && c in s'.clones
    ensures s'.clones[c].rows == Without(s.clones[c].rows, Ids([x])) && s'.objects == s.objects
  {
    s' := Apply(cfg, s, PruneRows(c, g));
  }

  /** A prune that deletes its one object and then its one row. */
  lemma FinishPrune(cfg: Config, s: State, c: nat, g: nat, from: Rows, x: Backup) returns (steps: seq<Step>, s': State)
    requires cfg.Valid() && Inv(cfg, s) && c in s.clones && g in s.clones[c].rollups
    requires s.clones[c].rollups[g] == Pruning(from, [x], 0)
    ensures Leads(cfg, s, steps, s') && c in s'.clones
    ensures steps == [PruneObject(c, g), PruneRows(c, g)]
    ensures s'.clones[c].rows == Without(s.clones[c].rows, Ids([x])) && s'.objects == s.objects - {x.key}
  {
    var s1 := DeleteOne(cfg, s, c, g, from, x);
    Single(cfg, s, PruneObject(c, g), s1);
    s' := RowsGo(cfg, s1, c, g, from, x);
    Extend(cfg, s, [PruneObject(c, g)], s1, PruneRows(c, g), s');
    steps := [PruneObject(c, g)] + [PruneRows(c, g)];
    RunKeepsInv(cfg, s, steps);
  }
}
