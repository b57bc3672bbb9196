/** What every reachable state of the pipeline keeps. */
module Invariant {
  import opened Wrappers
  import opened BackupCodec
  import opened Streams
  import opened Subscriptions
  import opened ObjectStorage
  import opened Retention
  import opened Machine

  // ----- the invariant -----

  ghost predicate StoreOk(cfg: Config, objects: map<Key, Bytes>, made: map<Key, seq<Entry>>) {
    forall key :: key in objects ==> key in made && Encodes(cfg, objects[key], made[key])
  }

  ghost predicate StreamOk(k: Clone) {
    && Ordered(k.stream) && Fits64(k.lastId)
    && (forall i :: 0 <= i < |k.stream| ==> !Before(k.lastId, k.stream[i].id))
  }

  /** With the stream at the threshold, a request was sent since the last append just when some
      writer got through since then; and every writer is accounted for. */
  ghost predicate TriggerOk(cfg: Config, k: Clone) {
    && (|k.stream| >= cfg.maxlen ==> (k.requested <==> k.served > 0))
    && (k.history != [] ==> k.checking + k.served + k.lost > 0)
  }

  /** The committed row is what a flush would write for its payload; so entry_count is the length. */
  ghost predicate BufferOk(cfg: Config, k: Clone) {
    k.buffer.Some? ==> RowOf(cfg, Payload(cfg, k.buffer)) == k.buffer
  }

  ghost predicate Backs(c: nat, row: Backup, made: map<Key, seq<Entry>>, nextId: nat) {
    && row.id < nextId && OwnedBy(row.key, c) && row.key in made && |made[row.key]| == row.entryCount
  }

  ghost predicate DistinctKeys(rows: Rows) {
    forall i, j :: 0 <= i < j < |rows| ==> rows[i].key != rows[j].key
  }

  ghost predicate RowsOk(c: nat, rows: Rows, made: map<Key, seq<Entry>>, nextId: nat) {
    && NewestFirst(rows) && DistinctIds(rows) && DistinctKeys(rows)
    && (forall i :: 0 <= i < |rows| ==> Backs(c, rows[i], made, nextId))
  }

  /** A row without its object is stale. Holds while no prune of the clone selects beside another. */
  ghost predicate PointersOk(rows: Rows, objects: map<Key, Bytes>) {
    forall i :: 0 <= i < |rows| && rows[i].key !in objects ==> Stale(rows, i)
  }

  /** The newest row always has its object. */
  ghost predicate NewestOk(rows: Rows, objects: map<Key, Bytes>) {
    rows != [] ==> rows[0].key in objects
  }

  /** The names of the objects a prune deletes. */
  function Doomed(task: RollupTask): (keys: set<Key>) {
    if task.Pruning? then KeysOf(task.stale) else {}
  }

  /** An object that no row points to yet, and no prune is after. */
  ghost predicate Reserved(c: nat, key: Key, k: Clone, objects: map<Key, Bytes>, made: map<Key, seq<Entry>>) {
    && OwnedBy(key, c) && key in made && key in objects
    && (forall i :: 0 <= i < |k.rows| ==> k.rows[i].key != key)
    && (forall g :: g in k.rollups ==> key !in Doomed(k.rollups[g]))
  }

  ghost predicate RequestsOk(c: nat, k: Clone, objects: map<Key, Bytes>, made: map<Key, seq<Entry>>) {
    && (forall x :: x in k.candidates ==> x.row.key in made && |made[x.row.key]| == x.row.entryCount)
    && (forall x :: x in k.copies ==>
          Reserved(c, x.key, k, objects, made) && |made[x.key]| == x.row.entryCount
          && x.row.key in made && made[x.key] == made[x.row.key]
          && Candidate(x.row, x.tier) in k.candidates)
    && (forall x, y :: x in k.copies && y in k.copies && x.key == y.key ==> x == y)
  }

  ghost predicate FlushOk(task: FlushTask) {
    task.snapshot != [] && (task.Flushed? ==> Fits(task.existing))
  }

  /** Stream, buffer row and flushes. */
  ghost predicate LiveOk(cfg: Config, k: Clone) {
    && StreamOk(k) && TriggerOk(cfg, k) && BufferOk(cfg, k)
    && (forall f :: f in k.flushes ==> FlushOk(k.flushes[f]))
  }

  /** A row as some flush wrote it. */
  ghost predicate WrittenRow(cfg: Config, row: BufferRow) {
    RowOf(cfg, Payload(cfg, Some(row))) == Some(row)
  }

  /** A row some prune is to delete: not the newest, and still the only one of its id and its name. */
  ghost predicate Condemned(c: nat, x: Backup, rows: Rows, made: map<Key, seq<Entry>>, nextId: nat) {
    && x.id < nextId && OwnedBy(x.key, c) && x.key in made
    && (forall i :: 0 <= i < |rows| ==> (rows[i].id == x.id <==> rows[i].key == x.key))
    && (rows != [] ==> rows[0].id != x.id)
  }

  ghost predicate RollupOk(cfg: Config, c: nat, k: Clone, task: RollupTask, objects: map<Key, Bytes>,
                           made: map<Key, seq<Entry>>, nextId: nat)
  {
    && (HoldsRow(task) ==> WrittenRow(cfg, task.job.row) && task.job.row.count > 0)
    && (task.Uploaded? ==>
          && Reserved(c, task.key, k, objects, made) && made[task.key] == Payload(cfg, Some(task.job.row))
          && (forall x :: x in k.copies ==> x.key != task.key))
    && (task.Pruning? ==>
          task.done <= |task.stale|
          && forall j :: 0 <= j < |task.stale| ==> Condemned(c, task.stale[j], k.rows, made, nextId))
  }

  predicate SameName(a: RollupTask, b: RollupTask) {
    a.Uploaded? && b.Uploaded? && a.key == b.key
  }

  /** The rollups in progress, each with a name of its own. */
  ghost predicate RollupsOk(cfg: Config, c: nat, k: Clone, objects: map<Key, Bytes>, made: map<Key, seq<Entry>>,
                            nextId: nat)
  {
    && (forall g :: g in k.rollups ==> RollupOk(cfg, c, k, k.rollups[g], objects, made, nextId))
    && (forall g, h :: g in k.rollups && h in k.rollups && SameName(k.rollups[g], k.rollups[h]) ==> g == h)
  }

  /** Backup rows, their objects, the rollups and the resurrections. */
  ghost predicate ArchiveOk(cfg: Config, c: nat, k: Clone, objects: map<Key, Bytes>,
                            made: map<Key, seq<Entry>>, nextId: nat)
  {
    && RowsOk(c, k.rows, made, nextId) && NewestOk(k.rows, objects)
    && RequestsOk(c, k, objects, made) && RollupsOk(cfg, c, k, objects, made, nextId)
    && (forall i :: 0 <= i < |k.rolled| ==> k.rolled[i] in made)
  }

  ghost predicate CloneOk(cfg: Config, c: nat, k: Clone, objects: map<Key, Bytes>,
                          made: map<Key, seq<Entry>>, nextId: nat)
  {
    LiveOk(cfg, k) && ArchiveOk(cfg, c, k, objects, made, nextId)
  }

  ghost predicate Inv(cfg: Config, s: State) {
    && StoreOk(cfg, s.objects, s.made)
    && (forall c :: c in s.clones ==> CloneOk(cfg, c, s.clones[c], s.objects, s.made, s.nextId))
  }

  // ----- framing: a step on one clone leaves every other clone alone -----

  ghost predicate Grows(made: map<Key, seq<Entry>>, made': map<Key, seq<Entry>>) {
    forall key :: key in made ==> key in made' && made'[key] == made[key]
  }

  ghost predicate SameElsewhere(c: nat, objects: map<Key, Bytes>, objects': map<Key, Bytes>) {
    forall key :: !OwnedBy(key, c) ==>
      (key in objects <==> key in objects') && (key in objects ==> objects'[key] == objects[key])
  }

  lemma OtherArchiveOk(cfg: Config, c: nat, d: nat, k: Clone, s: State, s': State)
    requires c != d && ArchiveOk(cfg, d, k, s.objects, s.made, s.nextId)
    requires Grows(s.made, s'.made) && SameElsewhere(c, s.objects, s'.objects) && s.nextId <= s'.nextId
    ensures ArchiveOk(cfg, d, k, s'.objects, s'.made, s'.nextId)
  {
    forall key | OwnedBy(key, d)
      ensures !OwnedBy(key, c)
    {
      if OwnedBy(key, c) {
        OneOwner(key, c, d);
      }
    }
    forall i | 0 <= i < |k.rows|
      ensures Backs(d, k.rows[i], s'.made, s'.nextId)
      ensures k.rows[i].key in s.objects <==> k.rows[i].key in s'.objects
    {
      assert Backs(d, k.rows[i], s.made, s.nextId);
    }
    forall key | Reserved(d, key, k, s.objects, s.made)
      ensures Reserved(d, key, k, s'.objects, s'.made) && s'.made[key] == s.made[key]
    {
    }
    forall g | g in k.rollups
      ensures RollupOk(cfg, d, k, k.rollups[g], s'.objects, s'.made, s'.nextId)
    {
      assert RollupOk(cfg, d, k, k.rollups[g], s.objects, s.made, s.nextId);
      SameCondemned(d, k.rollups[g], k.rows, s, s');
    }
  }

  lemma SameCondemned(c: nat, task: RollupTask, rows: Rows, s: State, s': State)
    requires Grows(s.made, s'.made) && s.nextId <= s'.nextId
    requires task.Pruning? ==>
               forall j :: 0 <= j < |task.stale| ==> Condemned(c, task.stale[j], rows, s.made, s.nextId)
    ensures task.Pruning? ==>
              forall j :: 0 <= j < |task.stale| ==> Condemned(c, task.stale[j], rows, s'.made, s'.nextId)
  {
    if task.Pruning? {
      forall j | 0 <= j < |task.stale|
        ensures Condemned(c, task.stale[j], rows, s'.made, s'.nextId)
      {
        assert Condemned(c, task.stale[j], rows, s.made, s.nextId);
      }
    }
  }

  /** Enough for the invariant: the clone stepped on, the store, and nothing done elsewhere. */
  lemma Lift(cfg: Config, s: State, s': State, c: nat, k: Clone)
    requires Inv(cfg, s) && c in s.clones && s'.clones == s.clones[c := k]
    requires Grows(s.made, s'.made) && SameElsewhere(c, s.objects, s'.objects) && s.nextId <= s'.nextId
    requires StoreOk(cfg, s'.objects, s'.made)
    requires CloneOk(cfg, c, k, s'.objects, s'.made, s'.nextId)
    ensures Inv(cfg, s')
  {
    forall d | d in s'.clones
      ensures CloneOk(cfg, d, s'.clones[d], s'.objects, s'.made, s'.nextId)
    {
      if d != c {
        OtherArchiveOk(cfg, c, d, s.clones[d], s, s');
      }
    }
  }

  // ----- rows -----

  lemma {:induction false} WithoutMembers(rows: Rows, ids: set<nat>)
    ensures forall x :: x in Without(rows, ids) <==> x in rows && x.id !in ids
  {
    if rows != [] {
      WithoutMembers(rows[1..], ids);
      assert rows == [rows[0]] + rows[1..];
    }
  }

  lemma TailOk(c: nat, rows: Rows, made: map<Key, seq<Entry>>, nextId: nat)
    requires rows != [] && RowsOk(c, rows, made, nextId)
    ensures RowsOk(c, rows[1..], made, nextId) && Backs(c, rows[0], made, nextId) && Heads(rows[0], rows[1..])
  {
    assert forall i :: 0 <= i < |rows[1..]| ==> rows[1..][i] == rows[i + 1];
  }

  /** The row is no older than those below it, and shares no id or name with them. */
  ghost predicate Heads(row: Backup, below: Rows) {
    forall j :: 0 <= j < |below| ==>
      row.periodEnd >= below[j].periodEnd && row.id != below[j].id && row.key != below[j].key
  }

  lemma PrependOk(c: nat, row: Backup, below: Rows, made: map<Key, seq<Entry>>, nextId: nat)
    requires RowsOk(c, below, made, nextId) && Backs(c, row, made, nextId) && Heads(row, below)
    ensures RowsOk(c, [row] + below, made, nextId)
  {
    assert forall i :: 0 < i < |[row] + below| ==> ([row] + below)[i] == below[i - 1];
  }

  lemma {:induction false} WithoutOk(c: nat, rows: Rows, ids: set<nat>, made: map<Key, seq<Entry>>, nextId: nat)
    requires RowsOk(c, rows, made, nextId)
    ensures RowsOk(c, Without(rows, ids), made, nextId)
  {
    if rows != [] {
      var tail := rows[1..];
      var kept := Without(tail, ids);
      TailOk(c, rows, made, nextId);
      WithoutOk(c, tail, ids, made, nextId);
      WithoutMembers(tail, ids);
      forall j | 0 <= j < |kept|
        ensures rows[0].periodEnd >= kept[j].periodEnd && rows[0].id != kept[j].id && rows[0].key != kept[j].key
      {
        assert kept[j] in tail;
        var i :| 0 <= i < |tail| && tail[i] == kept[j];
      }
      PrependOk(c, rows[0], kept, made, nextId);
    }
  }

  lemma InsertOk(c: nat, rows: Rows, pos: nat, row: Backup, made: map<Key, seq<Entry>>, nextId: nat)
    requires RowsOk(c, rows, made, nextId) && RanksAt(rows, pos, row.periodEnd)
    requires row.id == nextId && Backs(c, row, made, nextId + 1)
    requires forall i :: 0 <= i < |rows| ==> rows[i].key != row.key
    ensures RowsOk(c, InsertAt(rows, pos, row), made, nextId + 1)
  {
    var out := InsertAt(rows, pos, row);
    forall i | 0 <= i < |out|
      ensures out[i] == if i < pos then rows[i] else if i == pos then row else rows[i - 1]
      ensures Backs(c, out[i], made, nextId + 1)
    {
      if i < pos {
        assert Backs(c, rows[i], made, nextId);
      } else if i > pos {
        assert Backs(c, rows[i - 1], made, nextId);
      }
    }
    forall i | 0 <= i < |rows|
      ensures rows[i].id != row.id
    {
      assert Backs(c, rows[i], made, nextId);
    }
  }

  lemma InsertNewest(rows: Rows, pos: nat, row: Backup, objects: map<Key, Bytes>)
    requires pos <= |rows| && NewestOk(rows, objects) && row.key in objects
    ensures NewestOk(InsertAt(rows, pos, row), objects)
  {
    assert InsertAt(rows, pos, row)[0] == if pos == 0 then row else rows[0];
  }

  /** A row of a new id and a new name condemns and spares nothing. */
  lemma InsertCondemned(c: nat, x: Backup, rows: Rows, pos: nat, row: Backup, made: map<Key, seq<Entry>>, nextId: nat)
    requires pos <= |rows| && Condemned(c, x, rows, made, nextId) && row.id == nextId && row.key != x.key
    ensures Condemned(c, x, InsertAt(rows, pos, row), made, nextId + 1)
  {
    var out := InsertAt(rows, pos, row);
    forall i | 0 <= i < |out|
      ensures out[i].id == x.id <==> out[i].key == x.key
    {
      assert out[i] == if i < pos then rows[i] else if i == pos then row else rows[i - 1];
    }
    assert out[0] == if pos == 0 then row else rows[0];
  }

  /** Pruning never touches the newest row. */
  lemma DeleteKeepsNewest(rows: Rows, ids: set<nat>)
    requires rows != [] && rows[0].id !in ids
    ensures Without(rows, ids) != [] && Without(rows, ids)[0] == rows[0]
  {
  }

  lemma DeleteCondemned(c: nat, x: Backup, rows: Rows, ids: set<nat>, made: map<Key, seq<Entry>>, nextId: nat)
    requires Condemned(c, x, rows, made, nextId) && (rows != [] ==> rows[0].id !in ids)
    ensures Condemned(c, x, Without(rows, ids), made, nextId)
  {
    var kept := Without(rows, ids);
    WithoutMembers(rows, ids);
    forall i | 0 <= i < |kept|
      ensures kept[i].id == x.id <==> kept[i].key == x.key
    {
      assert kept[i] in rows;
      var j :| 0 <= j < |rows| && rows[j] == kept[i];
    }
    if rows != [] {
      DeleteKeepsNewest(rows, ids);
    }
  }

  lemma MarkCondemned(c: nat, x: Backup, rows: Rows, rows': Rows, made: map<Key, seq<Entry>>, nextId: nat)
    requires Condemned(c, x, rows, made, nextId) && |rows'| == |rows|
    requires forall i :: 0 <= i < |rows| ==> rows'[i].id == rows[i].id && rows'[i].key == rows[i].key
    ensures Condemned(c, x, rows', made, nextId)
  {
  }

  /** What a prune selects is condemned. */
  lemma StaleRowsCondemned(c: nat, rows: Rows, made: map<Key, seq<Entry>>, nextId: nat)
    requires RowsOk(c, rows, made, nextId)
    ensures forall j :: 0 <= j < |StaleRows(rows)| ==> Condemned(c, StaleRows(rows)[j], rows, made, nextId)
    ensures KeysOf(StaleRows(rows)) <= KeysOf(rows)
  {
    var stale := StaleRows(rows);
    forall j | 0 <= j < |stale|
      ensures Condemned(c, stale[j], rows, made, nextId) && stale[j].key in KeysOf(rows)
    {
      StaleRowsExact(rows, stale[j]);
      var i :| 0 <= i < |rows| && rows[i] == stale[j] && Stale(rows, i);
      assert Backs(c, rows[i], made, nextId);
      assert i > 0;
    }
  }

  // ----- one step -----

  /** Rows of the same ids and names, and no prune after anything more. */
  lemma SameReserved(c: nat, k: Clone, k': Clone, objects: map<Key, Bytes>, made: map<Key, seq<Entry>>)
    requires forall i :: 0 <= i < |k'.rows| ==> exists j :: 0 <= j < |k.rows| && k.rows[j].key == k'.rows[i].key
    requires forall g :: g in k'.rollups ==> g in k.rollups && Doomed(k'.rollups[g]) == Doomed(k.rollups[g])
    ensures forall key :: Reserved(c, key, k, objects, made) ==> Reserved(c, key, k', objects, made)
  {
  }

  /** The archive half does not look at stream, buffer and flushes, nor the other half at the rest. */
  lemma SameArchive(cfg: Config, c: nat, k: Clone, k': Clone, s: State)
    requires ArchiveOk(cfg, c, k, s.objects, s.made, s.nextId)
    requires k'.rows == k.rows && k'.candidates == k.candidates && k'.copies == k.copies
    requires k'.rollups == k.rollups && k'.rolled == k.rolled
    ensures ArchiveOk(cfg, c, k', s.objects, s.made, s.nextId)
  {
    SameReserved(c, k, k', s.objects, s.made);
    forall g | g in k'.rollups
      ensures RollupOk(cfg, c, k', k'.rollups[g], s.objects, s.made, s.nextId)
    {
      assert RollupOk(cfg, c, k, k.rollups[g], s.objects, s.made, s.nextId);
    }
  }

  lemma SameLive(cfg: Config, k: Clone, k': Clone)
    requires LiveOk(cfg, k)
    requires k'.stream == k.stream && k'.lastId == k.lastId && k'.history == k.history
    requires k'.checking == k.checking && k'.requested == k.requested && k'.served == k.served && k'.lost == k.lost
    requires k'.flushes == k.flushes && (k'.buffer == k.buffer || k'.buffer.None?)
    ensures LiveOk(cfg, k')
  {
  }

  lemma AppendLive(cfg: Config, k: Clone, step: Step)
    requires LiveOk(cfg, k) && step.Append? && LocallyEnabled(cfg, k, step)
    ensures LiveOk(cfg, ApplyLocal(cfg, k, step))
  {
    var k' := ApplyLocal(cfg, k, step);
    assert k.stream <= k'.stream;
    forall i | 0 <= i < |k.stream|
      ensures Before(k.stream[i].id, step.id)
    {
    }
  }

  /** A trim from any bound drops a beginning of the stream and nothing else. */
  lemma {:induction false} TrimIsSuffix(s: Stream, bound: StreamId) returns (n: nat)
    requires Ordered(s)
    ensures n <= |s| && TrimmedFrom(s, bound) == s[n..]
  {
    if s == [] {
      n := 0;
    } else if Before(s[0].id, bound) {
      var m := TrimIsSuffix(s[1..], bound);
      n := m + 1;
      assert s[1..][m..] == s[n..];
    } else {
      n := 0;
      TrimKeepsAll(s, bound);
      assert s[0..] == s;
    }
  }

  lemma DropLive(cfg: Config, k: Clone, n: nat)
    requires LiveOk(cfg, k) && n <= |k.stream|
    ensures LiveOk(cfg, k.(stream := k.stream[n..]))
  {
    assert forall i :: 0 <= i < |k.stream[n..]| ==> k.stream[n..][i] == k.stream[n + i];
  }

  lemma FlushCommitLive(cfg: Config, k: Clone, c: nat, f: nat)
    requires cfg.Valid() && LiveOk(cfg, k) && FlushEnabled(cfg, k, FlushCommit(c, f))
    ensures LiveOk(cfg, ApplyFlush(cfg, k, FlushCommit(c, f)))
  {
    var existing := Payload(cfg, k.buffer);
    var combined := existing + Entries(k.flushes[f].snapshot);
    PayloadOfRow(cfg, combined);
    forall i | 0 <= i < |existing|
      ensures FitsEntry(existing[i])
    {
      assert combined[i] == existing[i];
    }
  }

  lemma FlushLive(cfg: Config, k: Clone, step: Step)
    requires cfg.Valid() && LiveOk(cfg, k) && IsFlush(step) && FlushEnabled(cfg, k, step)
    ensures LiveOk(cfg, ApplyFlush(cfg, k, step))
  {
    if step.FlushCommit? {
      FlushCommitLive(cfg, k, step.c, step.f);
    } else if step.FlushTrim? {
      var n := TrimIsSuffix(k.stream, step.bound);
      DropLive(cfg, k, n);
    } else if step.FlushRevert? {
      PayloadOfRow(cfg, k.flushes[step.f].existing);
    }
  }

  lemma EndedOk(cfg: Config, c: nat, k: Clone, g: nat, s: State)
    requires ArchiveOk(cfg, c, k, s.objects, s.made, s.nextId)
    ensures ArchiveOk(cfg, c, EndRollup(k, g), s.objects, s.made, s.nextId)
  {
    var k' := EndRollup(k, g);
    SameReserved(c, k, k', s.objects, s.made);
    forall h | h in k'.rollups
      ensures RollupOk(cfg, c, k', k'.rollups[h], s.objects, s.made, s.nextId)
    {
      assert RollupOk(cfg, c, k, k.rollups[h], s.objects, s.made, s.nextId);
    }
  }

  lemma SelectedOk(cfg: Config, c: nat, k: Clone, g: nat, stale: Rows, s: State)
    requires ArchiveOk(cfg, c, k, s.objects, s.made, s.nextId) && stale == StaleRows(k.rows)
    ensures ArchiveOk(cfg, c, SetRollup(k, g, Pruning(k.rows, stale, 0)), s.objects, s.made, s.nextId)
  {
    var k' := SetRollup(k, g, Pruning(k.rows, stale, 0));
    StaleRowsCondemned(c, k.rows, s.made, s.nextId);
    forall key | Reserved(c, key, k, s.objects, s.made)
      ensures Reserved(c, key, k', s.objects, s.made)
    {
      assert key !in KeysOf(k.rows);
    }
    forall h | h in k'.rollups
      ensures RollupOk(cfg, c, k', k'.rollups[h], s.objects, s.made, s.nextId)
    {
      if h != g {
        assert RollupOk(cfg, c, k, k.rollups[h], s.objects, s.made, s.nextId);
      }
    }
  }

  /** Rows deleted that do not include the newest. */
  lemma RowsDeletedOk(cfg: Config, c: nat, k: Clone, ids: set<nat>, s: State)
    requires ArchiveOk(cfg, c, k, s.objects, s.made, s.nextId) && (k.rows != [] ==> k.rows[0].id !in ids)
    ensures ArchiveOk(cfg, c, k.(rows := Without(k.rows, ids)), s.objects, s.made, s.nextId)
  {
    var k' := k.(rows := Without(k.rows, ids));
    WithoutOk(c, k.rows, ids, s.made, s.nextId);
    WithoutMembers(k.rows, ids);
    if k.rows != [] {
      DeleteKeepsNewest(k.rows, ids);
    }
    forall i | 0 <= i < |k'.rows|
      ensures exists j :: 0 <= j < |k.rows| && k.rows[j].key == k'.rows[i].key
    {
      assert k'.rows[i] in k.rows;
      var j :| 0 <= j < |k.rows| && k.rows[j] == k'.rows[i];
    }
    SameReserved(c, k, k', s.objects, s.made);
    forall h | h in k'.rollups
      ensures RollupOk(cfg, c, k', k'.rollups[h], s.objects, s.made, s.nextId)
    {
      assert RollupOk(cfg, c, k, k.rollups[h], s.objects, s.made, s.nextId);
      AllStillCondemned(c, k.rollups[h], k.rows, ids, s);
    }
  }

  lemma AllStillCondemned(c: nat, task: RollupTask, rows: Rows, ids: set<nat>, s: State)
    requires rows != [] ==> rows[0].id !in ids
    requires task.Pruning? ==>
               forall j :: 0 <= j < |task.stale| ==> Condemned(c, task.stale[j], rows, s.made, s.nextId)
    ensures task.Pruning? ==>
              forall j :: 0 <= j < |task.stale| ==> Condemned(c, task.stale[j], Without(rows, ids), s.made, s.nextId)
  {
    if task.Pruning? {
      forall j | 0 <= j < |task.stale|
        ensures Condemned(c, task.stale[j], Without(rows, ids), s.made, s.nextId)
      {
        DeleteCondemned(c, task.stale[j], rows, ids, s.made, s.nextId);
      }
    }
  }

  lemma PruneRowsOk(cfg: Config, c: nat, k: Clone, g: nat, s: State)
    requires ArchiveOk(cfg, c, k, s.objects, s.made, s.nextId) && g in k.rollups && k.rollups[g].Pruning?
    ensures ArchiveOk(cfg, c, EndRollup(k, g).(rows := Without(k.rows, Ids(k.rollups[g].stale))),
                      s.objects, s.made, s.nextId)
  {
    var task := k.rollups[g];
    assert RollupOk(cfg, c, k, task, s.objects, s.made, s.nextId);
    forall j | 0 <= j < |task.stale|
      ensures k.rows != [] ==> task.stale[j].id != k.rows[0].id
    {
      assert Condemned(c, task.stale[j], k.rows, s.made, s.nextId);
    }
    EndedOk(cfg, c, k, g, s);
    RowsDeletedOk(cfg, c, EndRollup(k, g), Ids(task.stale), s);
  }

  /** Rows that differ in restored_at alone. */
  ghost predicate Marked(rows: Rows, rows': Rows) {
    && |rows'| == |rows|
    && (forall i :: 0 <= i < |rows| ==> rows'[i].(restoredAt := None) == rows[i].(restoredAt := None))
  }

  lemma MarkedRowsOk(c: nat, rows: Rows, rows': Rows, made: map<Key, seq<Entry>>, nextId: nat)
    requires RowsOk(c, rows, made, nextId) && Marked(rows, rows')
    ensures RowsOk(c, rows', made, nextId)
    ensures forall i :: 0 <= i < |rows| ==>
              rows'[i].id == rows[i].id && rows'[i].key == rows[i].key && rows'[i].tier == rows[i].tier
  {
    forall i | 0 <= i < |rows|
      ensures Backs(c, rows'[i], made, nextId)
      ensures rows'[i].id == rows[i].id && rows'[i].key == rows[i].key && rows'[i].tier == rows[i].tier
      ensures rows'[i].periodEnd == rows[i].periodEnd
    {
      assert Backs(c, rows[i], made, nextId);
    }
  }

  lemma MarkOk(cfg: Config, c: nat, k: Clone, rows': Rows, s: State)
    requires ArchiveOk(cfg, c, k, s.objects, s.made, s.nextId) && Marked(k.rows, rows')
    ensures ArchiveOk(cfg, c, k.(rows := rows'), s.objects, s.made, s.nextId)
  {
    var k' := k.(rows := rows');
    MarkedRowsOk(c, k.rows, rows', s.made, s.nextId);
    SameReserved(c, k, k', s.objects, s.made);
    forall h | h in k'.rollups
      ensures RollupOk(cfg, c, k', k'.rollups[h], s.objects, s.made, s.nextId)
    {
      assert RollupOk(cfg, c, k, k.rollups[h], s.objects, s.made, s.nextId);
      AllMarkedCondemned(c, k.rollups[h], k.rows, rows', s);
    }
  }

  lemma AllMarkedCondemned(c: nat, task: RollupTask, rows: Rows, rows': Rows, s: State)
    requires |rows'| == |rows|
    requires forall i :: 0 <= i < |rows| ==> rows'[i].id == rows[i].id && rows'[i].key == rows[i].key
    requires task.Pruning? ==>
               forall j :: 0 <= j < |task.stale| ==> Condemned(c, task.stale[j], rows, s.made, s.nextId)
    ensures task.Pruning? ==>
              forall j :: 0 <= j < |task.stale| ==> Condemned(c, task.stale[j], rows', s.made, s.nextId)
  {
    if task.Pruning? {
      forall j | 0 <= j < |task.stale|
        ensures Condemned(c, task.stale[j], rows', s.made, s.nextId)
      {
        MarkCondemned(c, task.stale[j], rows, rows', s.made, s.nextId);
      }
    }
  }

  lemma RestoreOk(cfg: Config, c: nat, k: Clone, step: Step, s: State)
    requires ArchiveOk(cfg, c, k, s.objects, s.made, s.nextId)
    requires step.Restore? && LocallyEnabled(cfg, k, step)
    ensures ArchiveOk(cfg, c, ApplyLocal(cfg, k, step), s.objects, s.made, s.nextId)
  {
    MarkOk(cfg, c, k, ApplyLocal(cfg, k, step).rows, s);
  }

  /** The steps that touch neither rows nor the rest of the archive. */
  lemma WriterOk(cfg: Config, c: nat, k: Clone, step: Step, s: State)
    requires CloneOk(cfg, c, k, s.objects, s.made, s.nextId)
    requires step.Append? || step.CheckLength? || step.WriterDies? || step.SetTier? || step.SetActive?
    requires LocallyEnabled(cfg, k, step)
    ensures CloneOk(cfg, c, ApplyLocal(cfg, k, step), s.objects, s.made, s.nextId)
  {
    var k' := ApplyLocal(cfg, k, step);
    SameArchive(cfg, c, k, k', s);
    if step.Append? {
      AppendLive(cfg, k, step);
    }
  }

  lemma FlushStepOk(cfg: Config, c: nat, k: Clone, step: Step, s: State)
    requires cfg.Valid() && CloneOk(cfg, c, k, s.objects, s.made, s.nextId)
    requires IsFlush(step) && FlushEnabled(cfg, k, step)
    ensures CloneOk(cfg, c, ApplyFlush(cfg, k, step), s.objects, s.made, s.nextId)
  {
    FlushLive(cfg, k, step);
    SameArchive(cfg, c, k, ApplyFlush(cfg, k, step), s);
  }

  /** The row a rollup reads is a committed one. */
  lemma StartedOk(cfg: Config, c: nat, k: Clone, g: nat, now: int, tier: Tier, seen: Option<nat>, s: State)
    requires CloneOk(cfg, c, k, s.objects, s.made, s.nextId) && g !in k.rollups
    ensures CloneOk(cfg, c, StartRollup(k, g, now, tier, seen), s.objects, s.made, s.nextId)
  {
    var k' := StartRollup(k, g, now, tier, seen);
    SameLive(cfg, k, k');
    if HasBuffer(k) {
      NewTaskOk(cfg, c, k, g, k'.rollups[g], s);
    }
  }

  /** A slot taken, or a task moved on, without a name or a prune of its own. */
  lemma NewTaskOk(cfg: Config, c: nat, k: Clone, g: nat, task: RollupTask, s: State)
    requires ArchiveOk(cfg, c, k, s.objects, s.made, s.nextId) && task.RollingUp?
    requires WrittenRow(cfg, task.job.row) && task.job.row.count > 0
    ensures ArchiveOk(cfg, c, SetRollup(k, g, task), s.objects, s.made, s.nextId)
  {
    var k' := SetRollup(k, g, task);
    forall key | Reserved(c, key, k, s.objects, s.made)
      ensures Reserved(c, key, k', s.objects, s.made)
    {
    }
    forall h | h in k'.rollups
      ensures RollupOk(cfg, c, k', k'.rollups[h], s.objects, s.made, s.nextId)
    {
      if h != g {
        assert RollupOk(cfg, c, k, k.rollups[h], s.objects, s.made, s.nextId);
      }
    }
  }

  lemma ArchiveStepOk(cfg: Config, c: nat, k: Clone, step: Step, s: State)
    requires ArchiveOk(cfg, c, k, s.objects, s.made, s.nextId)
    requires step.RollupDies? || step.PruneSelect? || step.PruneRows? || step.Restore?
    requires LocallyEnabled(cfg, k, step)
    ensures ArchiveOk(cfg, c, ApplyLocal(cfg, k, step), s.objects, s.made, s.nextId)
  {
    if step.RollupDies? {
      EndedOk(cfg, c, k, step.g, s);
    } else if step.PruneSelect? {
      EndedOk(cfg, c, k, step.g, s);
      SelectedOk(cfg, c, k, step.g, StaleRows(k.rows), s);
    } else if step.PruneRows? {
      PruneRowsOk(cfg, c, k, step.g, s);
    } else {
      RestoreOk(cfg, c, k, step, s);
    }
  }

  lemma RowStepOk(cfg: Config, c: nat, k: Clone, step: Step, s: State)
    requires CloneOk(cfg, c, k, s.objects, s.made, s.nextId)
    requires step.RollupDies? || step.PruneSelect? || step.PruneRows? || step.Restore?
    requires LocallyEnabled(cfg, k, step)
    ensures CloneOk(cfg, c, ApplyLocal(cfg, k, step), s.objects, s.made, s.nextId)
  {
    RowStepLive(cfg, k, step);
    ArchiveStepOk(cfg, c, k, step, s);
  }

  lemma RowStepLive(cfg: Config, k: Clone, step: Step)
    requires step.RollupDies? || step.PruneSelect? || step.PruneRows? || step.Restore?
    requires LiveOk(cfg, k) && LocallyEnabled(cfg, k, step)
    ensures LiveOk(cfg, ApplyLocal(cfg, k, step))
  {
    SameLive(cfg, k, ApplyLocal(cfg, k, step));
  }

  lemma LocalOk(cfg: Config, c: nat, k: Clone, step: Step, s: State)
    requires cfg.Valid() && CloneOk(cfg, c, k, s.objects, s.made, s.nextId)
    requires IsLocal(step) && LocallyEnabled(cfg, k, step)
    ensures CloneOk(cfg, c, ApplyLocal(cfg, k, step), s.objects, s.made, s.nextId)
  {
    if IsFlush(step) {
      FlushStepOk(cfg, c, k, step, s);
    } else if step.RollupForced? {
      StartedOk(cfg, c, k, step.g, step.now, k.tier, None, s);
    } else if step.RollupDies? || step.PruneSelect? || step.PruneRows? || step.Restore? {
      RowStepOk(cfg, c, k, step, s);
    } else {
      WriterOk(cfg, c, k, step, s);
    }
  }
}
