/** The rollup tasks of pipeline.py on the stores, with every place where a call may raise. */
module Pipeline {
  import opened Wrappers
  import opened BackupCodec
  import opened Subscriptions
  import opened ObjectStorage
  import opened Retention
  import opened Machine
  import opened Invariant
  import opened Pointers
  import opened Stores
  import opened Flush
  import DueQuery

  /** Where a rollup raises, if anywhere; `at` counts the stale objects already deleted. */
  datatype Stop = Completes | PutFails | InsertFails | DeleteFails(at: nat) | LastCommitFails

  datatype Status = Empty | BackedUp(entryCount: nat)

  // ----- the prune -----

  datatype Pruned = Pruned(rows: Rows, objects: map<Key, Bytes>, result: Result<nat, Failure>)

  /** Objects go first and one by one, rows last and together. */
  function PruneOutcome(rows: Rows, objects: map<Key, Bytes>, stop: Stop): (o: Pruned) {
    var stale := StaleRows(rows);
    if stop.DeleteFails? && stop.at < |stale| then
      Pruned(rows, objects - KeysOf(stale[..stop.at]), Raised(StoreFailed))
    else if stop.LastCommitFails? then Pruned(rows, objects - KeysOf(stale), Raised(StoreFailed))
    else Pruned(Retention.Prune(rows), objects - KeysOf(stale), Returned(|stale|))
  }

  /** _prune_stale_backups and the commit after it. */
  method PruneStaleBackups(db: Database, bucket: Bucket, c: nat, stop: Stop) returns (r: Result<nat, Failure>)
    requires DistinctIds(db.RowsAt(c))
    modifies db`backups, bucket
    ensures var o := PruneOutcome(old(db.RowsAt(c)), old(bucket.objects), stop);
      db.RowsAt(c) == o.rows && bucket.objects == o.objects && r == o.result
    ensures forall d :: d != c ==> db.RowsAt(d) == old(db.RowsAt(d))
  {
    var rows := db.RowsAt(c);
    var stale := StaleRows(rows);
    for j := 0 to |stale|
      invariant db.backups == old(db.backups)
      invariant bucket.objects == old(bucket.objects) - KeysOf(stale[..j])
      invariant stop.DeleteFails? ==> j <= stop.at
    {
      if stop == DeleteFails(j) {
        return Raised(StoreFailed);
      }
      bucket.objects := bucket.objects - {stale[j].key};
      assert KeysOf(stale[..j + 1]) == KeysOf(stale[..j]) + {stale[j].key};
    }
    assert stale[..|stale|] == stale;
    if stop.LastCommitFails? {
      return Raised(StoreFailed);
    }
    DeleteStaleIsPrune(rows);
    db.backups := db.backups[c := Without(rows, Ids(stale))];
    return Returned(|stale|);
  }

  /** At every stop a row without its object is stale: the prune may leave dangling rows, but never
      one that a reader is meant to use. */
  lemma PruneKeepsPointers(rows: Rows, objects: map<Key, Bytes>, stop: Stop)
    requires PointersOk(rows, objects) && DistinctKeys(rows) && DistinctIds(rows)
    ensures PointersOk(PruneOutcome(rows, objects, stop).rows, PruneOutcome(rows, objects, stop).objects)
    ensures PruneOutcome(rows, objects, stop).result.Returned? ==>
              forall i :: 0 <= i < |Retention.Prune(rows)| ==>
                Retention.Prune(rows)[i].key in PruneOutcome(rows, objects, stop).objects
  {
    var o := PruneOutcome(rows, objects, stop);
    var stale := StaleRows(rows);
    forall i | 0 <= i < |rows| && rows[i].key !in o.objects
      ensures Stale(rows, i)
    {
      if rows[i].key in KeysOf(stale) {
        var j :| 0 <= j < |stale| && stale[j].key == rows[i].key;
        StaleRowsExact(rows, stale[j]);
        var n :| 0 <= n < |rows| && rows[n] == stale[j] && Stale(rows, n);
        assert n == i;
      }
    }
    if o.result.Returned? {
      KeptWithObjects(rows, 1, rows, o.objects);
      assert forall i :: 0 <= i < |Retention.Prune(rows)| ==> Retention.Prune(rows)[i].key in o.objects;
    }
  }

  lemma {:induction false} KeptWithObjects(rows: Rows, rank: nat, all: Rows, objects: map<Key, Bytes>)
    requires 1 <= rank <= |all| + 1 && rows == all[rank - 1..]
    requires forall i :: 0 <= i < |all| && all[i].key !in objects ==> Stale(all, i)
    ensures forall i :: 0 <= i < |KeepFrom(rows, rank)| ==> KeepFrom(rows, rank)[i].key in objects
  {
    if rows != [] {
      KeptWithObjects(rows[1..], rank + 1, all, objects);
      assert rows[0] == all[rank - 1];
    }
  }

  /** What a prune does, row by row and object by object. One that raises deletes no row, and takes no
      object but those of rows beyond their retain count. One that returns deletes exactly the rows
      beyond it, 1 for free, 4 for standard, 30 for premium, with exactly their objects, and returns how
      many. No object that stays changes. */
  lemma PruneMeaning(rows: Rows, objects: map<Key, Bytes>, stop: Stop)
    requires DistinctIds(rows)
    ensures var o := PruneOutcome(rows, objects, stop);
      && (o.result.Raised? ==> o.rows == rows)
      && (o.result.Returned? ==>
            && (forall i :: 0 <= i < |rows| ==> (rows[i] in o.rows <==> Live(rows, i)))
            && (forall key :: key in o.objects <==> key in objects && AllLive(rows, key))
            && o.result.value == |rows| - |o.rows|)
      && (forall key :: key in o.objects ==> key in objects && o.objects[key] == objects[key])
      && (forall key :: key in objects && key !in o.objects ==> !AllLive(rows, key))
  {
    var o, stale := PruneOutcome(rows, objects, stop), StaleRows(rows);
    forall key
      ensures key in KeysOf(stale) <==> !AllLive(rows, key)
    {
      StaleKeys(rows, key);
    }
    forall i | 0 <= i < |rows|
      ensures rows[i] in Retention.Prune(rows) <==> Live(rows, i)
    {
      PrunedIff(rows, i);
    }
    PrunePartitions(rows, 1);
    assert |multiset(KeepFrom(rows, 1)) + multiset(StaleFrom(rows, 1))| == |KeepFrom(rows, 1)| + |StaleFrom(rows, 1)|;
    if stop.DeleteFails? && stop.at < |stale| {
      assert KeysOf(stale[..stop.at]) <= KeysOf(stale);
    }
  }

  /** Within its tier's retain count. */
  predicate Live(rows: Rows, i: nat)
    requires i < |rows|
  {
    match rows[i].tier
    case Free => i < 1
    case Standard => i < 4
    case Premium => i < 30
  }

  predicate AllLive(rows: Rows, key: Key) {
    forall i :: 0 <= i < |rows| && rows[i].key == key ==> Live(rows, i)
  }

  lemma StaleKeys(rows: Rows, key: Key)
    ensures key in KeysOf(StaleRows(rows)) <==> !AllLive(rows, key)
  {
    var stale := StaleRows(rows);
    if key in KeysOf(stale) {
      var j :| 0 <= j < |stale| && stale[j].key == key;
      StaleRowsExact(rows, stale[j]);
      var i :| 0 <= i < |rows| && rows[i] == stale[j] && Stale(rows, i);
      assert !Live(rows, i);
    }
    if !AllLive(rows, key) {
      var i :| 0 <= i < |rows| && rows[i].key == key && !Live(rows, i);
      assert Stale(rows, i);
      StaleRowsExact(rows, rows[i]);
      var j :| 0 <= j < |stale| && stale[j] == rows[i];
    }
  }

  /** A prune that raised, tried again, ends where one that never raised ends. */
  lemma PruneResumes(rows: Rows, objects: map<Key, Bytes>, stop: Stop)
    ensures var first := PruneOutcome(rows, objects, stop);
      first.result.Raised? ==>
        PruneOutcome(first.rows, first.objects, Completes) == PruneOutcome(rows, objects, Completes)
  {
    var stale := StaleRows(rows);
    if stop.DeleteFails? && stop.at < |stale| {
      assert KeysOf(stale[..stop.at]) <= KeysOf(stale);
    }
  }

  // ----- the rollup -----

  /** What a rollup is given: the time, the tier the clone was loaded with, the name backup_key
      draws, and where the row ranks among equal ends. */
  datatype Ticket = Ticket(now: int, tier: Tier, key: Key, pos: nat)

  /** The clone's tables, the bucket and the id sequence as a rollup leaves them. */
  datatype RolledUp = RolledUp(row: Option<BufferRow>, rows: Rows, objects: map<Key, Bytes>, nextId: nat,
                               result: Result<Status, Failure>)

  function NewRow(cfg: Config, payload: seq<Entry>, count: nat, id: nat, t: Ticket): (row: Backup)
    requires payload != []
  {
    Backup(id, MinCaptured(cfg, payload), t.now, count, t.key, t.tier, None)
  }

  function RollupOutcome(cfg: Config, row: Option<BufferRow>, rows: Rows, objects: map<Key, Bytes>, id: nat,
                         t: Ticket, stop: Stop) : (o: RolledUp)
    requires t.pos <= |rows|
  {
    var payload := Payload(cfg, row);
    if payload == [] then RolledUp(row, rows, objects, id, Returned(Empty))
    else if stop.PutFails? then RolledUp(row, rows, objects, id, Raised(StoreFailed))
    else
      var stored := objects[t.key := row.value.blob];
      if stop.InsertFails? then RolledUp(row, rows, stored, id, Raised(StoreFailed))
      else
        var inserted := InsertAt(rows, t.pos, NewRow(cfg, payload, row.value.count, id, t));
        var pruned := PruneOutcome(inserted, stored, stop);
        RolledUp(None, pruned.rows, pruned.objects, id + 1,
                 if pruned.result.Raised? then Raised(StoreFailed) else Returned(BackedUp(row.value.count)))
  }

  /** rollup_clone. */
  method RollupClone(cfg: Config, db: Database, bucket: Bucket, c: nat, t: Ticket, stop: Stop)
    returns (r: Result<Status, Failure>)
    requires cfg.Valid() && RowOk(cfg, db.RowAt(c)) && t.pos <= |db.RowsAt(c)|
    requires DistinctIds(db.RowsAt(c)) && forall i :: 0 <= i < |db.RowsAt(c)| ==> db.RowsAt(c)[i].id < db.nextId
    modifies db`buffers, db`backups, db`nextId, bucket
    ensures var o := RollupOutcome(cfg, old(db.RowAt(c)), old(db.RowsAt(c)), old(bucket.objects), old(db.nextId),
                                   t, stop);
      && db.RowAt(c) == o.row && db.RowsAt(c) == o.rows && bucket.objects == o.objects
      && db.nextId == o.nextId && r == o.result
    ensures forall d :: d != c ==> db.RowAt(d) == old(db.RowAt(d)) && db.RowsAt(d) == old(db.RowsAt(d))
  {
    var buffer := db.RowAt(c);
    if buffer.None? || buffer.value.count == 0 {
      return Returned(Empty);
    }
    var payload := Payload(cfg, buffer);
    CountedPayload(cfg, buffer.value);
    if stop.PutFails? {
      return Raised(StoreFailed);
    }
    bucket.objects := bucket.objects[t.key := buffer.value.blob];
    if stop.InsertFails? {
      return Raised(StoreFailed);
    }
    // One transaction: the backup row in, the buffer row out.
    var row := NewRow(cfg, payload, buffer.value.count, db.nextId, t);
    InsertKeepsIds(db.RowsAt(c), t.pos, row);
    db.backups := db.backups[c := InsertAt(db.RowsAt(c), t.pos, row)];
    db.buffers := db.buffers - {c};
    db.nextId := db.nextId + 1;

    var pruned := PruneStaleBackups(db, bucket, c, stop);
    if pruned.Raised? {
      return Raised(StoreFailed);
    }
    return Returned(BackedUp(row.entryCount));
  }

  lemma CountedPayload(cfg: Config, row: BufferRow)
    requires cfg.Valid() && RowOk(cfg, Some(row))
    ensures |Payload(cfg, Some(row))| == row.count
  {
    PayloadOfRow(cfg, Payload(cfg, Some(row)));
  }

  lemma InsertKeepsIds(rows: Rows, pos: nat, row: Backup)
    requires pos <= |rows| && DistinctIds(rows)
    requires forall i :: 0 <= i < |rows| ==> rows[i].id < row.id
    ensures DistinctIds(InsertAt(rows, pos, row))
  {
  }

  // ----- what a rollup means -----

  /** A clone's rows and the bucket in order: rows ranked, owned and counted, every object encoding
      what was folded into it, and no row without its object but stale ones. */
  ghost predicate InGoodOrder(cfg: Config, c: nat, rows: Rows, objects: map<Key, Bytes>, made: map<Key, seq<Entry>>,
                              nextId: nat)
  {
    RowsOk(c, rows, made, nextId) && PointersOk(rows, objects) && StoreOk(cfg, objects, made)
  }

  /** `made` with the entries folded into a new object. */
  function Folded(made: map<Key, seq<Entry>>, key: Key, payload: seq<Entry>): (made': map<Key, seq<Entry>>) {
    made[key := payload]
  }

  lemma PutInOrder(cfg: Config, c: nat, rows: Rows, objects: map<Key, Bytes>, made: map<Key, seq<Entry>>,
                   nextId: nat, key: Key, row: BufferRow)
    requires cfg.Valid() && RowOk(cfg, Some(row)) && InGoodOrder(cfg, c, rows, objects, made, nextId) && key !in made
    ensures var payload := Payload(cfg, Some(row));
      InGoodOrder(cfg, c, rows, objects[key := row.blob], Folded(made, key, payload), nextId)
    ensures forall i :: 0 <= i < |rows| ==> rows[i].key != key
  {
    PayloadOfRow(cfg, Payload(cfg, Some(row)));
    forall i | 0 <= i < |rows|
      ensures rows[i].key != key && Backs(c, rows[i], Folded(made, key, Payload(cfg, Some(row))), nextId)
    {
      assert Backs(c, rows[i], made, nextId);
    }
  }

  lemma PruneInOrder(cfg: Config, c: nat, rows: Rows, objects: map<Key, Bytes>, made: map<Key, seq<Entry>>,
                     nextId: nat, stop: Stop)
    requires InGoodOrder(cfg, c, rows, objects, made, nextId)
    ensures var o := PruneOutcome(rows, objects, stop);
      InGoodOrder(cfg, c, o.rows, o.objects, made, nextId)
  {
    PruneKeepsPointers(rows, objects, stop);
    DeleteStaleIsPrune(rows);
    WithoutOk(c, rows, Ids(StaleRows(rows)), made, nextId);
  }

  /** The row a rollup is to insert: the period from the earliest capture to the time it was given, the
      number of entries, the name and the tier it was given, not restored. */
  ghost predicate Records(cfg: Config, x: Backup, payload: seq<Entry>, id: nat, t: Ticket) {
    && x.id == id && IsEarliest(cfg, x.periodStart, payload) && x.periodEnd == t.now && x.entryCount == |payload|
    && x.key == t.key && x.tier == t.tier && x.restoredAt == None
  }

  predicate CommitsRow(payload: seq<Entry>, stop: Stop) {
    payload != [] && !stop.PutFails? && !stop.InsertFails?
  }

  /** A rollup that commits inserts such a row at its rank; the prune then works on the rows with it in
      place. The status is "empty" with nothing to roll up, and otherwise the number of entries; it
      raises exactly when a call does before that, the prune's included. */
  lemma RollupTakes(cfg: Config, row: Option<BufferRow>, rows: Rows, objects: map<Key, Bytes>, id: nat, t: Ticket,
                    stop: Stop)
    requires cfg.Valid() && RowOk(cfg, row) && t.pos <= |rows|
    ensures var o := RollupOutcome(cfg, row, rows, objects, id, t, stop);
      var payload := Payload(cfg, row);
      && (payload == [] ==> o.result == Returned(Empty))
      && (payload != [] && o.result.Returned? ==> o.result.value == BackedUp(|payload|))
      && (payload != [] && !CommitsRow(payload, stop) ==> o.result.Raised? && o.row == row && o.rows == rows)
      && (CommitsRow(payload, stop) ==>
            && o.row == None
            && exists taken ::
                 Records(cfg, taken, payload, id, t) && Inserts(o, rows, t.pos, taken, objects, row, stop))
  {
    var o, payload := RollupOutcome(cfg, row, rows, objects, id, t, stop), Payload(cfg, row);
    if row.Some? {
      CountedPayload(cfg, row.value);
    }
    if CommitsRow(payload, stop) {
      var taken := NewRow(cfg, payload, row.value.count, id, t);
      MinCapturedIsEarliest(cfg, payload);
      assert Records(cfg, taken, payload, id, t) && Inserts(o, rows, t.pos, taken, objects, row, stop);
    }
  }

  /** The outcome is that of a prune of the rows with `taken` at its rank and its object put. */
  ghost predicate Inserts(o: RolledUp, rows: Rows, pos: nat, taken: Backup, objects: map<Key, Bytes>,
                          row: Option<BufferRow>, stop: Stop)
    requires pos <= |rows|
  {
    row.Some?
    && var inserted := rows[..pos] + [taken] + rows[pos..];
       var p := PruneOutcome(inserted, objects[taken.key := row.value.blob], stop);
       o.rows == p.rows && o.objects == p.objects && (o.result.Raised? <==> p.result.Raised?)
  }

  /** Wherever a rollup stops, rows and bucket stay in good order, and the entries are in the buffer
      still or in the object of the one new row: never in both, never in neither. The new row is
      there, and its object decodes to exactly those entries, unless the retention rule drops it. */
  lemma RollupMeaning(cfg: Config, c: nat, row: Option<BufferRow>, rows: Rows, objects: map<Key, Bytes>,
                      made: map<Key, seq<Entry>>, id: nat, t: Ticket, stop: Stop)
    requires cfg.Valid() && RowOk(cfg, row) && InGoodOrder(cfg, c, rows, objects, made, id)
    requires OwnedBy(t.key, c) && t.key !in made && RanksAt(rows, t.pos, t.now)
    ensures var o := RollupOutcome(cfg, row, rows, objects, id, t, stop);
      var payload := Payload(cfg, row);
      && InGoodOrder(cfg, c, o.rows, o.objects, Folded(made, t.key, payload), o.nextId)
      && RowOk(cfg, o.row)
      && (!CommitsRow(payload, stop) ==> o.row == row && o.rows == rows)
      && (CommitsRow(payload, stop) ==>
            Payload(cfg, o.row) == []
            && exists taken :: Records(cfg, taken, payload, id, t) && KeptIfLive(cfg, o, rows, t.pos, taken, payload))
  {
    var payload := Payload(cfg, row);
    if row.None? || payload == [] {
      UnusedName(cfg, c, rows, objects, made, id, t.key, payload);
    } else {
      CountedPayload(cfg, row.value);
      PutInOrder(cfg, c, rows, objects, made, id, t.key, row.value);
      UnusedName(cfg, c, rows, objects, made, id, t.key, payload);
      if CommitsRow(payload, stop) {
        CommittedInOrder(cfg, c, row.value, rows, objects, made, id, t, stop);
        MinCapturedIsEarliest(cfg, payload);
        var o := RollupOutcome(cfg, row, rows, objects, id, t, stop);
        var taken := NewRow(cfg, payload, row.value.count, id, t);
        assert Records(cfg, taken, payload, id, t) && KeptIfLive(cfg, o, rows, t.pos, taken, payload);
      }
    }
  }

  /** Unless it ranks beyond its retain count, the row is there and its object holds the entries. */
  ghost predicate KeptIfLive(cfg: Config, o: RolledUp, rows: Rows, pos: nat, taken: Backup, payload: seq<Entry>)
    requires pos <= |rows|
  {
    !Stale(InsertAt(rows, pos, taken), pos) ==>
      taken in o.rows && taken.key in o.objects && Encodes(cfg, o.objects[taken.key], payload)
  }

  lemma UnusedName(cfg: Config, c: nat, rows: Rows, objects: map<Key, Bytes>, made: map<Key, seq<Entry>>, id: nat,
                   key: Key, payload: seq<Entry>)
    requires InGoodOrder(cfg, c, rows, objects, made, id) && key !in made
    ensures InGoodOrder(cfg, c, rows, objects, Folded(made, key, payload), id)
  {
    forall i | 0 <= i < |rows|
      ensures Backs(c, rows[i], Folded(made, key, payload), id)
    {
      assert Backs(c, rows[i], made, id);
    }
  }

  lemma CommittedInOrder(cfg: Config, c: nat, row: BufferRow, rows: Rows, objects: map<Key, Bytes>,
                         made: map<Key, seq<Entry>>, id: nat, t: Ticket, stop: Stop)
    requires cfg.Valid() && RowOk(cfg, Some(row)) && InGoodOrder(cfg, c, rows, objects, made, id)
    requires OwnedBy(t.key, c) && t.key !in made && RanksAt(rows, t.pos, t.now)
    requires Payload(cfg, Some(row)) != []
    ensures var payload := Payload(cfg, Some(row));
      var taken := NewRow(cfg, payload, row.count, id, t);
      var o := PruneOutcome(InsertAt(rows, t.pos, taken), objects[t.key := row.blob], stop);
      && InGoodOrder(cfg, c, o.rows, o.objects, Folded(made, t.key, payload), id + 1)
      && (!Stale(InsertAt(rows, t.pos, taken), t.pos) ==>
            taken in o.rows && t.key in o.objects && Encodes(cfg, o.objects[t.key], payload))
  {
    var payload := Payload(cfg, Some(row));
    var taken := NewRow(cfg, payload, row.count, id, t);
    var stored, made' := objects[t.key := row.blob], Folded(made, t.key, payload);
    var inserted := InsertAt(rows, t.pos, taken);
    CountedPayload(cfg, row);
    PutInOrder(cfg, c, rows, objects, made, id, t.key, row);
    InsertOk(c, rows, t.pos, taken, made', id);
    InsertPointersOk(rows, t.pos, taken, stored);
    PruneInOrder(cfg, c, inserted, stored, made', id + 1, stop);
    if !Stale(inserted, t.pos) {
      KeptRow(inserted, t.pos, stored, stop);
      assert inserted[t.pos] == taken;
    }
  }

  /** A row that is not stale goes through the prune with its object. */
  lemma KeptRow(rows: Rows, i: nat, objects: map<Key, Bytes>, stop: Stop)
    requires i < |rows| && !Stale(rows, i) && rows[i].key in objects && DistinctKeys(rows) && DistinctIds(rows)
    ensures var o := PruneOutcome(rows, objects, stop);
      rows[i] in o.rows && rows[i].key in o.objects && o.objects[rows[i].key] == objects[rows[i].key]
  {
    var stale := StaleRows(rows);
    forall j | 0 <= j < |stale|
      ensures stale[j].key != rows[i].key && stale[j].id != rows[i].id
    {
      StaleRowsExact(rows, stale[j]);
      var n :| 0 <= n < |rows| && rows[n] == stale[j] && Stale(rows, n);
    }
    DeleteStaleIsPrune(rows);
    WithoutMembers(rows, Ids(stale));
  }

  // ----- the scheduled run -----

  lemma {:induction false} SelectedOnce(overrideSeconds: Option<int>, clones: seq<DueQuery.Profile>,
                                        last: map<nat, int>, now: int)
    requires forall i, j :: 0 <= i < j < |clones| ==> clones[i].id != clones[j].id
    ensures var due := DueQuery.Selected(overrideSeconds, clones, last, now);
      && (forall p :: p in due ==> p in clones)
      && (forall i, j :: 0 <= i < j < |due| ==> due[i].id != due[j].id)
  {
    if clones != [] {
      SelectedOnce(overrideSeconds, clones[1..], last, now);
      var rest := DueQuery.Selected(overrideSeconds, clones[1..], last, now);
      forall i | 0 <= i < |rest|
        ensures rest[i].id != clones[0].id
      {
        assert rest[i] in clones[1..];
      }
    }
  }

  /** The two tables as the query scans them, in whatever order. */
  ghost predicate Scans(profiles: map<nat, ProfileRow>, backups: map<nat, Rows>, clones: seq<DueQuery.Profile>,
                        ended: seq<DueQuery.Ended>)
  {
    && (forall i, j :: 0 <= i < j < |clones| ==> clones[i].id != clones[j].id)
    && (forall p :: p in clones <==> p.id in profiles && p == ProfileOf(profiles, p.id))
    && (forall e :: e in ended <==> exists i :: 0 <= i < |RowsOf(backups, e.clone)|
                                              && RowsOf(backups, e.clone)[i].periodEnd == e.periodEnd)
  }

  function ProfileOf(profiles: map<nat, ProfileRow>, c: nat): (p: DueQuery.Profile)
    requires c in profiles
  {
    DueQuery.Profile(c, profiles[c].tier, profiles[c].createdAt)
  }

  /** The clone's every backup, or its creation when it has none, is an interval or more ago. */
  ghost predicate DueNow(cfg: Config, profile: ProfileRow, rows: Rows, now: int) {
    && (forall i :: 0 <= i < |rows| ==> rows[i].periodEnd + Interval(cfg.overrideSeconds, profile.tier) <= now)
    && (rows == [] ==> profile.createdAt + Interval(cfg.overrideSeconds, profile.tier) <= now)
  }

  /** The clone's every backup, or its creation when it has none, is that many seconds ago or more. */
  ghost predicate DueAfter(profile: ProfileRow, rows: Rows, now: int, seconds: int) {
    && (forall i :: 0 <= i < |rows| ==> rows[i].periodEnd + seconds <= now)
    && (rows == [] ==> profile.createdAt + seconds <= now)
  }

  /** In seconds, by tier or override. */
  lemma ListedAfterSeconds(cfg: Config, profiles: map<nat, ProfileRow>, backups: map<nat, Rows>,
                           clones: seq<DueQuery.Profile>, ended: seq<DueQuery.Ended>, now: int, c: nat)
    requires Scans(profiles, backups, clones, ended) && c in profiles
    ensures var due := DueQuery.FindDueClones(cfg.overrideSeconds, clones, ended, now);
      var listed, profile, rows := exists i :: 0 <= i < |due| && due[i].id == c, profiles[c], RowsOf(backups, c);
      match cfg.overrideSeconds
      case Some(n) => listed <==> DueAfter(profile, rows, now, n)
      case None =>
        match profile.tier
        case Free => listed <==> DueAfter(profile, rows, now, 2592000)
        case Standard => listed <==> DueAfter(profile, rows, now, 604800)
        case Premium => listed <==> DueAfter(profile, rows, now, 86400)
  {
    ListedIffDue(cfg, profiles, backups, clones, ended, now, c);
    assert DueNow(cfg, profiles[c], RowsOf(backups, c), now)
      <==> DueAfter(profiles[c], RowsOf(backups, c), now, Interval(cfg.overrideSeconds, profiles[c].tier));
  }

  lemma ListedIffDue(cfg: Config, profiles: map<nat, ProfileRow>, backups: map<nat, Rows>,
                     clones: seq<DueQuery.Profile>, ended: seq<DueQuery.Ended>, now: int, c: nat)
    requires Scans(profiles, backups, clones, ended)
    ensures var due := DueQuery.FindDueClones(cfg.overrideSeconds, clones, ended, now);
      (exists i :: 0 <= i < |due| && due[i].id == c)
      <==> c in profiles && DueNow(cfg, profiles[c], RowsOf(backups, c), now)
  {
    var due := DueQuery.FindDueClones(cfg.overrideSeconds, clones, ended, now);
    assert due == DueQuery.Selected(cfg.overrideSeconds, clones, DueQuery.LastEnds(ended), now);
    SelectedOnce(cfg.overrideSeconds, clones, DueQuery.LastEnds(ended), now);
    DueQuery.FindDueExact(cfg.overrideSeconds, clones, ended, now);
    ScannedEnds(profiles, backups, clones, ended, c);
    if i :| 0 <= i < |due| && due[i].id == c {
      assert due[i] in due && due[i] in clones;
      assert multiset(due)[due[i]] > 0;
      DueThenDueNow(cfg, due[i], profiles[c], RowsOf(backups, c), ended, now);
    }
    if c in profiles && DueNow(cfg, profiles[c], RowsOf(backups, c), now) {
      var p := ProfileOf(profiles, c);
      DueNowThenDue(cfg, p, profiles[c], RowsOf(backups, c), ended, now);
      assert p in clones && multiset(clones)[p] > 0;
      assert p in multiset(due) && p in due;
    }
  }

  ghost predicate AllScanned(rows: Rows, ended: seq<DueQuery.Ended>, c: nat) {
    forall i :: 0 <= i < |rows| ==> DueQuery.Ended(c, rows[i].periodEnd) in ended
  }

  ghost predicate NothingElse(rows: Rows, ended: seq<DueQuery.Ended>, c: nat) {
    forall k :: 0 <= k < |ended| && ended[k].clone == c ==>
      exists i :: 0 <= i < |rows| && rows[i].periodEnd == ended[k].periodEnd
  }

  lemma ScannedEnds(profiles: map<nat, ProfileRow>, backups: map<nat, Rows>, clones: seq<DueQuery.Profile>,
                    ended: seq<DueQuery.Ended>, c: nat)
    requires Scans(profiles, backups, clones, ended)
    ensures AllScanned(RowsOf(backups, c), ended, c) && NothingElse(RowsOf(backups, c), ended, c)
  {
    var rows := RowsOf(backups, c);
    forall i | 0 <= i < |rows|
      ensures DueQuery.Ended(c, rows[i].periodEnd) in ended
    {
      var e := DueQuery.Ended(c, rows[i].periodEnd);
      assert RowsOf(backups, e.clone)[i].periodEnd == e.periodEnd;
    }
    forall k | 0 <= k < |ended| && ended[k].clone == c
      ensures exists i :: 0 <= i < |rows| && rows[i].periodEnd == ended[k].periodEnd
    {
      assert ended[k] in ended;
    }
  }

  lemma DueThenDueNow(cfg: Config, p: DueQuery.Profile, profile: ProfileRow, rows: Rows, ended: seq<DueQuery.Ended>,
                      now: int)
    requires AllScanned(rows, ended, p.id) && NothingElse(rows, ended, p.id)
    requires p.tier == profile.tier && p.createdAt == profile.createdAt
    requires DueQuery.IsDue(cfg.overrideSeconds, ended, now, p)
    ensures DueNow(cfg, profile, rows, now)
  {
    forall i | 0 <= i < |rows|
      ensures rows[i].periodEnd + Interval(cfg.overrideSeconds, p.tier) <= now
    {
      assert DueQuery.Ended(p.id, rows[i].periodEnd) in ended;
      var k :| 0 <= k < |ended| && ended[k] == DueQuery.Ended(p.id, rows[i].periodEnd);
    }
  }

  lemma DueNowThenDue(cfg: Config, p: DueQuery.Profile, profile: ProfileRow, rows: Rows, ended: seq<DueQuery.Ended>,
                      now: int)
    requires AllScanned(rows, ended, p.id) && NothingElse(rows, ended, p.id)
    requires p.tier == profile.tier && p.createdAt == profile.createdAt
    requires DueNow(cfg, profile, rows, now)
    ensures DueQuery.IsDue(cfg.overrideSeconds, ended, now, p)
  {
    forall k | 0 <= k < |ended| && ended[k].clone == p.id
      ensures ended[k].periodEnd + Interval(cfg.overrideSeconds, p.tier) <= now
    {
      var i :| 0 <= i < |rows| && rows[i].periodEnd == ended[k].periodEnd;
    }
    if rows != [] {
      var k :| 0 <= k < |ended| && ended[k] == DueQuery.Ended(p.id, rows[0].periodEnd);
    }
  }

  /** Name and rank of the row a due clone's rollup will insert, and where a call of it raises. */
  datatype Place = Place(key: Key, pos: nat, stop: Stop)

  /** The rollups of the due clones in turn: each finds its own tables as the run found them, the
      bucket and the id sequence as the rollup before it left them. */
  function RunOutcomes(cfg: Config, buffers: map<nat, BufferRow>, backups: map<nat, Rows>, objects: map<Key, Bytes>,
                       id: nat, now: int, due: seq<DueQuery.Profile>, places: seq<Place>) : (os: seq<RolledUp>)
    requires |due| == |places| && forall j :: 0 <= j < |due| ==> places[j].pos <= |RowsOf(backups, due[j].id)|
    ensures |os| == |due|
  {
    if due == [] then []
    else
      var n := |due| - 1;
      var earlier := RunOutcomes(cfg, buffers, backups, objects, id, now, due[..n], places[..n]);
      earlier + [RollupOutcome(cfg, BufferOf(buffers, due[n].id), RowsOf(backups, due[n].id),
                               ObjectsAfter(earlier, objects), NextIdAfter(earlier, id),
                               Ticket(now, due[n].tier, places[n].key, places[n].pos), places[n].stop)]
  }

  lemma {:induction false} RunOutcomeAt(cfg: Config, buffers: map<nat, BufferRow>, backups: map<nat, Rows>,
                                        objects: map<Key, Bytes>, id: nat, now: int, due: seq<DueQuery.Profile>,
                                        places: seq<Place>, i: nat)
    requires i < |due| == |places| && forall j :: 0 <= j < |due| ==> places[j].pos <= |RowsOf(backups, due[j].id)|
    ensures var os := RunOutcomes(cfg, buffers, backups, objects, id, now, due, places);
      os[i] == RollupOutcome(cfg, BufferOf(buffers, due[i].id), RowsOf(backups, due[i].id),
                             ObjectsAfter(os[..i], objects), NextIdAfter(os[..i], id),
                             Ticket(now, due[i].tier, places[i].key, places[i].pos), places[i].stop)
    decreases |due|
  {
    var n := |due| - 1;
    var os := RunOutcomes(cfg, buffers, backups, objects, id, now, due, places);
    var earlier := RunOutcomes(cfg, buffers, backups, objects, id, now, due[..n], places[..n]);
    assert os[..n] == earlier;
    if i < n {
      RunOutcomeAt(cfg, buffers, backups, objects, id, now, due[..n], places[..n], i);
      assert os[..i] == earlier[..i];
    }
  }

  /** The i-th outcome follows from those before it. */
  ghost predicate Turn(cfg: Config, buffers: map<nat, BufferRow>, backups: map<nat, Rows>, objects: map<Key, Bytes>,
                       id: nat, now: int, due: seq<DueQuery.Profile>, places: seq<Place>, os: seq<RolledUp>, i: nat)
    requires i < |due| == |places| == |os| && places[i].pos <= |RowsOf(backups, due[i].id)|
  {
    os[i] == RollupOutcome(cfg, BufferOf(buffers, due[i].id), RowsOf(backups, due[i].id),
                           ObjectsAfter(os[..i], objects), NextIdAfter(os[..i], id),
                           Ticket(now, due[i].tier, places[i].key, places[i].pos), places[i].stop)
  }

  function ObjectsAfter(os: seq<RolledUp>, objects: map<Key, Bytes>): (after: map<Key, Bytes>) {
    if os == [] then objects else os[|os| - 1].objects
  }

  function NextIdAfter(os: seq<RolledUp>, id: nat): (after: nat) {
    if os == [] then id else os[|os| - 1].nextId
  }

  /** The row that a rollup of the run inserts: the run's time, the clone's tier, the name and rank it was
      given, the period and count of the clone's own entries; and what it reports is their number. */
  lemma RunTakes(cfg: Config, buffers: map<nat, BufferRow>, backups: map<nat, Rows>, objects: map<Key, Bytes>,
                 id: nat, now: int, due: seq<DueQuery.Profile>, places: seq<Place>, i: nat)
    requires cfg.Valid() && i < |due| == |places| && RowOk(cfg, BufferOf(buffers, due[i].id))
    requires forall j :: 0 <= j < |due| ==> places[j].pos <= |RowsOf(backups, due[j].id)|
    ensures var os := RunOutcomes(cfg, buffers, backups, objects, id, now, due, places);
      var payload, rows := Payload(cfg, BufferOf(buffers, due[i].id)), RowsOf(backups, due[i].id);
      && (payload == [] ==> os[i].result == Returned(Empty))
      && (payload != [] && os[i].result.Returned? ==> os[i].result.value == BackedUp(|payload|))
      && (!CommitsRow(payload, places[i].stop) ==>
            os[i].row == BufferOf(buffers, due[i].id) && os[i].rows == rows)
      && (CommitsRow(payload, places[i].stop) ==>
            os[i].row == None
            && exists taken ::
                 && Records(cfg, taken, payload, NextIdAfter(os[..i], id),
                            Ticket(now, due[i].tier, places[i].key, places[i].pos))
                 && Inserts(os[i], rows, places[i].pos, taken, ObjectsAfter(os[..i], objects),
                            BufferOf(buffers, due[i].id), places[i].stop))
  {
    var os := RunOutcomes(cfg, buffers, backups, objects, id, now, due, places);
    RunOutcomeAt(cfg, buffers, backups, objects, id, now, due, places, i);
    RollupTakes(cfg, BufferOf(buffers, due[i].id), RowsOf(backups, due[i].id), ObjectsAfter(os[..i], objects),
                NextIdAfter(os[..i], id), Ticket(now, due[i].tier, places[i].key, places[i].pos), places[i].stop);
  }

  /** The positions, in increasing order, of the rollups that returned, and only those; each gives the
      clone's id and its status. */
  ghost predicate ReportsAt(due: seq<DueQuery.Profile>, os: seq<RolledUp>, results: seq<(nat, Status)>, at: seq<nat>)
    requires |due| == |os|
  {
    && |at| == |results| && (forall j, k :: 0 <= j < k < |at| ==> at[j] < at[k])
    && (forall i :: 0 <= i < |os| ==> (i in at <==> os[i].result.Returned?))
    && (forall j :: 0 <= j < |at| ==>
          at[j] < |os| && os[at[j]].result == Returned(results[j].1) && results[j].0 == due[at[j]].id)
  }

  lemma {:induction false} ReportedExact(due: seq<DueQuery.Profile>, os: seq<RolledUp>) returns (at: seq<nat>)
    requires |due| == |os|
    ensures ReportsAt(due, os, Reported(due, os), at)
  {
    if due == [] {
      at := [];
    } else {
      var n := |due| - 1;
      at := ReportedExact(due[..n], os[..n]);
      if os[n].result.Returned? {
        OneMoreReport(due, os, Reported(due[..n], os[..n]), at);
        at := at + [n];
      } else {
        NoMoreReport(due, os, Reported(due[..n], os[..n]), at);
      }
    }
  }

  lemma OneMoreReport(due: seq<DueQuery.Profile>, os: seq<RolledUp>, results: seq<(nat, Status)>, at: seq<nat>)
    requires |due| == |os| > 0 && os[|os| - 1].result.Returned?
    requires ReportsAt(due[..|os| - 1], os[..|os| - 1], results, at)
    ensures var n := |os| - 1; ReportsAt(due, os, results + [(due[n].id, os[n].result.value)], at + [n])
  {
    var n := |os| - 1;
    forall i | 0 <= i < |os|
      ensures i in at + [n] <==> os[i].result.Returned?
    {
      if i < n {
        assert os[..n][i] == os[i];
      }
    }
  }

  lemma NoMoreReport(due: seq<DueQuery.Profile>, os: seq<RolledUp>, results: seq<(nat, Status)>, at: seq<nat>)
    requires |due| == |os| > 0 && os[|os| - 1].result.Raised?
    requires ReportsAt(due[..|os| - 1], os[..|os| - 1], results, at)
    ensures ReportsAt(due, os, results, at)
  {
    var n := |os| - 1;
    forall i | 0 <= i < |os|
      ensures i in at <==> os[i].result.Returned?
    {
      if i < n {
        assert os[..n][i] == os[i];
      }
    }
  }

  /** What run_rollup returns: the clones whose rollups returned, in order. */
  function Reported(due: seq<DueQuery.Profile>, os: seq<RolledUp>): (results: seq<(nat, Status)>)
    requires |due| == |os|
  {
    if due == [] then []
    else
      var n := |due| - 1;
      var last := os[n].result;
      Reported(due[..n], os[..n]) + if last.Returned? then [(due[n].id, last.value)] else []
  }

  lemma ReportedNext(due: seq<DueQuery.Profile>, os: seq<RolledUp>, i: nat)
    requires i < |due| == |os|
    ensures Reported(due[..i + 1], os[..i + 1])
            == Reported(due[..i], os[..i]) + if os[i].result.Returned? then [(due[i].id, os[i].result.value)] else []
  {
    assert os[..i + 1][..i] == os[..i] && due[..i + 1][..i] == due[..i];
    assert os[..i + 1][i] == os[i] && due[..i + 1][i] == due[i];
  }

  /** run_rollup: exactly the clones that are due, each once. One whose rollup raises is left as that
      rollup leaves it and is not in the result; the others are rolled up all the same. */
  method RunRollup(cfg: Config, db: Database, bucket: Bucket, now: int, clones: seq<DueQuery.Profile>,
                   ended: seq<DueQuery.Ended>, places: seq<Place>)
    returns (results: seq<(nat, Status)>)
    requires cfg.Valid() && forall c :: RowOk(cfg, db.RowAt(c)) && IdsBelow(db.RowsAt(c), db.nextId)
    requires Scans(db.profiles, db.backups, clones, ended)
    requires var due := DueQuery.FindDueClones(cfg.overrideSeconds, clones, ended, now);
      |places| == |due| && forall j :: 0 <= j < |due| ==> places[j].pos <= |RowsOf(db.backups, due[j].id)|
    modifies db`buffers, db`backups, db`nextId, bucket
    ensures var due := DueQuery.FindDueClones(cfg.overrideSeconds, clones, ended, now);
      var os := RunOutcomes(cfg, old(db.buffers), old(db.backups), old(bucket.objects), old(db.nextId), now,
                            due, places);
      && results == Reported(due, os)
      && (forall i :: 0 <= i < |due| ==> Shows(db, due[i].id, os[i]))
      && bucket.objects == ObjectsAfter(os, old(bucket.objects)) && db.nextId == NextIdAfter(os, old(db.nextId))
      && (forall c :: c in db.profiles && DueNow(cfg, db.profiles[c], old(db.RowsAt(c)), now) ==>
            exists i :: 0 <= i < |due| && due[i].id == c)
    ensures forall c :: !(c in db.profiles && DueNow(cfg, db.profiles[c], old(db.RowsAt(c)), now)) ==>
              db.RowAt(c) == old(db.RowAt(c)) && db.RowsAt(c) == old(db.RowsAt(c))
  {
    var due := DueQuery.FindDueClones(cfg.overrideSeconds, clones, ended, now);
    SelectedOnce(cfg.overrideSeconds, clones, DueQuery.LastEnds(ended), now);
    assert due == DueQuery.Selected(cfg.overrideSeconds, clones, DueQuery.LastEnds(ended), now);
    forall c
      ensures (exists i :: 0 <= i < |due| && due[i].id == c)
              <==> c in db.profiles && DueNow(cfg, db.profiles[c], db.RowsAt(c), now)
    {
      ListedIffDue(cfg, db.profiles, db.backups, clones, ended, now, c);
    }
    ghost var os := RunOutcomes(cfg, db.buffers, db.backups, bucket.objects, db.nextId, now, due, places);
    forall i | 0 <= i < |due|
      ensures Turn(cfg, db.buffers, db.backups, bucket.objects, db.nextId, now, due, places, os, i)
    {
      RunOutcomeAt(cfg, db.buffers, db.backups, bucket.objects, db.nextId, now, due, places, i);
    }
    results := RollUpEach(cfg, db, bucket, now, due, places, os);
  }

  ghost predicate IdsBelow(rows: Rows, nextId: nat) {
    DistinctIds(rows) && forall i :: 0 <= i < |rows| ==> rows[i].id < nextId
  }

  ghost predicate Shows(db: Database, c: nat, o: RolledUp)
    reads db
  {
    db.RowAt(c) == o.row && db.RowsAt(c) == o.rows
  }

  /** One turn of the loop. */
  method RollUpNext(cfg: Config, db: Database, bucket: Bucket, now: int, p: DueQuery.Profile, place: Place,
                    ghost o: RolledUp)
    returns (r: Result<Status, Failure>)
    requires cfg.Valid() && RowOk(cfg, db.RowAt(p.id)) && IdsBelow(db.RowsAt(p.id), db.nextId)
    requires place.pos <= |db.RowsAt(p.id)|
    requires o == RollupOutcome(cfg, db.RowAt(p.id), db.RowsAt(p.id), bucket.objects, db.nextId,
                                Ticket(now, p.tier, place.key, place.pos), place.stop)
    modifies db`buffers, db`backups, db`nextId, bucket
    ensures Shows(db, p.id, o) && r == o.result
    ensures bucket.objects == o.objects && db.nextId == o.nextId && old(db.nextId) <= db.nextId
    ensures forall d :: d != p.id ==> db.RowAt(d) == old(db.RowAt(d)) && db.RowsAt(d) == old(db.RowsAt(d))
  {
    r := RollupClone(cfg, db, bucket, p.id, Ticket(now, p.tier, place.key, place.pos), place.stop);
  }

  /** The loop of run_rollup. */
  method RollUpEach(cfg: Config, db: Database, bucket: Bucket, now: int, due: seq<DueQuery.Profile>,
                    places: seq<Place>, ghost os: seq<RolledUp>)
    returns (results: seq<(nat, Status)>)
    requires cfg.Valid() && forall c :: RowOk(cfg, db.RowAt(c)) && IdsBelow(db.RowsAt(c), db.nextId)
    requires forall i, j :: 0 <= i < j < |due| ==> due[i].id != due[j].id
    requires |places| == |due| == |os|
    requires forall j :: 0 <= j < |due| ==> places[j].pos <= |RowsOf(db.backups, due[j].id)|
    requires forall i :: 0 <= i < |due| ==>
               Turn(cfg, db.buffers, db.backups, bucket.objects, db.nextId, now, due, places, os, i)
    modifies db`buffers, db`backups, db`nextId, bucket
    ensures results == Reported(due, os)
    ensures forall i :: 0 <= i < |due| ==> Shows(db, due[i].id, os[i])
    ensures forall c :: (forall i :: 0 <= i < |due| ==> due[i].id != c) ==>
              db.RowAt(c) == old(db.RowAt(c)) && db.RowsAt(c) == old(db.RowsAt(c))
    ensures bucket.objects == ObjectsAfter(os, old(bucket.objects)) && db.nextId == NextIdAfter(os, old(db.nextId))
  {
    results := [];
    for i := 0 to |due|
      invariant results == Reported(due[..i], os[..i])
      invariant forall j :: 0 <= j < i ==> Shows(db, due[j].id, os[j])
      invariant forall c :: (forall j :: 0 <= j < i ==> due[j].id != c) ==>
            db.RowAt(c) == old(db.RowAt(c)) && db.RowsAt(c) == old(db.RowsAt(c))
      invariant bucket.objects == ObjectsAfter(os[..i], old(bucket.objects))
      invariant db.nextId == NextIdAfter(os[..i], old(db.nextId))
      invariant old(db.nextId) <= db.nextId
    {
      label Before:
      assert old(Turn(cfg, db.buffers, db.backups, bucket.objects, db.nextId, now, due, places, os, i));
      var r := RollUpNext(cfg, db, bucket, now, due[i], places[i], os[i]);
      forall j | 0 <= j < i
        ensures Shows(db, due[j].id, os[j])
      {
        assert due[j].id != due[i].id && old@Before(Shows(db, due[j].id, os[j]));
      }
      if r.Returned? {
        results := results + [(due[i].id, r.value)];
      }
      ReportedNext(due, os, i);
      assert os[..i + 1][i] == os[i];
    }
    assert os[..|due|] == os && due[..|due|] == due;
  }
}
