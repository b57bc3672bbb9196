/** The request handlers of routers/memories.py on the stores. */
module Memories {
  import opened Wrappers
  import opened BackupCodec
  import opened Streams
  import opened ObjectStorage
  import opened Retention
  import opened Machine
  import opened Invariant
  import opened Pointers
  import opened LocalRuns
  import opened Stores
  import opened FlushRuns
  import opened Pipeline

  const BAD_REQUEST := 400
  const NOT_FOUND := 404
  const CONFLICT := 409

  // ----- write -----

  /** write_memory: append, then ask for a flush when the stream is long enough. `beside` arrives
      between XADD and XLEN; a broker that fails makes the request fail after the append. */
  method WriteMemory(cfg: Config, redis: Redis, broker: Broker, c: nat, id: StreamId, entry: Entry, beside: Stream,
                     brokerFails: bool)
    returns (r: Result<(), Failure>)
    modifies redis, broker
    ensures redis.At(c) == old(redis.At(c)) + [StreamEntry(id, entry)] + beside
    ensures forall d :: d != c ==> redis.At(d) == old(redis.At(d))
    ensures var asks := |redis.At(c)| >= cfg.maxlen;
      && broker.requests == old(broker.requests) + (if asks && !brokerFails then [c] else [])
      && (r.Raised? <==> asks && brokerFails)
  {
    var length := redis.AppendMemory(c, id, entry, beside);
    if length >= cfg.maxlen {
      if brokerFails {
        return Raised(StoreFailed);
      }
      broker.requests := broker.requests + [c];
    }
    return Returned(());
  }

  /** The machine's steps of a write: a flush is on request after the append just when the stream has
      reached the threshold, whatever arrived in between, and the broker does not refuse. */
  lemma WriteIsARun(cfg: Config, k: Clone, c: nat, id: StreamId, entry: Entry, beside: Stream, refused: bool)
    requires After(k.lastId, [StreamEntry(id, entry)] + beside)
    ensures var writes := [StreamEntry(id, entry)] + beside;
      var steps := Appends(c, writes) + [CheckLength(c, refused)];
      && LegalOn(cfg, k, c, steps)
      && var k' := ExecOn(cfg, k, c, steps);
         && k'.stream == k.stream + writes && k'.history == k.history + Entries(writes)
         && (k'.requested <==> |k'.stream| >= cfg.maxlen && !refused) && k'.checking == k.checking + |beside|
  {
    var writes := [StreamEntry(id, entry)] + beside;
    var k1 := Arrived(k, writes);
    AppendsRun(cfg, k, c, writes);
    One(cfg, k1, c, CheckLength(c, refused), ApplyLocal(cfg, k1, CheckLength(c, refused)));
    JoinOn(cfg, k, c, Appends(c, writes), [CheckLength(c, refused)]);
  }

  // ----- read and restore -----

  datatype Detail = Detail(backup: Backup, payload: seq<Entry>)

  /** _detail_response: a missing object and an undecodable one raise. */
  function DetailResponse(cfg: Config, objects: map<Key, Bytes>, backup: Backup): (r: Result<Detail, Failure>) {
    if backup.key !in objects then Raised(StoreFailed)
    else
      match cfg.decode(objects[backup.key])
      case None => Raised(StoreFailed)
      case Some(payload) => Returned(Detail(backup, payload))
  }

  /** For a row the retention rule keeps, the response is the row with exactly the entries folded
      into its object, as many as it says. For any row it is that if the object is there; without it,
      as for a row that a prune stopped before deleting, the request raises. */
  lemma DetailIsFaithful(cfg: Config, c: nat, rows: Rows, objects: map<Key, Bytes>, made: map<Key, seq<Entry>>,
                         nextId: nat, i: nat)
    requires InGoodOrder(cfg, c, rows, objects, made, nextId) && i < |rows|
    ensures rows[i].key in made && |made[rows[i].key]| == rows[i].entryCount
    ensures !Stale(rows, i) ==> rows[i].key in objects
    ensures DetailResponse(cfg, objects, rows[i])
            == if rows[i].key in objects then Returned(Detail(rows[i], made[rows[i].key])) else Raised(StoreFailed)
  {
    assert Backs(c, rows[i], made, nextId);
  }

  /** A prune that stops before its row delete leaves its stale rows, and the detail of each of them
      raises; once it has completed, the detail of no row that is there does. */
  lemma DetailAfterPrune(cfg: Config, c: nat, rows: Rows, objects: map<Key, Bytes>, made: map<Key, seq<Entry>>,
                         nextId: nat, i: nat)
    requires InGoodOrder(cfg, c, rows, objects, made, nextId) && i < |rows|
    ensures var stopped, done := PruneOutcome(rows, objects, LastCommitFails), PruneOutcome(rows, objects, Completes);
      && stopped.rows == rows
      && (DetailResponse(cfg, stopped.objects, rows[i]).Raised? <==> !Live(rows, i))
      && (rows[i] in done.rows <==> Live(rows, i))
      && (Live(rows, i) ==> DetailResponse(cfg, done.objects, rows[i]) == Returned(Detail(rows[i], made[rows[i].key])))
  {
    DetailIsFaithful(cfg, c, rows, objects, made, nextId, i);
    PruneMeaning(rows, objects, Completes);
    assert PruneOutcome(rows, objects, LastCommitFails).objects == PruneOutcome(rows, objects, Completes).objects;
    assert !Stale(rows, i) <==> Live(rows, i);
    assert AllLive(rows, rows[i].key) <==> Live(rows, i);
  }

  /** restore_own_backup behind get_own_backup: another clone's id, or none's, is a 404. The mark is
      committed before the object is fetched, so it stays when the fetch raises. */
  method RestoreOwnBackup(cfg: Config, db: Database, bucket: Bucket, c: nat, id: nat, at: int)
    returns (r: Result<Detail, Failure>)
    requires DistinctIds(db.RowsAt(c))
    modifies db`backups
    ensures (forall i :: 0 <= i < |old(db.RowsAt(c))| ==> old(db.RowsAt(c))[i].id != id) ==>
              r == Raised(Http(404)) && db.backups == old(db.backups)
    ensures forall i :: 0 <= i < |old(db.RowsAt(c))| && old(db.RowsAt(c))[i].id == id ==>
              var marked := old(db.RowsAt(c))[i].(restoredAt := Some(at));
              db.RowsAt(c) == old(db.RowsAt(c))[i := marked] && r == DetailResponse(cfg, bucket.objects, marked)
    ensures forall d :: d != c ==> db.RowsAt(d) == old(db.RowsAt(d))
  {
    var rows := db.RowsAt(c);
    for i := 0 to |rows|
      invariant forall j :: 0 <= j < i ==> rows[j].id != id
      invariant db.backups == old(db.backups)
    {
      if rows[i].id == id {
        var marked := rows[i].(restoredAt := Some(at));
        db.backups := db.backups[c := rows[i := marked]];
        return DetailResponse(cfg, bucket.objects, marked);
      }
    }
    return Raised(Http(NOT_FOUND));
  }

  /** Marking a row changes nothing the pipeline relies on. */
  lemma MarkKeepsOrder(cfg: Config, c: nat, rows: Rows, objects: map<Key, Bytes>, made: map<Key, seq<Entry>>,
                       nextId: nat, i: nat, at: int)
    requires InGoodOrder(cfg, c, rows, objects, made, nextId) && i < |rows|
    ensures InGoodOrder(cfg, c, rows[i := rows[i].(restoredAt := Some(at))], objects, made, nextId)
    ensures StaleIndices(rows[i := rows[i].(restoredAt := Some(at))]) == StaleIndices(rows)
  {
    var marked := rows[i := rows[i].(restoredAt := Some(at))];
    forall j | 0 <= j < |rows|
      ensures Backs(c, marked[j], made, nextId) && (Stale(marked, j) <==> Stale(rows, j))
      ensures marked[j].id == rows[j].id && marked[j].key == rows[j].key && marked[j].periodEnd == rows[j].periodEnd
    {
      assert Backs(c, rows[j], made, nextId);
    }
  }

  function StaleIndices(rows: Rows): (stale: set<nat>) {
    set j | 0 <= j < |rows| && Stale(rows, j)
  }

  // ----- resurrect -----

  /** The checks of resurrect_from, in its order; a source with no rows is a 404 too. */
  function Refusal(profiles: map<nat, ProfileRow>, sourceRows: Rows, c: nat, source: nat): (status: Option<nat>) {
    if source == c then Some(BAD_REQUEST)
    else if source !in profiles then Some(NOT_FOUND)
    else if profiles[source].active then Some(CONFLICT)
    else if sourceRows == [] then Some(NOT_FOUND)
    else None
  }

  datatype Resurrected = Resurrected(rows: Rows, objects: map<Key, Bytes>, nextId: nat, result: Result<Detail, Failure>)

  function CopiedRow(latest: Backup, id: nat, t: Ticket, at: int): (row: Backup) {
    latest.(id := id, key := t.key, tier := t.tier, restoredAt := Some(at))
  }

  function ResurrectOutcome(cfg: Config, rows: Rows, sourceRows: Rows, objects: map<Key, Bytes>, id: nat, t: Ticket,
                            at: int, stop: Stop) : (o: Resurrected)
    requires sourceRows != [] && t.pos <= |rows|
  {
    var latest := sourceRows[0];
    if latest.key !in objects || stop.PutFails? then Resurrected(rows, objects, id, Raised(StoreFailed))
    else
      var stored := objects[t.key := objects[latest.key]];
      if stop.InsertFails? then Resurrected(rows, stored, id, Raised(StoreFailed))
      else
        var row := CopiedRow(latest, id, t, at);
        Resurrected(InsertAt(rows, t.pos, row), stored, id + 1, DetailResponse(cfg, stored, row))
  }

  /** resurrect_from. The ticket holds the resurrecting clone's tier and its new row's name and rank. It
      goes through to the copy if and only if the source is another clone that exists, is not active and
      has a backup. */
  method ResurrectFrom(cfg: Config, db: Database, bucket: Bucket, c: nat, source: nat, t: Ticket, at: int, stop: Stop)
    returns (r: Result<Detail, Failure>)
    requires t.pos <= |db.RowsAt(c)|
    modifies db`backups, db`nextId, bucket
    ensures source == c ==> r == Raised(Http(400))
    ensures source != c && source !in db.profiles ==> r == Raised(Http(404))
    ensures source != c && source in db.profiles && db.profiles[source].active ==> r == Raised(Http(409))
    ensures source != c && source in db.profiles && !db.profiles[source].active && old(db.RowsAt(source)) == [] ==>
              r == Raised(Http(404))
    ensures
      if source != c && source in db.profiles && !db.profiles[source].active && old(db.RowsAt(source)) != [] then
        var o := ResurrectOutcome(cfg, old(db.RowsAt(c)), old(db.RowsAt(source)), old(bucket.objects), old(db.nextId),
                                  t, at, stop);
        r == o.result && db.RowsAt(c) == o.rows && bucket.objects == o.objects && db.nextId == o.nextId
        && (r.Raised? ==> r.error == StoreFailed)
      else
        db.RowsAt(c) == old(db.RowsAt(c)) && db.nextId == old(db.nextId) && bucket.objects == old(bucket.objects)
    ensures var refusal := Refusal(db.profiles, old(db.RowsAt(source)), c, source);
      refusal.Some? ==> r == Raised(Http(refusal.value))
    ensures forall d :: d != c ==> db.RowsAt(d) == old(db.RowsAt(d))
  {
    if source == c {
      return Raised(Http(BAD_REQUEST));
    }
    if source !in db.profiles {
      return Raised(Http(NOT_FOUND));
    }
    if db.profiles[source].active {
      return Raised(Http(CONFLICT));
    }
    if db.RowsAt(source) == [] {
      return Raised(Http(NOT_FOUND));
    }
    var latest := db.RowsAt(source)[0];
    if latest.key !in bucket.objects || stop.PutFails? {
      return Raised(StoreFailed);
    }
    var raw := bucket.objects[latest.key];
    bucket.objects := bucket.objects[t.key := raw];
    if stop.InsertFails? {
      return Raised(StoreFailed);
    }
    var row := CopiedRow(latest, db.nextId, t, at);
    db.backups := db.backups[c := InsertAt(db.RowsAt(c), t.pos, row)];
    db.nextId := db.nextId + 1;
    return DetailResponse(cfg, bucket.objects, row);
  }

  /** A resurrection that is not refused raises only when the put or the insert does: the newest row
      of the source is never stale, so its object is there. What it returns, and what its new row
      leads to, is exactly the payload, count and period of that row; a resurrection that raises
      adds no row. Either way both clones' rows and the bucket stay in good order. */
  lemma ResurrectMeaning(cfg: Config, c: nat, source: nat, rows: Rows, sourceRows: Rows, objects: map<Key, Bytes>,
                         made: map<Key, seq<Entry>>, id: nat, t: Ticket, at: int, stop: Stop)
    requires cfg.Valid() && source != c && sourceRows != []
    requires InGoodOrder(cfg, c, rows, objects, made, id) && InGoodOrder(cfg, source, sourceRows, objects, made, id)
    requires OwnedBy(t.key, c) && t.key !in made && RanksAt(rows, t.pos, sourceRows[0].periodEnd)
    ensures sourceRows[0].key in made
    ensures var latest := sourceRows[0];
      var payload := made[latest.key];
      var o := ResurrectOutcome(cfg, rows, sourceRows, objects, id, t, at, stop);
      && (o.result.Raised? <==> stop.PutFails? || stop.InsertFails?)
      && (o.result.Raised? ==> o.rows == rows && o.nextId == id)
      && o.objects == (if stop.PutFails? then objects else objects[t.key := objects[latest.key]])
      && (o.result.Returned? ==>
            && o.rows == InsertAt(rows, t.pos, o.result.value.backup)
            && o.result.value.payload == payload && |payload| == o.result.value.backup.entryCount
            && o.result.value.backup == latest.(id := id, key := t.key, tier := t.tier, restoredAt := Some(at)))
      && InGoodOrder(cfg, c, o.rows, o.objects, Folded(made, t.key, payload), o.nextId)
      && InGoodOrder(cfg, source, sourceRows, o.objects, Folded(made, t.key, payload), o.nextId)
  {
    var latest := sourceRows[0];
    assert !Stale(sourceRows, 0);
    assert Backs(source, latest, made, id);
    var payload := made[latest.key];
    var stored := objects[t.key := objects[latest.key]];
    CopyKeepsOrder(cfg, c, rows, objects, made, id, t.key, objects[latest.key], payload);
    CopyKeepsOrder(cfg, source, sourceRows, objects, made, id, t.key, objects[latest.key], payload);
    UnusedName(cfg, c, rows, objects, made, id, t.key, payload);
    UnusedName(cfg, source, sourceRows, objects, made, id, t.key, payload);
    var row := CopiedRow(latest, id, t, at);
    InsertOk(c, rows, t.pos, row, Folded(made, t.key, payload), id);
    InsertPointersOk(rows, t.pos, row, stored);
    LaterIds(cfg, source, sourceRows, stored, Folded(made, t.key, payload), id);
  }

  lemma CopyKeepsOrder(cfg: Config, c: nat, rows: Rows, objects: map<Key, Bytes>, made: map<Key, seq<Entry>>,
                       nextId: nat, key: Key, raw: Bytes, payload: seq<Entry>)
    requires InGoodOrder(cfg, c, rows, objects, made, nextId) && key !in made && Encodes(cfg, raw, payload)
    ensures InGoodOrder(cfg, c, rows, objects[key := raw], Folded(made, key, payload), nextId)
    ensures forall i :: 0 <= i < |rows| ==> rows[i].key != key
  {
    forall i | 0 <= i < |rows|
      ensures rows[i].key != key && Backs(c, rows[i], Folded(made, key, payload), nextId)
    {
      assert Backs(c, rows[i], made, nextId);
    }
  }

  lemma LaterIds(cfg: Config, c: nat, rows: Rows, objects: map<Key, Bytes>, made: map<Key, seq<Entry>>, nextId: nat)
    requires InGoodOrder(cfg, c, rows, objects, made, nextId)
    ensures InGoodOrder(cfg, c, rows, objects, made, nextId + 1)
  {
    forall i | 0 <= i < |rows|
      ensures Backs(c, rows[i], made, nextId + 1)
    {
      assert Backs(c, rows[i], made, nextId);
    }
  }
}
