/** The stores that tasks and requests change in place: Redis, the three Postgres tables, the
    bucket. A clone with no stream key has an empty stream; one with no row has no backups. */
module Stores {
  import opened Wrappers
  import opened BackupCodec
  import opened Streams
  import opened Subscriptions
  import opened ObjectStorage
  import opened Retention
  import opened Machine

  /** Why a call raises: a store that fails, or the status of an HTTPException. */
  datatype Failure = StoreFailed | Http(status: nat)

  /** The columns of a clone_profiles row the pipeline uses. */
  datatype ProfileRow = ProfileRow(tier: Tier, active: bool, createdAt: int)

  function StreamOf(streams: map<nat, Stream>, c: nat): (s: Stream) {
    if c in streams then streams[c] else []
  }

  function BufferOf(buffers: map<nat, BufferRow>, c: nat): (row: Option<BufferRow>) {
    if c in buffers then Some(buffers[c]) else None
  }

  function RowsOf(backups: map<nat, Rows>, c: nat): (rows: Rows) {
    if c in backups then backups[c] else []
  }

  class Redis {
    var streams: map<nat, Stream>

    function At(c: nat): (s: Stream)
      reads this
    {
      StreamOf(streams, c)
    }

    constructor ()
      ensures forall c :: At(c) == []
    {
      streams := map[];
    }

    /** XADDs of requests running beside the caller. */
    method Arrive(c: nat, writes: Stream)
      modifies this
      ensures At(c) == old(At(c)) + writes && forall d :: d != c ==> At(d) == old(At(d))
    {
      if writes != [] {
        streams := streams[c := At(c) + writes];
      }
    }

    /** append_memory: XADD, then XLEN in a second command, `beside` arriving in between. */
    method AppendMemory(c: nat, id: StreamId, entry: Entry, beside: Stream) returns (length: nat)
      modifies this
      ensures At(c) == old(At(c)) + [StreamEntry(id, entry)] + beside && length == |At(c)|
      ensures forall d :: d != c ==> At(d) == old(At(d))
    {
      streams := streams[c := At(c) + [StreamEntry(id, entry)]];
      Arrive(c, beside);
      length := |At(c)|;
    }

    /** trim_up_to. It raises when Redis does, or rejects the bound; then nothing is trimmed.
        Otherwise exactly the entries up to the given one go. */
    method TrimUpTo(cfg: Config, c: nat, last: StreamId, fails: bool) returns (r: Result<(), Failure>)
      requires cfg.Valid() && Ordered(At(c)) && Fits64(last)
      modifies this
      ensures r == if fails || last.sequence == MAX64 then Raised(StoreFailed) else Returned(())
      ensures r.Raised? ==> At(c) == old(At(c))
      ensures r.Returned? ==>
        forall n :: 0 < n <= |old(At(c))| && old(At(c))[n - 1].id == last ==> At(c) == old(At(c))[n..]
      ensures forall d :: d != c ==> At(d) == old(At(d))
    {
      var bound := cfg.trimFrom(last);
      if fails || bound.None? {
        return Raised(StoreFailed);
      }
      ghost var before := At(c);
      streams := streams[c := TrimmedFrom(At(c), bound.value)];
      forall n | 0 < n <= |before| && before[n - 1].id == last
        ensures At(c) == before[n..]
      {
        assert before == before[..n] + before[n..];
        TrimExact(before[..n], before[n..], bound.value);
      }
      return Returned(());
    }
  }

  /** Committed rows. */
  class Database {
    var profiles: map<nat, ProfileRow>
    var buffers: map<nat, BufferRow>
    var backups: map<nat, Rows>
    var nextId: nat

    function RowAt(c: nat): (row: Option<BufferRow>)
      reads this
    {
      BufferOf(buffers, c)
    }

    function RowsAt(c: nat): (rows: Rows)
      reads this
    {
      RowsOf(backups, c)
    }

    constructor (profiles: map<nat, ProfileRow>)
      ensures this.profiles == profiles && nextId == 0
      ensures forall c :: RowAt(c) == None && RowsAt(c) == []
    {
      this.profiles := profiles;
      buffers := map[];
      backups := map[];
      nextId := 0;
    }
  }

  class Bucket {
    var objects: map<Key, Bytes>

    constructor ()
      ensures objects == map[]
    {
      objects := map[];
    }
  }

  /** Celery's queue, as far as flush requests go. */
  class Broker {
    var requests: seq<nat>

    constructor ()
      ensures requests == []
    {
      requests := [];
    }
  }
}
