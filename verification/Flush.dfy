/** The flush tasks of flush.py on the stores, with writers arriving and calls failing on the way. */
module Flush {
  import opened Wrappers
  import opened BackupCodec
  import opened Streams
  import opened Machine
  import opened Stores

  /** What raises, apart from an encoding that does not fit and a trim bound Redis rejects. With
      RevertFails the trim raises and so does the commit of its revert; a worker killed between
      commit and trim leaves the stores in that same state. */
  datatype Fault = NoFault | CommitFails | TrimFails | RevertFails

  /** One flush of a clone: what arrives before its commit, what arrives after, what raises. */
  datatype Visit = Visit(during: Stream, after: Stream, fault: Fault)

  /** The clone's stream and buffer row as a flush leaves them, what arrived, what it returned. */
  datatype Outcome = Outcome(stream: Stream, row: Option<BufferRow>, arrived: Stream,
                             result: Result<nat, Failure>)

  predicate Trimmable(s: Stream) {
    s != [] && s[|s| - 1].id.sequence < MAX64
  }

  function FlushOutcome(cfg: Config, stream: Stream, row: Option<BufferRow>, v: Visit): (o: Outcome) {
    var existing := Payload(cfg, row);
    var combined := existing + Entries(stream);
    if stream == [] then Outcome([], row, [], Returned(0))
    else if v.fault.CommitFails? || !Fits(combined) then
      Outcome(stream + v.during, row, v.during, Raised(StoreFailed))
    else if v.fault.NoFault? && Trimmable(stream) then
      Outcome(v.during + v.after, RowOf(cfg, combined), v.during + v.after, Returned(|stream|))
    else
      Outcome(stream + v.during + v.after, RowOf(cfg, if v.fault.RevertFails? then combined else existing),
              v.during + v.after, Raised(StoreFailed))
  }

  /** A committed row is what a flush writes for its payload. */
  ghost predicate RowOk(cfg: Config, row: Option<BufferRow>) {
    row.Some? ==> RowOf(cfg, Payload(cfg, row)) == row
  }

  /** XADD ids increase. */
  ghost predicate InOrder(stream: Stream, v: Visit) {
    Ordered(stream + v.during + v.after)
  }

  /** flush_one_stream: read, append under the row lock, commit, trim by the last id read; revert
      when the trim raises. */
  method FlushOneStream(cfg: Config, redis: Redis, db: Database, c: nat, v: Visit)
    returns (r: Result<nat, Failure>)
    requires cfg.Valid() && RowOk(cfg, db.RowAt(c)) && InOrder(redis.At(c), v)
    modifies redis, db`buffers
    ensures var o := FlushOutcome(cfg, old(redis.At(c)), old(db.RowAt(c)), v);
      redis.At(c) == o.stream && db.RowAt(c) == o.row && r == o.result
    ensures forall d :: d != c ==> redis.At(d) == old(redis.At(d)) && db.RowAt(d) == old(db.RowAt(d))
  {
    var entries := redis.At(c);
    if entries == [] {
      return Returned(0);
    }
    redis.Arrive(c, v.during);
    var existing := Payload(cfg, db.RowAt(c));
    var row := RowOf(cfg, existing + Entries(entries));
    PayloadOfRow(cfg, existing + Entries(entries));
    if row.None? || v.fault.CommitFails? {
      return Raised(StoreFailed);
    }
    db.buffers := db.buffers[c := row.value];
    redis.Arrive(c, v.after);

    var last := entries[|entries| - 1].id;
    LastFits(entries, v);
    var trimmed := redis.TrimUpTo(cfg, c, last, !v.fault.NoFault?);
    if trimmed.Raised? {
      if v.fault.RevertFails? {
        return Raised(StoreFailed);
      }
      PrefixFits(existing, Entries(entries));
      PayloadOfRow(cfg, existing);
      db.buffers := db.buffers[c := RowOf(cfg, existing).value];
      return Raised(StoreFailed);
    }
    return Returned(|entries|);
  }

  lemma LastFits(entries: Stream, v: Visit)
    requires entries != [] && InOrder(entries, v)
    ensures Fits64(entries[|entries| - 1].id)
    ensures var all := entries + v.during + v.after;
      all[|entries| - 1] == entries[|entries| - 1] && all[|entries|..] == v.during + v.after
  {
    assert Fits64((entries + v.during + v.after)[|entries| - 1].id);
  }

  lemma PrefixFits(a: seq<Entry>, b: seq<Entry>)
    requires Fits(a + b)
    ensures Fits(a)
  {
    forall i | 0 <= i < |a|
      ensures FitsEntry(a[i])
    {
      assert (a + b)[i] == a[i];
    }
  }

  // ----- what one flush means -----

  function Held(cfg: Config, row: Option<BufferRow>, stream: Stream): (es: seq<Entry>) {
    Payload(cfg, row) + Entries(stream)
  }

  /** It raises exactly when there is something to flush and a call fails, the payload does not fit, or
      the last id read has the largest sequence number. A flush that returns has moved exactly the
      entries it read to the end of the payload, left what arrived meanwhile, and returns how many it
      moved. One that raises has changed neither payload nor stream, except that when its revert failed
      the entries are in both. So nothing is lost either way, and nothing repeats unless a revert
      fails. */
  lemma FlushMeaning(cfg: Config, stream: Stream, row: Option<BufferRow>, v: Visit)
    requires cfg.Valid() && RowOk(cfg, row)
    ensures var o := FlushOutcome(cfg, stream, row, v);
      var fits := Fits(Payload(cfg, row) + Entries(stream));
      && RowOk(cfg, o.row)
      && (o.result.Raised? <==>
            stream != [] && (!v.fault.NoFault? || !fits
                             || stream[|stream| - 1].id.sequence >= 0xffff_ffff_ffff_ffff))
      && (o.result.Returned? ==>
            && Payload(cfg, o.row) == Payload(cfg, row) + Entries(stream)
            && o.stream == o.arrived && o.result.value == |stream|)
      && (o.result.Raised? ==> o.stream == stream + o.arrived)
      && (stream == [] ==> o.arrived == [])
      && (stream != [] && (v.fault.CommitFails? || !fits) ==> o.arrived == v.during)
      && (stream != [] && !v.fault.CommitFails? && fits ==> o.arrived == v.during + v.after)
      && (o.result.Raised? && (!v.fault.RevertFails? || !fits) ==> Payload(cfg, o.row) == Payload(cfg, row))
      && (!v.fault.RevertFails? || !fits ==>
            Held(cfg, o.row, o.stream) == Held(cfg, row, stream) + Entries(o.arrived))
      && (v.fault.RevertFails? && stream != [] && fits ==>
            Held(cfg, o.row, o.stream) == Held(cfg, row, stream) + Entries(stream) + Entries(o.arrived))
  {
    var o := FlushOutcome(cfg, stream, row, v);
    var existing := Payload(cfg, row);
    PayloadOfRow(cfg, existing + Entries(stream));
    EntriesConcat(stream, o.arrived);
    if Fits(existing + Entries(stream)) {
      PrefixFits(existing, Entries(stream));
      PayloadOfRow(cfg, existing);
    }
    assert stream + v.during + v.after == stream + (v.during + v.after);
    assert existing + (Entries(stream) + Entries(o.arrived)) == existing + Entries(stream) + Entries(o.arrived);
  }

  lemma FlushConserves(cfg: Config, stream: Stream, row: Option<BufferRow>, v: Visit) returns (arrived: Stream)
    requires cfg.Valid() && RowOk(cfg, row) && !v.fault.RevertFails?
    ensures var o := FlushOutcome(cfg, stream, row, v);
      && arrived == o.arrived && RowOk(cfg, o.row)
      && Held(cfg, o.row, o.stream) == Held(cfg, row, stream) + Entries(arrived)
      && Payload(cfg, row) <= Payload(cfg, o.row)
  {
    FlushMeaning(cfg, stream, row, v);
    arrived := FlushOutcome(cfg, stream, row, v).arrived;
  }

  /** The row a flush leaves holds the smaller of the packed and the compressed form of its payload. */
  lemma SmallerIsCommitted(gz: GzipPair, iso: Bytes -> int, maxlen: int, overrideSeconds: Option<int>, stream: Stream,
                           row: Option<BufferRow>, v: Visit)
    requires gz.Lossless() && RowOk(ServiceConfig(gz, iso, maxlen, overrideSeconds), row)
    ensures var cfg := ServiceConfig(gz, iso, maxlen, overrideSeconds);
      var o := FlushOutcome(cfg, stream, row, v);
      o.row.Some? ==> Fits(Payload(cfg, o.row)) && IsSmaller(gz, o.row.value.blob, Payload(cfg, o.row))
  {
    var cfg := ServiceConfig(gz, iso, maxlen, overrideSeconds);
    ServiceConfigValid(gz, iso, maxlen, overrideSeconds);
    FlushMeaning(cfg, stream, row, v);
    RowIsSmaller(gz, iso, maxlen, overrideSeconds, FlushOutcome(cfg, stream, row, v).row);
  }

  lemma RowIsSmaller(gz: GzipPair, iso: Bytes -> int, maxlen: int, overrideSeconds: Option<int>,
                     row: Option<BufferRow>)
    requires gz.Lossless() && RowOk(ServiceConfig(gz, iso, maxlen, overrideSeconds), row)
    ensures var cfg := ServiceConfig(gz, iso, maxlen, overrideSeconds);
      row.Some? ==> Fits(Payload(cfg, row)) && IsSmaller(gz, row.value.blob, Payload(cfg, row))
  {
    var payload := Payload(ServiceConfig(gz, iso, maxlen, overrideSeconds), row);
    if row.Some? {
      RoundTrip(gz, payload);
      SmallerIsStored(gz, payload);
    }
  }

  // ----- the batch -----

  type Visits = seq<Visit>

  /** One clone's part of a batch over `ids`: the flushes at the positions that list it. */
  function BatchOutcome(cfg: Config, c: nat, stream: Stream, row: Option<BufferRow>, ids: seq<nat>, visits: Visits)
    : (o: Outcome)
    requires |ids| == |visits|
  {
    if ids == [] then Outcome(stream, row, [], Returned(0))
    else
      var n := |ids| - 1;
      var before := BatchOutcome(cfg, c, stream, row, ids[..n], visits[..n]);
      if ids[n] != c then before
      else
        var o := FlushOutcome(cfg, before.stream, before.row, visits[n]);
        o.(arrived := before.arrived + o.arrived)
  }

  /** What the batch returns: clone and count for each flush that did not raise, in order. */
  function BatchResults(cfg: Config, streams: map<nat, Stream>, buffers: map<nat, BufferRow>, ids: seq<nat>,
                        visits: Visits) : (results: seq<(nat, nat)>)
    requires |ids| == |visits|
  {
    if ids == [] then []
    else
      var n := |ids| - 1;
      var o := BatchOutcome(cfg, ids[n], StreamOf(streams, ids[n]), BufferOf(buffers, ids[n]), ids, visits);
      BatchResults(cfg, streams, buffers, ids[..n], visits[..n])
      + if o.result.Returned? then [(ids[n], o.result.value)] else []
  }

  /** XADD ids increase, at every position of a batch. */
  ghost predicate InOrderAt(cfg: Config, stream: Stream, row: Option<BufferRow>, ids: seq<nat>, visits: Visits, i: nat)
    requires |ids| == |visits| && i < |ids|
  {
    InOrder(BatchOutcome(cfg, ids[i], stream, row, ids[..i], visits[..i]).stream, visits[i])
  }

  lemma {:induction false} BatchRowOk(cfg: Config, c: nat, stream: Stream, row: Option<BufferRow>,
                                      ids: seq<nat>, visits: Visits)
    requires cfg.Valid() && RowOk(cfg, row) && |ids| == |visits|
    ensures RowOk(cfg, BatchOutcome(cfg, c, stream, row, ids, visits).row)
  {
    if ids != [] {
      var n := |ids| - 1;
      BatchRowOk(cfg, c, stream, row, ids[..n], visits[..n]);
      var before := BatchOutcome(cfg, c, stream, row, ids[..n], visits[..n]);
      FlushMeaning(cfg, before.stream, before.row, visits[n]);
    }
  }

  /** flush_all_streams: a clone whose flush raises is skipped and the loop goes on. */
  method FlushAllStreams(cfg: Config, redis: Redis, db: Database, keys: seq<string>, ghost ids: seq<nat>,
                         visits: Visits)
    returns (results: seq<(nat, nat)>)
    requires cfg.Valid() && |keys| == |ids| == |visits|
    requires forall i :: 0 <= i < |keys| ==> keys[i] == StreamKey(ids[i])
    requires forall c :: RowOk(cfg, db.RowAt(c))
    requires forall i :: 0 <= i < |ids| ==>
               InOrderAt(cfg, redis.At(ids[i]), db.RowAt(ids[i]), ids, visits, i)
    modifies redis, db`buffers
    ensures forall c ::
      var o := BatchOutcome(cfg, c, old(redis.At(c)), old(db.RowAt(c)), ids, visits);
      redis.At(c) == o.stream && db.RowAt(c) == o.row
    ensures results == BatchResults(cfg, old(redis.streams), old(db.buffers), ids, visits)
  {
    var listed := ActiveCloneIds(keys, ids);
    results := [];
    for i := 0 to |listed|
      invariant forall c ::
        var o := BatchOutcome(cfg, c, old(redis.At(c)), old(db.RowAt(c)), ids[..i], visits[..i]);
        redis.At(c) == o.stream && db.RowAt(c) == o.row
      invariant results == BatchResults(cfg, old(redis.streams), old(db.buffers), ids[..i], visits[..i])
    {
      var c := listed[i];
      BatchRowOk(cfg, c, old(redis.At(c)), old(db.RowAt(c)), ids[..i], visits[..i]);
      assert InOrderAt(cfg, old(redis.At(c)), old(db.RowAt(c)), ids, visits, i);
      var r := FlushOneStream(cfg, redis, db, c, visits[i]);
      assert ids[..i + 1][..i] == ids[..i] && visits[..i + 1][..i] == visits[..i];
      if r.Returned? {
        results := results + [(c, r.value)];
      }
    }
    assert ids[..|ids|] == ids && visits[..|ids|] == visits;
  }

  // ----- what the batch means -----

  /** The visits of a batch to one clone, in order. */
  function OwnVisits(c: nat, ids: seq<nat>, visits: Visits): (own: Visits)
    requires |ids| == |visits|
  {
    if ids == [] then []
    else
      var n := |ids| - 1;
      OwnVisits(c, ids[..n], visits[..n]) + if ids[n] == c then [visits[n]] else []
  }

  /** Two batches that visit a clone alike leave it alike, however the lists differ otherwise: what
      else they list, in what order, and what fails there makes no difference to it. */
  lemma {:induction false} BatchIsolation(cfg: Config, c: nat, stream: Stream, row: Option<BufferRow>,
                                          ids: seq<nat>, visits: Visits, ids': seq<nat>, visits': Visits)
    requires |ids| == |visits| && |ids'| == |visits'|
    requires OwnVisits(c, ids, visits) == OwnVisits(c, ids', visits')
    ensures BatchOutcome(cfg, c, stream, row, ids, visits) == BatchOutcome(cfg, c, stream, row, ids', visits')
    decreases |ids| + |ids'|
  {
    var n, n' := |ids| - 1, |ids'| - 1;
    if ids != [] && ids[n] != c {
      BatchIsolation(cfg, c, stream, row, ids[..n], visits[..n], ids', visits');
    } else if ids' != [] && ids'[n'] != c {
      BatchIsolation(cfg, c, stream, row, ids, visits, ids'[..n'], visits'[..n']);
    } else if ids != [] && ids' != [] {
      var own, own' := OwnVisits(c, ids[..n], visits[..n]), OwnVisits(c, ids'[..n'], visits'[..n']);
      assert own == (own + [visits[n]])[..|own|] && own' == (own' + [visits'[n']])[..|own'|];
      BatchIsolation(cfg, c, stream, row, ids[..n], visits[..n], ids'[..n'], visits'[..n']);
    }
  }

  /** No revert of the clone fails. */
  predicate Reverts(c: nat, ids: seq<nat>, visits: Visits)
    requires |ids| == |visits|
  {
    forall i :: 0 <= i < |ids| && ids[i] == c ==> !visits[i].fault.RevertFails?
  }

  /** However often a clone is listed and whichever of its flushes raise, as long as no revert
      fails the batch keeps its entries exactly once and in order. */
  lemma {:induction false} BatchConserves(cfg: Config, c: nat, stream: Stream, row: Option<BufferRow>,
                                          ids: seq<nat>, visits: Visits)
    requires cfg.Valid() && RowOk(cfg, row) && |ids| == |visits| && Reverts(c, ids, visits)
    ensures var o := BatchOutcome(cfg, c, stream, row, ids, visits);
      && Held(cfg, o.row, o.stream) == Held(cfg, row, stream) + Entries(o.arrived)
      && Payload(cfg, row) <= Payload(cfg, o.row)
  {
    if ids != [] {
      var n := |ids| - 1;
      BatchConserves(cfg, c, stream, row, ids[..n], visits[..n]);
      if ids[n] == c {
        var before := BatchOutcome(cfg, c, stream, row, ids[..n], visits[..n]);
        BatchRowOk(cfg, c, stream, row, ids[..n], visits[..n]);
        var arrived := FlushConserves(cfg, before.stream, before.row, visits[n]);
        EntriesConcat(before.arrived, arrived);
        assert Held(cfg, row, stream) + Entries(before.arrived) + Entries(arrived)
               == Held(cfg, row, stream) + (Entries(before.arrived) + Entries(arrived));
      }
    }
  }

  /** The clone is listed where its flush gets through. */
  predicate Succeeds(cfg: Config, c: nat, stream: Stream, row: Option<BufferRow>, ids: seq<nat>, visits: Visits)
    requires |ids| == |visits|
  {
    && Trimmable(stream) && Fits(Payload(cfg, row) + Entries(stream))
    && exists i :: 0 <= i < |ids| && ids[i] == c && visits[i].fault.NoFault?
  }

  /** With no new writes, a clone listed any number of times ends as after one flush: everything
      moved if any of its flushes gets through, otherwise stream and payload as they were. */
  lemma {:induction false} BatchOfQuietClone(cfg: Config, c: nat, stream: Stream, row: Option<BufferRow>,
                                             ids: seq<nat>, visits: Visits)
    requires cfg.Valid() && RowOk(cfg, row) && |ids| == |visits| && Reverts(c, ids, visits)
    requires forall i :: 0 <= i < |ids| && ids[i] == c ==> visits[i].during == visits[i].after == []
    ensures var o := BatchOutcome(cfg, c, stream, row, ids, visits);
      if Succeeds(cfg, c, stream, row, ids, visits)
      then o.stream == [] && Payload(cfg, o.row) == Payload(cfg, row) + Entries(stream)
      else o.stream == stream && Payload(cfg, o.row) == Payload(cfg, row)
  {
    if ids != [] {
      var n := |ids| - 1;
      BatchOfQuietClone(cfg, c, stream, row, ids[..n], visits[..n]);
      var moved, moves := Succeeds(cfg, c, stream, row, ids[..n], visits[..n]),
                          Succeeds(cfg, c, stream, row, ids, visits);
      assert moved ==> moves;
      assert moves && !moved ==> ids[n] == c && visits[n].fault.NoFault?;
      if ids[n] == c {
        var before := BatchOutcome(cfg, c, stream, row, ids[..n], visits[..n]);
        BatchRowOk(cfg, c, stream, row, ids[..n], visits[..n]);
        FlushMeaning(cfg, before.stream, before.row, visits[n]);
        assert visits[n].fault.NoFault? && Trimmable(stream) && Fits(Payload(cfg, row) + Entries(stream)) ==> moves;
      }
    }
  }

  // ----- what the batch returns -----

  /** What the flush at position i finds and returns. */
  function Found(cfg: Config, streams: map<nat, Stream>, buffers: map<nat, BufferRow>, ids: seq<nat>, visits: Visits,
                 i: nat) : (before: Outcome)
    requires |ids| == |visits| && i < |ids|
  {
    BatchOutcome(cfg, ids[i], StreamOf(streams, ids[i]), BufferOf(buffers, ids[i]), ids[..i], visits[..i])
  }

  predicate ReturnsAt(cfg: Config, streams: map<nat, Stream>, buffers: map<nat, BufferRow>, ids: seq<nat>,
                      visits: Visits, i: nat)
    requires |ids| == |visits| && i < |ids|
  {
    var before := Found(cfg, streams, buffers, ids, visits, i);
    FlushOutcome(cfg, before.stream, before.row, visits[i]).result.Returned?
  }

  /** The positions, in increasing order, of the flushes that returned, and only those; each gives the
      clone's id and the length of the stream that flush found. */
  ghost predicate ListedAt(cfg: Config, streams: map<nat, Stream>, buffers: map<nat, BufferRow>, ids: seq<nat>,
                           visits: Visits, results: seq<(nat, nat)>, at: seq<nat>)
    requires |ids| == |visits|
  {
    && |at| == |results| && (forall j, k :: 0 <= j < k < |at| ==> at[j] < at[k])
    && (forall i :: 0 <= i < |ids| ==> (i in at <==> ReturnsAt(cfg, streams, buffers, ids, visits, i)))
    && (forall j :: 0 <= j < |at| ==>
          && at[j] < |ids| && results[j].0 == ids[at[j]]
          && results[j].1 == |Found(cfg, streams, buffers, ids, visits, at[j]).stream|)
  }

  lemma PrefixFinds(cfg: Config, streams: map<nat, Stream>, buffers: map<nat, BufferRow>, ids: seq<nat>,
                    visits: Visits, n: nat, i: nat)
    requires |ids| == |visits| && i < n <= |ids|
    ensures Found(cfg, streams, buffers, ids[..n], visits[..n], i) == Found(cfg, streams, buffers, ids, visits, i)
    ensures ReturnsAt(cfg, streams, buffers, ids[..n], visits[..n], i)
            <==> ReturnsAt(cfg, streams, buffers, ids, visits, i)
  {
    assert ids[..n][..i] == ids[..i] && visits[..n][..i] == visits[..i];
  }

  lemma LastResult(cfg: Config, streams: map<nat, Stream>, buffers: map<nat, BufferRow>, ids: seq<nat>, visits: Visits)
    requires cfg.Valid() && |ids| == |visits| > 0 && RowOk(cfg, BufferOf(buffers, ids[|ids| - 1]))
    ensures var n := |ids| - 1; var before := Found(cfg, streams, buffers, ids, visits, n);
      BatchResults(cfg, streams, buffers, ids, visits)
      == BatchResults(cfg, streams, buffers, ids[..n], visits[..n])
         + if ReturnsAt(cfg, streams, buffers, ids, visits, n) then [(ids[n], |before.stream|)] else []
  {
    var n := |ids| - 1;
    var before := Found(cfg, streams, buffers, ids, visits, n);
    BatchRowOk(cfg, ids[n], StreamOf(streams, ids[n]), BufferOf(buffers, ids[n]), ids[..n], visits[..n]);
    FlushMeaning(cfg, before.stream, before.row, visits[n]);
  }

  /** What holds of a shorter list holds of the first positions of this one. */
  lemma ListedPrefix(cfg: Config, streams: map<nat, Stream>, buffers: map<nat, BufferRow>, ids: seq<nat>,
                     visits: Visits, results: seq<(nat, nat)>, at: seq<nat>)
    requires |ids| == |visits| > 0
    requires ListedAt(cfg, streams, buffers, ids[..|ids| - 1], visits[..|ids| - 1], results, at)
    ensures |at| == |results| && (forall j, k :: 0 <= j < k < |at| ==> at[j] < at[k])
    ensures forall i :: 0 <= i < |ids| - 1 ==> (i in at <==> ReturnsAt(cfg, streams, buffers, ids, visits, i))
    ensures forall j :: 0 <= j < |at| ==>
              && at[j] < |ids| - 1 && results[j].0 == ids[at[j]]
              && results[j].1 == |Found(cfg, streams, buffers, ids, visits, at[j]).stream|
  {
    var n := |ids| - 1;
    forall i | 0 <= i < n
      ensures i in at <==> ReturnsAt(cfg, streams, buffers, ids, visits, i)
    {
      PrefixFinds(cfg, streams, buffers, ids, visits, n, i);
    }
    forall j | 0 <= j < |at|
      ensures at[j] < n && results[j].0 == ids[at[j]]
      ensures results[j].1 == |Found(cfg, streams, buffers, ids, visits, at[j]).stream|
    {
      PrefixFinds(cfg, streams, buffers, ids, visits, n, at[j]);
    }
  }

  lemma ListedLast(cfg: Config, streams: map<nat, Stream>, buffers: map<nat, BufferRow>, ids: seq<nat>,
                   visits: Visits, results: seq<(nat, nat)>, at: seq<nat>)
    requires |ids| == |visits| > 0
    requires ListedAt(cfg, streams, buffers, ids[..|ids| - 1], visits[..|ids| - 1], results, at)
    ensures var n := |ids| - 1;
      if ReturnsAt(cfg, streams, buffers, ids, visits, n)
      then ListedAt(cfg, streams, buffers, ids, visits,
                    results + [(ids[n], |Found(cfg, streams, buffers, ids, visits, n).stream|)], at + [n])
      else ListedAt(cfg, streams, buffers, ids, visits, results, at)
  {
    ListedPrefix(cfg, streams, buffers, ids, visits, results, at);
    assert |ids| - 1 !in at;
  }

  /** The result of the batch, in full: at which positions a flush returned, for which clone, and how
      many entries it found in the stream. */
  lemma {:induction false} BatchLists(cfg: Config, streams: map<nat, Stream>, buffers: map<nat, BufferRow>,
                                      ids: seq<nat>, visits: Visits)
    returns (at: seq<nat>)
    requires cfg.Valid() && |ids| == |visits| && forall c :: RowOk(cfg, BufferOf(buffers, c))
    ensures ListedAt(cfg, streams, buffers, ids, visits, BatchResults(cfg, streams, buffers, ids, visits), at)
  {
    if ids == [] {
      at := [];
    } else {
      var n := |ids| - 1;
      at := BatchLists(cfg, streams, buffers, ids[..n], visits[..n]);
      LastResult(cfg, streams, buffers, ids, visits);
      ListedLast(cfg, streams, buffers, ids, visits, BatchResults(cfg, streams, buffers, ids[..n], visits[..n]), at);
      at := if ReturnsAt(cfg, streams, buffers, ids, visits, n) then at + [n] else at;
    }
  }

  /** The counts listed for a clone, added up. */
  function Counted(results: seq<(nat, nat)>, c: nat): (total: nat) {
    if results == [] then 0
    else
      var n := |results| - 1;
      Counted(results[..n], c) + if results[n].0 == c then results[n].1 else 0
  }

  /** As long as no revert of a clone fails, the counts listed for it add up to what its payload has
      gained. */
  lemma {:induction false} BatchAddsUp(cfg: Config, c: nat, streams: map<nat, Stream>, buffers: map<nat, BufferRow>,
                                       ids: seq<nat>, visits: Visits)
    requires cfg.Valid() && |ids| == |visits| && Reverts(c, ids, visits) && forall d :: RowOk(cfg, BufferOf(buffers, d))
    ensures var before := Payload(cfg, BufferOf(buffers, c));
      var after := BatchOutcome(cfg, c, StreamOf(streams, c), BufferOf(buffers, c), ids, visits);
      Counted(BatchResults(cfg, streams, buffers, ids, visits), c) == |Payload(cfg, after.row)| - |before|
  {
    if ids != [] {
      var n := |ids| - 1;
      var earlier := BatchResults(cfg, streams, buffers, ids[..n], visits[..n]);
      var listed := if ReturnsAt(cfg, streams, buffers, ids, visits, n)
                    then [(ids[n], |Found(cfg, streams, buffers, ids, visits, n).stream|)] else [];
      BatchAddsUp(cfg, c, streams, buffers, ids[..n], visits[..n]);
      LastResult(cfg, streams, buffers, ids, visits);
      CountedMore(earlier, listed, c);
      if ids[n] == c {
        LastGain(cfg, streams, buffers, ids, visits);
      }
    }
  }

  lemma CountedMore(earlier: seq<(nat, nat)>, listed: seq<(nat, nat)>, c: nat)
    requires |listed| <= 1
    ensures Counted(earlier + listed, c)
            == Counted(earlier, c) + if listed != [] && listed[0].0 == c then listed[0].1 else 0
  {
    if listed == [] {
      assert earlier + listed == earlier;
    } else {
      assert (earlier + listed)[..|earlier|] == earlier;
    }
  }

  /** The last flush of a batch adds to its clone's payload what it is listed with. */
  lemma LastGain(cfg: Config, streams: map<nat, Stream>, buffers: map<nat, BufferRow>, ids: seq<nat>, visits: Visits)
    requires cfg.Valid() && |ids| == |visits| > 0 && RowOk(cfg, BufferOf(buffers, ids[|ids| - 1]))
    requires !visits[|ids| - 1].fault.RevertFails?
    ensures var n := |ids| - 1; var before := Found(cfg, streams, buffers, ids, visits, n);
      var after := BatchOutcome(cfg, ids[n], StreamOf(streams, ids[n]), BufferOf(buffers, ids[n]), ids, visits);
      |Payload(cfg, after.row)|
      == |Payload(cfg, before.row)| + if ReturnsAt(cfg, streams, buffers, ids, visits, n) then |before.stream| else 0
  {
    var n := |ids| - 1;
    var before := Found(cfg, streams, buffers, ids, visits, n);
    BatchRowOk(cfg, ids[n], StreamOf(streams, ids[n]), BufferOf(buffers, ids[n]), ids[..n], visits[..n]);
    FlushMeaning(cfg, before.stream, before.row, visits[n]);
  }

  lemma {:induction false} NotListed(cfg: Config, c: nat, stream: Stream, row: Option<BufferRow>, ids: seq<nat>,
                                     visits: Visits)
    requires |ids| == |visits| && c !in ids
    ensures BatchOutcome(cfg, c, stream, row, ids, visits) == Outcome(stream, row, [], Returned(0))
  {
    if ids != [] {
      NotListed(cfg, c, stream, row, ids[..|ids| - 1], visits[..|ids| - 1]);
    }
  }

  lemma FoundUntouched(cfg: Config, streams: map<nat, Stream>, buffers: map<nat, BufferRow>, ids: seq<nat>,
                       visits: Visits, i: nat)
    requires |ids| == |visits| && i < |ids| && ids[i] !in ids[..i]
    ensures Found(cfg, streams, buffers, ids, visits, i).stream == StreamOf(streams, ids[i])
    ensures ReturnsAt(cfg, streams, buffers, ids, visits, i)
            <==> FlushOutcome(cfg, StreamOf(streams, ids[i]), BufferOf(buffers, ids[i]), visits[i]).result.Returned?
  {
    NotListed(cfg, ids[i], StreamOf(streams, ids[i]), BufferOf(buffers, ids[i]), ids[..i], visits[..i]);
  }

  /** The clone is listed just when its flush returned, and then with that count. */
  ghost predicate CountsOnce(results: seq<(nat, nat)>, c: nat, returned: bool, count: nat) {
    && (returned <==> exists j :: 0 <= j < |results| && results[j].0 == c)
    && (forall j :: 0 <= j < |results| && results[j].0 == c ==> results[j].1 == count)
  }

  /** A clone listed once is in the result just when its flush returned, and then with the length of the
      stream it had. */
  lemma ListedOnce(cfg: Config, streams: map<nat, Stream>, buffers: map<nat, BufferRow>, ids: seq<nat>,
                   visits: Visits, i: nat)
    requires cfg.Valid() && |ids| == |visits| && forall d :: RowOk(cfg, BufferOf(buffers, d))
    requires i < |ids| && forall j :: 0 <= j < |ids| && ids[j] == ids[i] ==> j == i
    ensures var stream, row := StreamOf(streams, ids[i]), BufferOf(buffers, ids[i]);
      CountsOnce(BatchResults(cfg, streams, buffers, ids, visits), ids[i],
                 FlushOutcome(cfg, stream, row, visits[i]).result.Returned?, |stream|)
  {
    var results := BatchResults(cfg, streams, buffers, ids, visits);
    var at := BatchLists(cfg, streams, buffers, ids, visits);
    FoundUntouched(cfg, streams, buffers, ids, visits, i);
    ListedOnceAt(cfg, streams, buffers, ids, visits, i, results, at);
  }

  lemma ListedOnceAt(cfg: Config, streams: map<nat, Stream>, buffers: map<nat, BufferRow>, ids: seq<nat>,
                     visits: Visits, i: nat, results: seq<(nat, nat)>, at: seq<nat>)
    requires |ids| == |visits| && ListedAt(cfg, streams, buffers, ids, visits, results, at)
    requires i < |ids| && forall j :: 0 <= j < |ids| && ids[j] == ids[i] ==> j == i
    ensures CountsOnce(results, ids[i], ReturnsAt(cfg, streams, buffers, ids, visits, i),
                       |Found(cfg, streams, buffers, ids, visits, i).stream|)
  {
    if ReturnsAt(cfg, streams, buffers, ids, visits, i) {
      var j :| 0 <= j < |at| && at[j] == i;
      assert results[j].0 == ids[i];
    }
    forall j | 0 <= j < |results| && results[j].0 == ids[i]
      ensures at[j] == i && i in at
    {
      assert ids[at[j]] == ids[i];
    }
  }
}
