/** A flush that raises and is reverted leaves no trace, and when a flush can only raise. */
module FailedFlushes {
  import opened Wrappers
  import opened BackupCodec
  import opened Streams
  import opened Machine
  import opened Flush

  /** Flushes of one clone that all raise, none of them for a failed revert. */
  predicate AllRaise(cfg: Config, stream: Stream, row: Option<BufferRow>, visits: Visits)
    decreases |visits|
  {
    visits == []
    || (var o := FlushOutcome(cfg, stream, row, visits[0]);
        && o.result.Raised? && !visits[0].fault.RevertFails? && AllRaise(cfg, o.stream, o.row, visits[1..]))
  }

  /** The clone after a series of flushes. */
  function AfterFlushes(cfg: Config, stream: Stream, row: Option<BufferRow>, visits: Visits): (o: Outcome)
    decreases |visits|
  {
    if visits == [] then Outcome(stream, row, [], Returned(0))
    else
      var first := FlushOutcome(cfg, stream, row, visits[0]);
      var rest := AfterFlushes(cfg, first.stream, first.row, visits[1..]);
      rest.(arrived := first.arrived + rest.arrived)
  }

  lemma {:induction false} RaisingLeavesPayload(cfg: Config, stream: Stream, row: Option<BufferRow>, visits: Visits)
    requires cfg.Valid() && RowOk(cfg, row) && AllRaise(cfg, stream, row, visits)
    ensures var o := AfterFlushes(cfg, stream, row, visits);
      RowOk(cfg, o.row) && Payload(cfg, o.row) == Payload(cfg, row) && o.stream == stream + o.arrived
    decreases |visits|
  {
    if visits != [] {
      var first := FlushOutcome(cfg, stream, row, visits[0]);
      FlushMeaning(cfg, stream, row, visits[0]);
      RaisingLeavesPayload(cfg, first.stream, first.row, visits[1..]);
      var rest := AfterFlushes(cfg, first.stream, first.row, visits[1..]);
      assert stream + first.arrived + rest.arrived == stream + (first.arrived + rest.arrived);
    }
  }

  /** Any number of flushes that raise, with writes arriving all the while, then one that returns:
      stream, buffer row with its bytes and count, and result are what that last flush alone would
      have left of the same entries. So too when there was no row before. */
  lemma FailedFlushesInvisible(cfg: Config, stream: Stream, row: Option<BufferRow>, visits: Visits, last: Visit)
    requires cfg.Valid() && RowOk(cfg, row) && AllRaise(cfg, stream, row, visits)
    ensures var failed := AfterFlushes(cfg, stream, row, visits);
      var retried := FlushOutcome(cfg, failed.stream, failed.row, last);
      var alone := FlushOutcome(cfg, stream + failed.arrived, row, last);
      retried.result == alone.result && (retried.result.Returned? ==> retried == alone)
  {
    RaisingLeavesPayload(cfg, stream, row, visits);
    if visits == [] {
      assert stream + [] == stream;
    } else {
      assert stream != [];
    }
  }

  /** A flush of encodable entries raises with every store answering if and only if the last entry
      read has the largest sequence number an id can have: then no bound the trim could send is
      accepted, and every flush is reverted until a later write ends the stream. */
  lemma OnlyLastSequenceRaises(cfg: Config, stream: Stream, row: Option<BufferRow>, during: Stream, after: Stream)
    requires cfg.Valid() && Fits(Payload(cfg, row) + Entries(stream)) && Ordered(stream)
    ensures FlushOutcome(cfg, stream, row, Visit(during, after, NoFault)).result.Raised?
            <==> stream != [] && stream[|stream| - 1].id.sequence == MAX64
    ensures stream != [] ==>
              (cfg.trimFrom(stream[|stream| - 1].id).None? <==> stream[|stream| - 1].id.sequence == MAX64)
  {
    if stream != [] {
      assert Fits64(stream[|stream| - 1].id);
    }
  }
}
