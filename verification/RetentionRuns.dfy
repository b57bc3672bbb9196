/** What retention comes to over many rollups of a clone. */
module RetentionRuns {
  import opened Wrappers
  import opened BackupCodec
  import opened Subscriptions
  import opened ObjectStorage
  import opened Retention
  import opened Machine
  import opened Pipeline

  // ----- rollup after rollup -----

  /** One rollup that commits and then may stop anywhere in its prune: the buffer row it finds, what
      it is given, and where a call raises. One that raises earlier leaves the rows as they were. */
  datatype Round = Round(row: BufferRow, t: Ticket, stop: Stop)

  type Rounds = seq<Round>

  function OutcomeOf(cfg: Config, rows: Rows, objects: map<Key, Bytes>, id: nat, r: Round): (o: RolledUp)
    requires r.t.pos <= |rows|
  {
    RollupOutcome(cfg, Some(r.row), rows, objects, id, r.t, r.stop)
  }

  predicate Commits(cfg: Config, r: Round) {
    Payload(cfg, Some(r.row)) != [] && !r.stop.PutFails? && !r.stop.InsertFails?
  }

  /** Each rollup finds something to fold, and its row ranks where the query would rank it. */
  predicate Proceeds(cfg: Config, rows: Rows, objects: map<Key, Bytes>, id: nat, rounds: Rounds)
    decreases |rounds|
  {
    rounds == []
    || (Commits(cfg, rounds[0]) && RanksAt(rows, rounds[0].t.pos, rounds[0].t.now)
        && var o := OutcomeOf(cfg, rows, objects, id, rounds[0]);
           Proceeds(cfg, o.rows, o.objects, o.nextId, rounds[1..]))
  }

  /** The clone's rows after the rollups. */
  function AfterRounds(cfg: Config, rows: Rows, objects: map<Key, Bytes>, id: nat, rounds: Rounds): (out: Rows)
    requires Proceeds(cfg, rows, objects, id, rounds)
    decreases |rounds|
  {
    if rounds == [] then rows
    else
      var o := OutcomeOf(cfg, rows, objects, id, rounds[0]);
      AfterRounds(cfg, o.rows, o.objects, o.nextId, rounds[1..])
  }

  /** Which of them returned, and so deleted the rows they found stale. */
  function Completed(cfg: Config, rows: Rows, objects: map<Key, Bytes>, id: nat, rounds: Rounds): (done: seq<bool>)
    requires Proceeds(cfg, rows, objects, id, rounds)
    ensures |done| == |rounds|
    decreases |rounds|
  {
    if rounds == [] then []
    else
      var o := OutcomeOf(cfg, rows, objects, id, rounds[0]);
      [o.result.Returned?] + Completed(cfg, o.rows, o.objects, o.nextId, rounds[1..])
  }

  /** Increasing times, all after the ends of the rows that are there. */
  predicate InTime(rows: Rows, rounds: Rounds) {
    && (forall i, j :: 0 <= i < j < |rounds| ==> rounds[i].t.now < rounds[j].t.now)
    && (forall i, j :: 0 <= i < |rows| && 0 <= j < |rounds| ==> rows[i].periodEnd < rounds[j].t.now)
  }

  /** The rows the rollups insert, one each, with ids counting up. */
  function Taken(cfg: Config, id: nat, rounds: Rounds): (taken: Rows)
    requires forall i :: 0 <= i < |rounds| ==> Payload(cfg, Some(rounds[i].row)) != []
    ensures |taken| == |rounds|
    ensures forall i :: 0 <= i < |rounds| ==>
              taken[i] == NewRow(cfg, Payload(cfg, Some(rounds[i].row)), rounds[i].row.count, id + i, rounds[i].t)
  {
    seq(|rounds|, i requires 0 <= i < |rounds| =>
      NewRow(cfg, Payload(cfg, Some(rounds[i].row)), rounds[i].row.count, id + i, rounds[i].t))
  }

  lemma {:induction false} AllFold(cfg: Config, rows: Rows, objects: map<Key, Bytes>, id: nat, rounds: Rounds)
    requires Proceeds(cfg, rows, objects, id, rounds)
    ensures forall i :: 0 <= i < |rounds| ==> Payload(cfg, Some(rounds[i].row)) != []
    decreases |rounds|
  {
    if rounds != [] {
      var o := OutcomeOf(cfg, rows, objects, id, rounds[0]);
      AllFold(cfg, o.rows, o.objects, o.nextId, rounds[1..]);
      assert forall i :: 0 < i < |rounds| ==> rounds[i] == rounds[1..][i - 1];
    }
  }

  /** Row on top, then a prune if it completes, again and again. */
  function PrependEach(rows: Rows, taken: Rows, done: seq<bool>): (out: Rows)
    requires |taken| == |done|
    decreases |taken|
  {
    if taken == [] then rows
    else
      var all := [taken[0]] + rows;
      PrependEach(if done[0] then Prune(all) else all, taken[1..], done[1..])
  }

  /** A rollup later than every row inserts its own at the top. */
  lemma LatestRanksFirst(cfg: Config, rows: Rows, objects: map<Key, Bytes>, id: nat, r: Round)
    requires Commits(cfg, r) && RanksAt(rows, r.t.pos, r.t.now)
    requires forall i :: 0 <= i < |rows| ==> rows[i].periodEnd < r.t.now
    ensures r.t.pos == 0
    ensures var o := OutcomeOf(cfg, rows, objects, id, r);
      var all := [NewRow(cfg, Payload(cfg, Some(r.row)), r.row.count, id, r.t)] + rows;
      && o.rows == (if o.result.Returned? then Prune(all) else all)
      && o.nextId == id + 1
      && (forall i :: 0 <= i < |o.rows| ==> o.rows[i].periodEnd <= r.t.now)
  {
    var taken := NewRow(cfg, Payload(cfg, Some(r.row)), r.row.count, id, r.t);
    var all := [taken] + rows;
    assert rows == [] || rows[0].periodEnd < r.t.now;
    assert InsertAt(rows, 0, taken) == all;
    forall i | 0 <= i < |Prune(all)|
      ensures Prune(all)[i].periodEnd <= r.t.now
    {
      KeepExact(all, 1, Prune(all)[i]);
    }
  }

  lemma {:induction false} RoundsPrepend(cfg: Config, rows: Rows, objects: map<Key, Bytes>, id: nat, rounds: Rounds)
    requires Proceeds(cfg, rows, objects, id, rounds) && InTime(rows, rounds)
    ensures forall i :: 0 <= i < |rounds| ==> Payload(cfg, Some(rounds[i].row)) != [] && rounds[i].t.pos == 0
    ensures AfterRounds(cfg, rows, objects, id, rounds)
            == PrependEach(rows, Taken(cfg, id, rounds), Completed(cfg, rows, objects, id, rounds))
    decreases |rounds|
  {
    AllFold(cfg, rows, objects, id, rounds);
    if rounds != [] {
      var o := OutcomeOf(cfg, rows, objects, id, rounds[0]);
      LatestRanksFirst(cfg, rows, objects, id, rounds[0]);
      assert forall i :: 0 < i < |rounds| ==> rounds[i] == rounds[1..][i - 1];
      RoundsPrepend(cfg, o.rows, o.objects, o.nextId, rounds[1..]);
      TakenRest(cfg, id, rounds);
      assert Completed(cfg, rows, objects, id, rounds)[1..] == Completed(cfg, o.rows, o.objects, o.nextId, rounds[1..]);
    }
  }

  lemma TakenRest(cfg: Config, id: nat, rounds: Rounds)
    requires rounds != [] && forall i :: 0 <= i < |rounds| ==> Payload(cfg, Some(rounds[i].row)) != []
    ensures forall i :: 0 <= i < |rounds| - 1 ==> Payload(cfg, Some(rounds[1..][i].row)) != []
    ensures Taken(cfg, id, rounds)[1..] == Taken(cfg, id + 1, rounds[1..])
  {
    assert forall i :: 0 < i < |rounds| ==> rounds[i] == rounds[1..][i - 1];
  }

  // ----- lists of one tier, and of two -----

  predicate OfTier(rows: Rows, tier: Tier) {
    forall i :: 0 <= i < |rows| ==> rows[i].tier == tier
  }

  function Top(rows: Rows, n: nat): (top: Rows) {
    rows[..Min(|rows|, n)]
  }

  /** How many rows fit below `above` others when `retain` may be kept. */
  function Room(retain: nat, above: nat): (room: nat) {
    if above < retain then retain - above else 0
  }

  lemma TopOfConcat(a: Rows, b: Rows, m: nat, n: nat)
    requires n <= |a| + m
    ensures Top(a + Top(b, m), n) == Top(a + b, n)
  {
  }

  /** The rows in the opposite order. */
  function LatestFirst(taken: Rows): (out: Rows)
    ensures |out| == |taken|
    ensures forall i :: 0 <= i < |out| ==> out[i] == taken[|taken| - 1 - i]
  {
    if taken == [] then [] else LatestFirst(taken[1..]) + [taken[0]]
  }

  lemma LatestFirstStep(taken: Rows, rows: Rows)
    requires taken != []
    ensures LatestFirst(taken[1..]) + ([taken[0]] + rows) == LatestFirst(taken) + rows
  {
  }

  lemma KeepTop(rows: Rows, rank: nat, tier: Tier)
    requires 1 <= rank && OfTier(rows, tier)
    ensures KeepFrom(rows, rank) == Top(rows, Room(Retain(tier), rank - 1))
  {
    KeepOneTier(rows, rank, tier);
  }

  lemma {:induction false} KeepConcat(a: Rows, b: Rows, rank: nat)
    ensures KeepFrom(a + b, rank) == KeepFrom(a, rank) + KeepFrom(b, rank + |a|)
  {
    if a == [] {
      assert a + b == b;
    } else {
      KeepConcat(a[1..], b, rank + 1);
      assert (a + b)[1..] == a[1..] + b;
    }
  }

  lemma PruneTwoTiers(low: Rows, rich: Rows, to: Tier, tier: Tier)
    requires OfTier(low, to) && OfTier(rich, tier)
    ensures Prune(low + rich) == Top(low, Retain(to)) + Top(rich, Room(Retain(tier), |low|))
  {
    KeepConcat(low, rich, 1);
    KeepTop(low, 1, to);
    KeepTop(rich, 1 + |low|, tier);
  }

  /** How many rows of the rollups' tier there are at the end: one more each time, cut to `to` by each
      prune that completes. */
  function Height(to: nat, low: nat, done: seq<bool>): (height: nat)
    ensures height <= low + |done|
    decreases |done|
  {
    if done == [] then low else Height(to, if done[0] then Min(low + 1, to) else low + 1, done[1..])
  }

  /** The most of them that any completed prune found; 0 when none completed. */
  function Peak(to: nat, low: nat, done: seq<bool>): (peak: nat)
    decreases |done|
  {
    if done == [] then 0
    else if done[0] then Max(low + 1, Peak(to, Min(low + 1, to), done[1..]))
    else Peak(to, low + 1, done[1..])
  }

  /** The rows of the other tier, below them, that are left: those for which there was room each time. */
  function Spared(rich: Rows, retain: nat, peak: nat): (spared: Rows) {
    if peak == 0 then rich else Top(rich, Room(retain, peak))
  }

  lemma {:induction false} HeightAfterPrune(to: nat, low: nat, done: seq<bool>)
    requires done != [] && done[|done| - 1]
    ensures Height(to, low, done) == Min(low + |done|, to) && Peak(to, low, done) > 0
    decreases |done|
  {
    if |done| > 1 {
      HeightAfterPrune(to, if done[0] then Min(low + 1, to) else low + 1, done[1..]);
    }
  }

  /** When all complete, the rows above the other tier's are `to` and the new one at most; each prune
      that stops can only raise that. */
  lemma {:induction false} PeakWhenAllComplete(to: nat, low: nat, done: seq<bool>)
    requires done != [] && forall i :: 0 <= i < |done| ==> done[i]
    ensures Peak(to, low, done) == Max(low + 1, Min(low + |done|, to + 1))
    decreases |done|
  {
    if |done| > 1 {
      assert forall i :: 0 <= i < |done| - 1 ==> done[1..][i] == done[i + 1];
      PeakWhenAllComplete(to, Min(low + 1, to), done[1..]);
    }
  }

  /** What is left of two tiers after `top` on top of them. */
  function TwoTiers(low: Rows, rich: Rows, top: Rows, done: seq<bool>, to: nat, retain: nat): (out: Rows) {
    Top(top + low, Height(to, |low|, done)) + Spared(rich, retain, Peak(to, |low|, done))
  }

  /** One rollup: its row, and the prune if it completes. */
  lemma TwoTiersOnce(low: Rows, rich: Rows, row: Backup, to: Tier, tier: Tier)
    requires OfTier(low, to) && OfTier(rich, tier) && row.tier == to
    ensures [row] + (low + rich) == ([row] + low) + rich
    ensures Prune([row] + (low + rich)) == Top([row] + low, Retain(to)) + Top(rich, Room(Retain(tier), |low| + 1))
  {
    assert [row] + (low + rich) == ([row] + low) + rich;
    PruneTwoTiers([row] + low, rich, to, tier);
  }

  lemma NextOnTop(low: Rows, rich: Rows, taken: Rows, done: seq<bool>, to: nat, retain: nat)
    requires |taken| == |done| >= 1
    ensures var low' := if done[0] then Top([taken[0]] + low, to) else [taken[0]] + low;
      var rich' := if done[0] then Top(rich, Room(retain, |low| + 1)) else rich;
      TwoTiers(low', rich', LatestFirst(taken[1..]), done[1..], to, retain)
      == TwoTiers(low, rich, LatestFirst(taken), done, to, retain)
  {
    var all := [taken[0]] + low;
    var m := if done[0] then Min(|low| + 1, to) else |low| + 1;
    assert (if done[0] then Top(all, to) else all) == Top(all, m) && |Top(all, m)| == m;
    TopOfConcat(LatestFirst(taken[1..]), all, m, Height(to, m, done[1..]));
    LatestFirstStep(taken, low);
    if done[0] {
      SparedTwice(rich, retain, |low| + 1, Peak(to, m, done[1..]));
    }
  }

  lemma SparedTwice(rich: Rows, retain: nat, peak: nat, later: nat)
    requires peak > 0
    ensures Spared(Top(rich, Room(retain, peak)), retain, later) == Spared(rich, retain, Max(peak, later))
  {
  }

  lemma {:induction false} TwoTiersPrepended(low: Rows, rich: Rows, taken: Rows, done: seq<bool>, to: Tier, tier: Tier)
    requires OfTier(low, to) && OfTier(rich, tier) && OfTier(taken, to) && |taken| == |done|
    ensures PrependEach(low + rich, taken, done)
            == TwoTiers(low, rich, LatestFirst(taken), done, Retain(to), Retain(tier))
    decreases |taken|
  {
    if taken == [] {
      assert LatestFirst(taken) + low == low;
    } else {
      var low' := if done[0] then Top([taken[0]] + low, Retain(to)) else [taken[0]] + low;
      var rich' := if done[0] then Top(rich, Room(Retain(tier), |low| + 1)) else rich;
      TwoTiersOnce(low, rich, taken[0], to, tier);
      TwoTiersPrepended(low', rich', taken[1..], done[1..], to, tier);
      NextOnTop(low, rich, taken, done, Retain(to), Retain(tier));
    }
  }

  // ----- one tier -----

  /** A clone on one tier: after n rollups at increasing times, each free to stop anywhere in its prune
      but the last, its rows are those of exactly the newest min(n, retain count) of them, newest
      first; and every one of them ranked first when it was taken. */
  lemma OneTierRun(cfg: Config, objects: map<Key, Bytes>, id: nat, rounds: Rounds, tier: Tier)
    requires Proceeds(cfg, [], objects, id, rounds) && InTime([], rounds)
    requires forall i :: 0 <= i < |rounds| ==> rounds[i].t.tier == tier
    requires rounds != [] ==> Completed(cfg, [], objects, id, rounds)[|rounds| - 1]
    ensures forall i :: 0 <= i < |rounds| ==> Payload(cfg, Some(rounds[i].row)) != [] && rounds[i].t.pos == 0
    ensures var rows, n := AfterRounds(cfg, [], objects, id, rounds), |rounds|;
      && |rows| == Min(n, Retain(tier))
      && (forall i :: 0 <= i < |rows| ==>
            var r := rounds[n - 1 - i];
            rows[i] == NewRow(cfg, Payload(cfg, Some(r.row)), r.row.count, id + (n - 1 - i), r.t))
  {
    var done := Completed(cfg, [], objects, id, rounds);
    RoundsPrepend(cfg, [], objects, id, rounds);
    if rounds != [] {
      HeightAfterPrune(Retain(tier), 0, done);
      OneTierFromNothing(Taken(cfg, id, rounds), done, tier);
    }
  }

  lemma OneTierFromNothing(taken: Rows, done: seq<bool>, tier: Tier)
    requires OfTier(taken, tier) && |taken| == |done|
    ensures var rows := PrependEach([], taken, done);
      |rows| == Height(Retain(tier), 0, done) && forall i :: 0 <= i < |rows| ==> rows[i] == taken[|taken| - 1 - i]
  {
    TwoTiersPrepended([], [], taken, done, tier, tier);
    var none: Rows := [];
    assert none + none == none && LatestFirst(taken) + none == LatestFirst(taken);
  }

  // ----- a change to a tier that keeps fewer -----

  /** Rows of the new tier, then rows of a richer one, then any number of rollups on the new tier at
      increasing times, each free to stop anywhere in its prune: those of the new tier that stay are
      the newest, and the richer rows that stay are the newest ones for which there was room below
      the new tier's rows in every prune that completed. */
  lemma DowngradeRun(cfg: Config, low: Rows, rich: Rows, objects: map<Key, Bytes>, id: nat, rounds: Rounds,
                     to: Tier, tier: Tier)
    requires Proceeds(cfg, low + rich, objects, id, rounds) && InTime(low + rich, rounds)
    requires OfTier(low, to) && OfTier(rich, tier)
    requires forall i :: 0 <= i < |rounds| ==> rounds[i].t.tier == to
    ensures forall i :: 0 <= i < |rounds| ==> Payload(cfg, Some(rounds[i].row)) != []
    ensures var done := Completed(cfg, low + rich, objects, id, rounds);
      AfterRounds(cfg, low + rich, objects, id, rounds)
      == Top(LatestFirst(Taken(cfg, id, rounds)) + low, Height(Retain(to), |low|, done))
         + Spared(rich, Retain(tier), Peak(Retain(to), |low|, done))
  {
    RoundsPrepend(cfg, low + rich, objects, id, rounds);
    TwoTiersPrepended(low, rich, Taken(cfg, id, rounds), Completed(cfg, low + rich, objects, id, rounds), to, tier);
  }

  /** So, once the last of them has completed, the rollups have spared every richer row if and only if
      there is room for all of them: for Retain(tier) less the most new rows that a completed prune
      found above them, the one being rolled up included. The promise that a downgrade never deletes
      richer backups fails beyond that; and a prune that stops makes it fail sooner. */
  lemma DowngradeSparesRicherIff(cfg: Config, low: Rows, rich: Rows, objects: map<Key, Bytes>, id: nat,
                                 rounds: Rounds, to: Tier, tier: Tier)
    requires Proceeds(cfg, low + rich, objects, id, rounds) && InTime(low + rich, rounds) && rounds != []
    requires OfTier(low, to) && OfTier(rich, tier) && IdsBelow(low + rich, id)
    requires forall i :: 0 <= i < |rounds| ==> rounds[i].t.tier == to
    requires Completed(cfg, low + rich, objects, id, rounds)[|rounds| - 1]
    ensures (forall x :: x in rich ==> x in AfterRounds(cfg, low + rich, objects, id, rounds))
            <==> |rich| <= Room(Retain(tier), Peak(Retain(to), |low|, Completed(cfg, low + rich, objects, id, rounds)))
  {
    DowngradeRun(cfg, low, rich, objects, id, rounds, to, tier);
    SparesIff(low, rich, Taken(cfg, id, rounds), Completed(cfg, low + rich, objects, id, rounds), Retain(to),
              Retain(tier), id, AfterRounds(cfg, low + rich, objects, id, rounds));
  }

  lemma SparesIff(low: Rows, rich: Rows, taken: Rows, done: seq<bool>, to: nat, retain: nat, id: nat, out: Rows)
    requires |taken| == |done| >= 1 && done[|done| - 1]
    requires out == TwoTiers(low, rich, LatestFirst(taken), done, to, retain)
    requires IdsBelow(low + rich, id) && forall i :: 0 <= i < |taken| ==> taken[i].id >= id
    ensures (forall x :: x in rich ==> x in out)
            <==> |rich| <= Room(retain, Peak(to, |low|, done))
  {
    HeightAfterPrune(to, |low|, done);
    var room := Room(retain, Peak(to, |low|, done));
    if room < |rich| {
      FirstLost(low, rich, taken, Height(to, |low|, done), room, id);
      assert rich[room] in rich;
    } else {
      assert Top(rich, room) == rich;
    }
  }

  lemma FirstLost(low: Rows, rich: Rows, taken: Rows, keep: nat, room: nat, id: nat)
    requires room < |rich| && IdsBelow(low + rich, id) && forall i :: 0 <= i < |taken| ==> taken[i].id >= id
    ensures rich[room] !in Top(LatestFirst(taken) + low, keep) + Top(rich, room)
  {
    var above := LatestFirst(taken) + low;
    NotAmong(low, rich, room, id);
    forall i | 0 <= i < |above|
      ensures above[i] != rich[room]
    {
      if i < |taken| {
        assert above[i] == taken[|taken| - 1 - i];
      }
    }
  }

  /** The n-th richer row differs from every row of the new tier, old or new, and from those before it. */
  lemma NotAmong(low: Rows, rich: Rows, n: nat, id: nat)
    requires n < |rich| && IdsBelow(low + rich, id)
    ensures rich[n].id < id && forall i :: 0 <= i < |low| ==> low[i] != rich[n]
    ensures forall i :: 0 <= i < n ==> rich[i] != rich[n]
  {
    var all := low + rich;
    assert all[|low| + n] == rich[n];
    forall i | 0 <= i < n
      ensures rich[i].id != rich[n].id
    {
      assert all[|low| + i] == rich[i];
    }
    forall i | 0 <= i < |low|
      ensures low[i].id != rich[n].id
    {
      assert all[i] == low[i];
    }
  }

  /** Any mix of tiers, one rollup: all rows of tiers that keep more than its own stay if and only if
      each of them still ranks within its own retain count with the new row in place. */
  lemma MixedDowngradeIff(cfg: Config, row: BufferRow, rows: Rows, objects: map<Key, Bytes>, id: nat, t: Ticket)
    requires Payload(cfg, Some(row)) != [] && RanksAt(rows, t.pos, t.now) && IdsBelow(rows, id)
    ensures var o := RollupOutcome(cfg, Some(row), rows, objects, id, t, Completes);
      (forall i :: 0 <= i < |rows| && Retain(rows[i].tier) > Retain(t.tier) ==> rows[i] in o.rows)
      <==> (forall i :: 0 <= i < |rows| && Retain(rows[i].tier) > Retain(t.tier) ==>
              i + (if i < t.pos then 1 else 2) <= Retain(rows[i].tier))
  {
    var taken := NewRow(cfg, Payload(cfg, Some(row)), row.count, id, t);
    var all := InsertAt(rows, t.pos, taken);
    InsertKeepsIds(rows, t.pos, taken);
    forall i | 0 <= i < |rows|
      ensures rows[i] in Prune(all) <==> i + (if i < t.pos then 1 else 2) <= Retain(rows[i].tier)
    {
      var j := if i < t.pos then i else i + 1;
      assert all[j] == rows[i];
      PrunedIff(all, j);
    }
  }
}
