/** The due query of pipeline.py and how far apart it keeps scheduled rollups. */
module DueQuery {
  import opened Wrappers
  import opened Subscriptions

  /** The columns of clone_profiles the query reads. */
  datatype Profile = Profile(id: nat, tier: Tier, createdAt: int)

  /** The columns of memory_backups the query reads. */
  datatype Ended = Ended(clone: nat, periodEnd: int)

  /** SELECT clone_id, max(period_end) GROUP BY clone_id. */
  function LastEnds(backups: seq<Ended>): (last: map<nat, int>) {
    if backups == [] then map[]
    else
      var earlier, b := LastEnds(backups[..|backups| - 1]), backups[|backups| - 1];
      earlier[b.clone := if b.clone in earlier then Max(earlier[b.clone], b.periodEnd) else b.periodEnd]
  }

  /** coalesce(last_end, created_at) after the outer join. */
  function AnchorOf(last: map<nat, int>, p: Profile): (anchor: int) {
    if p.id in last then last[p.id] else p.createdAt
  }

  function CutoffByTier(overrideSeconds: Option<int>, now: int, tier: Tier): (cutoff: int) {
    match tier
    case Free => now - Interval(overrideSeconds, Free)
    case Standard => now - Interval(overrideSeconds, Standard)
    case Premium => now - Interval(overrideSeconds, Premium)
  }

  function Selected(overrideSeconds: Option<int>, clones: seq<Profile>, last: map<nat, int>, now: int)
    : (due: seq<Profile>)
  {
    if clones == [] then []
    else
      (if AnchorOf(last, clones[0]) <= CutoffByTier(overrideSeconds, now, clones[0].tier)
       then [clones[0]] else [])
      + Selected(overrideSeconds, clones[1..], last, now)
  }

  function FindDueClones(overrideSeconds: Option<int>, clones: seq<Profile>, backups: seq<Ended>, now: int)
    : (due: seq<Profile>)
  {
    Selected(overrideSeconds, clones, LastEnds(backups), now)
  }

  lemma {:induction false} LastEndsExact(backups: seq<Ended>, clone: nat)
    ensures clone in LastEnds(backups) <==> exists i :: 0 <= i < |backups| && backups[i].clone == clone
    ensures clone in LastEnds(backups) ==> Ended(clone, LastEnds(backups)[clone]) in backups
    ensures forall i :: 0 <= i < |backups| && backups[i].clone == clone ==>
              clone in LastEnds(backups) && backups[i].periodEnd <= LastEnds(backups)[clone]
  {
    if backups != [] {
      var n := |backups| - 1;
      LastEndsExact(backups[..n], clone);
      assert backups == backups[..n] + [backups[n]];
      if clone in LastEnds(backups) && backups[n].clone != clone {
        assert clone in LastEnds(backups[..n]);
        var i :| 0 <= i < n && backups[..n][i].clone == clone;
        assert backups[i].clone == clone;
      }
    }
  }

  /** What "due" means, without the query: every backup of the clone, or its creation when it has
      none, is at least one interval of its tier in the past. */
  ghost predicate IsDue(overrideSeconds: Option<int>, backups: seq<Ended>, now: int, p: Profile) {
    && (forall i :: 0 <= i < |backups| && backups[i].clone == p.id ==>
          backups[i].periodEnd + Interval(overrideSeconds, p.tier) <= now)
    && ((forall i :: 0 <= i < |backups| ==> backups[i].clone != p.id) ==>
          p.createdAt + Interval(overrideSeconds, p.tier) <= now)
  }

  lemma AnchorMeaning(overrideSeconds: Option<int>, backups: seq<Ended>, now: int, p: Profile)
    ensures AnchorOf(LastEnds(backups), p) <= CutoffByTier(overrideSeconds, now, p.tier)
            <==> IsDue(overrideSeconds, backups, now, p)
  {
    LastEndsExact(backups, p.id);
    if p.id in LastEnds(backups) {
      var i :| 0 <= i < |backups| && backups[i] == Ended(p.id, LastEnds(backups)[p.id]);
      assert backups[i].clone == p.id;
    }
  }

  lemma {:induction false} SelectedExact(overrideSeconds: Option<int>, clones: seq<Profile>,
                                         backups: seq<Ended>, now: int, p: Profile)
    ensures multiset(Selected(overrideSeconds, clones, LastEnds(backups), now))[p] ==
            if IsDue(overrideSeconds, backups, now, p) then multiset(clones)[p] else 0
  {
    if clones != [] {
      SelectedExact(overrideSeconds, clones[1..], backups, now, p);
      AnchorMeaning(overrideSeconds, backups, now, clones[0]);
      assert clones == [clones[0]] + clones[1..];
    }
  }

  /** The query returns every due clone exactly once and no other, for every set of clones and
      backups: the join never repeats or drops a clone. */
  lemma FindDueExact(overrideSeconds: Option<int>, clones: seq<Profile>, backups: seq<Ended>, now: int)
    ensures forall p :: multiset(FindDueClones(overrideSeconds, clones, backups, now))[p] ==
              if IsDue(overrideSeconds, backups, now, p) then multiset(clones)[p] else 0
  {
    forall p
      ensures multiset(FindDueClones(overrideSeconds, clones, backups, now))[p] ==
              if IsDue(overrideSeconds, backups, now, p) then multiset(clones)[p] else 0
    {
      SelectedExact(overrideSeconds, clones, backups, now, p);
    }
  }

  /** Every backup of the clone ended `seconds` ago or more; with none, the clone is that old. */
  ghost predicate LongSince(backups: seq<Ended>, now: int, p: Profile, seconds: int) {
    && (forall i :: 0 <= i < |backups| && backups[i].clone == p.id ==> backups[i].periodEnd + seconds <= now)
    && ((forall i :: 0 <= i < |backups| ==> backups[i].clone != p.id) ==> p.createdAt + seconds <= now)
  }

  /** In seconds: a free clone is due after 2592000, a standard one after 604800, a premium one after
      86400; with an override, any clone after that many. */
  lemma FindDueInSeconds(overrideSeconds: Option<int>, clones: seq<Profile>, backups: seq<Ended>, now: int, p: Profile)
    ensures var count := multiset(FindDueClones(overrideSeconds, clones, backups, now))[p];
      var all := multiset(clones)[p];
      match overrideSeconds
      case Some(n) => count == if LongSince(backups, now, p, n) then all else 0
      case None =>
        match p.tier
        case Free => count == if LongSince(backups, now, p, 2592000) then all else 0
        case Standard => count == if LongSince(backups, now, p, 604800) then all else 0
        case Premium => count == if LongSince(backups, now, p, 86400) then all else 0
  {
    FindDueExact(overrideSeconds, clones, backups, now);
    assert IsDue(overrideSeconds, backups, now, p)
      <==> LongSince(backups, now, p, Interval(overrideSeconds, p.tier));
  }

  // ----- spacing -----

  ghost predicate Spaced(times: seq<int>, gap: int) {
    forall i :: 0 < i < |times| ==> times[i - 1] + gap <= times[i]
  }

  function CountWithin(times: seq<int>, from: int, to: int): (count: nat) {
    if times == [] then 0
    else (if from <= times[|times| - 1] <= to then 1 else 0)
         + CountWithin(times[..|times| - 1], from, to)
  }

  lemma {:induction false} CountIsSize(times: seq<int>, from: int, to: int)
    ensures CountWithin(times, from, to) == |set i | 0 <= i < |times| && from <= times[i] <= to|
  {
    var all := set i | 0 <= i < |times| && from <= times[i] <= to;
    if times == [] {
      assert all == {};
    } else {
      var n := |times| - 1;
      CountIsSize(times[..n], from, to);
      var before := set i | 0 <= i < n && from <= times[..n][i] <= to;
      assert all == if from <= times[n] <= to then before + {n} else before;
    }
  }

  lemma {:induction false} SpacedCount(times: seq<int>, gap: int, from: int, to: int)
    requires gap > 0 && Spaced(times, gap)
    ensures CountWithin(times, from, to) > 0 ==>
      times != [] && (CountWithin(times, from, to) - 1) * gap <= Min(times[|times| - 1], to) - from
  {
    if times != [] {
      var n := |times| - 1;
      var before := times[..n];
      SpacedCount(before, gap, from, to);
      var count := CountWithin(before, from, to);
      if count > 0 {
        assert before[n - 1] + gap <= times[n];
        assert (count + 1 - 1) * gap == (count - 1) * gap + gap;
      }
    }
  }

  /** A closed window of length L holds at most floor(L / gap) + 1 of the times. */
  lemma WindowBound(times: seq<int>, gap: int, from: int, length: nat)
    requires gap > 0 && Spaced(times, gap)
    ensures CountWithin(times, from, from + length) <= length / gap + 1
    ensures CountWithin(times, from, from + length)
            == |set i | 0 <= i < |times| && from <= times[i] <= from + length|
  {
    CountIsSize(times, from, from + length);
    var count := CountWithin(times, from, from + length);
    SpacedCount(times, gap, from, from + length);
    if count > 0 {
      assert (count - 1) * gap <= length;
      DivideBound(count - 1, gap, length);
    }
  }

  lemma DivideBound(n: nat, gap: int, length: nat)
    requires gap > 0 && n * gap <= length
    ensures n <= length / gap
  {
    assert (n - length / gap) * gap == n * gap - length / gap * gap;
    BelowOne(n - length / gap, gap);
  }

  lemma BelowOne(n: int, gap: int)
    requires gap > 0 && n * gap < gap
    ensures n < 1
  {
  }
}
