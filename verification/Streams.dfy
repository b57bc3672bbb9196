/** One clone's Redis stream: entry ids, the stream itself, and the trim of streams.py. */
module Streams {
  import opened Wrappers
  import opened BackupCodec
  import Decimal

  // ----- entry ids -----

  /** Redis orders entry ids by (ms, seq); each part is an unsigned 64-bit number. */
  datatype StreamId = StreamId(ms: nat, sequence: nat)

  const MAX64: nat := 0xffff_ffff_ffff_ffff

  predicate Fits64(id: StreamId) {
    id.ms <= MAX64 && id.sequence <= MAX64
  }

  predicate Before(a: StreamId, b: StreamId) {
    a.ms < b.ms || (a.ms == b.ms && a.sequence < b.sequence)
  }

  function IndexOf(ch: char, text: string): (i: nat)
    ensures i <= |text|
    ensures i < |text| ==> text[i] == ch
    ensures forall j :: 0 <= j < i ==> text[j] != ch
  {
    if text == [] || text[0] == ch then 0 else 1 + IndexOf(ch, text[1..])
  }

  /** `ms, seq = text.split("-")`, which raises unless there are exactly two parts. */
  function SplitDash(text: string): (r: Option<(string, string)>) {
    var i := IndexOf('-', text);
    if i == |text| || '-' in text[i + 1..] then None else Some((text[..i], text[i + 1..]))
  }

  function ShowId(id: StreamId): (text: string) {
    Decimal.Show(id.ms) + ['-'] + Decimal.Show(id.sequence)
  }

  /** What Redis makes of an id argument; anything past 64 bits is an error. */
  function ParseId(text: string): (r: Option<StreamId>) {
    match SplitDash(text)
    case None => None
    case Some((ms, sequence)) =>
      if ms == [] || sequence == [] || !Decimal.AllDigits(ms) || !Decimal.AllDigits(sequence) then None
      else
        var id := StreamId(Decimal.Value(ms), Decimal.Value(sequence));
        if Fits64(id) then Some(id) else None
  }

  /** The MINID argument trim_up_to computes from the text of the last id it read. */
  function TrimBound(lastId: string): (r: Option<string>) {
    match SplitDash(lastId)
    case None => None
    case Some((ms, sequence)) =>
      if sequence == [] || !Decimal.AllDigits(sequence) then None
      else Some(ms + ['-'] + Decimal.Show(Decimal.Value(sequence) + 1))
  }

  /** The id from which XTRIM keeps entries, or nothing when XTRIM rejects the argument. */
  function TrimFrom(last: StreamId): (bound: Option<StreamId>) {
    match TrimBound(ShowId(last))
    case None => None
    case Some(text) => ParseId(text)
  }

  lemma SplitShown(ms: nat, sequence: nat)
    ensures SplitDash(ShowId(StreamId(ms, sequence))) == Some((Decimal.Show(ms), Decimal.Show(sequence)))
  {
    var text := ShowId(StreamId(ms, sequence));
    var left, right := Decimal.Show(ms), Decimal.Show(sequence);
    assert text[|left|] == '-';
    assert forall i :: 0 <= i < |left| ==> text[i] == left[i] && Decimal.IsDigit(text[i]);
    assert IndexOf('-', text) == |left|;
    assert text[..|left|] == left && text[|left| + 1..] == right;
  }

  lemma ParseShown(id: StreamId)
    ensures ParseId(ShowId(id)) == if Fits64(id) then Some(id) else None
  {
    SplitShown(id.ms, id.sequence);
    Decimal.ValueOfShow(id.ms);
    Decimal.ValueOfShow(id.sequence);
  }

  /** `bound` is the immediate successor of `last`: an id is below it just when it is not above
      the last one. */
  ghost predicate Successor(last: StreamId, bound: StreamId) {
    forall id :: Before(id, bound) <==> !Before(last, id)
  }

  /** For a 64-bit id, Redis accepts the computed bound exactly when the sequence part is not the
      largest one, and then the bound is the immediate successor of the last id read. */
  lemma TrimFromIsSuccessor(last: StreamId)
    requires Fits64(last)
    ensures TrimFrom(last).Some? <==> last.sequence < MAX64
    ensures TrimFrom(last).Some? ==> Successor(last, TrimFrom(last).value)
  {
    SplitShown(last.ms, last.sequence);
    Decimal.ValueOfShow(last.sequence);
    var next := StreamId(last.ms, last.sequence + 1);
    assert TrimBound(ShowId(last)) == Some(ShowId(next));
    ParseShown(next);
  }

  // ----- the stream -----

  datatype StreamEntry = StreamEntry(id: StreamId, entry: Entry)

  type Stream = seq<StreamEntry>

  ghost predicate Ordered(s: Stream) {
    && (forall i :: 0 <= i < |s| ==> Fits64(s[i].id))
    && (forall i, j :: 0 <= i < j < |s| ==> Before(s[i].id, s[j].id))
  }

  /** The list comprehension of flush_one_stream: the fields, without the ids. */
  function Entries(s: Stream): (es: seq<Entry>)
    ensures |es| == |s|
  {
    seq(|s|, i requires 0 <= i < |s| => s[i].entry)
  }

  lemma EntriesConcat(a: Stream, b: Stream)
    ensures Entries(a + b) == Entries(a) + Entries(b)
  {
  }

  /** XTRIM MINID: exactly the entries below the bound go. */
  function TrimmedFrom(s: Stream, bound: StreamId): (kept: Stream) {
    if s == [] then []
    else (if Before(s[0].id, bound) then [] else [s[0]]) + TrimmedFrom(s[1..], bound)
  }

  lemma {:induction false} TrimKeepsAll(s: Stream, bound: StreamId)
    requires forall i :: 0 <= i < |s| ==> !Before(s[i].id, bound)
    ensures TrimmedFrom(s, bound) == s
  {
    if s != [] {
      TrimKeepsAll(s[1..], bound);
    }
  }

  lemma {:induction false} TrimDropsPrefix(gone: Stream, kept: Stream, bound: StreamId)
    requires forall i :: 0 <= i < |gone| ==> Before(gone[i].id, bound)
    requires forall i :: 0 <= i < |kept| ==> !Before(kept[i].id, bound)
    ensures TrimmedFrom(gone + kept, bound) == kept
  {
    if gone == [] {
      assert gone + kept == kept;
      TrimKeepsAll(kept, bound);
    } else {
      assert (gone + kept)[1..] == gone[1..] + kept;
      TrimDropsPrefix(gone[1..], kept, bound);
    }
  }

  /** Trimming from the successor of the last entry of a snapshot removes the snapshot and nothing
      that was appended after it. */
  lemma TrimExact(snapshot: Stream, later: Stream, bound: StreamId)
    requires snapshot != [] && Ordered(snapshot + later)
    requires Successor(snapshot[|snapshot| - 1].id, bound)
    ensures TrimmedFrom(snapshot + later, bound) == later
  {
    var all := snapshot + later;
    var last := all[|snapshot| - 1].id;
    forall i | 0 <= i < |snapshot|
      ensures Before(snapshot[i].id, bound)
    {
      assert snapshot[i] == all[i];
      assert !Before(last, all[i].id);
    }
    forall i | 0 <= i < |later|
      ensures !Before(later[i].id, bound)
    {
      assert later[i] == all[|snapshot| + i];
    }
    TrimDropsPrefix(snapshot, later, bound);
  }

  // ----- stream names -----

  const STREAM_KEY_PREFIX := "clone-stream:"

  function StreamKey(clone: nat): (key: string) {
    STREAM_KEY_PREFIX + Decimal.Show(clone)
  }

  /** A key in full. */
  lemma KeySpelt()
    ensures StreamKey(1024) == "clone-stream:1024"
  {
    Decimal.ShowSpelt();
  }

  /** active_clone_ids: whatever keys the scan yields, in its order and with its repeats, the ids
      read off them are the ids the keys were made from. */
  method ActiveCloneIds(keys: seq<string>, ghost clones: seq<nat>) returns (ids: seq<nat>)
    requires |keys| == |clones|
    requires forall i :: 0 <= i < |keys| ==> keys[i] == StreamKey(clones[i])
    ensures ids == clones
  {
    ids := [];
    for i := 0 to |keys|
      invariant ids == clones[..i]
    {
      assert keys[i] == StreamKey(clones[i]);
      var number := keys[i][|STREAM_KEY_PREFIX|..];
      assert number == Decimal.Show(clones[i]);
      Decimal.ValueOfShow(clones[i]);
      ids := ids + [Decimal.Value(number)];
    }
  }
}
