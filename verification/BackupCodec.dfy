/** The payload codec of backup_codec.py: MessagePack, then gzip when that is smaller. */
module BackupCodec {
  import opened Wrappers

  type Byte = x: int | 0 <= x < 256
  type Bytes = seq<Byte>

  /** One remembered frame; both fields hold UTF-8 text as bytes. */
  datatype Entry = Entry(content: Bytes, capturedAt: Bytes)

  // ----- gzip, kept abstract -----

  const MAGIC: Bytes := [0x1f, 0x8b]

  datatype GzipPair = GzipPair(compress: Bytes -> Bytes, decompress: Bytes -> Option<Bytes>) {
    /** Decompression undoes compression, and every compressed text opens with the two magic
        bytes of section 2.3.1 of RFC 1952. */
    ghost predicate Lossless() {
      forall plain: Bytes ::
        MAGIC <= compress(plain) && decompress(compress(plain)) == Some(plain)
    }
  }

  ghost function Stored(): GzipPair {
    GzipPair((plain: Bytes) => MAGIC + plain,
             (data: Bytes) => if |data| < 2 then None else Some(data[2..]))
  }

  lemma StoredIsLossless()
    ensures Stored().Lossless()
  {
    forall plain: Bytes
      ensures MAGIC <= Stored().compress(plain)
           && Stored().decompress(Stored().compress(plain)) == Some(plain)
    {
      assert (MAGIC + plain)[2..] == plain;
    }
  }

  // ----- MessagePack: what packb writes -----

  const LIMIT8 := 0x100
  const LIMIT16 := 0x1_0000
  const LIMIT32 := 0x1_0000_0000

  function BigEndian16(n: nat): (data: Bytes)
    requires n < LIMIT16
  {
    [n / 0x100, n % 0x100]
  }

  function BigEndian32(n: nat): (data: Bytes)
    requires n < LIMIT32
  {
    BigEndian16(n / LIMIT16) + BigEndian16(n % LIMIT16)
  }

  function StrHeader(n: nat): (header: Bytes)
    requires n < LIMIT32
  {
    if n < 32 then [0xa0 + n]
    else if n < LIMIT8 then [0xd9, n]
    else if n < LIMIT16 then [0xda] + BigEndian16(n)
    else [0xdb] + BigEndian32(n)
  }

  function ArrayHeader(n: nat): (header: Bytes)
    requires n < LIMIT32
  {
    if n < 16 then [0x90 + n]
    else if n < LIMIT16 then [0xdc] + BigEndian16(n)
    else [0xdd] + BigEndian32(n)
  }

  function PackStr(text: Bytes): (data: Bytes)
    requires |text| < LIMIT32
  {
    StrHeader(|text|) + text
  }

  const CONTENT: Bytes := [0x63, 0x6f, 0x6e, 0x74, 0x65, 0x6e, 0x74]
  const CAPTURED_AT: Bytes := [0x63, 0x61, 0x70, 0x74, 0x75, 0x72, 0x65, 0x64, 0x5f, 0x61, 0x74]

  predicate FitsEntry(e: Entry) {
    |e.content| < LIMIT32 && |e.capturedAt| < LIMIT32
  }

  /** The two-key map {"content": ..., "captured_at": ...}. */
  function PackEntry(e: Entry): (data: Bytes)
    requires FitsEntry(e)
  {
    [0x82] + PackStr(CONTENT) + PackStr(e.content) + PackStr(CAPTURED_AT) + PackStr(e.capturedAt)
  }

  /** Exactly the lists packb accepts; it raises on anything larger. */
  predicate Fits(entries: seq<Entry>) {
    |entries| < LIMIT32 && forall i :: 0 <= i < |entries| ==> FitsEntry(entries[i])
  }

  function PackEntries(entries: seq<Entry>): (data: Bytes)
    requires forall i :: 0 <= i < |entries| ==> FitsEntry(entries[i])
  {
    if entries == [] then [] else PackEntry(entries[0]) + PackEntries(entries[1..])
  }

  function Pack(entries: seq<Entry>): (data: Bytes)
    requires Fits(entries)
  {
    ArrayHeader(|entries|) + PackEntries(entries)
  }

  // ----- MessagePack: what unpackb reads -----

  /** A value read off the front of the data, with what follows it. */
  datatype Parsed<+T> = Malformed | Parsed(value: T, rest: Bytes)

  function Take(n: nat, data: Bytes): (p: Parsed<Bytes>) {
    if n <= |data| then Parsed(data[..n], data[n..]) else Malformed
  }

  function ReadInt8(data: Bytes): (p: Parsed<nat>) {
    if |data| < 1 then Malformed else Parsed(data[0], data[1..])
  }

  function ReadInt16(data: Bytes): (p: Parsed<nat>) {
    if |data| < 2 then Malformed
    else
      var high: nat, low: nat := data[0], data[1];
      Parsed(high * 0x100 + low, data[2..])
  }

  function ReadInt32(data: Bytes): (p: Parsed<nat>) {
    var high := ReadInt16(data);
    if high.Malformed? then Malformed
    else
      var low := ReadInt16(high.rest);
      if low.Malformed? then Malformed else Parsed(high.value * LIMIT16 + low.value, low.rest)
  }

  function ReadStrHeader(data: Bytes): (p: Parsed<nat>) {
    if data == [] then Malformed
    else
      var tag, rest := data[0], data[1..];
      if 0xa0 <= tag < 0xc0 then Parsed(tag - 0xa0, rest)
      else if tag == 0xd9 then ReadInt8(rest)
      else if tag == 0xda then ReadInt16(rest)
      else if tag == 0xdb then ReadInt32(rest)
      else Malformed
  }

  function ReadStr(data: Bytes): (p: Parsed<Bytes>) {
    var size := ReadStrHeader(data);
    if size.Malformed? then Malformed else Take(size.value, size.rest)
  }

  function ReadArrayHeader(data: Bytes): (p: Parsed<nat>) {
    if data == [] then Malformed
    else
      var tag, rest := data[0], data[1..];
      if 0x90 <= tag < 0xa0 then Parsed(tag - 0x90, rest)
      else if tag == 0xdc then ReadInt16(rest)
      else if tag == 0xdd then ReadInt32(rest)
      else Malformed
  }

  function ReadPair(data: Bytes): (p: Parsed<(Bytes, Bytes)>) {
    var key := ReadStr(data);
    if key.Malformed? then Malformed
    else
      var text := ReadStr(key.rest);
      if text.Malformed? then Malformed else Parsed((key.value, text.value), text.rest)
  }

  /** A two-key map; the two keys may come in either order, since a dict has none. */
  function ReadEntry(data: Bytes): (p: Parsed<Entry>) {
    if data == [] || data[0] != 0x82 then Malformed
    else
      var first := ReadPair(data[1..]);
      if first.Malformed? then Malformed
      else
        var second := ReadPair(first.rest);
        if second.Malformed? then Malformed
        else if first.value.0 == CONTENT && second.value.0 == CAPTURED_AT then
          Parsed(Entry(first.value.1, second.value.1), second.rest)
        else if first.value.0 == CAPTURED_AT && second.value.0 == CONTENT then
          Parsed(Entry(second.value.1, first.value.1), second.rest)
        else Malformed
  }

  function ReadMany<T>(read: Bytes -> Parsed<T>, n: nat, data: Bytes): (p: Parsed<seq<T>>) {
    if n == 0 then Parsed([], data)
    else
      match read(data)
      case Malformed => Malformed
      case Parsed(first, mid) =>
        match ReadMany(read, n - 1, mid)
        case Malformed => Malformed
        case Parsed(others, rest) => Parsed([first] + others, rest)
  }

  function ReadEntries(n: nat, data: Bytes): (p: Parsed<seq<Entry>>) {
    ReadMany(ReadEntry, n, data)
  }

  /** unpackb raises on malformed data and on anything left over. */
  function Unpack(data: Bytes): (r: Option<seq<Entry>>) {
    var size := ReadArrayHeader(data);
    if size.Malformed? then None
    else
      var entries := ReadEntries(size.value, size.rest);
      if entries.Malformed? || entries.rest != [] then None else Some(entries.value)
  }

  // ----- the codec itself -----

  function EncodePayload(gz: GzipPair, entries: seq<Entry>): (r: Option<Bytes>) {
    if !Fits(entries) then None
    else
      var packed := Pack(entries);
      var compressed := gz.compress(packed);
      Some(if |compressed| < |packed| then compressed else packed)
  }

  function DecodePayload(gz: GzipPair, data: Bytes): (r: Option<seq<Entry>>) {
    if |data| >= 2 && data[..2] == MAGIC then
      match gz.decompress(data)
      case None => None
      case Some(plain) => Unpack(plain)
    else Unpack(data)
  }

  // ----- round trip -----

  lemma ReadBigEndian16(n: nat, rest: Bytes)
    requires n < LIMIT16
    ensures ReadInt16(BigEndian16(n) + rest) == Parsed(n, rest)
  {
    assert (BigEndian16(n) + rest)[2..] == rest;
  }

  lemma ReadBigEndian32(n: nat, rest: Bytes)
    requires n < LIMIT32
    ensures ReadInt32(BigEndian32(n) + rest) == Parsed(n, rest)
  {
    var high, low := BigEndian16(n / LIMIT16), BigEndian16(n % LIMIT16);
    assert BigEndian32(n) + rest == high + (low + rest);
    ReadBigEndian16(n / LIMIT16, low + rest);
    ReadBigEndian16(n % LIMIT16, rest);
  }

  /** Every header family gives back the string it announces, whatever follows it. */
  lemma ReadPackedStr(text: Bytes, rest: Bytes)
    requires |text| < LIMIT32
    ensures ReadStr(PackStr(text) + rest) == Parsed(text, rest)
  {
    var n := |text|;
    var header, data, tail := StrHeader(n), PackStr(text) + rest, text + rest;
    assert data == header + tail;
    assert data[1..] == header[1..] + tail;
    assert tail[..n] == text && tail[n..] == rest;
    if n < 32 {
      assert data[1..] == tail;
    } else if n < LIMIT8 {
      assert data[1..] == [n] + tail;
      assert data[1..][1..] == tail;
    } else if n < LIMIT16 {
      assert data[1..] == BigEndian16(n) + tail;
      ReadBigEndian16(n, tail);
    } else {
      assert data[1..] == BigEndian32(n) + tail;
      ReadBigEndian32(n, tail);
    }
  }

  lemma Associative(a: Bytes, b: Bytes, c: Bytes)
    ensures a + b + c == a + (b + c)
  {
  }

  lemma PairOf(data: Bytes, key: Bytes, mid: Bytes, text: Bytes, rest: Bytes)
    requires ReadStr(data) == Parsed(key, mid) && ReadStr(mid) == Parsed(text, rest)
    ensures ReadPair(data) == Parsed((key, text), rest)
  {
  }

  lemma ReadPackedPair(key: Bytes, text: Bytes, rest: Bytes)
    requires |key| < LIMIT32 && |text| < LIMIT32
    ensures ReadPair(PackStr(key) + PackStr(text) + rest) == Parsed((key, text), rest)
  {
    var mid := PackStr(text) + rest;
    Associative(PackStr(key), PackStr(text), rest);
    ReadPackedStr(key, mid);
    ReadPackedStr(text, rest);
    PairOf(PackStr(key) + mid, key, mid, text, rest);
  }

  lemma EntryOf(data: Bytes, mid: Bytes, e: Entry, rest: Bytes)
    requires data != [] && data[0] == 0x82
    requires ReadPair(data[1..]) == Parsed((CONTENT, e.content), mid)
    requires ReadPair(mid) == Parsed((CAPTURED_AT, e.capturedAt), rest)
    ensures ReadEntry(data) == Parsed(e, rest)
  {
  }

  lemma AfterTag(a: Bytes, b: Bytes, c: Bytes, d: Bytes, rest: Bytes)
    ensures var data := [0x82] + a + b + c + d + rest;
      data[0] == 0x82 && data[1..] == a + b + (c + d + rest)
  {
  }

  lemma ReadPackedEntry(e: Entry, rest: Bytes)
    requires FitsEntry(e)
    ensures ReadEntry(PackEntry(e) + rest) == Parsed(e, rest)
  {
    var second := PackStr(CAPTURED_AT) + PackStr(e.capturedAt) + rest;
    AfterTag(PackStr(CONTENT), PackStr(e.content), PackStr(CAPTURED_AT), PackStr(e.capturedAt), rest);
    ReadPackedPair(CONTENT, e.content, second);
    ReadPackedPair(CAPTURED_AT, e.capturedAt, rest);
    EntryOf(PackEntry(e) + rest, second, e, rest);
  }

  lemma ReadEntriesCons(n: nat, data: Bytes, e: Entry, mid: Bytes, others: seq<Entry>, rest: Bytes)
    requires ReadEntry(data) == Parsed(e, mid)
    requires ReadEntries(n, mid) == Parsed(others, rest)
    ensures ReadEntries(n + 1, data) == Parsed([e] + others, rest)
  {
  }

  lemma PackEntriesCons(e: Entry, tail: seq<Entry>, rest: Bytes)
    requires FitsEntry(e)
    requires forall i :: 0 <= i < |tail| ==> FitsEntry(tail[i])
    ensures PackEntries([e] + tail) + rest == PackEntry(e) + (PackEntries(tail) + rest)
  {
    assert ([e] + tail)[1..] == tail;
    Associative(PackEntry(e), PackEntries(tail), rest);
  }

  lemma {:induction false} ReadPackedEntries(entries: seq<Entry>, rest: Bytes)
    requires forall i :: 0 <= i < |entries| ==> FitsEntry(entries[i])
    ensures ReadEntries(|entries|, PackEntries(entries) + rest) == Parsed(entries, rest)
  {
    if entries == [] {
      assert PackEntries(entries) + rest == rest;
    } else {
      var e, tail := entries[0], entries[1..];
      assert entries == [e] + tail;
      PackEntriesCons(e, tail, rest);
      var mid := PackEntries(tail) + rest;
      ReadPackedEntries(tail, rest);
      ReadPackedEntry(e, mid);
      ReadEntriesCons(|tail|, PackEntry(e) + mid, e, mid, tail, rest);
    }
  }

  lemma ReadPackedArrayHeader(n: nat, rest: Bytes)
    requires n < LIMIT32
    ensures ReadArrayHeader(ArrayHeader(n) + rest) == Parsed(n, rest)
  {
    var header, data := ArrayHeader(n), ArrayHeader(n) + rest;
    assert data[1..] == header[1..] + rest;
    if n < 16 {
      assert data[1..] == rest;
    } else if n < LIMIT16 {
      assert data[1..] == BigEndian16(n) + rest;
      ReadBigEndian16(n, rest);
    } else {
      assert data[1..] == BigEndian32(n) + rest;
      ReadBigEndian32(n, rest);
    }
  }

  lemma UnpackPack(entries: seq<Entry>)
    requires Fits(entries)
    ensures Unpack(Pack(entries)) == Some(entries)
  {
    ReadPackedArrayHeader(|entries|, PackEntries(entries));
    assert PackEntries(entries) + [] == PackEntries(entries);
    ReadPackedEntries(entries, []);
  }

  /** A packed list never looks like gzip, so the two-byte sniff tells the forms apart. */
  lemma PackedIsNeverGzip(entries: seq<Entry>)
    requires Fits(entries)
    ensures Pack(entries) != [] && !(MAGIC <= Pack(entries))
  {
    var first := Pack(entries)[0];
    assert first == ArrayHeader(|entries|)[0];
    assert first != MAGIC[0];
  }

  /** Either form decodes to the list, whichever of the two encoding would have chosen. */
  lemma EitherFormDecodes(gz: GzipPair, entries: seq<Entry>)
    requires gz.Lossless() && Fits(entries)
    ensures DecodePayload(gz, Pack(entries)) == Some(entries)
    ensures DecodePayload(gz, gz.compress(Pack(entries))) == Some(entries)
  {
    UnpackPack(entries);
    PackedIsNeverGzip(entries);
    var packed, compressed := Pack(entries), gz.compress(Pack(entries));
    assert MAGIC <= compressed && gz.decompress(compressed) == Some(packed);
    if |packed| >= 2 {
      assert packed[..2] != MAGIC;
    }
  }

  /** Encoding succeeds on exactly the lists the format can hold, and decoding undoes it on both
      the packed and the compressed outcome. */
  lemma RoundTrip(gz: GzipPair, entries: seq<Entry>)
    requires gz.Lossless()
    ensures EncodePayload(gz, entries).Some? <==> Fits(entries)
    ensures Fits(entries) ==> DecodePayload(gz, EncodePayload(gz, entries).value) == Some(entries)
  {
    if Fits(entries) {
      EitherFormDecodes(gz, entries);
    }
  }

  /** The bytes are the smaller of the two forms of the list, the packed one when they tie. */
  predicate IsSmaller(gz: GzipPair, data: Bytes, entries: seq<Entry>)
    requires Fits(entries)
  {
    var packed, compressed := Pack(entries), gz.compress(Pack(entries));
    && data in {packed, compressed} && |data| <= |packed| && |data| <= |compressed|
    && (MAGIC <= data <==> |compressed| < |packed|)
  }

  /** Of the packed and the compressed form the smaller is stored, and its first two bytes tell which
      it is: the magic if and only if compression made it strictly shorter. */
  lemma SmallerIsStored(gz: GzipPair, entries: seq<Entry>)
    requires gz.Lossless() && Fits(entries)
    ensures EncodePayload(gz, entries).Some? && IsSmaller(gz, EncodePayload(gz, entries).value, entries)
  {
    PackedIsNeverGzip(entries);
    assert MAGIC <= gz.compress(Pack(entries));
  }

  /** Two lists never share an encoding. */
  lemma EncodeInjective(gz: GzipPair, a: seq<Entry>, b: seq<Entry>)
    requires gz.Lossless()
    requires EncodePayload(gz, a).Some? && EncodePayload(gz, a) == EncodePayload(gz, b)
    ensures a == b
  {
    RoundTrip(gz, a);
    RoundTrip(gz, b);
  }

  // ----- the format itself -----

  /** Header and text take the fewest bytes MessagePack has for that length: 1, 2, 3 or 5 more. */
  lemma PackedSizes(text: Bytes)
    requires |text| < LIMIT32
    ensures |PackStr(text)| - |text| ==
            if |text| <= 31 then 1 else if |text| <= 255 then 2 else if |text| <= 65535 then 3 else 5
  {
  }

  lemma PackedKeys()
    ensures PackStr(CONTENT) == [0xa7] + [0x63, 0x6f, 0x6e, 0x74, 0x65, 0x6e, 0x74]
    ensures PackStr(CAPTURED_AT) == [0xab] + [0x63, 0x61, 0x70, 0x74, 0x75, 0x72, 0x65, 0x64, 0x5f, 0x61, 0x74]
  {
    assert |CONTENT| == 7 && |CAPTURED_AT| == 11;
  }

  /** The bytes of a list of one entry with short texts: the two keys spelt out, each string after its
      length. */
  lemma PackedExample(e: Entry)
    requires |e.content| <= 31 && |e.capturedAt| <= 31
    ensures Pack([e])
            == [0x91] + ([0x82]
                + ([0xa7] + [0x63, 0x6f, 0x6e, 0x74, 0x65, 0x6e, 0x74])
                + ([0xa0 + |e.content|] + e.content)
                + ([0xab] + [0x63, 0x61, 0x70, 0x74, 0x75, 0x72, 0x65, 0x64, 0x5f, 0x61, 0x74])
                + ([0xa0 + |e.capturedAt|] + e.capturedAt))
  {
    PackedKeys();
    OneEntry(e);
  }

  lemma OneEntry(e: Entry)
    requires FitsEntry(e)
    ensures Pack([e]) == [0x91] + PackEntry(e)
  {
    assert [e][1..] == [];
    assert PackEntries([e]) == PackEntry(e) + [] == PackEntry(e);
  }

  /** A dict has no order of its keys: either order is read. */
  lemma EitherKeyOrder(e: Entry, rest: Bytes)
    requires FitsEntry(e)
    ensures ReadEntry([0x82] + PackStr(CAPTURED_AT) + PackStr(e.capturedAt) + PackStr(CONTENT) + PackStr(e.content)
                      + rest)
            == Parsed(e, rest)
  {
    var data := [0x82] + PackStr(CAPTURED_AT) + PackStr(e.capturedAt) + PackStr(CONTENT) + PackStr(e.content) + rest;
    var second := PackStr(CONTENT) + PackStr(e.content) + rest;
    AfterTag(PackStr(CAPTURED_AT), PackStr(e.capturedAt), PackStr(CONTENT), PackStr(e.content), rest);
    ReadPackedPair(CAPTURED_AT, e.capturedAt, second);
    ReadPackedPair(CONTENT, e.content, rest);
    OtherOrder(data, second, e, rest);
  }

  lemma OtherOrder(data: Bytes, mid: Bytes, e: Entry, rest: Bytes)
    requires data != [] && data[0] == 0x82
    requires ReadPair(data[1..]) == Parsed((CAPTURED_AT, e.capturedAt), mid)
    requires ReadPair(mid) == Parsed((CONTENT, e.content), rest)
    ensures ReadEntry(data) == Parsed(e, rest)
  {
    KeysDiffer();
  }

  lemma KeysDiffer()
    ensures CONTENT != CAPTURED_AT
  {
    assert |CONTENT| == 7 && |CAPTURED_AT| == 11;
  }

  /** Anything after a packed list makes the whole undecodable. */
  lemma TrailingBytesRaise(entries: seq<Entry>, more: Bytes)
    requires Fits(entries)
    ensures Unpack(Pack(entries) + more) == if more == [] then Some(entries) else None
  {
    Associative(ArrayHeader(|entries|), PackEntries(entries), more);
    ReadPackedArrayHeader(|entries|, PackEntries(entries) + more);
    ReadPackedEntries(entries, more);
  }

  // ----- text that is cut short -----

  /** What is read off a text is also read off the text with more behind it, which is left over. */
  ghost predicate Extends<T>(p: Parsed<T>, longer: Parsed<T>, more: Bytes) {
    p.Parsed? ==> longer == Parsed(p.value, p.rest + more)
  }

  lemma TakeMore(n: nat, data: Bytes, more: Bytes)
    ensures Extends(Take(n, data), Take(n, data + more), more)
  {
    if n <= |data| {
      assert (data + more)[..n] == data[..n];
      assert (data + more)[n..] == data[n..] + more;
    }
  }

  lemma TailMore(data: Bytes, n: nat, more: Bytes)
    requires n <= |data|
    ensures (data + more)[n..] == data[n..] + more
  {
  }

  lemma ReadInt8More(data: Bytes, more: Bytes)
    ensures Extends(ReadInt8(data), ReadInt8(data + more), more)
  {
    if |data| >= 1 {
      TailMore(data, 1, more);
    }
  }

  lemma ReadInt16More(data: Bytes, more: Bytes)
    ensures Extends(ReadInt16(data), ReadInt16(data + more), more)
  {
    if |data| >= 2 {
      TailMore(data, 2, more);
    }
  }

  lemma ReadInt32More(data: Bytes, more: Bytes)
    ensures Extends(ReadInt32(data), ReadInt32(data + more), more)
  {
    ReadInt16More(data, more);
    if ReadInt16(data).Parsed? {
      ReadInt16More(ReadInt16(data).rest, more);
    }
  }

  lemma ReadIntsMore(data: Bytes, more: Bytes)
    ensures Extends(ReadInt8(data), ReadInt8(data + more), more)
    ensures Extends(ReadInt16(data), ReadInt16(data + more), more)
    ensures Extends(ReadInt32(data), ReadInt32(data + more), more)
  {
    ReadInt8More(data, more);
    ReadInt16More(data, more);
    ReadInt32More(data, more);
  }

  lemma ReadStrHeaderMore(data: Bytes, more: Bytes)
    ensures Extends(ReadStrHeader(data), ReadStrHeader(data + more), more)
  {
    if data != [] {
      TailMore(data, 1, more);
      ReadIntsMore(data[1..], more);
    }
  }

  lemma ReadStrMore(data: Bytes, more: Bytes)
    ensures Extends(ReadStr(data), ReadStr(data + more), more)
  {
    ReadStrHeaderMore(data, more);
    var size := ReadStrHeader(data);
    if size.Parsed? {
      TakeMore(size.value, size.rest, more);
    }
  }

  lemma ReadArrayHeaderMore(data: Bytes, more: Bytes)
    ensures Extends(ReadArrayHeader(data), ReadArrayHeader(data + more), more)
  {
    if data != [] {
      TailMore(data, 1, more);
      ReadIntsMore(data[1..], more);
    }
  }

  lemma ReadPairMore(data: Bytes, more: Bytes)
    ensures Extends(ReadPair(data), ReadPair(data + more), more)
  {
    ReadStrMore(data, more);
    if ReadStr(data).Parsed? {
      ReadStrMore(ReadStr(data).rest, more);
    }
  }

  lemma ReadEntryMore(data: Bytes, more: Bytes)
    ensures Extends(ReadEntry(data), ReadEntry(data + more), more)
  {
    if data != [] && data[0] == 0x82 {
      TailMore(data, 1, more);
      ReadPairMore(data[1..], more);
      if ReadPair(data[1..]).Parsed? {
        ReadPairMore(ReadPair(data[1..]).rest, more);
      }
    }
  }

  lemma {:induction false} ReadManyMore<T>(read: Bytes -> Parsed<T>, n: nat, data: Bytes, more: Bytes)
    requires forall text: Bytes :: Extends(read(text), read(text + more), more)
    ensures Extends(ReadMany(read, n, data), ReadMany(read, n, data + more), more)
  {
    if n != 0 && read(data).Parsed? {
      assert Extends(read(data), read(data + more), more);
      ReadManyMore(read, n - 1, read(data).rest, more);
    }
  }

  lemma ReadEntriesMore(n: nat, data: Bytes, more: Bytes)
    ensures Extends(ReadEntries(n, data), ReadEntries(n, data + more), more)
  {
    forall text: Bytes
      ensures Extends(ReadEntry(text), ReadEntry(text + more), more)
    {
      ReadEntryMore(text, more);
    }
    ReadManyMore(ReadEntry, n, data, more);
  }

  /** A text that decodes stops decoding with anything behind it: no decodable text is the start of
      another. */
  lemma NoDecodablePrefix(data: Bytes, more: Bytes)
    requires Unpack(data).Some? && more != []
    ensures Unpack(data + more).None?
  {
    ReadArrayHeaderMore(data, more);
    var size := ReadArrayHeader(data);
    ReadEntriesMore(size.value, size.rest, more);
    assert [] + more == more;
  }

  /** A packed list cut short anywhere raises: a shorter list is never read in its place. */
  lemma TruncatedRaises(entries: seq<Entry>, n: nat)
    requires Fits(entries) && n < |Pack(entries)|
    ensures Unpack(Pack(entries)[..n]).None?
  {
    var data := Pack(entries);
    assert data[..n] + data[n..] == data;
    UnpackPack(entries);
    if Unpack(data[..n]).Some? {
      NoDecodablePrefix(data[..n], data[n..]);
      assert false;
    }
  }
}
