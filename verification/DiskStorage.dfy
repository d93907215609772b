/** Disk storage of the Raft log: a byte file of length-prefixed entries and a table
    of byte offsets, which together must behave like a plain sequence of entries. */
module DiskStorage {
  import opened Bytes

  datatype Entry = Entry(index: U64, term: U64, data: seq<Byte>)

  datatype Outcome<+T> = Ok(value: T) | Compacted | Unavailable | IoError | Panicked

  /** Size of the mapped part of the log file and of the offset table. */
  const FILE_SIZE: nat := 20971520

  /** No file grows beyond this many bytes; longer writes fail. */
  const MAX_FILE: nat := 0x7fff_ffff_ffff_ffff

  // ----- the byte image of a sequence of entries ------------------------------------

  type Encoder = Entry -> seq<Byte>

  /** Encoded entries are shorter than 2^64 bytes. */
  function Record(enc: Encoder, e: Entry): (r: seq<Byte>)
    requires |enc(e)| < U64_BOUND
    ensures |r| == 8 + |enc(e)|
  {
    U64Bytes(|enc(e)|) + enc(e)
  }

  ghost predicate Sized(enc: Encoder) {
    forall e: Entry :: |enc(e)| < U64_BOUND
  }

  ghost function Image(enc: Encoder, s: seq<Entry>): seq<Byte>
    requires Sized(enc)
  {
    if s == [] then [] else Image(enc, s[..|s| - 1]) + Record(enc, s[|s| - 1])
  }

  lemma ImageSnoc(enc: Encoder, s: seq<Entry>, e: Entry)
    requires Sized(enc)
    ensures Image(enc, s + [e]) == Image(enc, s) + Record(enc, e)
  {
    assert (s + [e])[..|s|] == s;
  }

  /** The image of a prefix is a prefix of the image. */
  lemma {:induction false} ImagePrefix(enc: Encoder, s: seq<Entry>, i: nat)
    requires Sized(enc) && i <= |s|
    ensures |Image(enc, s[..i])| <= |Image(enc, s)|
    ensures Image(enc, s[..i]) == Image(enc, s)[..|Image(enc, s[..i])|]
    decreases |s|
  {
    if i == |s| {
      assert s[..i] == s;
    } else {
      var front := s[..|s| - 1];
      assert front[..i] == s[..i];
      ImagePrefix(enc, front, i);
    }
  }

  /** Entry `i` occupies the bytes between the ends of the images of the first `i`
      and the first `i + 1` entries. */
  lemma RecordAt(enc: Encoder, s: seq<Entry>, i: nat)
    requires Sized(enc) && i < |s|
    ensures |Image(enc, s[..i + 1])| == |Image(enc, s[..i])| + 8 + |enc(s[i])|
    ensures |Image(enc, s[..i + 1])| <= |Image(enc, s)|
    ensures Image(enc, s)[|Image(enc, s[..i])|..|Image(enc, s[..i + 1])|] == Record(enc, s[i])
  {
    var upTo := s[..i + 1];
    assert upTo == s[..i] + [s[i]];
    ImageSnoc(enc, s[..i], s[i]);
    ImagePrefix(enc, s, i + 1);
    hide Image;
    var before, whole := Image(enc, s[..i]), Image(enc, s);
    var after := Image(enc, upTo);
    assert whole[..|after|] == before + Record(enc, s[i]);
    assert whole[|before|..|after|] == whole[..|after|][|before|..];
  }

  /** A record can be read back from the place where it lies. */
  lemma ReadRecord(enc: Encoder, log: seq<Byte>, cursor: nat, start: nat, e: Entry)
    requires |enc(e)| < U64_BOUND && start + 8 + |enc(e)| <= cursor <= |log|
    requires log[..cursor][start..start + 8 + |enc(e)|] == Record(enc, e)
    ensures Value(log[start..start + 8]) == |enc(e)|
    ensures log[start + 8..start + 8 + |enc(e)|] == enc(e)
  {
    hide Value, U64Bytes;
    var rec := log[start..start + 8 + |enc(e)|];
    assert rec == log[..cursor][start..start + 8 + |enc(e)|];
    assert log[start..start + 8] == rec[..8] == U64Bytes(|enc(e)|);
    assert log[start + 8..start + 8 + |enc(e)|] == rec[8..] == enc(e);
    U64RoundTrip(|enc(e)|);
  }

  /** Entry `i` lies in the log at its place, length first. */
  ghost predicate HoldsRecord(enc: Encoder, log: seq<Byte>, cursor: nat, s: seq<Entry>, i: nat)
    requires Sized(enc) && i < |s| && cursor <= |log|
  {
    var start, stop := |Image(enc, s[..i])|, |Image(enc, s[..i + 1])|;
    && start + 8 <= stop <= cursor
    && stop == start + 8 + |enc(s[i])|
    && Value(log[start..start + 8]) == |enc(s[i])|
    && log[start + 8..stop] == enc(s[i])
  }

  lemma RecordHeld(enc: Encoder, log: seq<Byte>, cursor: nat, s: seq<Entry>, i: nat)
    requires Sized(enc) && i < |s| && cursor <= |log| && log[..cursor] == Image(enc, s)
    ensures HoldsRecord(enc, log, cursor, s, i)
  {
    hide Image, Record, Value;
    RecordAt(enc, s, i);
    ReadRecord(enc, log, cursor, |Image(enc, s[..i])|, s[i]);
  }

  /** Position `i` of the table holds the byte offset at which entry `i` starts. */
  ghost predicate Tabled(enc: Encoder, table: seq<Byte>, s: seq<Entry>)
    requires Sized(enc)
  {
    && 8 * |s| <= |table|
    && forall i :: 0 <= i < |s| ==> OffsetAt(table, i) == |Image(enc, s[..i])|
  }

  function OffsetAt(table: seq<Byte>, i: nat): nat
    requires 8 * i + 8 <= |table|
  {
    Value(table[8 * i..8 * i + 8])
  }

  lemma TabledPrefix(enc: Encoder, table: seq<Byte>, s: seq<Entry>, i: nat)
    requires Sized(enc) && Tabled(enc, table, s) && i <= |s|
    ensures Tabled(enc, table, s[..i]) && 8 * |s| <= |table|
  {
    hide Image, OffsetAt;
    forall j | 0 <= j < i
      ensures OffsetAt(table, j) == |Image(enc, s[..i][..j])|
    {
      assert s[..i][..j] == s[..j];
    }
  }

  lemma OffsetKept(table: seq<Byte>, at: nat, x: U64, j: nat)
    requires 8 * at + 8 <= |table| && j <= at
    ensures OffsetAt(Overwrite(table, 8 * at, U64Bytes(x)), j) == if j < at then OffsetAt(table, j) else x
  {
    hide U64Bytes, Value;
    var t := Overwrite(table, 8 * at, U64Bytes(x));
    if j < at {
      assert t[8 * j..8 * j + 8] == t[..8 * at][8 * j..8 * j + 8];
      assert table[8 * j..8 * j + 8] == table[..8 * at][8 * j..8 * j + 8];
    } else {
      U64RoundTrip(x);
    }
  }

  lemma TabledSnoc(enc: Encoder, table: seq<Byte>, s: seq<Entry>, e: Entry)
    requires Sized(enc) && Tabled(enc, table, s) && 8 * |s| + 8 <= |table| && |Image(enc, s)| < U64_BOUND
    ensures Tabled(enc, Overwrite(table, 8 * |s|, U64Bytes(|Image(enc, s)|)), s + [e])
  {
    hide Image, U64Bytes, OffsetAt, Overwrite;
    var t := Overwrite(table, 8 * |s|, U64Bytes(|Image(enc, s)|));
    forall j | 0 <= j < |s| + 1
      ensures OffsetAt(t, j) == |Image(enc, (s + [e])[..j])|
    {
      OffsetKept(table, |s|, |Image(enc, s)|, j);
      assert (s + [e])[..j] == s[..j];
      assert s[..|s|] == s;
    }
  }

  // ----- the abstract log ------------------------------------------------------------

  /** Indices count up from `first`. */
  predicate Numbered(first: nat, s: seq<Entry>) {
    forall i :: 0 <= i < |s| ==> s[i].index == first + i
  }

  /** Appending truncates at the batch's first index, then appends. */
  function Appended(first: nat, s: seq<Entry>, batch: seq<Entry>): (r: seq<Entry>)
    requires Numbered(first, s) && batch != [] && first <= batch[0].index <= first + |s|
    requires Numbered(batch[0].index, batch)
    ensures Numbered(first, r)
  {
    s[..batch[0].index - first] + batch
  }

  /** Every batch starts inside the log it meets or right after it. */
  ghost predicate Accepted(first: nat, batches: seq<seq<Entry>>)
    decreases |batches|, 0
  {
    batches == [] ||
    (var front, last := batches[..|batches| - 1], batches[|batches| - 1];
     && Accepted(first, front)
     && last != [] && Numbered(last[0].index, last)
     && first <= last[0].index <= first + |Replay(first, front)|)
  }

  /** The log after appending the batches in order to an empty one. */
  ghost function Replay(first: nat, batches: seq<seq<Entry>>): (s: seq<Entry>)
    requires Accepted(first, batches)
    ensures Numbered(first, s)
    decreases |batches|, 1
  {
    if batches == [] then []
    else Appended(first, Replay(first, batches[..|batches| - 1]), batches[|batches| - 1])
  }

  lemma ReplaySnoc(first: nat, batches: seq<seq<Entry>>, i: nat)
    requires i < |batches| && batches[i] != [] && Numbered(batches[i][0].index, batches[i])
    requires Accepted(first, batches[..i])
    ensures
      var s, batch := Replay(first, batches[..i]), batches[i];
      first <= batch[0].index <= first + |s| ==>
        && Accepted(first, batches[..i + 1])
        && Replay(first, batches[..i + 1]) == s[..batch[0].index - first] + batch
  {
    assert batches[..i + 1][..i] == batches[..i];
  }

  /** Joined numbered parts are numbered exactly when the second one is. */
  lemma NumberedJoin(first: nat, a: seq<Entry>, b: seq<Entry>)
    requires b != [] && b[0].index == first + |a|
    ensures Numbered(first, a) ==> (Numbered(first, a + b) <==> Numbered(b[0].index, b))
  {
    var s := a + b;
    assert forall i :: 0 <= i < |b| ==> s[|a| + i] == b[i];
  }

  /** Batch `k` is the last that starts at or below index `x`. */
  predicate Latest(batches: seq<seq<Entry>>, k: nat, x: nat) {
    && k < |batches| && batches[k] != [] && batches[k][0].index <= x
    && forall l :: k < l < |batches| && batches[l] != [] ==> batches[l][0].index > x
  }

  predicate Covers(batches: seq<seq<Entry>>, k: nat, x: nat) {
    Latest(batches, k, x) && x < batches[k][0].index + |batches[k]|
  }

  lemma LaterBatchAbove(front: seq<seq<Entry>>, last: seq<Entry>, k: nat, x: nat)
    requires last != [] && x < last[0].index
    ensures Covers(front + [last], k, x) <==> Covers(front, k, x)
  {
    var batches := front + [last];
    assert batches[|front|] == last;
    assert forall l :: 0 <= l < |front| ==> batches[l] == front[l];
  }

  lemma LaterBatchBelow(front: seq<seq<Entry>>, last: seq<Entry>, k: nat, x: nat)
    requires last != [] && last[0].index <= x
    ensures Covers(front + [last], k, x) <==> k == |front| && x < last[0].index + |last|
  {
    var batches := front + [last];
    assert batches[|front|] == last;
  }

  /** An index is stored exactly when the last batch that starts at or below it
      reaches it, and it is stored as that batch has it. */
  lemma {:induction false} LatestBatchDecides(first: nat, batches: seq<seq<Entry>>, x: nat)
    requires Accepted(first, batches) && first <= x
    ensures x < first + |Replay(first, batches)| <==> exists k: nat :: Covers(batches, k, x)
    ensures forall k: nat :: Covers(batches, k, x) ==>
      && x < first + |Replay(first, batches)|
      && Replay(first, batches)[x - first] == batches[k][x - batches[k][0].index]
  {
    if batches != [] {
      var n := |batches| - 1;
      var front, last := batches[..n], batches[n];
      assert batches == front + [last];
      LatestBatchDecides(first, front, x);
      hide Latest, Covers, Accepted;
      if last[0].index <= x {
        forall k: nat ensures Covers(batches, k, x) <==> k == n && x < last[0].index + |last| {
          LaterBatchBelow(front, last, k, x);
        }
        assert Covers(batches, n, x) <==> x < last[0].index + |last|;
      } else {
        forall k: nat ensures Covers(batches, k, x) <==> Covers(front, k, x) {
          LaterBatchAbove(front, last, k, x);
        }
        forall k: nat | Covers(front, k, x) ensures k < n && batches[k] == front[k] {
          CoverInRange(front, k, x);
        }
      }
    }
  }

  lemma CoverInRange(batches: seq<seq<Entry>>, k: nat, x: nat)
    requires Covers(batches, k, x)
    ensures k < |batches|
  {
  }

  // ----- the storage -------------------------------------------------------------------

  class DiskStorageCore {
    const encode: Encoder
    const decode: seq<Byte> -> Outcome<Entry>
    const snapshotIndex: U64
    const snapshotTerm: U64
    var log: seq<Byte>
    var cursor: nat
    const offset: array<Byte>
    const metadata: array<Byte>
    var numEntries: nat
    /** The entries the storage stands for. */
    ghost var contents: seq<Entry>

    ghost predicate CodecRoundTrips() {
      Sized(encode) && forall e: Entry :: decode(encode(e)) == Ok(e)
    }

    /** Flag and value of the first index, then flag and value of the last index. */
    ghost predicate MetadataAgrees()
      reads this, metadata
    {
      && metadata.Length == 18
      && (if contents == [] then metadata[0] == 0 && metadata[9] == 0
          else && metadata[0] != 0 && Value(metadata[1..9]) == snapshotIndex + 1
               && metadata[9] != 0 && Value(metadata[10..18]) == contents[|contents| - 1].index)
    }

    /** The bytes before the cursor are exactly the image of the entries. */
    ghost predicate LogAgrees(s: seq<Entry>)
      requires Sized(encode)
      reads this
    {
      && |log| >= FILE_SIZE && cursor <= |log| && cursor <= MAX_FILE
      && log[..cursor] == Image(encode, s)
    }

    ghost predicate Valid()
      reads this, metadata, offset
    {
      && CodecRoundTrips()
      && metadata != offset && offset.Length == FILE_SIZE
      && LogAgrees(contents)
      && Tabled(encode, offset[..], contents)
      && numEntries == |contents|
      && MetadataAgrees()
    }

    /** Positions and indices match: the indices count up from the snapshot. */
    ghost predicate Consecutive()
      reads this
    {
      Numbered(snapshotIndex + 1, contents)
    }

    /** Files start zeroed. */
    constructor (encode: Encoder, decode: seq<Byte> -> Outcome<Entry>, snapshotIndex: U64, snapshotTerm: U64)
      requires Sized(encode) && forall e: Entry :: decode(encode(e)) == Ok(e)
      ensures Valid() && contents == [] && Consecutive() && fresh(offset) && fresh(metadata)
      ensures this.encode == encode && this.decode == decode
      ensures this.snapshotIndex == snapshotIndex && this.snapshotTerm == snapshotTerm
    {
      this.encode, this.decode := encode, decode;
      this.snapshotIndex, this.snapshotTerm := snapshotIndex, snapshotTerm;
      log, cursor, numEntries, contents := seq(FILE_SIZE, i => 0), 0, 0, [];
      offset := new Byte[FILE_SIZE](i => 0);
      metadata := new Byte[18](i => 0);
    }

    function FirstIndex(): (r: nat)
      reads this, metadata, offset
      requires Valid()
      ensures r == snapshotIndex + 1
    {
      if metadata[0] == 0 then snapshotIndex + 1 else Value(metadata[1..9])
    }

    function LastIndex(): (r: nat)
      reads this, metadata, offset
      requires Valid()
      ensures r == if contents == [] then snapshotIndex else contents[|contents| - 1].index
      ensures Consecutive() ==> r == snapshotIndex + |contents|
    {
      if metadata[9] == 0 then snapshotIndex else Value(metadata[10..18])
    }

    /** The byte offset of a log position, from the table. */
    function LogOffset(i: nat): (r: nat)
      reads this, metadata, offset
      requires Valid() && 8 * i + 8 <= offset.Length
      ensures i < |contents| ==> r == |Image(encode, contents[..i])|
    {
      OffsetAt(offset[..], i)
    }

    /** What the log says about a stored entry. */
    lemma StoredEntry(i: nat)
      requires Valid()
      ensures i < |contents| ==> HoldsRecord(encode, log, cursor, contents, i)
    {
      hide Image, Tabled, MetadataAgrees, Numbered, HoldsRecord;
      if i < |contents| {
        RecordHeld(encode, log, cursor, contents, i);
      }
    }

    /** Reads the mapped part of the log; reads outside it panic. A stored entry comes
        back if and only if it ends inside the mapped part. */
    method GetEntry(i: nat) returns (r: Outcome<Entry>)
      requires Valid()
      ensures i < |contents| ==>
        r == if |Image(encode, contents[..i + 1])| <= FILE_SIZE then Ok(contents[i]) else Panicked
    {
      hide Image, Tabled, MetadataAgrees, Value, Numbered, Overwrite;
      if 8 * i + 8 > offset.Length {
        TabledPrefix(encode, offset[..], contents, |contents|);
        return Panicked;
      }
      StoredEntry(i);
      var start := LogOffset(i);
      var stop := start + 8;
      if stop > FILE_SIZE {
        return Panicked;
      }
      var len := Value(log[start..stop]);
      if stop + len > FILE_SIZE {
        return Panicked;
      }
      return decode(log[stop..stop + len]);
    }

    /** The term of an index: the snapshot's own, or that of the stored entry. */
    method Term(idx: nat) returns (r: Outcome<U64>)
      requires Valid()
      ensures idx == snapshotIndex ==> r == Ok(snapshotTerm)
      ensures idx < snapshotIndex ==> r == Compacted
      ensures idx > snapshotIndex + |contents| ==> r == Unavailable
      ensures snapshotIndex < idx <= snapshotIndex + |contents| ==>
        r == if |Image(encode, contents[..idx - snapshotIndex])| <= FILE_SIZE
             then Ok(contents[idx - snapshotIndex - 1].term) else Panicked
    {
      hide Image, Tabled, LogAgrees, MetadataAgrees, Value, Numbered;
      if idx == snapshotIndex {
        return Ok(snapshotTerm);
      }
      var first := FirstIndex();
      if idx < first {
        return Compacted;
      }
      var logIndex := idx - first;
      if logIndex >= numEntries {
        return Unavailable;
      }
      var e := GetEntry(logIndex);
      return if e.Ok? then Ok(e.value.term) else Panicked;
    }

    /** The stored entries with low <= index < high, when all of them end inside the
        mapped part of the log. With consecutive indices the last index is the last
        position, and the four cases are all there are. */
    method Entries(low: nat, high: nat) returns (r: Outcome<seq<Entry>>)
      requires Valid()
      ensures low <= snapshotIndex ==> r == Compacted
      ensures low > snapshotIndex && !(snapshotIndex < high <= LastIndex() + 1) ==> r == Panicked
      ensures snapshotIndex < high < low && high <= LastIndex() + 1 ==> r == Ok([])
      ensures snapshotIndex < low <= high <= LastIndex() + 1 && high <= snapshotIndex + |contents| + 1 ==>
        var lo, hi := low - snapshotIndex - 1, high - snapshotIndex - 1;
        r == if lo == hi || |Image(encode, contents[..hi])| <= FILE_SIZE then Ok(contents[lo..hi]) else Panicked
    {
      hide Image, Tabled, LogAgrees, MetadataAgrees, Value;
      var first := FirstIndex();
      if low < first {
        return Compacted;
      }
      if high > LastIndex() + 1 || high < first {
        return Panicked;
      }
      if low > high {
        return Ok([]);
      }
      r := ReadRange(low - first, high - first);
    }

    method ReadRange(lo: nat, hi: nat) returns (r: Outcome<seq<Entry>>)
      requires Valid() && lo <= hi && Sized(encode)
      ensures hi <= |contents| ==>
        r == if lo == hi || |Image(encode, contents[..hi])| <= FILE_SIZE then Ok(contents[lo..hi]) else Panicked
    {
      hide Valid, Sized, Image;
      var ents: seq<Entry> := [];
      for i := lo to hi
        invariant hi <= |contents| ==> ents == contents[lo..i]
        invariant hi <= |contents| && i > lo ==> |Image(encode, contents[..i])| <= FILE_SIZE
      {
        var e := GetEntry(i);
        if hi <= |contents| {
          ImageGrows(encode, contents, i + 1, hi);
        }
        if !e.Ok? {
          return Panicked;
        }
        ents := ents + [e.value];
      }
      return Ok(ents);
    }

    // ----- appending ----------------------------------------------------------------

    /** Truncates at log position `from`, then appends. It succeeds if and only if the
        position is in the log or at its end and the result fits the file and the offset
        table; beyond the end the count of removed entries underflows. After a failure
        the storage is no longer usable. */
    method AppendEntries(entries: seq<Entry>, from: nat) returns (r: Outcome<()>)
      requires Valid() && entries != [] && (from == 0 ==> entries[0].index == snapshotIndex + 1)
      modifies this, offset, metadata
      ensures r.Ok? <==> && from <= old(numEntries)
                         && |Image(encode, old(contents)[..from] + entries)| <= MAX_FILE
                         && 8 * (from + |entries|) <= FILE_SIZE
      ensures r.Ok? ==> Valid() && contents == old(contents)[..from] + entries
    {
      hide Image, Tabled, Value, Overwrite, OffsetAt, U64Bytes;
      if from > numEntries {
        return Panicked;
      }
      TabledPrefix(encode, offset[..], contents, from);
      Seek(from);
      ghost var kept := contents[..from];
      ghost var meta := metadata[1..9];
      r := WriteEntries(entries, from, kept);
      if !r.Ok? {
        return;
      }
      assert metadata[1..9] == meta;
      UpdateMetadata(entries, from);
      var numRemoved := numEntries - from;
      numEntries := numEntries + |entries| - numRemoved;
      contents := kept + entries;
    }

    /** The loop over the entries, after the entries in `kept`. */
    method WriteEntries(entries: seq<Entry>, from: nat, ghost kept: seq<Entry>) returns (r: Outcome<()>)
      requires CodecRoundTrips() && offset.Length == FILE_SIZE && from == |kept|
      requires LogAgrees(kept) && Tabled(encode, offset[..], kept)
      modifies this`log, this`cursor, offset
      ensures r.Ok? <==> |Image(encode, kept + entries)| <= MAX_FILE && 8 * (from + |entries|) <= FILE_SIZE
      ensures r.Ok? ==> LogAgrees(kept + entries) && Tabled(encode, offset[..], kept + entries)
    {
      hide Image, Value, Overwrite, OffsetAt, U64Bytes;
      ghost var whole := kept + entries;
      assert whole[..from] == kept;
      for i := 0 to |entries|
        invariant LogAgrees(whole[..from + i]) && Tabled(encode, offset[..], whole[..from + i])
      {
        assert whole[..from + i + 1] == whole[..from + i] + [entries[i]];
        var w := AppendEntry(entries[i], from + i, whole[..from + i]);
        if !w.Ok? {
          ImagePrefix(encode, whole, from + i + 1);
          return w;
        }
      }
      assert whole[..|whole|] == whole;
      return Ok(());
    }

    /** Moves the cursor to the end of entry `from - 1`. When nothing is removed it stays
        where it is, which is the end of the log. */
    method Seek(from: nat)
      requires Valid() && from <= numEntries
      modifies this`cursor
      ensures LogAgrees(contents[..from])
    {
      hide Image, Tabled, Value, MetadataAgrees, Numbered;
      ImagePrefix(encode, contents, from);
      TabledPrefix(encode, offset[..], contents, from);
      if from < numEntries {
        ghost var whole := log[..cursor];
        cursor := LogOffset(from);
        assert log[..cursor] == whole[..cursor];
      } else {
        assert contents[..from] == contents;
      }
    }

    /** The first index is written when the log is replaced from its start, the last
        index always. */
    method UpdateMetadata(entries: seq<Entry>, from: nat)
      requires metadata.Length == 18 && entries != []
      requires from > 0 ==> metadata[0] != 0 && Value(metadata[1..9]) == snapshotIndex + 1
      requires from == 0 ==> entries[0].index == snapshotIndex + 1
      modifies metadata
      ensures metadata[0] != 0 && Value(metadata[1..9]) == snapshotIndex + 1
      ensures metadata[9] != 0 && Value(metadata[10..18]) == entries[|entries| - 1].index
    {
      hide Value;
      if from == 0 {
        SetMetadata(0, entries[0].index);
      }
      ghost var first := metadata[1..9];
      SetMetadata(9, entries[|entries| - 1].index);
      assert metadata[1..9] == first;
    }

    /** Appending a batch: nothing for an empty one, a panic for one that starts in the
        compacted part or after the next index, else truncation and append. Only the first
        index of a batch is checked: indices stay consecutive if and only if those of the
        batch are. */
    method AppendLog(entries: seq<Entry>) returns (r: Outcome<()>)
      requires Valid()
      modifies this, offset, metadata
      ensures entries == [] ==> r.Ok? && Valid() && contents == old(contents)
      ensures entries != [] && !(snapshotIndex < entries[0].index <= old(LastIndex()) + 1) ==>
        r == Panicked && Valid() && contents == old(contents)
      ensures entries != [] && snapshotIndex < entries[0].index <= old(LastIndex()) + 1 ==>
        && var from := entries[0].index - snapshotIndex - 1;
        && (r.Ok? <==> && from <= |old(contents)|
                       && |Image(encode, old(contents)[..from] + entries)| <= MAX_FILE
                       && 8 * (from + |entries|) <= FILE_SIZE)
        && (r.Ok? ==> Valid() && contents == old(contents)[..from] + entries)
      ensures entries != [] && r.Ok? && old(Consecutive()) ==>
        (Consecutive() <==> Numbered(entries[0].index, entries))
    {
      hide Image, Tabled, Value, LogAgrees, MetadataAgrees;
      if entries == [] {
        return Ok(());
      }
      var firstIndex := FirstIndex();
      if firstIndex > entries[0].index {
        return Panicked;
      }
      var lastIndex := LastIndex();
      if lastIndex + 1 < entries[0].index {
        return Panicked;
      }
      var from := entries[0].index - firstIndex;
      r := AppendEntries(entries, from);
      if r.Ok? {
        NumberedJoin(snapshotIndex + 1, old(contents)[..from], entries);
      }
    }

    /** Appends the batches one by one to an empty log. */
    method AppendBatches(batches: seq<seq<Entry>>) returns (ok: bool)
      requires Valid() && contents == []
      requires forall i :: 0 <= i < |batches| ==> batches[i] != [] && Numbered(batches[i][0].index, batches[i])
      modifies this, offset, metadata
      ensures ok ==> Valid() && Accepted(snapshotIndex + 1, batches) && contents == Replay(snapshotIndex + 1, batches)
    {
      hide Valid, Image;
      ghost var first := snapshotIndex + 1;
      for i := 0 to |batches|
        invariant Valid() && Accepted(first, batches[..i]) && contents == Replay(first, batches[..i])
      {
        ReplaySnoc(first, batches, i);
        var r := AppendLog(batches[i]);
        if !r.Ok? {
          return false;
        }
      }
      assert batches[..|batches|] == batches;
      return true;
    }

    /** Writes one record at the cursor and its offset into the table. */
    method AppendEntry(e: Entry, at: nat, ghost s: seq<Entry>) returns (r: Outcome<()>)
      requires CodecRoundTrips() && offset.Length == FILE_SIZE
      requires LogAgrees(s) && Tabled(encode, offset[..], s) && at == |s|
      modifies this`log, this`cursor, offset
      ensures r.Ok? <==> |Image(encode, s + [e])| <= MAX_FILE && 8 * |s| + 8 <= FILE_SIZE
      ensures r.Ok? ==> LogAgrees(s + [e]) && Tabled(encode, offset[..], s + [e])
    {
      ImageSnoc(encode, s, e);
      hide Image, Tabled, U64Bytes, Overwrite, OffsetAt, Value, Record;
      var currentOffset := cursor;
      var ser := encode(e);
      if cursor + 8 + |ser| > MAX_FILE {
        return IoError;
      }
      WriteRecord(e, s);
      if 8 * at + 8 > offset.Length {
        return Panicked;
      }
      TabledSnoc(encode, offset[..], s, e);
      WriteAt(offset, 8 * at, U64Bytes(currentOffset));
      return Ok(());
    }

    /** Writes the length of an entry, then the entry. */
    method WriteRecord(e: Entry, ghost s: seq<Entry>)
      requires Sized(encode) && LogAgrees(s) && cursor + 8 + |encode(e)| <= MAX_FILE
      modifies this`log, this`cursor
      ensures LogAgrees(s + [e])
    {
      ImageSnoc(encode, s, e);
      hide Image, U64Bytes;
      ghost var before := log[..cursor];
      var ser := encode(e);
      WriteLog(U64Bytes(|ser|));
      WriteLog(ser);
      assert log[..cursor] == before + U64Bytes(|ser|) + ser == before + Record(encode, e);
    }

    method WriteLog(b: seq<Byte>)
      requires cursor <= |log|
      modifies this`log, this`cursor
      ensures cursor == old(cursor) + |b| <= |log| && |log| >= old(|log|)
      ensures log[..cursor] == old(log[..cursor]) + b
    {
      log, cursor := Overwrite(log, cursor, b), cursor + |b|;
    }

    /** Sets the flag at `at` and the value after it. */
    method SetMetadata(at: nat, value: U64)
      requires at + 9 <= metadata.Length
      modifies metadata
      ensures metadata[at] == 1 && Value(metadata[at + 1..at + 9]) == value
      ensures forall i :: 0 <= i < metadata.Length && !(at <= i < at + 9) ==> metadata[i] == old(metadata[i])
    {
      hide Value, U64Bytes;
      metadata[at] := 1;
      WriteAt(metadata, at + 1, U64Bytes(value));
      U64RoundTrip(value);
      assert metadata[at + 1..at + 9] == metadata[..][at + 1..at + 9];
      assert metadata[at] == metadata[..][..at + 1][at];
    }
  }

  method WriteAt(a: array<Byte>, at: nat, b: seq<Byte>)
    requires at + |b| <= a.Length
    modifies a
    ensures a[..] == Overwrite(old(a[..]), at, b)
  {
    for i := 0 to |b|
      invariant a[..] == Overwrite(old(a[..]), at, b[..i])
    {
      a[at + i] := b[i];
      assert b[..i + 1] == b[..i] + [b[i]];
    }
    assert b[..|b|] == b;
  }

  lemma ImageGrows(enc: Encoder, s: seq<Entry>, i: nat, j: nat)
    requires Sized(enc) && i <= j <= |s|
    ensures |Image(enc, s[..i])| <= |Image(enc, s[..j])|
  {
    assert s[..j][..i] == s[..i];
    ImagePrefix(enc, s[..j], i);
  }
}
