/** What the repacked container looks like: where every block the writer
    emits lands, what the offset table says, and when the repack fails.
    All statements are about the specification functions `Written` and
    `Repacked`, which the writer methods are proved to compute. */
module ScdLayout {
  import opened Bytes
  import opened Alignment
  import opened ScdFormat
  import opened SlotOrder
  import opened ScdWriter

  /** Where the record of stream i starts in the output: the first stream's
      offset plus the sizes of the records before it. */
  function RecordStart(scd: Scd, payloads: seq<seq<byte>>, i: nat): (p: nat)
    requires |payloads| == |scd.streamsData| > 0 && i <= |payloads|
    ensures p >= FirstStreamOffset(scd)
  {
    FirstStreamOffset(scd) + SumTo(RecordSizes(scd.streamsData, payloads), i)
  }

  /** The `uint` stored in entry i of the offset table of `out`. */
  function TableEntry(out: seq<byte>, scd: Scd, i: nat): (e: nat)
    requires scd.tablesHeader.table2Offset + 4 * i + 4 <= |out|
    ensures e < TwoTo32
  {
    var at := scd.tablesHeader.table2Offset + 4 * i;
    FromLE32(out[at..at + 4])
  }

  /** Entry i of the table bytes is the little-endian form of offset i. */
  lemma {:induction false} OffsetTableAt(first: nat, sizes: seq<nat>, n: nat, i: nat)
    requires i < n <= |sizes|
    ensures OffsetTable(first, sizes, n)[4 * i..4 * i + 4] == LE32(OffsetEntry(first, sizes, i))
  {
    var t := OffsetTable(first, sizes, n - 1);
    assert OffsetTable(first, sizes, n) == t + LE32(OffsetEntry(first, sizes, n - 1));
    if i < n - 1 {
      OffsetTableAt(first, sizes, n - 1, i);
      assert OffsetTable(first, sizes, n)[4 * i..4 * i + 4] == t[4 * i..4 * i + 4];
    }
  }

  /** With fixed-width serialisers, the record of stream i is exactly
      `RecordSizes(..)[i]` bytes long. */
  lemma RecordLengths(layout: Layout, streams: seq<StreamData>, wavFiles: seq<WaveFile>, payloads: seq<seq<byte>>)
    requires FixedWidth(layout)
    requires |streams| == |wavFiles| == |payloads|
    ensures Lengths(StreamRecords(layout, streams, wavFiles, payloads)) == RecordSizes(streams, payloads)
  {
    var records := StreamRecords(layout, streams, wavFiles, payloads);
    forall i | 0 <= i < |records|
      ensures |records[i]| == |payloads[i]| + StreamHeaderSize + |streams[i].extraData|
    {
      var h := RebuiltStreamHeader(streams[i].header, wavFiles[i], payloads[i]);
      assert |layout.writeStreamHeader(h)| == StreamHeaderSize;
    }
  }

  /** A successful write is the image of a template whose regions are in range. */
  lemma WrittenImage(scd: Scd, payloads: seq<seq<byte>>, wavFiles: seq<WaveFile>, layout: Layout)
    requires |payloads| == |scd.streamsData| == |wavFiles|
    requires Written(scd, payloads, wavFiles, layout).Ok?
    ensures RegionsInRange(scd, layout)
    ensures Written(scd, payloads, wavFiles, layout).value == Image(scd, payloads, wavFiles, layout)
  {
  }

  /** The container is the concatenation of six blocks, each at a position
      fixed by the template: the two rebuilt headers, the template bytes up to
      table 2, the offset table, the template bytes up to the first stream,
      and the stream records from the first stream's offset on. */
  lemma ImageBlocks(scd: Scd, payloads: seq<seq<byte>>, wavFiles: seq<WaveFile>, layout: Layout)
    requires FixedWidth(layout)
    requires |payloads| == |scd.streamsData| == |wavFiles|
    requires RegionsInRange(scd, layout)
    ensures var out := Image(scd, payloads, wavFiles, layout);
      var table2 := scd.tablesHeader.table2Offset;
      var first := FirstStreamOffset(scd);
      && |out| == RecordStart(scd, payloads, |payloads|)
      && out[..layout.headerSize] == layout.writeHeader(RebuiltHeader(scd.header, payloads))
      && out[layout.headerSize..HeadersEnd(layout)] == layout.writeTablesHeader(scd.tablesHeader)
      && out[HeadersEnd(layout)..table2] == scd.data[HeadersEnd(layout)..table2]
      && out[table2..OffsetTableEnd(scd)] == OffsetTable(first, RecordSizes(scd.streamsData, payloads), |payloads|)
      && out[OffsetTableEnd(scd)..first] == scd.data[OffsetTableEnd(scd)..first]
      && out[first..] == Concat(StreamRecords(layout, scd.streamsData, wavFiles, payloads))
  {
    var table2 := scd.tablesHeader.table2Offset;
    var first := FirstStreamOffset(scd);
    var sizes := RecordSizes(scd.streamsData, payloads);
    var records := StreamRecords(layout, scd.streamsData, wavFiles, payloads);
    var a := layout.writeHeader(RebuiltHeader(scd.header, payloads));
    var b := layout.writeTablesHeader(RebuiltTablesHeader(scd.tablesHeader));
    var c := scd.data[HeadersEnd(layout)..table2];
    var d := OffsetTable(first, sizes, |sizes|);
    var e := scd.data[OffsetTableEnd(scd)..first];
    var f := Concat(records);
    assert |a| == layout.headerSize && |b| == layout.tablesHeaderSize;
    RecordLengths(layout, scd.streamsData, wavFiles, payloads);
    ConcatLength(records);
    SixBlocks(a, b, c, d, e, f);
  }

  /** Each of six concatenated blocks can be cut back out at its position. */
  lemma SixBlocks<T>(a: seq<T>, b: seq<T>, c: seq<T>, d: seq<T>, e: seq<T>, f: seq<T>)
    ensures var out := a + b + c + d + e + f;
      var ab := |a| + |b|;
      var abc := ab + |c|;
      var abcd := abc + |d|;
      var abcde := abcd + |e|;
      && |out| == abcde + |f|
      && out[..|a|] == a
      && out[|a|..ab] == b
      && out[ab..abc] == c
      && out[abc..abcd] == d
      && out[abcd..abcde] == e
      && out[abcde..] == f
  {
    var out := a + b + c + d + e + f;
    assert out[..|a|] == a;
    assert out[|a|..|a| + |b|] == b;
    assert out[|a| + |b|..|a| + |b| + |c|] == c;
    assert out[|a| + |b| + |c|..|a| + |b| + |c| + |d|] == d;
    assert out[|a| + |b| + |c| + |d|..|a| + |b| + |c| + |d| + |e|] == e;
    assert out[|a| + |b| + |c| + |d| + |e|..] == f;
  }

  /** The container opens with the rebuilt global header (the template's,
      with TotalFileSize set to the payload total) and the template's tables
      header, each serialised. */
  lemma HeadersWritten(scd: Scd, payloads: seq<seq<byte>>, wavFiles: seq<WaveFile>, layout: Layout)
    requires FixedWidth(layout)
    requires |payloads| == |scd.streamsData| == |wavFiles|
    requires Written(scd, payloads, wavFiles, layout).Ok?
    ensures var out := Written(scd, payloads, wavFiles, layout).value;
      var h := RebuiltHeader(scd.header, payloads);
      && HeadersEnd(layout) <= |out|
      && out[..layout.headerSize] == layout.writeHeader(h)
      && out[layout.headerSize..HeadersEnd(layout)] == layout.writeTablesHeader(scd.tablesHeader)
      && h.(totalFileSize := scd.header.totalFileSize) == scd.header
      && h.totalFileSize == PayloadTotal(payloads) <= IntMax
  {
    WrittenImage(scd, payloads, wavFiles, layout);
    ImageBlocks(scd, payloads, wavFiles, layout);
  }

  /** Both copied regions hold, byte for byte, what the template holds at the
      same positions, whatever the payloads. */
  lemma OpaqueRegionsPreserved(scd: Scd, payloads: seq<seq<byte>>, wavFiles: seq<WaveFile>, layout: Layout)
    requires FixedWidth(layout)
    requires |payloads| == |scd.streamsData| == |wavFiles|
    requires Written(scd, payloads, wavFiles, layout).Ok?
    ensures var out := Written(scd, payloads, wavFiles, layout).value;
      && |scd.streamsData| > 0
      && FirstStreamOffset(scd) <= |out| && FirstStreamOffset(scd) <= |scd.data|
      && (forall k :: HeadersEnd(layout) <= k < scd.tablesHeader.table2Offset ==> out[k] == scd.data[k])
      && (forall k :: OffsetTableEnd(scd) <= k < FirstStreamOffset(scd) ==> out[k] == scd.data[k])
  {
    WrittenImage(scd, payloads, wavFiles, layout);
    ImageBlocks(scd, payloads, wavFiles, layout);
    var out := Written(scd, payloads, wavFiles, layout).value;
    var table2 := scd.tablesHeader.table2Offset;
    var first := FirstStreamOffset(scd);
    forall k | HeadersEnd(layout) <= k < table2
      ensures out[k] == scd.data[k]
    {
      assert out[HeadersEnd(layout)..table2][k - HeadersEnd(layout)] == out[k];
    }
    forall k | OffsetTableEnd(scd) <= k < first
      ensures out[k] == scd.data[k]
    {
      assert out[OffsetTableEnd(scd)..first][k - OffsetTableEnd(scd)] == out[k];
    }
  }

  /** A slice of a slice is a slice of the original. */
  lemma SliceOfSlice(s: seq<byte>, lo: nat, hi: nat, a: nat, b: nat)
    requires lo <= hi <= |s| && a <= b <= hi - lo
    ensures s[lo..hi][a..b] == s[lo + a..lo + b]
  {
    assert |s[lo..hi][a..b]| == |s[lo + a..lo + b]|;
    forall k | 0 <= k < b - a
      ensures s[lo..hi][a..b][k] == s[lo + a..lo + b][k]
    {
    }
  }

  /** The offset table of the image lies at table 2's offset. */
  lemma ImageTable(scd: Scd, payloads: seq<seq<byte>>, wavFiles: seq<WaveFile>, layout: Layout)
    requires FixedWidth(layout)
    requires |payloads| == |scd.streamsData| == |wavFiles|
    requires RegionsInRange(scd, layout)
    ensures var out := Image(scd, payloads, wavFiles, layout);
      && OffsetTableEnd(scd) <= |out|
      && out[scd.tablesHeader.table2Offset..OffsetTableEnd(scd)]
         == OffsetTable(FirstStreamOffset(scd), RecordSizes(scd.streamsData, payloads), |payloads|)
  {
    ImageBlocks(scd, payloads, wavFiles, layout);
  }

  /** The offset table of a written container lies at table 2's offset. */
  lemma WrittenTable(scd: Scd, payloads: seq<seq<byte>>, wavFiles: seq<WaveFile>, layout: Layout)
    requires FixedWidth(layout)
    requires |payloads| == |scd.streamsData| == |wavFiles|
    requires Written(scd, payloads, wavFiles, layout).Ok?
    ensures |payloads| > 0
    ensures var out := Written(scd, payloads, wavFiles, layout).value;
      && scd.tablesHeader.table2Offset <= OffsetTableEnd(scd) <= |out|
      && out[scd.tablesHeader.table2Offset..OffsetTableEnd(scd)]
         == OffsetTable(FirstStreamOffset(scd), RecordSizes(scd.streamsData, payloads), |payloads|)
  {
    WrittenImage(scd, payloads, wavFiles, layout);
    ImageTable(scd, payloads, wavFiles, layout);
  }

  /** The stream records of a written container run from the first stream's
      offset to its end. */
  lemma WrittenTail(scd: Scd, payloads: seq<seq<byte>>, wavFiles: seq<WaveFile>, layout: Layout)
    requires FixedWidth(layout)
    requires |payloads| == |scd.streamsData| == |wavFiles|
    requires Written(scd, payloads, wavFiles, layout).Ok?
    ensures |payloads| > 0
    ensures var out := Written(scd, payloads, wavFiles, layout).value;
      && |out| == RecordStart(scd, payloads, |payloads|)
      && out[FirstStreamOffset(scd)..] == Concat(StreamRecords(layout, scd.streamsData, wavFiles, payloads))
  {
    WrittenImage(scd, payloads, wavFiles, layout);
    ImageTail(scd, payloads, wavFiles, layout);
  }

  /** The stream records of the image start at the first stream's offset and
      run to its end. */
  lemma ImageTail(scd: Scd, payloads: seq<seq<byte>>, wavFiles: seq<WaveFile>, layout: Layout)
    requires FixedWidth(layout)
    requires |payloads| == |scd.streamsData| == |wavFiles|
    requires RegionsInRange(scd, layout)
    ensures var out := Image(scd, payloads, wavFiles, layout);
      && |out| == RecordStart(scd, payloads, |payloads|)
      && out[FirstStreamOffset(scd)..] == Concat(StreamRecords(layout, scd.streamsData, wavFiles, payloads))
  {
    ImageBlocks(scd, payloads, wavFiles, layout);
  }

  /** Entry i of an offset table placed at table 2's offset decodes to
      `OffsetEntry` i. */
  lemma TableEntryAt(out: seq<byte>, scd: Scd, sizes: seq<nat>, i: nat)
    requires |sizes| == |scd.streamsData| > 0 && i < |sizes|
    requires scd.tablesHeader.table2Offset <= OffsetTableEnd(scd) <= |out|
    requires out[scd.tablesHeader.table2Offset..OffsetTableEnd(scd)]
             == OffsetTable(FirstStreamOffset(scd), sizes, |sizes|)
    ensures scd.tablesHeader.table2Offset + 4 * i + 4 <= |out|
    ensures TableEntry(out, scd, i) == OffsetEntry(FirstStreamOffset(scd), sizes, i)
  {
    var table2 := scd.tablesHeader.table2Offset;
    OffsetTableAt(FirstStreamOffset(scd), sizes, |sizes|, i);
    SliceOfSlice(out, table2, OffsetTableEnd(scd), 4 * i, 4 * i + 4);
    LE32RoundTrip(OffsetEntry(FirstStreamOffset(scd), sizes, i));
  }

  /** Block i of a concatenation placed at `start` lies after the blocks
      before it. */
  lemma BlockAt(out: seq<byte>, start: nat, parts: seq<seq<byte>>, i: nat)
    requires start <= |out| && out[start..] == Concat(parts) && i < |parts|
    ensures var p := start + SumTo(Lengths(parts), i);
      p + |parts[i]| <= |out| && out[p..p + |parts[i]|] == parts[i]
  {
    ConcatAt(parts, i);
    var q := SumTo(Lengths(parts), i);
    SliceOfSlice(out, start, |out|, q, q + |parts[i]|);
  }

  /** Entry i of the written table decodes to `OffsetEntry` i. */
  lemma EntryValue(scd: Scd, payloads: seq<seq<byte>>, wavFiles: seq<WaveFile>, layout: Layout, i: nat)
    requires FixedWidth(layout)
    requires |payloads| == |scd.streamsData| == |wavFiles|
    requires Written(scd, payloads, wavFiles, layout).Ok?
    requires i < |payloads|
    ensures var out := Written(scd, payloads, wavFiles, layout).value;
      && scd.tablesHeader.table2Offset + 4 * i + 4 <= |out|
      && TableEntry(out, scd, i) == OffsetEntry(FirstStreamOffset(scd), RecordSizes(scd.streamsData, payloads), i)
  {
    WrittenTable(scd, payloads, wavFiles, layout);
    TableEntryAt(Written(scd, payloads, wavFiles, layout).value, scd, RecordSizes(scd.streamsData, payloads), i);
  }

  /** Entry i + 1 of the offset table in `out` is entry i plus the size of
      record i (32-byte header, extra data, payload), modulo 2^32. */
  predicate NextEntry(out: seq<byte>, scd: Scd, payloads: seq<seq<byte>>, i: nat)
  {
    && i < |payloads| && i < |scd.streamsData|
    && scd.tablesHeader.table2Offset + 4 * (i + 1) + 4 <= |out|
    && TableEntry(out, scd, i + 1)
       == (TableEntry(out, scd, i) + StreamHeaderSize + |scd.streamsData[i].extraData| + |payloads[i]|) % TwoTo32
  }

  /** The offset table has one 4-byte little-endian entry per stream: entry 0
      is the template's first stream offset, and entry i + 1 is entry i plus
      the size of record i (32-byte header, extra data, payload), modulo 2^32. */
  lemma OffsetTableEntries(scd: Scd, payloads: seq<seq<byte>>, wavFiles: seq<WaveFile>, layout: Layout)
    requires FixedWidth(layout)
    requires |payloads| == |scd.streamsData| == |wavFiles|
    requires Written(scd, payloads, wavFiles, layout).Ok?
    ensures var out := Written(scd, payloads, wavFiles, layout).value;
      && |payloads| > 0
      && OffsetTableEnd(scd) <= |out|
      && TableEntry(out, scd, 0) == scd.streamsData[0].offset % TwoTo32
      && forall i :: 0 <= i < |payloads| - 1 ==> NextEntry(out, scd, payloads, i)
  {
    WrittenTable(scd, payloads, wavFiles, layout);
    TableSteps(Written(scd, payloads, wavFiles, layout).value, scd, payloads);
  }

  /** `OffsetTableEntries`, for any buffer holding the offset table at
      table 2's offset. */
  lemma TableSteps(out: seq<byte>, scd: Scd, payloads: seq<seq<byte>>)
    requires |payloads| == |scd.streamsData| > 0
    requires scd.tablesHeader.table2Offset <= OffsetTableEnd(scd) <= |out|
    requires out[scd.tablesHeader.table2Offset..OffsetTableEnd(scd)]
             == OffsetTable(FirstStreamOffset(scd), RecordSizes(scd.streamsData, payloads), |payloads|)
    ensures TableEntry(out, scd, 0) == scd.streamsData[0].offset % TwoTo32
    ensures forall i :: 0 <= i < |payloads| - 1 ==> NextEntry(out, scd, payloads, i)
  {
    var sizes := RecordSizes(scd.streamsData, payloads);
    TableEntryAt(out, scd, sizes, 0);
    FirstEntry(FirstStreamOffset(scd), sizes);
    forall i | 0 <= i < |payloads| - 1
      ensures NextEntry(out, scd, payloads, i)
    {
      NextEntryHolds(out, scd, payloads, sizes, i);
    }
  }

  /** One step of `TableSteps`, for record sizes given entry by entry. */
  lemma NextEntryHolds(out: seq<byte>, scd: Scd, payloads: seq<seq<byte>>, sizes: seq<nat>, i: nat)
    requires |payloads| == |scd.streamsData| == |sizes| && i + 1 < |payloads|
    requires sizes[i] == |payloads[i]| + StreamHeaderSize + |scd.streamsData[i].extraData|
    requires scd.tablesHeader.table2Offset <= OffsetTableEnd(scd) <= |out|
    requires out[scd.tablesHeader.table2Offset..OffsetTableEnd(scd)]
             == OffsetTable(FirstStreamOffset(scd), sizes, |sizes|)
    ensures NextEntry(out, scd, payloads, i)
  {
    EntryStep(out, scd, sizes, i);
    StepMod(TableEntry(out, scd, i), sizes[i], |scd.streamsData[i].extraData|, |payloads[i]|);
  }

  /** Regrouping the record size inside the 32-bit sum. */
  lemma StepMod(e: int, s: int, x: int, y: int)
    requires s == y + StreamHeaderSize + x
    ensures (e + s) % TwoTo32 == (e + StreamHeaderSize + x + y) % TwoTo32
  {
    assert e + s == e + StreamHeaderSize + x + y;
  }

  /** Entry 0 of the table is the first stream's offset. */
  lemma FirstEntry(first: nat, sizes: seq<nat>)
    requires first < TwoTo32
    ensures OffsetEntry(first, sizes, 0) == first
  {
  }

  /** Consecutive entries of an offset table placed at table 2's offset
      differ by the size of the record between them, modulo 2^32. */
  lemma EntryStep(out: seq<byte>, scd: Scd, sizes: seq<nat>, i: nat)
    requires |sizes| == |scd.streamsData| > 0 && i + 1 < |sizes|
    requires scd.tablesHeader.table2Offset <= OffsetTableEnd(scd) <= |out|
    requires out[scd.tablesHeader.table2Offset..OffsetTableEnd(scd)]
             == OffsetTable(FirstStreamOffset(scd), sizes, |sizes|)
    ensures scd.tablesHeader.table2Offset + 4 * (i + 1) + 4 <= |out|
    ensures TableEntry(out, scd, i + 1) == (TableEntry(out, scd, i) + sizes[i]) % TwoTo32
  {
    TableEntryAt(out, scd, sizes, i);
    TableEntryAt(out, scd, sizes, i + 1);
    OffsetStep(FirstStreamOffset(scd), sizes, i);
  }

  /** Record i sits at `RecordStart` i: first its rebuilt 32-byte header, then
      the template's extra data, then its payload. Offset-table entry i is
      that position modulo 2^32, and is the position itself whenever the
      container is no larger than 4 GiB. */
  lemma RecordAt(scd: Scd, payloads: seq<seq<byte>>, wavFiles: seq<WaveFile>, layout: Layout, i: nat)
    requires FixedWidth(layout)
    requires |payloads| == |scd.streamsData| == |wavFiles|
    requires Written(scd, payloads, wavFiles, layout).Ok?
    requires i < |payloads|
    ensures var out := Written(scd, payloads, wavFiles, layout).value;
      var p := RecordStart(scd, payloads, i);
      var extra := scd.streamsData[i].extraData;
      && p + StreamHeaderSize + |extra| + |payloads[i]| == RecordStart(scd, payloads, i + 1)
      && RecordLaid(out, p, layout.writeStreamHeader(RebuiltStreamHeader(scd.streamsData[i].header, wavFiles[i], payloads[i])),
                    extra, payloads[i])
      && EntryPointsAt(out, scd, i, p)
  {
    WrittenTable(scd, payloads, wavFiles, layout);
    WrittenTail(scd, payloads, wavFiles, layout);
    BufferRecordAt(Written(scd, payloads, wavFiles, layout).value, scd, payloads, wavFiles, layout, i);
  }

  /** `out` holds, from position `p` on, the header bytes `h`, then `extra`,
      then `payload`. */
  predicate RecordLaid(out: seq<byte>, p: nat, h: seq<byte>, extra: seq<byte>, payload: seq<byte>)
  {
    && p + |h| + |extra| + |payload| <= |out|
    && out[p..p + |h|] == h
    && out[p + |h|..p + |h| + |extra|] == extra
    && out[p + |h| + |extra|..p + |h| + |extra| + |payload|] == payload
  }

  /** Entry i of the offset table in `out` is position `p` in 32-bit
      arithmetic, and `p` itself when `out` is no larger than 4 GiB. */
  predicate EntryPointsAt(out: seq<byte>, scd: Scd, i: nat, p: nat)
  {
    && scd.tablesHeader.table2Offset + 4 * i + 4 <= |out|
    && TableEntry(out, scd, i) == p % TwoTo32
    && (|out| <= TwoTo32 ==> TableEntry(out, scd, i) == p)
  }

  /** `RecordAt`, for a buffer holding the offset table at table 2's offset
      and the stream records from the first stream's offset to its end. */
  lemma BufferRecordAt(out: seq<byte>, scd: Scd, payloads: seq<seq<byte>>, wavFiles: seq<WaveFile>, layout: Layout, i: nat)
    requires FixedWidth(layout)
    requires |payloads| == |scd.streamsData| == |wavFiles|
    requires i < |payloads|
    requires scd.tablesHeader.table2Offset <= OffsetTableEnd(scd) <= |out|
    requires out[scd.tablesHeader.table2Offset..OffsetTableEnd(scd)]
             == OffsetTable(FirstStreamOffset(scd), RecordSizes(scd.streamsData, payloads), |payloads|)
    requires |out| == RecordStart(scd, payloads, |payloads|)
    requires out[FirstStreamOffset(scd)..] == Concat(StreamRecords(layout, scd.streamsData, wavFiles, payloads))
    ensures var p := RecordStart(scd, payloads, i);
      var extra := scd.streamsData[i].extraData;
      && p + StreamHeaderSize + |extra| + |payloads[i]| == RecordStart(scd, payloads, i + 1)
      && RecordLaid(out, p, layout.writeStreamHeader(RebuiltStreamHeader(scd.streamsData[i].header, wavFiles[i], payloads[i])),
                    extra, payloads[i])
      && EntryPointsAt(out, scd, i, p)
  {
    var p := RecordStart(scd, payloads, i);
    var h := layout.writeStreamHeader(RebuiltStreamHeader(scd.streamsData[i].header, wavFiles[i], payloads[i]));
    var extra := scd.streamsData[i].extraData;
    RecordBlock(out, scd, payloads, wavFiles, layout, i);
    TableEntryAt(out, scd, RecordSizes(scd.streamsData, payloads), i);
    EntryIsStart(scd, payloads, i);
    if |out| <= TwoTo32 {
      SmallMod(p);
    }
  }

  /** Record i, as a whole, sits at `RecordStart` i. */
  lemma RecordBlock(out: seq<byte>, scd: Scd, payloads: seq<seq<byte>>, wavFiles: seq<WaveFile>, layout: Layout, i: nat)
    requires FixedWidth(layout)
    requires |payloads| == |scd.streamsData| == |wavFiles|
    requires i < |payloads|
    requires FirstStreamOffset(scd) <= |out|
    requires out[FirstStreamOffset(scd)..] == Concat(StreamRecords(layout, scd.streamsData, wavFiles, payloads))
    ensures RecordLaid(out, RecordStart(scd, payloads, i),
                       layout.writeStreamHeader(RebuiltStreamHeader(scd.streamsData[i].header, wavFiles[i], payloads[i])),
                       scd.streamsData[i].extraData, payloads[i])
  {
    var records := StreamRecords(layout, scd.streamsData, wavFiles, payloads);
    RecordLengths(layout, scd.streamsData, wavFiles, payloads);
    BlockAt(out, FirstStreamOffset(scd), records, i);
    var h := layout.writeStreamHeader(RebuiltStreamHeader(scd.streamsData[i].header, wavFiles[i], payloads[i]));
    RecordParts(out, RecordStart(scd, payloads, i), h, scd.streamsData[i].extraData, payloads[i]);
  }

  /** Offset entry i is where record i starts, in 32-bit arithmetic. */
  lemma EntryIsStart(scd: Scd, payloads: seq<seq<byte>>, i: nat)
    requires |payloads| == |scd.streamsData| > 0 && i <= |payloads|
    ensures OffsetEntry(FirstStreamOffset(scd), RecordSizes(scd.streamsData, payloads), i)
         == RecordStart(scd, payloads, i) % TwoTo32
  {
  }

  /** A position below 2^32 is its own 32-bit value. */
  lemma SmallMod(p: nat)
    requires p < TwoTo32
    ensures p % TwoTo32 == p
  {
  }

  /** A record written as header, extra data and payload at position `p`
      can be cut back into those three parts. */
  lemma RecordParts(out: seq<byte>, p: nat, h: seq<byte>, extra: seq<byte>, payload: seq<byte>)
    requires p + |h + extra + payload| <= |out|
    requires out[p..p + |h + extra + payload|] == h + extra + payload
    ensures RecordLaid(out, p, h, extra, payload)
  {
    var r := h + extra + payload;
    assert r[..|h|] == h && r[|h|..|h| + |extra|] == extra && r[|h| + |extra|..] == payload;
    SliceOfSlice(out, p, p + |r|, 0, |h|);
    SliceOfSlice(out, p, p + |r|, |h|, |h| + |extra|);
    SliceOfSlice(out, p, p + |r|, |h| + |extra|, |r|);
  }

  /** The first record starts exactly at the template's first stream offset,
      and the container ends with the last record. */
  lemma ContainerLength(scd: Scd, payloads: seq<seq<byte>>, wavFiles: seq<WaveFile>, layout: Layout)
    requires FixedWidth(layout)
    requires |payloads| == |scd.streamsData| == |wavFiles|
    requires Written(scd, payloads, wavFiles, layout).Ok?
    ensures var out := Written(scd, payloads, wavFiles, layout).value;
      var last := |payloads| - 1;
      && |payloads| > 0
      && RecordStart(scd, payloads, 0) == FirstStreamOffset(scd)
      && TableEntry(out, scd, last) == RecordStart(scd, payloads, last) % TwoTo32
      && |out| == RecordStart(scd, payloads, last)
                 + StreamHeaderSize + |scd.streamsData[last].extraData| + |payloads[last]|
  {
    WrittenTail(scd, payloads, wavFiles, layout);
    RecordAt(scd, payloads, wavFiles, layout, |payloads| - 1);
  }

  /** The failures of the writing step, each exactly when its condition holds. */
  lemma WrittenErrors(scd: Scd, payloads: seq<seq<byte>>, wavFiles: seq<WaveFile>, layout: Layout)
    requires |payloads| == |scd.streamsData| == |wavFiles|
    ensures var r := Written(scd, payloads, wavFiles, layout);
      && (r == Err(PayloadSizeOverflow) <==> PayloadTotal(payloads) > IntMax)
      && (r.Ok? <==> PayloadTotal(payloads) <= IntMax && RegionsInRange(scd, layout))
      && (r.Err? ==> r.error in [PayloadSizeOverflow, TableRegionOutOfRange, NoStreams, StreamRegionOutOfRange])
  {
  }

  /** A mapping value outside the waveform list is the first failure. */
  lemma MappingOutOfRange(scd: Scd, wavFiles: seq<WaveFile>, mapping: Option<seq<MapEntry>>, layout: Layout)
    requires mapping.Some? ==> DistinctKeys(mapping.value)
    ensures Repacked(scd, wavFiles, mapping, layout) == Err(MappingIndexOutOfRange) <==> !MappingInRange(wavFiles, mapping)
  {
    if MappingInRange(wavFiles, mapping) {
      var ordered := OrderedSlots(wavFiles, mapping);
      if |ordered| == |wavFiles| && |scd.streamsData| == |wavFiles| {
        WrittenErrors(scd, Payloads(ordered), wavFiles, layout);
      }
    }
  }

  /** "Some stream names haven't been found": the mapping holds a number of
      entries other than the number of files. Without a mapping this never
      happens. */
  lemma StreamNamesNotFoundIff(scd: Scd, wavFiles: seq<WaveFile>, mapping: Option<seq<MapEntry>>, layout: Layout)
    requires mapping.Some? ==> DistinctKeys(mapping.value)
    ensures Repacked(scd, wavFiles, mapping, layout) == Err(StreamNamesNotFound)
        <==> MappingInRange(wavFiles, mapping) && mapping.Some? && |mapping.value| != |wavFiles|
  {
    if MappingInRange(wavFiles, mapping) {
      var ordered := OrderedSlots(wavFiles, mapping);
      if |ordered| == |wavFiles| && |scd.streamsData| == |wavFiles| {
        WrittenErrors(scd, Payloads(ordered), wavFiles, layout);
      }
    }
  }

  /** The template's stream count is checked against the number of files,
      once the slots are complete. */
  lemma StreamCountMismatchIff(scd: Scd, wavFiles: seq<WaveFile>, mapping: Option<seq<MapEntry>>, layout: Layout)
    requires mapping.Some? ==> DistinctKeys(mapping.value)
    ensures Repacked(scd, wavFiles, mapping, layout) == Err(StreamCountMismatch)
        <==> && MappingInRange(wavFiles, mapping)
             && (mapping.Some? ==> |mapping.value| == |wavFiles|)
             && |scd.streamsData| != |wavFiles|
  {
    if MappingInRange(wavFiles, mapping) {
      var ordered := OrderedSlots(wavFiles, mapping);
      if |ordered| == |wavFiles| && |scd.streamsData| == |wavFiles| {
        WrittenErrors(scd, Payloads(ordered), wavFiles, layout);
      }
    }
  }

  /** Stream j's record carries the aligned samples of the file in slot j
      (by `IdentitySlots`, `wavFiles[j]` when there is no mapping), under a
      header whose channel count and sample rate come from `wavFiles[j]`. */
  lemma SlotPayload(scd: Scd, wavFiles: seq<WaveFile>, mapping: Option<seq<MapEntry>>, layout: Layout, j: nat)
    requires FixedWidth(layout)
    requires mapping.Some? ==> DistinctKeys(mapping.value)
    requires Repacked(scd, wavFiles, mapping, layout).Ok?
    requires j < |wavFiles|
    ensures MappingInRange(wavFiles, mapping)
    ensures var ordered := OrderedSlots(wavFiles, mapping);
      var payloads := Payloads(ordered);
      var out := Repacked(scd, wavFiles, mapping, layout).value;
      var p := RecordStart(scd, payloads, j);
      && |ordered| == |scd.streamsData| == |wavFiles|
      && RecordLaid(out, p, layout.writeStreamHeader(RebuiltStreamHeader(scd.streamsData[j].header, wavFiles[j], payloads[j])),
                    scd.streamsData[j].extraData, Align(ordered[j].file.samples))
  {
    RepackedWritten(scd, wavFiles, mapping, layout);
    var payloads := Payloads(OrderedSlots(wavFiles, mapping));
    RecordAt(scd, payloads, wavFiles, layout, j);
  }

  /** The usual mapping, whose keys are exactly the stream indices 0..n-1:
      the record of stream k = mapping key carries the aligned samples of
      `wavFiles[mapping[k]]`, under a header whose channel count and sample
      rate still come from `wavFiles[k]`. */
  lemma MappedRecord(scd: Scd, wavFiles: seq<WaveFile>, entries: seq<MapEntry>, layout: Layout, e: nat)
    requires FixedWidth(layout)
    requires DistinctKeys(entries)
    requires forall i :: 0 <= i < |entries| ==> 0 <= entries[i].key < |entries|
    requires Repacked(scd, wavFiles, Some(entries), layout).Ok?
    requires e < |entries|
    ensures var k := entries[e].key;
      var payloads := Payloads(OrderedSlots(wavFiles, Some(entries)));
      && MappingInRange(wavFiles, Some(entries))
      && |payloads| == |scd.streamsData| == |wavFiles| == |entries|
      && 0 <= entries[e].source < |wavFiles|
      && RecordLaid(Repacked(scd, wavFiles, Some(entries), layout).value,
                    RecordStart(scd, payloads, k),
                    layout.writeStreamHeader(RebuiltStreamHeader(scd.streamsData[k].header, wavFiles[k], payloads[k])),
                    scd.streamsData[k].extraData,
                    Align(wavFiles[entries[e].source].samples))
  {
    RepackedWritten(scd, wavFiles, Some(entries), layout);
    MappedSlotAt(wavFiles, entries, e);
    SlotPayload(scd, wavFiles, Some(entries), layout, entries[e].key);
  }

  /** A successful repack is the write of the aligned payloads of the
      ordered slots, with as many slots as files and template streams. */
  lemma RepackedWritten(scd: Scd, wavFiles: seq<WaveFile>, mapping: Option<seq<MapEntry>>, layout: Layout)
    requires mapping.Some? ==> DistinctKeys(mapping.value)
    requires Repacked(scd, wavFiles, mapping, layout).Ok?
    ensures MappingInRange(wavFiles, mapping)
    ensures var ordered := OrderedSlots(wavFiles, mapping);
      && |ordered| == |scd.streamsData| == |wavFiles|
      && Repacked(scd, wavFiles, mapping, layout) == Written(scd, Payloads(ordered), wavFiles, layout)
  {
  }

  /** Every payload is a multiple of 16 bytes, so each step of the offset
      table beyond the fixed header and extra data is a multiple of 16; when
      the first offset and every extra data length are multiples of 16, so is
      every record's start. */
  lemma RecordStartsAligned(scd: Scd, ordered: seq<Slot>, i: nat)
    requires |ordered| == |scd.streamsData| > 0 && i <= |ordered|
    requires FirstStreamOffset(scd) % PayloadAlignment == 0
    requires forall k :: 0 <= k < |scd.streamsData| ==> |scd.streamsData[k].extraData| % PayloadAlignment == 0
    ensures RecordStart(scd, Payloads(ordered), i) % PayloadAlignment == 0
  {
    var sizes := RecordSizes(scd.streamsData, Payloads(ordered));
    forall k | 0 <= k < |sizes|
      ensures sizes[k] % PayloadAlignment == 0
    {
      var a := |Payloads(ordered)[k]|;
      var e := |scd.streamsData[k].extraData|;
      assert a % PayloadAlignment == 0;
      assert sizes[k] == PayloadAlignment * (a / PayloadAlignment + 2 + e / PayloadAlignment);
    }
    AlignedSum(FirstStreamOffset(scd), sizes, i);
  }

  /** Adding multiples of 16 to a multiple of 16 gives a multiple of 16. */
  lemma {:induction false} AlignedSum(first: nat, sizes: seq<nat>, i: nat)
    requires i <= |sizes| && first % PayloadAlignment == 0
    requires forall k :: 0 <= k < |sizes| ==> sizes[k] % PayloadAlignment == 0
    ensures (first + SumTo(sizes, i)) % PayloadAlignment == 0
  {
    if i > 0 {
      AlignedSum(first, sizes, i - 1);
      var x := first + SumTo(sizes, i - 1);
      assert x == PayloadAlignment * (x / PayloadAlignment);
      assert sizes[i - 1] == PayloadAlignment * (sizes[i - 1] / PayloadAlignment);
      assert x + sizes[i - 1] == PayloadAlignment * (x / PayloadAlignment + sizes[i - 1] / PayloadAlignment);
    }
  }
}
