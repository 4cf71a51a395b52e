/** The SCD repacker (CreateSCD): orders the replacement files into slots,
    checks the counts, then writes a new container from the template's
    headers and opaque byte regions, a recomputed stream-offset table, and
    one record (header, extra data, payload) per stream.

    Each method builds the output the way the source fills its MemoryStream,
    appending block after block, and is proved equal to a specification
    function (`Written`, `Repacked`); the layout properties are proved about
    those functions in module ScdLayout. */
module ScdWriter {
  import opened Bytes
  import opened Alignment
  import opened ScdFormat
  import opened SlotOrder

  /** int.MaxValue: the checked LINQ Sum over the payload lengths throws above it. */
  const IntMax: nat := 0x7FFF_FFFF

  /** Sum of the payload lengths. */
  function PayloadTotal(payloads: seq<seq<byte>>): nat
  {
    SumTo(Lengths(payloads), |payloads|)
  }

  /** The new global header: the template's, with TotalFileSize replaced by
      the sum of the payload lengths. */
  function RebuiltHeader(h: ScdHeader, payloads: seq<seq<byte>>): (r: ScdHeader)
    ensures r.totalFileSize == PayloadTotal(payloads)
    ensures r.(totalFileSize := h.totalFileSize) == h
  {
    ScdHeader(
      fileVersion := h.fileVersion,
      bigEndianFlag := h.bigEndianFlag,
      magicCode := h.magicCode,
      sscfVersion := h.sscfVersion,
      padding := h.padding,
      headerSize := h.headerSize,
      totalFileSize := PayloadTotal(payloads))
  }

  /** The new tables header: every field copied from the template. */
  function RebuiltTablesHeader(t: TablesHeader): (r: TablesHeader)
    ensures r == t
  {
    TablesHeader(
      table0ElementCount := t.table0ElementCount,
      table1ElementCount := t.table1ElementCount,
      table2ElementCount := t.table2ElementCount,
      table3ElementCount := t.table3ElementCount,
      table1Offset := t.table1Offset,
      table2Offset := t.table2Offset,
      table3Offset := t.table3Offset,
      table4Offset := t.table4Offset,
      unk14 := t.unk14,
      padding := t.padding)
  }

  /** The new header of a stream: aux chunk count, codec, extra data size and
      loop points from the template stream; channel count and sample rate
      from the waveform file; stream size from the new payload. */
  function RebuiltStreamHeader(template: StreamHeader, wave: WaveFile, payload: seq<byte>): (r: StreamHeader)
    ensures r.(channelCount := template.channelCount, sampleRate := template.sampleRate,
               streamSize := template.streamSize) == template
    ensures r.channelCount == wave.channels && r.sampleRate == wave.sampleRate
    ensures r.streamSize == |payload|
  {
    StreamHeader(
      auxChunkCount := template.auxChunkCount,
      channelCount := wave.channels,
      codec := template.codec,
      extraDataSize := template.extraDataSize,
      loopStart := template.loopStart,
      loopEnd := template.loopEnd,
      sampleRate := wave.sampleRate,
      streamSize := |payload|)
  }

  /** Bytes each stream record takes: its 32-byte header, the template's extra
      data and the new payload. */
  function RecordSizes(streams: seq<StreamData>, payloads: seq<seq<byte>>): (sizes: seq<nat>)
    requires |streams| == |payloads|
    ensures |sizes| == |streams|
    ensures forall i :: 0 <= i < |sizes| ==> sizes[i] == |payloads[i]| + StreamHeaderSize + |streams[i].extraData|
  {
    seq(|streams|, i requires 0 <= i < |streams| => |payloads[i]| + StreamHeaderSize + |streams[i].extraData|)
  }

  /** Entry i of the stream-offset table: the first stream's offset plus the
      sizes of the records before stream i, in 32-bit unsigned arithmetic. */
  function OffsetEntry(first: nat, sizes: seq<nat>, i: nat): (e: nat)
    requires i <= |sizes|
    ensures e < TwoTo32
  {
    (first + SumTo(sizes, i)) % TwoTo32
  }

  /** The bytes of the first `n` entries of the offset table, each a
      little-endian `uint`. */
  function OffsetTable(first: nat, sizes: seq<nat>, n: nat): (table: seq<byte>)
    requires n <= |sizes|
    ensures |table| == 4 * n
  {
    if n == 0 then [] else OffsetTable(first, sizes, n - 1) + LE32(OffsetEntry(first, sizes, n - 1))
  }

  /** The record of stream i: new header, template extra data, new payload. */
  function StreamRecord(layout: Layout, stream: StreamData, wave: WaveFile, payload: seq<byte>): seq<byte>
  {
    layout.writeStreamHeader(RebuiltStreamHeader(stream.header, wave, payload)) + stream.extraData + payload
  }

  function StreamRecords(layout: Layout, streams: seq<StreamData>, wavFiles: seq<WaveFile>, payloads: seq<seq<byte>>): (records: seq<seq<byte>>)
    requires |streams| == |wavFiles| == |payloads|
    ensures |records| == |streams|
    ensures forall i :: 0 <= i < |records| ==> records[i] == StreamRecord(layout, streams[i], wavFiles[i], payloads[i])
  {
    seq(|streams|, i requires 0 <= i < |streams| => StreamRecord(layout, streams[i], wavFiles[i], payloads[i]))
  }

  /** Where the bytes copied after the two headers start. */
  function HeadersEnd(layout: Layout): nat
  {
    layout.headerSize + layout.tablesHeaderSize
  }

  /** `(uint)StreamsData[0].Offset`: where the first stream record is written. */
  function FirstStreamOffset(scd: Scd): nat
    requires |scd.streamsData| > 0
  {
    scd.streamsData[0].offset % TwoTo32
  }

  /** Where the offset table ends: one 4-byte entry per stream after table 2's offset. */
  function OffsetTableEnd(scd: Scd): nat
  {
    scd.tablesHeader.table2Offset + 4 * |scd.streamsData|
  }

  /** The template regions the writer copies lie inside the template's bytes,
      in order: the headers, table 2, the offset table, the first stream. */
  predicate RegionsInRange(scd: Scd, layout: Layout)
  {
    && HeadersEnd(layout) <= scd.tablesHeader.table2Offset <= |scd.data|
    && |scd.streamsData| > 0
    && OffsetTableEnd(scd) <= FirstStreamOffset(scd) <= |scd.data|
  }

  /** The bytes of the new container: both rebuilt headers, the template's
      bytes up to table 2, the new offset table, the template's bytes up to
      the first stream, then one record per stream. */
  function Image(scd: Scd, payloads: seq<seq<byte>>, wavFiles: seq<WaveFile>, layout: Layout): seq<byte>
    requires |payloads| == |scd.streamsData| == |wavFiles|
    requires RegionsInRange(scd, layout)
  {
    var sizes := RecordSizes(scd.streamsData, payloads);
    layout.writeHeader(RebuiltHeader(scd.header, payloads))
      + layout.writeTablesHeader(RebuiltTablesHeader(scd.tablesHeader))
      + scd.data[HeadersEnd(layout)..scd.tablesHeader.table2Offset]
      + OffsetTable(FirstStreamOffset(scd), sizes, |sizes|)
      + scd.data[OffsetTableEnd(scd)..FirstStreamOffset(scd)]
      + Concat(StreamRecords(layout, scd.streamsData, wavFiles, payloads))
  }

  /** The output of the writing part of CreateSCD, from the template and the
      ordered payloads; `wavFiles` supplies channel count and sample rate per
      stream. Errors follow the order the source meets them in. */
  function Written(scd: Scd, payloads: seq<seq<byte>>, wavFiles: seq<WaveFile>, layout: Layout): Result<seq<byte>>
    requires |payloads| == |scd.streamsData| == |wavFiles|
  {
    if PayloadTotal(payloads) > IntMax then Err(PayloadSizeOverflow)
    else if !(HeadersEnd(layout) <= scd.tablesHeader.table2Offset <= |scd.data|) then Err(TableRegionOutOfRange)
    else if |scd.streamsData| == 0 then Err(NoStreams)
    else if !(OffsetTableEnd(scd) <= FirstStreamOffset(scd) <= |scd.data|) then Err(StreamRegionOutOfRange)
    else Ok(Image(scd, payloads, wavFiles, layout))
  }

  /** The payloads of the ordered slots: each file's samples aligned to 16 bytes. */
  function Payloads(ordered: seq<Slot>): (payloads: seq<seq<byte>>)
    ensures |payloads| == |ordered|
    ensures forall j :: 0 <= j < |ordered| ==> payloads[j] == Align(ordered[j].file.samples)
  {
    seq(|ordered|, j requires 0 <= j < |ordered| => Align(ordered[j].file.samples))
  }

  /** The whole of CreateSCD: the repacked container, or the error it throws. */
  function Repacked(scd: Scd, wavFiles: seq<WaveFile>, mapping: Option<seq<MapEntry>>, layout: Layout): Result<seq<byte>>
    requires mapping.Some? ==> DistinctKeys(mapping.value)
  {
    if !MappingInRange(wavFiles, mapping) then Err(MappingIndexOutOfRange)
    else
      var ordered := OrderedSlots(wavFiles, mapping);
      if |ordered| != |wavFiles| then Err(StreamNamesNotFound)
      else if |scd.streamsData| != |wavFiles| then Err(StreamCountMismatch)
      else Written(scd, Payloads(ordered), wavFiles, layout)
  }

  /** The running `uint` offset: adding record i's size to entry i, modulo
      2^32, gives entry i + 1. */
  lemma OffsetStep(first: nat, sizes: seq<nat>, i: nat)
    requires i < |sizes|
    ensures (OffsetEntry(first, sizes, i) + sizes[i]) % TwoTo32 == OffsetEntry(first, sizes, i + 1)
  {
    var a := first + SumTo(sizes, i);
    assert a == TwoTo32 * (a / TwoTo32) + a % TwoTo32;
    ModAddMultiple(a % TwoTo32 + sizes[i], a / TwoTo32);
  }

  lemma ModAddMultiple(x: nat, k: nat)
    ensures (x + TwoTo32 * k) % TwoTo32 == x % TwoTo32
  {
    if k > 0 {
      ModAddMultiple(x, k - 1);
      assert x + TwoTo32 * k == (x + TwoTo32 * (k - 1)) + TwoTo32;
    }
  }

  /** Writes the container into a growing buffer, as CreateSCD writes its
      MemoryStream; `|out|` plays the part of `writer.Position`. */
  method WriteScd(scd: Scd, payloads: seq<seq<byte>>, wavFiles: seq<WaveFile>, layout: Layout) returns (r: Result<seq<byte>>)
    requires FixedWidth(layout)
    requires |payloads| == |scd.streamsData| == |wavFiles|
    ensures r == Written(scd, payloads, wavFiles, layout)
  {
    if PayloadTotal(payloads) > IntMax {
      return Err(PayloadSizeOverflow);
    }
    var out := layout.writeHeader(RebuiltHeader(scd.header, payloads));
    out := out + layout.writeTablesHeader(RebuiltTablesHeader(scd.tablesHeader));
    assert |out| == HeadersEnd(layout);

    // The template's bytes from here up to table 2's offset.
    var table2 := scd.tablesHeader.table2Offset;
    if !(|out| <= table2 <= |scd.data|) {
      return Err(TableRegionOutOfRange);
    }
    out := out + scd.data[|out|..table2];

    if |scd.streamsData| == 0 {
      return Err(NoStreams);
    }
    ghost var sizes := RecordSizes(scd.streamsData, payloads);
    ghost var first := FirstStreamOffset(scd);
    ghost var headed := out;
    var streamsOffsets;
    out, streamsOffsets := WriteOffsetTable(out, scd, payloads);
    assert |out| == OffsetTableEnd(scd);
    assert streamsOffsets[0] == first by {
      ModOfMod(scd.streamsData[0].offset);
    }

    // The template's bytes from the end of the offset table to the first stream.
    if !(|out| <= streamsOffsets[0] <= |scd.data|) {
      return Err(StreamRegionOutOfRange);
    }
    out := out + scd.data[|out|..streamsOffsets[0]];
    ghost var tabled := out;

    out := WriteStreamRecords(out, scd, payloads, wavFiles, layout);
    assert RegionsInRange(scd, layout);
    assert tabled == headed + OffsetTable(first, sizes, |sizes|) + scd.data[OffsetTableEnd(scd)..first];
    return Ok(out);
  }

  lemma ModOfMod(x: nat)
    ensures x % TwoTo32 % TwoTo32 == x % TwoTo32
  {
  }

  /** Appends one little-endian `uint` per stream: the running offset, which
      starts at the first stream's offset and grows by each record's size.
      Also returns the offsets written (`streamsOffsets`). */
  method WriteOffsetTable(out: seq<byte>, scd: Scd, payloads: seq<seq<byte>>) returns (out': seq<byte>, streamsOffsets: seq<nat>)
    requires |payloads| == |scd.streamsData| > 0
    ensures var sizes := RecordSizes(scd.streamsData, payloads);
      && |streamsOffsets| == |payloads|
      && (forall i :: 0 <= i < |payloads| ==> streamsOffsets[i] == OffsetEntry(FirstStreamOffset(scd), sizes, i))
      && out' == out + OffsetTable(FirstStreamOffset(scd), sizes, |payloads|)
  {
    out' := out;
    var streamOffset := scd.streamsData[0].offset % TwoTo32;
    streamsOffsets := [];
    ghost var sizes := RecordSizes(scd.streamsData, payloads);
    ghost var first := FirstStreamOffset(scd);
    for i := 0 to |payloads|
      invariant |streamsOffsets| == i
      invariant forall k :: 0 <= k < i ==> streamsOffsets[k] == OffsetEntry(first, sizes, k)
      invariant streamOffset == OffsetEntry(first, sizes, i)
      invariant out' == out + OffsetTable(first, sizes, i)
    {
      OffsetStep(first, sizes, i);
      out' := out' + LE32(streamOffset);
      streamsOffsets := streamsOffsets + [streamOffset];
      streamOffset := (streamOffset + (|payloads[i]| + (StreamHeaderSize + |scd.streamsData[i].extraData|))) % TwoTo32;
    }
  }

  /** Appends, per stream, the rebuilt header, the template's extra data and
      the new payload. */
  method WriteStreamRecords(out: seq<byte>, scd: Scd, payloads: seq<seq<byte>>, wavFiles: seq<WaveFile>, layout: Layout) returns (out': seq<byte>)
    requires |payloads| == |scd.streamsData| == |wavFiles|
    ensures out' == out + Concat(StreamRecords(layout, scd.streamsData, wavFiles, payloads))
  {
    out' := out;
    ghost var records := StreamRecords(layout, scd.streamsData, wavFiles, payloads);
    for i := 0 to |scd.streamsData|
      invariant out' == out + Concat(records[..i])
    {
      var streamData := scd.streamsData[i];
      var newStreamHeader := RebuiltStreamHeader(streamData.header, wavFiles[i], payloads[i]);
      ConcatSnoc(records[..i], records[i]);
      assert records[..i + 1] == records[..i] + [records[i]];
      out' := out' + layout.writeStreamHeader(newStreamHeader);
      out' := out' + streamData.extraData;
      out' := out' + payloads[i];
    }
    assert records[..|scd.streamsData|] == records;
  }

  /** CreateSCD: order the files into slots, check both counts, align the
      payloads, then write the container. */
  method CreateScd(scd: Scd, wavFiles: seq<WaveFile>, mapping: Option<seq<MapEntry>>, layout: Layout) returns (r: Result<seq<byte>>)
    requires FixedWidth(layout)
    requires mapping.Some? ==> DistinctKeys(mapping.value)
    ensures r == Repacked(scd, wavFiles, mapping, layout)
  {
    var ordered := OrderWavFiles(wavFiles, mapping);
    if ordered.Err? {
      return Err(ordered.error);
    }
    var orderedWavFiles := ordered.value;
    if |orderedWavFiles| != |wavFiles| {
      return Err(StreamNamesNotFound);
    }
    if |scd.streamsData| != |wavFiles| {
      return Err(StreamCountMismatch);
    }
    var wavesContent: seq<seq<byte>> := [];
    for j := 0 to |orderedWavFiles|
      invariant wavesContent == Payloads(orderedWavFiles[..j])
    {
      wavesContent := wavesContent + [Align(orderedWavFiles[j].file.samples)];
    }
    assert orderedWavFiles[..|orderedWavFiles|] == orderedWavFiles;
    r := WriteScd(scd, wavesContent, wavFiles, layout);
  }
}
