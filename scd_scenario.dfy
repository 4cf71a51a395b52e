/** A worked repack: a three-stream template whose last stream carries 8
    bytes of extra data, substituted with files of 48, 16 and 96 sample
    bytes, written with serialisers of fixed width. */
module ScdScenario {
  import opened Bytes
  import opened Alignment
  import opened ScdFormat
  import opened SlotOrder
  import opened ScdWriter
  import opened ScdLayout

  function Streams(h: StreamHeader): seq<StreamData>
  {
    [StreamData(0x100, h, []), StreamData(0x140, h, []), StreamData(0x200, h, Zeros(8))]
  }

  /** A template whose table 2 follows the two headers directly and whose
      first stream starts at 0x100. */
  function Template(h: StreamHeader, header: ScdHeader, tables: TablesHeader): Scd
  {
    Scd(header, tables.(table2Offset := 0x30), Zeros(0x200), Streams(h))
  }

  /** Serialisers that write 16, 32 and 32 zero bytes. */
  function ZeroLayout(): (layout: Layout)
    ensures FixedWidth(layout)
  {
    Layout(_ => Zeros(0x10), _ => Zeros(0x20), _ => Zeros(StreamHeaderSize), 0x10, 0x20)
  }

  function Files(channels: nat, rate: nat): seq<WaveFile>
  {
    [WaveFile(Zeros(48), channels, rate), WaveFile(Zeros(16), channels, rate), WaveFile(Zeros(96), channels, rate)]
  }

  /** Without a mapping the slots keep the file order, and the sample
      lengths are already multiples of 16, so the payloads are the samples. */
  lemma ScenarioPayloads(channels: nat, rate: nat)
    ensures var wavFiles := Files(channels, rate);
      && MappingInRange(wavFiles, None)
      && |OrderedSlots(wavFiles, None)| == 3
      && Payloads(OrderedSlots(wavFiles, None)) == [Zeros(48), Zeros(16), Zeros(96)]
  {
    var wavFiles := Files(channels, rate);
    IdentitySlots(wavFiles);
    var ordered := OrderedSlots(wavFiles, None);
    var payloads := Payloads(ordered);
    forall j | 0 <= j < 3
      ensures payloads[j] == wavFiles[j].samples
    {
      assert ordered[j].file == wavFiles[j];
      assert PaddingFor(|wavFiles[j].samples|) == 0;
      assert Zeros(0) == [];
    }
  }

  /** Repacking the three files without a mapping succeeds, and the offset
      table of the written container reads 0x100, 0x150 and 0x180: each
      step is 32 + extra data + payload. */
  lemma ScenarioOffsets(h: StreamHeader, header: ScdHeader, tables: TablesHeader, channels: nat, rate: nat)
    ensures var scd := Template(h, header, tables);
      var r := Repacked(scd, Files(channels, rate), None, ZeroLayout());
      && r.Ok?
      && OffsetTableEnd(scd) <= |r.value|
      && TableEntry(r.value, scd, 0) == 0x100
      && TableEntry(r.value, scd, 1) == 0x150
      && TableEntry(r.value, scd, 2) == 0x180
  {
    var scd := Template(h, header, tables);
    var wavFiles := Files(channels, rate);
    var layout := ZeroLayout();
    var payloads := [Zeros(48), Zeros(16), Zeros(96)];
    ScenarioPayloads(channels, rate);
    assert Lengths(payloads) == [48, 16, 96];
    assert PayloadTotal(payloads) == 160;
    assert RegionsInRange(scd, layout);
    assert Repacked(scd, wavFiles, None, layout) == Written(scd, payloads, wavFiles, layout);
    var out := Written(scd, payloads, wavFiles, layout).value;
    OffsetTableEntries(scd, payloads, wavFiles, layout);
    assert TableEntry(out, scd, 0) == 0x100;
    assert NextEntry(out, scd, payloads, 0);
    SmallMod(0x150);
    assert TableEntry(out, scd, 1) == 0x150;
    assert NextEntry(out, scd, payloads, 1);
    SmallMod(0x180);
  }

  /** Two files against the three-stream template, without a mapping, are
      rejected for the stream count. */
  lemma ScenarioTwoFiles(h: StreamHeader, header: ScdHeader, tables: TablesHeader, data: seq<byte>,
                         a: WaveFile, b: WaveFile, layout: Layout)
    ensures Repacked(Scd(header, tables, data, Streams(h)), [a, b], None, layout) == Err(StreamCountMismatch)
  {
    assert |OrderedSlots([a, b], None)| == 2;
  }
}
