/** The parsed SCD container the repacker works from, the waveform files it
    substitutes, and the serialisers it writes headers with.

    Header fields are unbounded naturals: their widths live in the serialiser
    (BinaryMapping.WriteObject), which this model treats as a given function
    of fixed output width (see `Layout`). */
module ScdFormat {
  import opened Bytes

  /** The global SCD header (SCD.SCDHeader). */
  datatype ScdHeader = ScdHeader(
    fileVersion: nat,
    bigEndianFlag: nat,
    magicCode: nat,
    sscfVersion: nat,
    padding: nat,
    headerSize: nat,
    totalFileSize: nat)

  /** The table-offsets header (SCD.SCDTableHeader). */
  datatype TablesHeader = TablesHeader(
    table0ElementCount: nat,
    table1ElementCount: nat,
    table2ElementCount: nat,
    table3ElementCount: nat,
    table1Offset: nat,
    table2Offset: nat,
    table3Offset: nat,
    table4Offset: nat,
    unk14: nat,
    padding: nat)

  /** The per-stream header (SCD.StreamHeader). */
  datatype StreamHeader = StreamHeader(
    auxChunkCount: nat,
    channelCount: nat,
    codec: nat,
    extraDataSize: nat,
    loopStart: nat,
    loopEnd: nat,
    sampleRate: nat,
    streamSize: nat)

  /** One stream of the template: where its header sits, the header, and the
      extra data that follows it. */
  datatype StreamData = StreamData(offset: nat, header: StreamHeader, extraData: seq<byte>)

  /** A parsed template container: both headers, its whole byte content, and
      its streams in table order. */
  datatype Scd = Scd(
    header: ScdHeader,
    tablesHeader: TablesHeader,
    data: seq<byte>,
    streamsData: seq<StreamData>)

  /** A replacement waveform file: the sample bytes left after its WAV header
      is stripped, and the channel count and sample rate its format declares. */
  datatype WaveFile = WaveFile(samples: seq<byte>, channels: nat, sampleRate: nat)

  /** Width in bytes of a serialised stream header. */
  const StreamHeaderSize: nat := 32

  /** The serialisers for the three header records, with the widths of the
      global header and of the tables header. */
  datatype Layout = Layout(
    writeHeader: ScdHeader -> seq<byte>,
    writeTablesHeader: TablesHeader -> seq<byte>,
    writeStreamHeader: StreamHeader -> seq<byte>,
    headerSize: nat,
    tablesHeaderSize: nat)

  /** Every serialiser writes a fixed number of bytes, and a stream header
      takes exactly `StreamHeaderSize` of them. */
  ghost predicate FixedWidth(layout: Layout)
  {
    && (forall h :: |layout.writeHeader(h)| == layout.headerSize)
    && (forall t :: |layout.writeTablesHeader(t)| == layout.tablesHeaderSize)
    && (forall s :: |layout.writeStreamHeader(s)| == StreamHeaderSize)
  }

  /** The ways a repack aborts; none leaves any output behind. */
  datatype RepackError =
    | MappingIndexOutOfRange   // a mapping value is not an index into the waveform list
    | StreamNamesNotFound      // the ordered slots and the waveform list differ in size
    | StreamCountMismatch      // the template has a different number of streams
    | PayloadSizeOverflow      // the payload lengths add up past int.MaxValue
    | TableRegionOutOfRange    // the bytes up to table 2 cannot be copied from the template
    | NoStreams                // there is no first stream to take the first offset from
    | StreamRegionOutOfRange   // the bytes up to the first stream cannot be copied

  datatype Result<T> = Ok(value: T) | Err(error: RepackError)
}
