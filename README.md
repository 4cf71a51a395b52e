# SCD repacker model

A Dafny model of `CreateSCD`, the part of the SCD encoder in
KHPCToolkit that rebuilds an SCD sound container around new audio. Given a
parsed template container, a list of replacement waveform files and an
optional slot mapping, it:

1. orders the files into stream slots in a key-sorted list, using the
   mapping when there is one and the identity order when there is not;
2. rejects the repack when the number of slots or the template's stream
   count differs from the number of files;
3. aligns each payload to 16 bytes;
4. writes the new container into a memory stream:
   - the template's global header, with `TotalFileSize` replaced by the
     payload total;
   - the template's tables header;
   - the template's bytes up to table 2;
   - a fresh stream-offset table of 32-bit little-endian offsets;
   - the template's bytes up to its first stream;
   - one record per stream: a rebuilt 32-byte stream header, the
     template's extra data, then the payload.

Files:

- `bytes.dfy` (module `Bytes`): bytes, 32-bit little-endian words and the
  concatenation of written blocks.
- `alignment.dfy` (module `Alignment`): zero padding to 16 bytes.
- `scd_format.dfy` (module `ScdFormat`): the container's records, the
  waveform input, the header serialisers (`Layout`) and the error kinds.
- `slot_order.dfy` (module `SlotOrder`): the sorted slot list.
- `scd_writer.dfy` (module `ScdWriter`): the writer methods, each proved
  equal to a specification function. `Written` is the output of the writing
  steps and `Repacked` is the whole operation.
- `scd_layout.dfy` (module `ScdLayout`): the properties of the container
  those functions describe. They cover where each block lands, what the
  offset table holds, which bytes are copied verbatim, and when each
  error occurs.
- `scd_scenario.dfy` (module `ScdScenario`): a worked three-stream example.

The writer buffer is a `seq<byte>` that grows by appending. Its length
plays the part of `writer.Position`. A thrown exception is an `Err` of a
`Result`, and an error leaves no output.

## Model

| member | source | states |
|---|---|---|
| Bytes.LE32RoundTrip | KHPCToolkit/SCDEncoder/Program.cs:307 | Reading back the four bytes written for a `uint` gives the same value. |
| Bytes.FromLE32RoundTrip | KHPCToolkit/SCDEncoder/Program.cs:307 | Every 4-byte group is the encoding of the value it decodes to. |
| Bytes.ConcatAt | KHPCToolkit/SCDEncoder/Program.cs:339-344 | In a run of appended blocks, block i sits right after the blocks before it. |
| Alignment.Align | KHPCToolkit/SCDEncoder/Program.cs:256 | The aligned payload is a multiple of 16 bytes long. It starts with the original bytes and adds fewer than 16 bytes, all zero. |
| Alignment.AlignMinimal | KHPCToolkit/SCDEncoder/Program.cs:256 | No smaller multiple of 16 holds the payload. |
| Alignment.AlignIdempotent | KHPCToolkit/SCDEncoder/Program.cs:256 | Aligning an aligned payload changes nothing. |
| SlotOrder.Insert | KHPCToolkit/SCDEncoder/Program.cs:227 | `SortedList.Add` keeps the list sorted by key and adds exactly the new slot. |
| SlotOrder.InsertAfterAll | KHPCToolkit/SCDEncoder/Program.cs:232-235 | Adding a key larger than all present keys appends the slot at the end. |
| SlotOrder.SortedList | KHPCToolkit/SCDEncoder/Program.cs:221-229 | The list after all additions is sorted by key and holds exactly the added slots. |
| SlotOrder.SortedListUnique | KHPCToolkit/SCDEncoder/Program.cs:221 | Two key-sorted lists with the same slots are equal. |
| SlotOrder.OrderedSlots | KHPCToolkit/SCDEncoder/Program.cs:221-236 | The slot list is sorted by key and holds exactly the slots the mapping, or the identity, defines. |
| SlotOrder.MappedSlots | KHPCToolkit/SCDEncoder/Program.cs:223-228 | With a mapping there is one slot per entry, and each slot with key k holds `wavFiles[mapping[k]]`. |
| SlotOrder.OrderIndependent | KHPCToolkit/SCDEncoder/Program.cs:225-228 | The slot order does not depend on the order in which the dictionary enumerates its keys. |
| SlotOrder.IdentitySlots | KHPCToolkit/SCDEncoder/Program.cs:230-236 | Without a mapping, slot i holds `wavFiles[i]`, in input order. |
| SlotOrder.KeysAreIndices | KHPCToolkit/SCDEncoder/Program.cs:221-228 | A key-sorted list of n slots whose keys all lie in 0..n-1 has key j at position j. |
| SlotOrder.MappedSlotAt | KHPCToolkit/SCDEncoder/Program.cs:223-228 | When the mapping's keys are exactly 0..n-1, position k of the sorted list is the slot with key k holding `wavFiles[mapping[k]]`. |
| SlotOrder.AddEntry | KHPCToolkit/SCDEncoder/Program.cs:225-228 | Adding mapping entry i to the list built from the earlier entries gives the list built from entries up to i. |
| SlotOrder.OrderWavFiles | KHPCToolkit/SCDEncoder/Program.cs:221-236 | The fill loop fails exactly when a mapping value is not an index into the file list. Otherwise it yields `OrderedSlots`. |
| ScdWriter.RebuiltHeader | KHPCToolkit/SCDEncoder/Program.cs:264-274 | The new global header equals the template's in every field but `TotalFileSize`, which is the sum of the payload lengths. |
| ScdWriter.RebuiltTablesHeader | KHPCToolkit/SCDEncoder/Program.cs:279-291 | The new tables header equals the template's, field for field. |
| ScdWriter.RebuiltStreamHeader | KHPCToolkit/SCDEncoder/Program.cs:327-337 | Aux chunk count, codec, extra data size and loop points come from the template stream. Channel count and sample rate come from the waveform file. Stream size is the payload length. |
| ScdWriter.OffsetStep | KHPCToolkit/SCDEncoder/Program.cs:311 | Adding record i's size to entry i in `uint` arithmetic gives entry i + 1. |
| ScdWriter.WriteOffsetTable | KHPCToolkit/SCDEncoder/Program.cs:300-312 | The loop appends the offset table and returns `streamsOffsets`, whose entry i is the first offset plus the sizes of the earlier records, modulo 2^32. |
| ScdWriter.WriteStreamRecords | KHPCToolkit/SCDEncoder/Program.cs:319-347 | The loop appends all stream records, in stream order. |
| ScdWriter.WriteScd | KHPCToolkit/SCDEncoder/Program.cs:261-347 | The buffer writer computes `Written`, including each failure at the point the source meets it. |
| ScdWriter.CreateScd | KHPCToolkit/SCDEncoder/Program.cs:217-354 | The whole operation computes `Repacked`. |
| ScdLayout.OffsetTableAt | KHPCToolkit/SCDEncoder/Program.cs:304-312 | Bytes 4i to 4i+4 of the table encode entry i. |
| ScdLayout.RecordLengths | KHPCToolkit/SCDEncoder/Program.cs:319-344 | With fixed-width serialisers, record i is exactly `RecordSizes[i]` bytes long. |
| ScdLayout.ImageBlocks | KHPCToolkit/SCDEncoder/Program.cs:261-344 | The container is six blocks, each at a fixed position: both headers, the region up to table 2, the offset table, the region up to the first stream, and the records. Its length is the end of the last record. |
| ScdLayout.HeadersWritten | KHPCToolkit/SCDEncoder/Program.cs:264-293 | A written container opens with the serialised rebuilt header and the template's tables header. The header differs from the template's only in `TotalFileSize`, which is the payload total and at most int.MaxValue. |
| ScdLayout.OpaqueRegionsPreserved | KHPCToolkit/SCDEncoder/Program.cs:295-316 | Between the headers and table 2, and between the offset table and the first stream, every output byte equals the template byte at the same position. |
| ScdLayout.EntryValue | KHPCToolkit/SCDEncoder/Program.cs:300-312 | Table entry i of the output decodes to `OffsetEntry` i. |
| ScdLayout.OffsetTableEntries | KHPCToolkit/SCDEncoder/Program.cs:300-312 | The output holds one 4-byte entry per stream at table 2. Entry 0 is the first stream's offset as a `uint`. Entry i+1 is entry i + 32 + extra data length + payload length, modulo 2^32. |
| ScdLayout.EntryStep | KHPCToolkit/SCDEncoder/Program.cs:311 | Consecutive decoded entries differ by the size of the record between them, modulo 2^32. |
| ScdLayout.RecordAt | KHPCToolkit/SCDEncoder/Program.cs:300-344 | Record i starts at `RecordStart` i and holds the rebuilt header, the extra data and the payload. Offset entry i is that position modulo 2^32, and exactly that position when the output is at most 4 GiB. |
| ScdLayout.ContainerLength | KHPCToolkit/SCDEncoder/Program.cs:300-344 | The first record starts at the first stream offset. The output length is the start of the last record plus that record's length, and the last table entry is that start modulo 2^32. |
| ScdLayout.WrittenErrors | KHPCToolkit/SCDEncoder/Program.cs:273-316 | Writing fails with PayloadSizeOverflow exactly when the payload total exceeds int.MaxValue. It succeeds exactly when the total fits and the copied regions lie inside the template in order. |
| ScdLayout.MappingOutOfRange | KHPCToolkit/SCDEncoder/Program.cs:227 | The repack fails on its first check exactly when a mapping value is not a valid file index. |
| ScdLayout.StreamNamesNotFoundIff | KHPCToolkit/SCDEncoder/Program.cs:238-241 | "Some stream names haven't been found" occurs exactly when a valid mapping has a different number of entries than there are files. It never occurs without a mapping. |
| ScdLayout.StreamCountMismatchIff | KHPCToolkit/SCDEncoder/Program.cs:243-249 | The stream-count error occurs exactly when the slots are complete but the template's stream count differs from the number of files. |
| ScdLayout.SlotPayload | KHPCToolkit/SCDEncoder/Program.cs:319-344 | In a successful repack, stream j's record holds the aligned samples of the file in slot j. Its header takes channel count and sample rate from `wavFiles[j]`. |
| ScdLayout.MappedRecord | KHPCToolkit/SCDEncoder/Program.cs:223-344 | With a mapping whose keys are exactly 0..n-1, the record of stream k carries the aligned samples of `wavFiles[mapping[k]]`, while its header takes channel count and sample rate from `wavFiles[k]`. |
| ScdLayout.RepackedWritten | KHPCToolkit/SCDEncoder/Program.cs:238-259 | A successful repack has as many slots as files and template streams. Its output is the write of the aligned slot payloads. |
| ScdLayout.RecordStartsAligned | KHPCToolkit/SCDEncoder/Program.cs:253-311 | When the first offset and every extra data length are multiples of 16, every record starts on a 16-byte boundary. |
| ScdLayout.AlignedSum | KHPCToolkit/SCDEncoder/Program.cs:311 | Adding sizes that are multiples of 16 to an aligned offset keeps it aligned. |
| ScdScenario.ScenarioPayloads | KHPCToolkit/SCDEncoder/Program.cs:230-259 | Without a mapping, files of 48, 16 and 96 sample bytes become exactly those payloads, in file order. |
| ScdScenario.ScenarioOffsets | KHPCToolkit/SCDEncoder/Program.cs:300-312 | Repacking those files into a three-stream template with extra data lengths 0, 0, 8 and first stream at 0x100 succeeds, and the written offset table reads 0x100, 0x150 and 0x180. |
| ScdScenario.ScenarioTwoFiles | KHPCToolkit/SCDEncoder/Program.cs:243-249 | Two files against a three-stream template, with no mapping, fail with the stream-count error. |

## Left out

- Reading the template container (the `SCD` class), writing the output file, and the re-parse at line 352 are I/O. The template arrives parsed as a `Scd` value and the output is the returned byte sequence. The re-parse result is discarded by the source.
- `BinaryMapping.WriteObject` is not part of this model. The three serialisers are function parameters (`Layout`). They are assumed to write a fixed number of bytes each, 32 for a stream header (`FixedWidth`). Their byte format is not modelled.
- `Helpers.StripWavHeader`, `Helpers.Align` and NAudio's `WaveFileReader` are not part of this model. A waveform file is its stripped sample bytes plus a channel count and sample rate. `Align` is modelled as zero padding up to the next multiple of 16.
- The `Dictionary<int, int>` mapping is a sequence of entries in enumeration order with distinct keys. `OrderIndependent` shows the order does not matter.
- `Main`, `ConvertFile`, the command line, the external encoders and the console output are outside the repacker.
- Because no reader is modelled, re-reading a written container is not proved to give back its header, tables and streams.
- .NET array-length limits and the `int` casts of `SubArray` arguments are not modelled. Byte sequences are unbounded, and a copied region is in range exactly when its bounds lie inside the template. The `uint` offset arithmetic is modelled modulo 2^32.
- `Written`: assumes that `SubArray` (an extension method that is not part of this model) throws when its length is negative or its range runs past the template's bytes. That is why `TableRegionOutOfRange` and `StreamRegionOutOfRange` exist (Program.cs:296, 315). A `SubArray` that returned a short array instead would let the writer carry on at shifted positions, which the model does not capture.
- `Bytes.LE32`: assumes a little-endian host. `BitConverter.GetBytes(uint)` (Program.cs:307) writes in the host's byte order, and big-endian hosts are not modelled.
- The model follows the code as written, including where it is incomplete:
  - `TotalFileSize` is the sum of the payload lengths only, as the TODO at Program.cs:272 admits.
  - A mapping is checked only by its count, with "Some stream names haven't been found" (Program.cs:238). Its keys may be any integers.
  - A mapping value outside the file list is an error (`MappingIndexOutOfRange`), where the list indexer at Program.cs:227 throws.
  - Channel count and sample rate come from the unmapped `wavFiles[i]` (Program.cs:322).
