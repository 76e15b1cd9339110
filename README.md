# pcat chunk engine and helpers, in Dafny

pcat concatenates input files into one output file. It cuts the output into
chunks and copies each chunk through memory mappings. This project models the
parts of pcat that decide which bytes go where, and proves that the legacy
engine puts every input byte in its place:

- `mappingOffset_t` (`MappingOffsets`). A byte offset is kept as a
  page-aligned part plus an adjustment. `+=` re-aligns it, and values compare
  by logical offset alone.
- The sizes everything is built from (`Chunking`): the page size, the 1 MiB
  transfer block (`transferBlockSize`, TBS in the table below) and `blockLength`.
- The two sub-block cursors `chunkState_t` (`ChunkStates`, `BlockLinear`,
  `SpanChunkStates`). Each walks one output range across input-file
  boundaries, one sub-block at a time. `end()` is the fixed point of `++`.
- The top-level iterators `chunking_t` / `fileChunker_t`, which cut the
  output into pieces: the per-block form (`LegacyChunker`) and the span form
  (`SpanChunker`). The span arithmetic of `chunkedCopy` is in `SpanPlans`.
- The chunk copy `copyChunk` (`CopyChunks`), in both its while-loop and its
  do-while form. It runs over the bounds-checked mapping `mmap_t`
  (`MemoryMaps`).
- The legacy `chunkedCopy` (`LegacyCopy`), which hands every chunk of the
  legacy iterator to `copyChunk`. The main theorems: when `ChunkedCopy`
  returns 0, the output bytes are the input files laid end to end
  (`InputFiles`); and however the thread pool orders the chunk copies, once
  each has run the output is the same (`AnyOrderCopyIsStream`).
- The argument lexer `tokenizer_t` (`ArgsTokenizer`) and the recursive-descent
  parser `parseArguments` (`ArgsParser`), which builds an `argsTree_t`
  (`ArgsTypes`).
- `indexIterator_t` / `indexSequence_t` (`IndexSequences`), and the processor
  selection of `affinity_t` on POSIX and on Windows (`Affinity`).

The form follows the source:
- Objects whose methods update their fields are classes. Each class's state
  is snapshotted as a datatype, and every method is proved equal to a
  specification function on that snapshot. The properties the source promises
  are then proved about those functions.
- Loops are `while` loops with invariants.
- Value types are datatypes.
- Input files are a sequence of lengths for the chunk engine, and a sequence
  of byte sequences for the copy. The output file is a byte array.
- Whatever the operating system answers is a parameter: a mapping's address,
  each `madvise()` and `msync()` outcome, the errno value, the allowed CPU set
  and the processor group masks.

Four places where the code, as written, departs from what it evidently
intends are listed under "## Findings". Each is modelled twice: as written,
with a lemma exhibiting the problem, and corrected, with the intended
property proved. The rest of the model uses the corrected form.

## Model

| member | source | states |
|---|---|---|
| MappingOffsets.PageRem | src/mappingOffset.hxx:15-19 | `offset % pageSize` on a signed `off_t`: for a non-negative offset it is the offset's distance past the last page boundary, in [0, 4096); for a negative one it lies in (-4096, 0] |
| MappingOffsets.RemLeavesBoundary | src/mappingOffset.hxx:17-18 | `recalcAdjustment` leaves the aligned part on a page boundary for any offset |
| MappingOffsets.Recalc | src/mappingOffset.hxx:15-19 | re-aligning keeps the offset the value stands for and its length, puts the aligned part on a page boundary with an adjustment below a page, and takes the adjustment as the truncating remainder |
| MappingOffsets.MappingOffset.Plus | src/mappingOffset.hxx:34-39 | `+= amount` moves `offset()` on by exactly `amount`, leaves `length()` alone and re-aligns the value |
| MappingOffsets.PlusComposes | src/mappingOffset.hxx:34-39 | `+= n` followed by `+= m` gives the same value as `+= n + m` |
| MappingOffsets.AlignedPartBounds | src/mappingOffset.hxx:26-29 | for a non-negative offset, `adjustedOffset()` lies between 0 and `offset()` and `adjustment()` is below a page |
| MappingOffsets.FromRangeSplitsAtPage | src/mappingOffset.hxx:23-30 | constructing from a non-negative offset o gives `adjustment() == o % pageSize`, `adjustedOffset() == o - o % pageSize` and `adjustedLength() == length + o % pageSize` |
| MappingOffsets.ZeroIsDefault | src/mappingOffset.hxx:22 | the default value is normal and has offset, length, adjustment, adjusted offset and adjusted length all 0 |
| MappingOffsets.FromRangeAtStart | src/mappingOffset.hxx:22-25 | a range starting at offset 0 is the default value with its length set |
| MappingOffsets.NormalIsCanonical | src/mappingOffset.hxx:15-19 | two aligned values with the same `offset()` have the same aligned part and adjustment, and are identical when their lengths agree |
| MappingOffsets.WithLengthKeepsOffset | src/mappingOffset.hxx:31-32 | `length(n)` changes only the length, keeps alignment, and `==` (through the conversion to `off_t`) ignores the length |
| Chunking.PageSizeFor | src/chunking.hxx:17-21 | the page size is positive and a multiple of 4 KiB on both platforms |
| Chunking.PageSizeIsPosix | src/chunking.hxx:18 | the page size used throughout the model is the POSIX one, 4 KiB |
| Chunking.TransferBlockIsWholePages | src/chunking.hxx:17-22 | `transferBlockSize` is 1 MiB and a whole, non-zero number of pages on both platforms |
| Chunking.BlockLength | src/chunking.hxx:27-28 | `blockLength(n)` never exceeds `transferBlockSize` or `n`, and is one of them |
| ChunkStates.PassBlock | src/algorithm/blockLinear/chunkState.hxx:19-26 | moving past the sub-block stays within the file list, rolling over to the next file (or `end()`) exactly when the file is used up |
| ChunkStates.UnreadCompletesStream | src/algorithm/blockLinear/chunkState.hxx:12-15 | the input position of a state and the input bytes left after it add up to the total input length |
| ChunkStates.RollKeepsPosition | src/algorithm/blockLinear/chunkState.hxx:23-25 | rolling over to the next file keeps the position in the input stream |
| ChunkStates.DefaultAtEnd | src/algorithm/blockLinear/chunkState.hxx:31 | the default state is at its end, equal to itself, with both offsets 0 |
| BlockLinear.Next | src/algorithm/blockLinear/chunkState.hxx:57-65 | `++` changes nothing at the end; otherwise the output offset advances by the consumed input length, the end of the output range is kept, and the new input length is min(remainder, current file length) |
| BlockLinear.SoundCanRoll | src/algorithm/blockLinear/chunkState.hxx:22 | from a sound state, `++` never trips the assertion that a file is left to roll past |
| BlockLinear.NextPreservesSound | src/algorithm/blockLinear/chunkState.hxx:57-65 | `++` keeps the state sound (input left covers output left), moves the input position by exactly the consumed length, and shortens the output or moves to the next file |
| BlockLinear.EndOf | src/algorithm/blockLinear/chunkState.hxx:46-52 | `end()` is an at-end fixed point of `++` whose output offset is the old offset plus length, and whose input position moved by the output length |
| BlockLinear.EndOfAtEnd | src/algorithm/blockLinear/chunkState.hxx:49 | a state already at its end is its own `end()` |
| BlockLinear.EndOfNext | src/algorithm/blockLinear/chunkState.hxx:49-50 | every state on the way to the end has the same `end()` |
| BlockLinear.ChunkCursor.constructor | src/algorithm/blockLinear/chunkState.hxx:32-35 | the field-wise and copy constructors take the given state |
| BlockLinear.ChunkCursor.NextInputBlock | src/algorithm/blockLinear/chunkState.hxx:17-28 | the fields are updated in place to the state `AdvanceInput` gives |
| BlockLinear.ChunkCursor.Increment | src/algorithm/blockLinear/chunkState.hxx:57-65 | the fields are updated in place to `Next` of the old state |
| BlockLinear.ChunkCursor.End | src/algorithm/blockLinear/chunkState.hxx:46-52 | the loop on a copy returns exactly `EndOf` of the state, terminating because input covers output |
| SpanChunkStates.Next | src/algorithm/chunkSpans/chunking.cxx:61-70 | corrected `++`: a state at its end is left unchanged |
| SpanChunkStates.NextRolls | src/algorithm/chunkSpans/chunking.cxx:22-69 | at the end of a file, corrected `++` moves the output on by the sub-block and goes to offset 0 of the next file (length 0 past the last) with a sub-block of min(TBS, output left, that file's length) |
| SpanChunkStates.NextStays | src/algorithm/chunkSpans/chunking.cxx:61-69 | inside a file, corrected `++` moves past the sub-block in the same file and takes min(TBS, output left, file left) |
| SpanChunkStates.MovedOutputKeepsEnd | src/algorithm/chunkSpans/chunking.cxx:65-67 | the output offset moves forward by the consumed input length and the output length shrinks by the same amount |
| SpanChunkStates.SoundCanRoll | src/algorithm/chunkSpans/chunking.cxx:27 | from a sound state, `++` never trips the assertion that a file is left to roll past |
| SpanChunkStates.AsWrittenOvershoots | src/algorithm/chunkSpans/chunking.cxx:69 | `++` as written, from a sound state whose sub-block stops short of the file's end by less than a block and the output left, picks a sub-block that runs past the end of the file |
| SpanChunkStates.OvershootExample | src/algorithm/chunkSpans/chunking.cxx:69 | two files of 1.5 TBS copied as one 3 TBS span: as written the second sub-block ends at 2 TBS, past the first file's end; corrected it ends at the file's end |
| SpanChunkStates.NextStepped | src/algorithm/chunkSpans/chunking.cxx:61-69 | corrected `++` lays the state out field by field as the source's steps describe, with the new sub-block capped by TBS, output left and file left |
| SpanChunkStates.RollStepped | src/algorithm/chunkSpans/chunking.cxx:25-31 | the same at the end of a file |
| SpanChunkStates.StayStepped | src/algorithm/chunkSpans/chunking.cxx:24 | the same inside a file |
| SpanChunkStates.StepSound | src/algorithm/chunkSpans/chunking.cxx:61-69 | any state so laid out is sound, has moved through the input exactly as far as the output, and has less output left or a later file |
| SpanChunkStates.NextPreservesSound | src/algorithm/chunkSpans/chunking.cxx:61-69 | corrected `++` keeps the state sound and the output's end fixed, and moves the input position by exactly the consumed length |
| SpanChunkStates.EndOf | src/algorithm/chunkSpans/chunking.cxx:50-56 | `end()` is an at-end fixed point of `++` that fills exactly the output range the state started with, consuming as much input |
| SpanChunkStates.EndOfNext | src/algorithm/chunkSpans/chunking.cxx:53-54 | every state on the way to the end has the same `end()`, and each step makes progress |
| SpanChunkStates.ChunkCursor.constructor | src/algorithm/chunkSpans/chunking.cxx:36-39 | the field-wise and copy constructors take the given state |
| SpanChunkStates.ChunkCursor.NextInputBlock | src/algorithm/chunkSpans/chunking.cxx:22-32 | the fields are updated in place to `PassBlock` of the old state |
| SpanChunkStates.ChunkCursor.Increment | src/algorithm/chunkSpans/chunking.cxx:61-70 | the fields are updated in place to corrected `Next` of the old state |
| SpanChunkStates.ChunkCursor.End | src/algorithm/chunkSpans/chunking.cxx:50-56 | the loop on a copy returns exactly `EndOf` of the state |
| SpanChunkStates.AlignedChunkFills | test/algorithm/chunkSpans/chunkState.cxx:42-68 | one input of one TBS in a one-TBS chunk: the state is sound, one `++` moves past the last file to output offset TBS with nothing left, and that state is its own `end()` |
| SpanChunkStates.UnalignedOffsetsConstructed | test/algorithm/chunkSpans/chunkState.cxx:70-111 | the states of the unaligned-chunk test, written as offset, adjustment and length, are the ones the offset constructors build |
| SpanChunkStates.UnalignedFirstStep | test/algorithm/chunkSpans/chunkState.cxx:70-97 | inputs of 1 KiB, 3 KiB and TBS, one chunk of TBS: the first `++` moves to the whole 3 KiB second input at output offset 1 KiB |
| SpanChunkStates.UnalignedSecondStep | test/algorithm/chunkSpans/chunkState.cxx:70-101 | the second `++` moves to the start of the third input, with TBS - 4096 bytes at output offset 4096 |
| SpanChunkStates.UnalignedLastStep | test/algorithm/chunkSpans/chunkState.cxx:70-111 | the third `++` stays in the third input and leaves nothing of the chunk at output offset TBS |
| SpanChunkStates.UnalignedBeginSound | test/algorithm/chunkSpans/chunkState.cxx:70-93 | the test's first state (all of the 1 KiB input, a chunk of one TBS) is sound and not at its end |
| SpanChunkStates.UnalignedChunkFills | test/algorithm/chunkSpans/chunkState.cxx:70-111 | three `++` from the test's first state reach the final state |
| SpanChunkStates.UnalignedEndOf | test/algorithm/chunkSpans/chunkState.cxx:70-93 | `end()` of the test's first state is the final state |
| InputFiles.Sum | src/pcat.cxx:100-107 | `totalSize()`: the sum of the input lengths, 0 for no inputs |
| InputFiles.SumAppend | src/pcat.cxx:100-107 | the total of two runs of files laid end to end is the sum of their totals |
| InputFiles.SumSplit | src/pcat.cxx:100-107 | the files before a position and those from it on make up the total |
| InputFiles.SumStep | src/pcat.cxx:100-107 | moving one file across a split point moves its length from one side to the other |
| InputFiles.SumPrefixBound | src/pcat.cxx:100-107 | every file, with those before it, fits in the total |
| InputFiles.Lengths | src/pcat.cxx:74-85 | one length per input file, each that file's byte count |
| InputFiles.ConcatLength | src/pcat.cxx:117 | the output, all inputs laid end to end, is `totalSize()` bytes long |
| InputFiles.PrefixLengthsCons | src/pcat.cxx:100-107 | the files before `f` total the first file plus the files before `f - 1` of the rest |
| InputFiles.ConcatAt | src/pcat.cxx:117 | byte `j` of input `f` sits in the output at the total of the inputs before `f`, plus `j` |
| InputFiles.SameRun | src/pcat.cxx:117 | two runs agree when they agree byte for byte |
| InputFiles.ConcatRun | src/pcat.cxx:117 | a run of bytes inside one input is the run of the output at the same distance from that input's start |
| InputFiles.ConcatSlice | src/pcat.cxx:117 | the same, with the input's start computed from the lengths |
| SpanPlans.AsUnsigned | src/algorithm/chunkSpans/chunking.cxx:173-174 | `asUnsigned`, the conversion to `size_t`: the identity on values already in range, and adds 2^64 to a negative 64-bit value |
| SpanPlans.SpanForFits | src/algorithm/chunkSpans/chunking.cxx:182-190 | with at least one processor, `chunkedCopy` takes the short-file form exactly when TBS × processors covers the output; otherwise the span is a non-zero multiple of TBS, and one span per processor fits in the output with less than one TBS per processor to spare |
| SpanPlans.SpanForDividesByZero | src/algorithm/chunkSpans/chunking.cxx:182-188 | as written, the span computation divides by zero exactly when no processor is selected and the output is not empty (one byte shows it) |
| SpanPlans.CheckedSpanForDefined | src/algorithm/chunkSpans/chunking.cxx:182-190 | the corrected computation refuses exactly a copy with no processor; otherwise it is the source's, and one span per processor fits in the output in whole TBS |
| SpanPlans.TailLength | src/algorithm/chunkSpans/fileChunker.hxx:57-62 | intended size of the next span: never more than the output left, non-zero while output is left, all of it exactly when fewer than two spans remain, and otherwise one span, leaving at least one span after it |
| SpanPlans.TailAsWrittenAgrees | src/algorithm/chunkSpans/fileChunker.hxx:59 | while at least one span's worth of output remains, the unsigned tail test as written agrees with the intended rule |
| SpanPlans.TailAsWrittenOvershoots | src/algorithm/chunkSpans/fileChunker.hxx:59 | with fewer than one span's worth left, the subtraction wraps and the test as written hands out a whole span, longer than what is left; the intended rule hands out the rest |
| SpanPlans.TilesCons | src/algorithm/chunkSpans/fileChunker.hxx:56 | a non-empty span in front of a tiling of what follows it tiles from its own start |
| SpanPlans.TilesTail | src/algorithm/chunkSpans/fileChunker.hxx:56 | the spans after the first of a tiling tile the output from where the first ends |
| SpanPlans.TilesCover | src/algorithm/chunkSpans/fileChunker.hxx:56-62 | spans that tile the output from an offset cover exactly the bytes from there to the end |
| SpanPlans.SpansFromStep | src/algorithm/chunkSpans/fileChunker.hxx:56-62 | away from the end, the spans visited are the current one followed by those from the next span, which starts where the current one ends |
| SpanPlans.SpansTile | src/algorithm/chunkSpans/fileChunker.hxx:56-62 | consecutive spans abut, none is empty or runs past the end, and together they cover the output from the current offset to its end |
| SpanPlans.SpansSized | src/algorithm/chunkSpans/fileChunker.hxx:57-62 | every span after the first is one span long except the last, which takes in the tail and is shorter than two spans |
| SpanPlans.OutputSpansTile | src/algorithm/chunkSpans/fileChunker.hxx:35-62 | the spans from `begin()` tile the whole output from 0, cover its length, and are one span long apart from the first and the last |
| SpanPlans.ThirtyFourBlocksInSpansOfEight | test/algorithm/chunkSpans/fileChunker.cxx:121-185 | 34 TBS of output in spans of 8 TBS: spans start at 0, 8, 16 and 24 TBS, and the last absorbs the 10 TBS tail |
| SpanPlans.UnalignedTailExample | test/algorithm/chunkSpans/fileChunker.cxx:66-106 | output of TBS + 4096 in spans of TBS: as written the second span is a whole TBS and runs past the end; intended, it is the 4096 bytes left |
| SpanChunker.SoundShape | src/algorithm/chunkSpans/fileChunker.hxx:43-63 | in a sound iterator the input left equals the output left, the span fits in it, and a span is empty only at the end of the output |
| SpanChunker.ResumeIsEnd | src/algorithm/chunkSpans/fileChunker.hxx:47-53 | when the span's output length differs from its input block, the input fields are taken from `subchunkState().end()` and the output is kept |
| SpanChunker.ResumeKeeps | src/algorithm/chunkSpans/fileChunker.hxx:47 | when the lengths agree, the input fields are kept |
| SpanChunker.ResumeLands | src/algorithm/chunkSpans/fileChunker.hxx:47-53 | after resuming, the input block still to pass over ends at the stream position where the span ends |
| SpanChunker.NextBlockLands | src/algorithm/chunkSpans/fileChunker.hxx:21-55 | `nextInputBlock` (when a file is left) leaves the input at the next transfer block of its file, starting exactly where the span ended in the input stream |
| SpanChunker.Carry | src/algorithm/chunkSpans/fileChunker.hxx:47-55 | the input side of `++` leaves the input ready at the next TBS of its file, at the stream position where the span ended |
| SpanChunker.SpanSound | src/algorithm/chunkSpans/fileChunker.hxx:56-62 | input ready where a span starts, with the output sized by the tail rule, makes a sound iterator |
| SpanChunker.StepSound | src/algorithm/chunkSpans/fileChunker.hxx:43-63 | `++` keeps the iterator sound; the next span starts where the current one ends, is sized by the tail rule and makes progress |
| SpanChunker.CarriedIgnoresOutput | src/algorithm/chunkSpans/fileChunker.hxx:54-56 | where the input is left does not depend on the output range |
| SpanChunker.AtEndSentinel | src/algorithm/chunkSpans/fileChunker.hxx:37-70 | a sound iterator compares equal to `end()` exactly when its output offset is at the end of the output |
| SpanChunker.EndSentinelOffsets | src/algorithm/chunkSpans/fileChunker.hxx:37-38 | `end()` is past the last file, at input offset 0, with the output offset at the output length |
| SpanChunker.BeginSound | src/algorithm/chunkSpans/fileChunker.hxx:12-36 | `begin()` (first file, block {0, min(TBS, length)}, output {0, min(span, output)}) is a sound iterator |
| SpanChunker.Finish | src/algorithm/chunkSpans/fileChunker.hxx:43-70 | stepping a range-for until it equals `end()` ends sound, equal to `end()`, at the end of the output |
| SpanChunker.SpansFollowPlan | src/algorithm/chunkSpans/fileChunker.hxx:43-63 | the spans the iterator visits are exactly those the tail rule lays out from its current span |
| SpanChunker.SpansStep | src/algorithm/chunkSpans/fileChunker.hxx:43-63 | one iteration of the range-for visits the current span, then those from the stepped iterator |
| SpanChunker.ChunkerPartitionsOutput | src/algorithm/chunkSpans/fileChunker.hxx:8-87 | from `begin()` to `end()` the iterator visits exactly the planned spans, which tile the whole output |
| SpanChunker.EmptyBeginIsEnd | test/algorithm/chunkSpans/fileChunker.cxx:17-33 | with no inputs and an empty output, `begin()` equals `end()` and no span is visited |
| SpanChunker.AsWrittenSecondSpan | src/algorithm/chunkSpans/fileChunker.hxx:59 | for an output between one and two spans long, `++` as written gives a second span starting one span in and a whole span long |
| SpanChunker.AsWrittenSecondSpanUnsound | src/algorithm/chunkSpans/fileChunker.hxx:59 | that second span leaves the sub-chunk state unsound: the output it asks for exceeds the input left |
| SpanChunker.IntendedSecondSpan | src/algorithm/chunkSpans/fileChunker.hxx:57-62 | with the intended rule the second span is the rest of the output |
| SpanChunker.StepAsWrittenOvershoots | src/algorithm/chunkSpans/fileChunker.hxx:59 | as written the second span ends at twice the span length, past the output's end, and is unsound; intended it ends at the output's end |
| SpanChunker.Chunker.constructor | src/algorithm/chunkSpans/fileChunker.hxx:12-36 | the one-argument constructor sets up `begin()`'s state |
| SpanChunker.Chunker.AtEnd | src/algorithm/chunkSpans/fileChunker.hxx:37-38 | the constructor `end()` uses sets up the end sentinel |
| SpanChunker.Chunker.NextInputBlock | src/algorithm/chunkSpans/fileChunker.hxx:21-32 | the input fields are updated in place to `NextBlock`: past the block, rolling over at a file's end, with the next block min(TBS, file left) |
| SpanChunker.Chunker.ResumeInput | src/algorithm/chunkSpans/fileChunker.hxx:47-53 | the input fields are updated in place to `Resume` |
| SpanChunker.Chunker.CarryInput | src/algorithm/chunkSpans/fileChunker.hxx:47-55 | the input fields are updated in place to `Carry`, the output kept |
| SpanChunker.Chunker.AdvanceOutput | src/algorithm/chunkSpans/fileChunker.hxx:56-62 | the output range moves on to the next span, sized by the intended tail rule |
| SpanChunker.Chunker.Increment | src/algorithm/chunkSpans/fileChunker.hxx:43-63 | the fields are updated in place to `Step` of the old state |
| SpanChunker.FileChunker.constructor | src/algorithm/chunkSpans/fileChunker.hxx:81 | keeps the span length |
| SpanChunker.FileChunker.Begin | src/algorithm/chunkSpans/fileChunker.hxx:84 | a fresh iterator at `begin()`'s state |
| SpanChunker.FileChunker.End | src/algorithm/chunkSpans/fileChunker.hxx:86 | a fresh iterator at the end sentinel |
| LegacyChunker.SoundShape | src/chunking.cxx:44-59 | in a sound iterator the input left equals the output left, a chunk is empty exactly at the end of the output, and a file is left while output is |
| LegacyChunker.Resume | src/chunking.cxx:48-54 | taking the input from `subchunkState().end()` when the chunk's output and input lengths differ stays within the file list |
| LegacyChunker.NextInside | src/algorithm/blockLinear/chunkState.hxx:57-65 | one step of the sub-chunk walk keeps its sub-block strictly inside its file |
| LegacyChunker.EndOfInside | src/algorithm/blockLinear/chunkState.hxx:46-52 | so does the whole walk once it has taken a step |
| LegacyChunker.ResumeLands | src/chunking.cxx:48-54 | after resuming, the block to pass over ends where the chunk ends, and the input is past the last file exactly when the chunk took more than one block and ends the output |
| LegacyChunker.NextBlockLands | src/chunking.cxx:24-56 | passing over the resumed block (when a file is left) leaves the input at the next transfer block of its file, where the chunk ended in the input stream |
| LegacyChunker.StepAsWrittenTrips | src/chunking.cxx:24-59 | `++` as written trips the assertion in `nextInputBlock` exactly on a last chunk that takes more than one input block, and elsewhere agrees with the corrected step |
| LegacyChunker.TwoSmallFilesTrip | src/chunking.cxx:24-59 | two 1 KiB inputs: the single chunk spans both, so `++` as written trips the assertion, while the corrected step reaches the end of the output |
| LegacyChunker.StepSound | src/chunking.cxx:44-59 | corrected `++` keeps the iterator sound; the next chunk starts where the current one ends and is `blockLength` of what is left of the output |
| LegacyChunker.AtEndSentinel | src/chunking.cxx:38-66 | a sound iterator compares equal to `end()` exactly when its output offset is at the end of the output |
| LegacyChunker.BeginSound | src/chunking.cxx:18-37 | `begin()` is a sound iterator |
| LegacyChunker.BlockSizedCons | src/chunking.cxx:58 | a chunk of `blockLength` of the output left, in front of such chunks, gives such chunks |
| LegacyChunker.ChunksTile | src/chunking.cxx:44-59 | the chunks visited from a sound iterator tile the output from the current chunk to the end, each `blockLength` of the output left |
| LegacyChunker.ChunksStep | src/chunking.cxx:44-59 | one iteration of the range-for visits the current chunk, then those from the stepped iterator |
| LegacyChunker.ChunkerPartitionsOutput | src/chunking.cxx:15-77 | from `begin()` to `end()` the chunks tile the whole output, consecutive chunks abut, and none is longer than `transferBlockSize` |
| LegacyChunker.Chunker.constructor | src/chunking.cxx:18-37 | the default constructor sets up `begin()`'s state (needing at least one input) |
| LegacyChunker.Chunker.AtEnd | src/chunking.cxx:38-39 | the constructor `end()` uses sets up the end sentinel |
| LegacyChunker.Chunker.NextInputBlock | src/chunking.cxx:24-34 | the input fields are updated in place to `PassBlock` |
| LegacyChunker.Chunker.ResumeInput | src/chunking.cxx:48-54 | the input fields are updated in place to `Resume` |
| LegacyChunker.Chunker.Increment | src/chunking.cxx:44-59 | the fields are updated in place to the corrected `Step` |
| LegacyChunker.SingleBlockBegin | test/fileChunker.cxx:35-50 | one input of one TBS and an output of one TBS: `begin()` is sound, is the whole block on both sides and differs from `end()` |
| LegacyChunker.SingleBlockStep | test/fileChunker.cxx:35-64 | for the same input, one `++` reaches `end()` and another stays there |
| LegacyChunker.FileChunker.Begin | src/chunking.cxx:74 | a fresh iterator at `begin()`'s state |
| LegacyChunker.FileChunker.End | src/chunking.cxx:76 | a fresh iterator at the end sentinel |
| MemoryMaps.Overwrite | src/mmap.hxx:214-219 | what a `memcpy` into the mapping leaves: a byte sequence of unchanged length |
| MemoryMaps.OverwriteEffect | src/mmap.hxx:214-219 | after a write, the run from `at` holds exactly the data and every byte outside it is unchanged |
| MemoryMaps.OverwriteTwice | src/mmap.hxx:214-219 | two adjacent writes are one write of both runs |
| MemoryMaps.OverwriteNothing | src/mmap.hxx:214-219 | a zero-length write changes nothing |
| MemoryMaps.AdviseAllEvery | src/mmap.hxx:185-193 | `advise<f, fs...>()` succeeds exactly when `madvise` accepts every flag |
| MemoryMaps.AdviceStopsAtFirstRefusal | src/mmap.hxx:185-193 | the flags are tried in order and the walk stops at the first refusal: every flag before the last one tried was accepted |
| MemoryMaps.Mmap.View | src/mmap.hxx:81-96 | a valid mapping shows `length` bytes of its file |
| MemoryMaps.Mmap.constructor | src/mmap.hxx:79 | a default map is invalid, has length 0, and `address(0)` throws |
| MemoryMaps.Mmap.Map | src/mmap.hxx:89-104 | the map keeps the asked-for length whether or not mapping succeeded, and is valid exactly when the mapping call returned an address |
| MemoryMaps.Mmap.CopyTo | src/mmap.hxx:214-219 | `copyTo` throws `out_of_range` exactly when `idx >= length()` (even for a zero-byte copy), leaving the file unchanged; otherwise it writes exactly bytes [idx, idx + n) of the window |
| MemoryMaps.Mmap.CopyFrom | src/mmap.hxx:201-206 | `copyFrom` throws exactly when `idx >= length()`; otherwise it reads exactly bytes [idx, idx + n) of the window |
| MemoryMaps.Mmap.Swap | src/mmap.hxx:160-164 | the two maps exchange address and length (and the window the address shows) |
| MemoryMaps.DefaultMapsEqual | src/mmap.hxx:221-222 | two default maps compare equal, and `address(0)` of one throws |
| CopyChunks.Wanted | src/copyChunk.hxx:33-69 | the bytes a chunk must receive: as many as its output range is long |
| CopyChunks.WantedIsRun | src/copyChunk.hxx:33-69 | those bytes are the run of the concatenated inputs that starts at the chunk's input position |
| CopyChunks.NextKeepsNormal | src/copyChunk.hxx:68 | stepping the chunk state keeps both offsets page-aligned with a small adjustment |
| CopyChunks.NextKeepsProductive | src/copyChunk.hxx:68 | with no empty input file, a step never leaves an empty sub-block while output is left |
| CopyChunks.ReadBlock | src/copyChunk.hxx:36-57 | an input mapping or advice failure returns errno; `address(adjustment)` throws (EINVAL) exactly on an empty sub-block; otherwise the bytes read are exactly the sub-block of its file |
| CopyChunks.CopyBlock | src/copyChunk.hxx:36-66 | one loop body: errno on a refused input mapping or advice, EINVAL when either bounds check throws, and on success the output holds the stream's run one sub-block longer; the output is unchanged on failure |
| CopyChunks.AdjacentRuns | src/copyChunk.hxx:55-66 | two adjacent runs of the stream are the run spanning both |
| CopyChunks.BlockIsStreamRun | src/copyChunk.hxx:36-59 | the current input sub-block is the run of the concatenated inputs at the state's input position |
| CopyChunks.CopyStep | src/copyChunk.hxx:55-66 | writing the next sub-block right after the run copied so far extends that run by one sub-block |
| CopyChunks.Outcome | src/copyChunk.hxx:34-69 | the loop returns 0, errno or EINVAL and nothing else |
| CopyChunks.LegacyOutcome | src/chunking.cxx:98-134 | the do-while loop returns 0, errno or EINVAL and nothing else |
| CopyChunks.GrantedCopySucceeds | src/copyChunk.hxx:34-69 | when every input mapping and advice is granted and no input is empty, the loop returns 0 |
| CopyChunks.OnTrackStep | src/copyChunk.hxx:66-68 | a step keeps the loop state on track and moves the output position on by exactly the sub-block copied |
| CopyChunks.CopyBlocks | src/copyChunk.hxx:33-69 | the loop returns exactly `Outcome`, and on success the chunk's output range holds exactly the stream's bytes for it, the rest of the file unchanged |
| CopyChunks.CopyChunk | src/copyChunk.hxx:14-80 | the copyChunk template of the block-linear algorithm: an output mapping or advice failure returns errno with nothing written; otherwise the copy's outcome, then errno if the global `sync` flag is set and msync fails, else 0; on success the output range holds the inputs' bytes; with everything granted and no empty input it succeeds unless msync fails |
| CopyChunks.CopyBlocksLegacy | src/chunking.cxx:98-134 | the do-while loop returns exactly `LegacyOutcome` (at least one block, then until the running offset reaches the chunk length), and on success the output range holds exactly the stream's bytes |
| CopyChunks.LegacyFirstPass | src/chunking.cxx:99-132 | the first pass of the do-while loop fails as the whole loop would, or leaves the first sub-block copied and the state stepped |
| CopyChunks.CopyChunkLegacy | src/chunking.cxx:79-145 | as `CopyChunk`, except that msync always runs, and an already-full chunk fails (EINVAL or errno) because its first, empty block is still copied |
| CopyChunks.JoinRuns | test/testChunking.cxx:44-67 | two equal adjacent runs, the second reaching the end, make equal tails |
| CopyChunks.TiledCopyIsStream | test/testChunking.cxx:44-67 | when the chunks tile the output and each copy left its range equal to the stream's, the whole output is the concatenation of the inputs, in whatever order the copies ran |
| LegacyCopy.BoundaryNeedsNoAdjustment | src/mappingOffset.hxx:15-25 | an offset on a page boundary has no adjustment, so its mapping starts at the offset itself |
| LegacyCopy.EndOfKeepsNormal | src/algorithm/blockLinear/chunkState.hxx:46-52 | `end()` of a sound state with a normal input offset has a normal input offset |
| LegacyCopy.BeginAligned | src/chunking.cxx:18-37 | `begin()` holds normal offsets and starts the output at 0 |
| LegacyCopy.ResumeKeepsNormal | src/chunking.cxx:48-54 | taking up the input where the finished chunk left it keeps the input offset normal |
| LegacyCopy.NextBlockKeepsNormal | src/chunking.cxx:24-34 | passing to the next input block keeps the input offset normal |
| LegacyCopy.NextChunkAligned | src/chunking.cxx:56-58 | the next chunk's output offset, when still inside the output, is a multiple of the page size |
| LegacyCopy.StepKeepsAligned | src/chunking.cxx:44-59 | `++` keeps the offsets normal and every chunk before the end starting on a page boundary |
| LegacyCopy.StepOnCourse | src/chunking.cxx:44-59 | `++` keeps the iterator sound and aligned, and the next chunk starts where the current one ends |
| LegacyCopy.ChunkReady | src/chunking.cxx:79-98 | every chunk the iterator hands out before `end()` meets what copyChunk() asks: a file is left, the output range lies in the output, no adjustment is needed, and its bytes are the stream's run at its offset |
| LegacyCopy.PrefixGrows | src/chunking.cxx:151-159 | writing the stream's next run right after a prefix of the stream makes the prefix one run longer |
| LegacyCopy.CopyCurrent | src/chunking.cxx:151-159 | one chunk's copy: on success the output up to the chunk's end is the stream; with everything granted and msync succeeding it succeeds |
| LegacyCopy.CopyRound | src/chunking.cxx:151-159 | one pass of the range-for: on success the iterator has taken the corrected `++`, stays on course and has moved on, and the output prefix up to it is the stream |
| LegacyCopy.ChunkedCopy | src/chunking.cxx:147-162 | the sequential `chunkedCopy`: a result of 0 means the output is the input files laid end to end; when every system call is granted and msync succeeds the result is 0 |
| LegacyCopy.TilesApart | src/chunking.cxx:56-58 | the chunks of a tiling lie inside the output, in increasing order, without overlapping |
| LegacyCopy.WriteKeepsCopied | src/mmap.hxx:208-218 | writing a chunk's run leaves that chunk copied and keeps every chunk that does not overlap it copied |
| LegacyCopy.CopiedAfterWrite | src/threadPool.hxx:52-64 | one more copy by a worker keeps every chunk copied before it copied |
| LegacyCopy.CopiedInOrder | src/threadPool.hxx:52-64 | after the workers copy chunks in any order, every chunk they copied is copied |
| LegacyCopy.EveryNamedCopied | src/threadPool.hxx:81-92 | when every chunk was queued, every chunk is copied |
| LegacyCopy.AnyOrderCopyIsStream | src/threadPool.hxx:52-92 | once each chunk of a tiling has been copied at least once, in whatever order, the output is the stream |
| LegacyCopy.LegacyChunksInAnyOrder | src/chunking.cxx:147-162 | the legacy iterator's chunks, copied in any order that takes each at least once, give the input files laid end to end |
| ArgsTokenizer.OfType | src/args/tokenizer.hxx:25 | a token built from a type alone has that type and an empty value, and is valid exactly when the type is not `unknown` |
| ArgsTokenizer.DefaultTokenInvalid | src/args/tokenizer.hxx:24-29 | the default token is `unknown` with an empty value and is not valid; a token of any other type is valid |
| ArgsTokenizer.ArgEnd | src/args/tokenizer.cxx:44-50 | the scan for the end of an arg token stops at the first '=' from its start, or at the end of the argument, and passes over no '=' |
| ArgsTokenizer.ArgEndIs | src/args/tokenizer.cxx:45-50 | any position that has no '=' before it and an '=' or the end at it is the scan's stopping point |
| ArgsTokenizer.LexRun | src/args/tokenizer.cxx:42-51 | a run of characters without '=' ending at an '=' or the end of the argument is one arg token, followed by the tokens after the run |
| ArgsTokenizer.LexReproduces | src/args/tokenizer.cxx:37-51 | the tokens of one argument, put back together, are the argument itself, and each is an equals token or a non-empty arg run without '=' |
| ArgsTokenizer.RestReproduces | src/args/tokenizer.cxx:29-36 | the tokens of the arguments from one on, put back together, are those arguments concatenated: spaces carry no text |
| ArgsTokenizer.StreamReproduces | src/args/tokenizer.cxx:7-53 | the whole token stream, put back together, is the argument strings one after the other |
| ArgsTokenizer.NextArg | src/args/tokenizer.cxx:7-21 | nextArg() leaves the lexer consistent with the argument list (past the last argument it holds none) and leaves the current token alone |
| ArgsTokenizer.Read | src/args/tokenizer.cxx:25-53 | readToken() leaves the lexer consistent with the argument list |
| ArgsTokenizer.RestStep | src/args/tokenizer.cxx:29-36 | the tokens from one argument on are a space, that argument's tokens, then the tokens of the arguments after it |
| ArgsTokenizer.ReadAtArgumentEnd | src/args/tokenizer.cxx:29-36 | a read at the end of an argument yields the next token still to come (a space, or the invalid token after the last argument) and drops it from what is to come |
| ArgsTokenizer.ReadInsideArgument | src/args/tokenizer.cxx:37-51 | a read inside an argument yields the next token still to come (an equals sign or a run) and drops it from what is to come |
| ArgsTokenizer.ReadTakesNextToken | src/args/tokenizer.cxx:25-53 | every read yields the first of the tokens still to come and leaves exactly the rest to come; with nothing left, it yields the invalid token |
| ArgsTokenizer.StartsStream | src/args/tokenizer.hxx:49-51 | the initialisers, nextArg() and the first read leave the first token of the stream current and the rest of the stream to come |
| ArgsTokenizer.Tokenizer.constructor | src/args/tokenizer.hxx:49-51 | a new lexer holds the first token of the argument stream, the rest is still to come, and with no arguments the token is invalid |
| ArgsTokenizer.Tokenizer.NextArgument | src/args/tokenizer.cxx:7-21 | the method's new state is nextArg() of the old one |
| ArgsTokenizer.Tokenizer.ReadToken | src/args/tokenizer.cxx:25-53 | the method, including its scan loop for an arg token, leaves the state readToken() describes |
| ArgsTokenizer.Tokenizer.Next | src/args/tokenizer.hxx:56-60 | next() returns the token it reads, which is the first of those that were still to come, and the rest are left to come |
| ArgsTokenizer.OneArgument | src/args/tokenizer.cxx:29-33 | the stream of a single argument is that argument's tokens, with nothing after them |
| ArgsTokenizer.ThreeArguments | src/args/tokenizer.cxx:29-36 | the stream of three arguments is each one's tokens with a space token between consecutive arguments |
| ArgsTokenizer.WholeArgument | src/args/tokenizer.cxx:42-51 | an argument with no '=' in it lexes as a single arg token holding the whole argument |
| ArgsTokenizer.HelpLex | test/tokenizer.cxx:9 | "--help" lexes as one arg token |
| ArgsTokenizer.VersionLex | test/tokenizer.cxx:13 | "--version" lexes as one arg token |
| ArgsTokenizer.SimpleStream | test/tokenizer.cxx:25-39 | the stream for `--help` is one arg token "--help", after which the lexer gives the invalid token |
| ArgsTokenizer.AssignedLex | test/tokenizer.cxx:10-12 | "--argument=value" lexes as arg "--argument", an equals sign, arg "value" |
| ArgsTokenizer.AssignedStream | test/tokenizer.cxx:41-67 | the stream for `--argument=value` is arg "--argument", equals "=", arg "value" |
| ArgsTokenizer.MultipleStream | test/tokenizer.cxx:69-119 | the stream for `--version --argument=value --help` is arg, space, arg, equals, arg, space, arg with the test's values |
| ArgsParser.TypeToName | src/args.cxx:13-27 | every token type has a non-empty name for error messages |
| ArgsParser.TypeNamesDistinct | src/args.cxx:15-25 | two token types share a name exactly when they are the same type |
| ArgsParser.Advance | src/args/tokenizer.hxx:56-60 | next() never adds to what the parser has still to see, so each step of the descent makes progress |
| ArgsParser.FindOption | src/args.cxx:121-128 | the option loop stops at the first option whose name is the argument, and runs off the table only when no option has that name |
| ArgsParser.ParseArg | src/args.cxx:113-143 | parseArgument() refuses without touching the lexer, and when it accepts it consumes at least one token |
| ArgsParser.Unmatched | src/args.cxx:129-142 | an argument that names no option is always accepted and consumes no more than it is given |
| ArgsParser.MakeNodeOf | src/args.cxx:97-111 | when makeNode() does not throw it yields a node and consumes no more than it is given |
| ArgsParser.ParseTreeOf | src/args.cxx:89-95 | when parseTree() does not throw it yields a tree node and consumes no more than it is given |
| ArgsParser.ParseAllStep | src/args.cxx:163-171 | one round of the parse loop stops the loop on a throw or a refusal, keeping what was appended so far, and otherwise appends the step's node and carries on |
| ArgsParser.RefusesOnlyOtherTokens | src/args.cxx:115-119 | parseArgument() returns false exactly when the current token is neither an argument nor a space |
| ArgsParser.UnknownNamesDoNotThrow | src/args.cxx:129-142 | an argument that names no option never throws: it sets the dump flag exactly when it is "--dump-ast", and otherwise adds an unrecognised node for that argument |
| ArgsParser.OptionsMakeTheirNodes | src/args.cxx:97-111 | an argument naming a help or version option adds that option's node and consumes one token; one naming an option of another leaf type throws |
| ArgsParser.HelpArgument | src/pcat.cxx:24-29 | with pcat's help and version options, `--help` parses to one help node without a dump request |
| ArgsParser.AssignedArgument | src/args.cxx:129-142 | `--argument=value` adds argUnrecognised_t("--argument", "value") and then, because the value token is still current, a second argUnrecognised_t("value") |
| ArgsParser.AssignedFirstStep | src/args.cxx:129-140 | the first step over `--argument=value` takes the '=' and the value into one unrecognised node and leaves the value token current |
| ArgsParser.AssignedValueStep | src/args.cxx:129-133 | the value token, still current, is parsed again as an unrecognised argument of its own |
| ArgsParser.DumpRequest | src/args.cxx:130-131 | `--dump-ast` adds no node and sets the dump flag |
| ArgsParser.LeadingEqualsRefused | src/args.cxx:118-119 | a first argument starting with '=' gives an equals token at the head of the stream, which parseArguments() refuses with false |
| ArgsParser.LaterLeadingEqualsAccepted | src/args.cxx:113-142 | a later argument starting with '=' is not refused: for `--foo =x`, "--foo", "=" and "x" are each an unrecognised argument, and the parse returns true |
| ArgsParser.LaterEqualsStream | src/args/tokenizer.cxx:7-53 | the stream for `--foo =x` is arg "--foo", space, equals "=", arg "x" |
| ArgsParser.LaterEqualsFirstStep | src/args.cxx:129-133 | "--foo" names no option and the token after it is not '=': it is added as an unrecognised argument, with the space current |
| ArgsParser.LaterEqualsSecondStep | src/args.cxx:115-133 | the space is skipped and the equals token's value "=" is taken as an argument naming no option, leaving "x" current |
| ArgsParser.LaterEqualsLastStep | src/args.cxx:129-133 | "x" is one more unrecognised argument, and the stream is spent |
| ArgsParser.LaterEqualsRest | src/args.cxx:113-142 | from the space before "=x" on, the parse adds "=" and "x" as unrecognised arguments and returns true |
| ArgsParser.Arguments.constructor | src/args.cxx:10-11 | the globals start with no tree and no dump request |
| ArgsParser.Arguments.ParseArgument | src/args.cxx:113-143 | the method throws exactly when the parse step does; otherwise it returns the step's verdict, leaves the lexer where the step does, appends the step's node to the tree and ors in its dump flag |
| ArgsParser.Arguments.AddUnmatched | src/args.cxx:129-142 | for an argument that names no option the method returns true, moves the lexer as described and adds the unrecognised node or the dump request |
| ArgsParser.Arguments.MakeNode | src/args.cxx:97-111 | the method throws exactly when makeNode() is specified to, and otherwise returns the specified node and leaves the lexer and the dump flag as specified |
| ArgsParser.Arguments.ParseTree | src/args.cxx:89-95 | the method throws exactly when parseArgument() on a new tree refuses or throws, and otherwise returns that tree as a node |
| ArgsParser.Arguments.ParseArguments | src/args.cxx:149-177 | fewer than two arguments or a null list give false and change nothing; otherwise the program name is skipped and the result, the fresh tree's children and the dump flag are those of the whole parse loop over the remaining arguments |
| ArgsTypes.UnrecognisedArgument | src/args.hxx:54-55 | argUnrecognised_t(argument) has type unrecognised, that argument and an empty parameter |
| ArgsTypes.NodeTypes | src/args.hxx:36-69 | each node class reports its own type: trees tree, unrecognised nodes unrecognised, argHelp_t help and argVersion_t version |
| ArgsTypes.FirstOfTypeIsFirst | src/args/types.cxx:5-13 | find() yields nothing exactly when no child has the type, and otherwise the child at the first position that has it |
| ArgsTypes.FirstOfTypeAppend | src/args/types.cxx:5-18 | appending a child changes what find() yields only when nothing of that type was there before |
| ArgsTypes.ArgsTree.constructor | src/args.hxx:36 | a new tree has no children |
| ArgsTypes.ArgsTree.Find | src/args/types.cxx:5-13 | the search loop returns the first child of the type, which is a child of that type, or nothing |
| ArgsTypes.ArgsTree.Add | src/args/types.cxx:15-18 | add() appends the node and returns true, or on a failed allocation adds nothing and returns false |
| IndexSequences.IndexIterator.constructor | src/indexSequence.hxx:14 | an iterator stands at the index it is made with |
| IndexSequences.IndexIterator.Increment | src/indexSequence.hxx:18-22 | prefix ++ moves the iterator on by exactly one index and returns a copy standing where it now stands |
| IndexSequences.IndexSequence.Begin | src/indexSequence.hxx:40 | begin() is a new iterator at the sequence's first index |
| IndexSequences.IndexSequence.End | src/indexSequence.hxx:41 | end() is a new iterator at the sequence's end bound |
| IndexSequences.Walk | src/indexSequence.hxx:25-41 | a range-for over the sequence, from begin() applying ++ until the iterator equals end(), visits exactly the indices from the first up to but not including the end, in order |
| IndexSequences.EqualityIsComplement | src/indexSequence.hxx:25-28 | == and != always disagree, and == is reflexive and symmetric |
| IndexSequences.EmptySequence | test/indexSequence.cxx:31-36 | for a sequence whose bounds are equal, begin() equals end() and a walk visits nothing |
| IndexSequences.IteratorSteps | test/indexSequence.cxx:12-29 | an iterator made at 0 equals one at 0 and not one at 1; after ++ it equals the returned copy and one at 1, and no longer equals one at 0 |
| Affinity.Capped | src/affinity.hxx:52 | the thread cap lets through a front part of the eligible ids, as long as the cap or all of them when there is no cap or it is larger |
| Affinity.EligibleBelowIsSorted | src/affinity.hxx:48-56 | walking the ids upwards lists exactly the allowed ids that pass the pinning filter, each below the bound, in strictly increasing order |
| Affinity.EligibleBelowCount | src/affinity.hxx:48-56 | that list is as long as the set of eligible ids, so no id appears twice |
| Affinity.NothingAllowedFrom | src/affinity.hxx:57-58 | once no allowed id is left, walking further adds nothing, so the early break changes no result |
| Affinity.CappedAppend | src/affinity.hxx:52-54 | an eligible id is pushed only while fewer processors than the cap have been taken |
| Affinity.SelectProcessors | src/affinity.hxx:45-59 | the constructor's loop over ids below CPU_SETSIZE, clearing each set id and stopping once the set is empty, selects exactly the capped list of eligible ids |
| Affinity.SelectionIsAllowedAndSorted | src/affinity.hxx:48-59 | every selected processor is allowed and passes the pinning filter, the selection is strictly increasing, and it holds no more processors than the thread cap |
| Affinity.UnrestrictedSelectsAll | test/affinity.cxx:24-48 | without a cap or a pinning list, the selection holds exactly the allowed CPUs, as many as CPU_COUNT reports |
| Affinity.CapTakesLowest | src/affinity.hxx:48-56 | an eligible id left out of a capped selection means the cap was reached, and every selected id is lower than it |
| Affinity.SingleThreadTakesFirst | test/affinity.cxx:72-101 | with a cap of one thread the selection is the single lowest allowed CPU |
| Affinity.PosixAffinity.constructor | src/affinity.hxx:41-60 | the object's processors are the selection for the allowed set, the thread cap and the pinning list |
| Affinity.PosixAffinity.Indices | src/affinity.hxx:62-65 | indexSequence() runs over exactly 0 up to numProcessors() |
| Affinity.PosixAffinity.PinTo | src/affinity.hxx:31-38 | pinning by an index at or past the processor count is out of range; otherwise the thread's new CPU set holds exactly the processor at that index |
| Affinity.IndicesArePinnable | src/affinity.hxx:31-38 | every index of indexSequence() can be pinned, and numProcessors() itself is out of range |
| Affinity.NewPosixAffinity | src/affinity.hxx:45-47 | the constructor yields no object exactly when sched_getaffinity() fails, and otherwise an object holding the selection |
| Affinity.WidthIsBound | src/affinity.hxx:126 | a mask needs at most n bits exactly when it is below 2 to the n, so a mask of a 64-bit KAFFINITY has no bit from 64 on |
| Affinity.InGroupAt | src/affinity.hxx:128-129 | tagging a list of bit positions with a group keeps its length and pairs each position with the group |
| Affinity.WalkStep | src/affinity.hxx:118-125 | a processor record that is not a group relation adds nothing, and a group relation adds its groups' processors |
| Affinity.SetBitsAreTheBits | src/affinity.hxx:126-133 | the bit walk lists exactly the set bits of a mask, offset by where it starts, in strictly increasing order |
| Affinity.NoBitsOfZero | src/affinity.hxx:131-132 | a zero mask has no set bit, so breaking out once the shifted mask is zero loses nothing |
| Affinity.GroupIsAscending | src/affinity.hxx:124-133 | one group's processors all carry that group, rise strictly, and are exactly its mask's set bits |
| Affinity.GroupsFromAreOrdered | src/affinity.hxx:122-134 | the processors of the groups from one on carry group numbers in range and are in strictly increasing (group, processor) order |
| Affinity.InGroupAppend | src/affinity.hxx:128-129 | tagging positions with a group distributes over concatenation |
| Affinity.ShiftBits | src/affinity.hxx:128-130 | a mask's set bits are its low bit, if set, then the set bits of the mask shifted right by one, and the shift removes one bit of width |
| Affinity.BitStep | src/affinity.hxx:126-133 | one round of the bit loop keeps the bits found so far, plus the remaining mask's bits, equal to the group mask's set bits |
| Affinity.AddGroup | src/affinity.hxx:124-133 | the bit loop over one group's active mask appends exactly that group's processors, one per set bit, lowest bit first |
| Affinity.AddGroups | src/affinity.hxx:122-134 | the group loop appends the processors of every active group, in group order |
| Affinity.WalkGroups | src/affinity.hxx:114-136 | the Windows constructor's walk lists the processors of every group relation record, in order, and nothing for other records |
| Affinity.RecordCount | src/affinity.hxx:100-103 | the record count is the least number of whole records whose size covers the returned length |
| Affinity.SingleBitMask | src/affinity.hxx:85 | the mask `1 << processor` has exactly one set bit, at that processor |
| Affinity.WindowsAffinity.constructor | src/affinity.hxx:114-136 | the object's processors are those the group walk lists |
| Affinity.WindowsAffinity.Indices | src/affinity.hxx:138-141 | indexSequence() runs over exactly 0 up to numProcessors() |
| Affinity.WindowsAffinity.PinTo | src/affinity.hxx:80-88 | pinning by an index at or past the processor count is out of range; otherwise the group affinity names that processor's group and has that processor's bit as its only set bit |

## Left out

- Thread pool and threaded queue (`src/threadPool.hxx`, `src/threadedQueue.hxx`): their purpose is coordination between threads, which this sequential model does not cover. `LegacyCopy.ChunkedCopy` copies the chunks one after the other instead, and `LegacyCopy.AnyOrderCopyIsStream` shows that any order in which the workers take them gives the same output.
- The block-linear `chunkedCopy` driver (`src/algorithm/blockLinear/chunking.cxx:12-27`): it walks the block-linear `fileChunker_t`, and `src/algorithm/blockLinear/fileChunker.hxx` is not part of this model. Of the chunk-spans driver only the span-size arithmetic is modelled (`SpanPlans`).
- `LegacyCopy.ChunkedCopy`: the chunks are copied in sequence and the first failing copy's result is returned; the results the pool collects in `finish()` after the loop, and the `std::system_error` handler (`src/chunking.cxx:163-167`), are not modelled.
- `SpanPlans.SpanFor`: the division by zero of a copy with no processor is modelled as `None`; what the program then does (a hardware trap) is not modelled.
- The `copyChunk` stub at `src/algorithm/chunkSpans/chunking.cxx:156-158`. It has no body to model.
- The system calls `mmap`, `munmap`, `madvise` and `msync`. Their outcomes are fields of the `System` parameter.
- A failing call leaves one errno value, the same for every call in a copy.
- The Windows mapping path (`CreateFileMapping`/`MapViewOfFile`).
- The page size is fixed at the POSIX 4 KiB. The Windows 64 KiB granularity is only stated (`Chunking.PageSizeFor`).
- File opening, locking and resizing in `src/pcat.cxx`, `src/fd.hxx` and `src/mappedFile.hxx`: I/O plumbing. Two facts from them are kept as preconditions of the chunk engine: every input is non-empty (`src/pcat.cxx:78-79`), and the output length is the sum of the inputs (`src/pcat.cxx:100-107`, `117`).
- `LegacyChunker.Chunker.constructor` requires at least one input file. As written, `src/chunking.cxx:18-19` dereferences `inputFiles.begin()` even for an empty list.
- `off_t` is unbounded here apart from the modelled `size_t` wrap in the span tail test. 64-bit overflow of file offsets is not modelled.
- `dumpAST`, `indentBy`, `printf`/`puts` and all console logging: they only print text.
- Allocation failure inside the parser (`std::make_unique`) is not modelled. `argsTree_t::add`'s own allocation failure is modelled, as the `memoryFree` parameter.
- `src/args.hxx` declares `find` with a `recursive` parameter that `src/args/types.cxx` does not take. The single-level search of `types.cxx` is the one modelled.
- The option table in `src/pcat.cxx:24-38` uses node types (`outputFile`, `async`, `threads`, `pinning`, `algorithm`) that `src/args.hxx:11-17` does not declare. The parser is modelled over the four declared types, with the help/version part of the table as the worked example.
- `argThreads_t` and `argPinning_t`, which `affinity_t` looks up in the argument tree, are not declared in `src/args.hxx`. The thread cap and the pinning list are parameters of the selection instead.
- `std::find` over the pinning list is modelled as sequence membership.
- `CPU_SETSIZE` is fixed at glibc's 1024.
- The `uint16_t` group and `uint8_t` bit widths of the Windows processor list are not modelled: groups and bits are unbounded naturals, and masks are bounded to 64 bits.
- `sched_getaffinity`, `pthread_setaffinity_np`, `GetLogicalProcessorInformationEx` and `SetThreadGroupAffinity`.
  - Whether the allowed set could be read is an optional parameter.
  - The pinned CPU set or group affinity is returned as the outcome of `PinTo`.
  - For the Windows buffer-retry loop, only its record-count arithmetic is modelled (`Affinity.RecordCount`). The records it returns are a parameter.
- `IndexSequences.Walk` models how a range-for uses `begin()`, `end()`, `!=` and `++`. It is not a member of `indexSequence_t`.
- `src/chunking.cxx` includes `chunkState.hxx`, which is not part of this model. The legacy iterator is modelled over the block-linear `chunkState_t` (`BlockLinear`).

## Findings

| source | as written | input that shows it | evidently intended | confidence | as-written member | corrected member |
|---|---|---|---|---|---|---|
| src/algorithm/chunkSpans/chunking.cxx:69 | `++` sizes the next sub-block by the whole length of the current file (`inputLength_`), not by the bytes left in it | two files of 1.5 transfer blocks copied as one 3-block span: the second sub-block starts at 1 block into the first file and is sized 1 block, ending at 2 blocks, past that file's end | size the sub-block by min(transfer block, output left, file length minus input offset) | not executed | SpanChunkStates.AsWrittenOvershoots | SpanChunkStates.NextPreservesSound |
| src/algorithm/chunkSpans/fileChunker.hxx:59 | the tail test subtracts the unsigned span length from the signed remainder, which wraps when less than one span is left | output of one transfer block plus 4096 bytes in spans of one transfer block: the second span is given a whole transfer block instead of 4096 bytes, running past the output's end | give the last span exactly what is left of the output | not executed | SpanChunker.StepAsWrittenOvershoots | SpanChunker.ChunkerPartitionsOutput |
| src/algorithm/chunkSpans/chunking.cxx:188 | the span length divides by transferBlockSize × numProcessors() without checking the processor count, which is 0 when the affinity selection is empty (`src/threadPool.hxx:79`) | no processor and a 1-byte output: the short-output test at line 182 fails (0 >= 1 is false) and line 188 divides by zero | refuse a copy with no processor before dividing | not executed | SpanPlans.SpanForDividesByZero | SpanPlans.CheckedSpanForDefined |
| src/chunking.cxx:55 | `++` calls `nextInputBlock()` even after `subchunkState().end()` has walked past the last file, tripping the assertion at `src/chunking.cxx:29` | two 1 KiB inputs and a 2 KiB output: the only chunk spans both files, and the step past it trips the assertion | pass over the block only while a file is left, as the span iterator does | not executed | LegacyChunker.StepAsWrittenTrips | LegacyChunker.ChunkerPartitionsOutput |
