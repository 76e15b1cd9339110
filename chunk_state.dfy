/**
 * The state shared by both chunkState_t classes (the block-linear one and the
 * chunk-spans one): where in the input files the current sub-block lies, and
 * which part of the output chunk is still to be filled.
 *
 * An input file iterator is an index into the list of file lengths; the index
 * equal to the list's length is `inputFiles.end()`.
 */
module ChunkStates {
  import opened MappingOffsets
  import opened InputFiles

  /**
   * A chunkState_t's four fields: the current file, that file's length, the
   * input sub-block (offset and length within the file) and the output range
   * left to fill (offset and length within the output file).
   */
  datatype ChunkState = ChunkState(file: nat, inputLength: int,
                                   inputOffset: MappingOffset, outputOffset: MappingOffset)
  {
    /** atEnd(): no output is left to fill. */
    predicate AtEnd() { outputOffset.length == 0 }

    /** Where in the current file the input sub-block ends. */
    function InputEnd(): int { inputOffset.offset + inputOffset.length }

    /**
     * operator ==: same file, same file length, and the same input and output
     * offsets (offsets compare through their off_t value, lengths do not take
     * part).
     */
    predicate Equals(other: ChunkState)
    {
      && file == other.file
      && inputLength == other.inputLength
      && inputOffset.SameAs(other.inputOffset)
      && outputOffset.SameAs(other.outputOffset)
    }
  }

  /**
   * operator == of both chunking_t iterators: the same file and the same input and output offsets; the
   * file length and both lengths do not take part.
   */
  predicate SameChunk(a: ChunkState, b: ChunkState)
  {
    && a.file == b.file
    && a.inputOffset.SameAs(b.inputOffset)
    && a.outputOffset.SameAs(b.outputOffset)
  }

  /** The assertion in nextInputBlock(): a file is only left behind if there is one. */
  predicate CanRoll(files: seq<nat>, s: ChunkState)
  {
    s.InputEnd() == s.inputLength ==> s.file < |files|
  }

  /**
   * The common part of nextInputBlock(): move past the current sub-block and,
   * when that reaches the end of the file, roll over to the start of the next
   * file (with an empty sub-block). The callers then set the new sub-block's
   * length.
   */
  function PassBlock(files: seq<nat>, s: ChunkState): (r: ChunkState)
    requires s.file <= |files| && CanRoll(files, s)
    ensures r.file <= |files|
  {
    if s.InputEnd() == s.inputLength then
      s.(file := s.file + 1, inputLength := FileLength(files, s.file + 1), inputOffset := Zero)
    else
      s.(inputOffset := s.inputOffset.Plus(s.inputOffset.length))
  }

  /** A default-constructed state: nothing left to fill. */
  const Default: ChunkState := ChunkState(0, 0, Zero, Zero)

  /** `file == inputFiles.end() ? 0 : file->length()` */
  function FileLength(files: seq<nat>, file: nat): nat
  {
    if file < |files| then files[file] else 0
  }

  /** The total length of the files after `file`. */
  function Following(files: seq<nat>, file: nat): nat
  {
    if file < |files| then Sum(files[file + 1..]) else 0
  }

  /**
   * Where the input sub-block starts in the stream of all inputs laid end to
   * end.
   */
  function InputPosition(files: seq<nat>, s: ChunkState): int
    requires s.file <= |files|
  {
    Sum(files[..s.file]) + s.inputOffset.offset
  }

  /** The input bytes from the start of the sub-block to the end of the last file. */
  function Unread(files: seq<nat>, s: ChunkState): int
  {
    s.inputLength - s.inputOffset.offset + Following(files, s.file)
  }

  /** Unread input and the input position add up to the length of the stream. */
  lemma UnreadCompletesStream(files: seq<nat>, s: ChunkState)
    requires s.file <= |files| && s.inputLength == FileLength(files, s.file)
    ensures InputPosition(files, s) + Unread(files, s) == Sum(files)
  {
    SumSplit(files, s.file);
    if s.file < |files| {
      SumStep(files, s.file);
    }
  }

  /**
   * Rolling over to the next file keeps the stream position: the start of file
   * `f + 1` is where file `f` ends.
   */
  lemma RollKeepsPosition(files: seq<nat>, f: nat)
    requires f < |files|
    ensures Sum(files[..f + 1]) == Sum(files[..f]) + files[f]
    ensures Following(files, f) == FileLength(files, f + 1) + Following(files, f + 1)
  {
    SumStep(files, f);
    if f + 1 < |files| {
      SumStep(files, f + 1);
    }
  }

  /** The default state is at its end and compares equal to itself. */
  lemma DefaultAtEnd()
    ensures Default.AtEnd() && Default.Equals(Default)
    ensures Default.inputOffset.offset == 0 && Default.outputOffset.offset == 0
  {
  }
}
