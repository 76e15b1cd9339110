/**
 * The per-block chunking_t and fileChunker_t, the first form of the copy
 * engine: the output is cut into chunks of one transfer block each (the last
 * one shorter), and each chunk's input starts where the previous chunk's
 * input ended. Finding where a chunk's input ends walks the chunk's
 * sub-blocks with chunkState_t::end() of the block-linear cursor.
 *
 * As written, operator ++ passes over the current input block even when that
 * walk has already gone past the last file, and so trips the assertion in
 * nextInputBlock() on the last chunk whenever that chunk takes more than one
 * input block. `StepAsWritten` models the code as written and
 * `StepAsWrittenTrips` says exactly when it trips. `Step` is the corrected
 * step: it passes over the block only while there is a file left, as the
 * chunk-spans iterator does. The rest of the model uses `Step`.
 */
module LegacyChunker {
  import opened Chunking
  import opened MappingOffsets
  import opened InputFiles
  import opened ChunkStates
  import opened BlockLinear
  import opened SpanPlans
  import opened Options

  /**
   * What the copy driver sets up. There is at least one input, because the
   * default constructor reads the first file's length without checking for
   * one. No input is empty, and the output is exactly as long as the inputs
   * together.
   */
  predicate Config(files: seq<nat>, outputLength: int)
  {
    && |files| > 0
    && Sum(files) == outputLength
    && forall i :: 0 <= i < |files| ==> files[i] > 0
  }

  /**
   * The default constructor, which begin() uses: the first transfer block of
   * the first file, and the first transfer block of the output.
   */
  function BeginState(files: seq<nat>, outputLength: int): ChunkState
    requires |files| > 0
  {
    ChunkState(0, files[0], Zero.WithLength(BlockLength(files[0])), Zero.WithLength(BlockLength(outputLength)))
  }

  /**
   * The constructor end() uses: past the last file, with file length 0, the
   * default input offset, and the output offset at the end of the output.
   */
  function EndSentinel(files: seq<nat>, outputLength: int): ChunkState
  {
    ChunkState(|files|, 0, Zero, FromOffset(outputLength))
  }

  /** The sub-block sits strictly inside its file, unless it is past the last one. */
  predicate Inside(files: seq<nat>, s: ChunkState)
  {
    s.file < |files| ==> s.inputOffset.offset < s.inputLength
  }

  /**
   * The states the iterator keeps to. Its sub-chunk state is sound, and the
   * input block is the next transfer block of its file and lies inside that
   * file. The input block sits as far into the stream of inputs as the chunk
   * sits into the output, and the chunk is one transfer block of what is left
   * of the output.
   */
  predicate ChunkSound(files: seq<nat>, outputLength: int, c: ChunkState)
  {
    && Sound(files, c)
    && c.inputOffset.length == BlockLength(c.inputLength - c.inputOffset.offset)
    && Inside(files, c)
    && InputPosition(files, c) == c.outputOffset.offset
    && c.outputOffset.length == BlockLength(outputLength - c.outputOffset.offset)
  }

  /**
   * In a sound state the input left is exactly the output left, the chunk
   * fits in it, and a chunk is empty only at the end of the output.
   */
  lemma SoundShape(files: seq<nat>, outputLength: int, c: ChunkState)
    requires Config(files, outputLength) && ChunkSound(files, outputLength, c)
    ensures Unread(files, c) == outputLength - c.outputOffset.offset
    ensures 0 <= c.outputOffset.offset <= outputLength
    ensures 0 <= c.outputOffset.length <= outputLength - c.outputOffset.offset
    ensures c.outputOffset.offset < outputLength <==> c.outputOffset.length > 0
    ensures c.outputOffset.offset < outputLength ==> c.file < |files|
  {
    UnreadCompletesStream(files, c);
  }

  /**
   * The first half of operator ++: when the chunk's output length differs
   * from its input block, the input is taken from the end of the sub-chunk
   * walk over the chunk; otherwise the chunk is that one block.
   */
  function Resume(files: seq<nat>, c: ChunkState): (r: ChunkState)
    requires Sound(files, c)
    ensures r.file <= |files|
  {
    if c.outputOffset.length != c.inputOffset.length then
      EndOf(files, c).(outputOffset := c.outputOffset)
    else c
  }

  /** One step of the sub-chunk walk leaves the sub-block inside its file. */
  lemma NextInside(files: seq<nat>, s: ChunkState)
    requires forall i :: 0 <= i < |files| ==> files[i] > 0
    requires Sound(files, s) && !s.AtEnd()
    ensures CanRoll(files, s) && Inside(files, Next(files, s))
  {
    SoundCanRoll(files, s);
  }

  /** So does the whole walk, once it has taken at least one step. */
  lemma {:induction false} EndOfInside(files: seq<nat>, s: ChunkState)
    requires forall i :: 0 <= i < |files| ==> files[i] > 0
    requires Sound(files, s) && !s.AtEnd()
    ensures Inside(files, EndOf(files, s))
    decreases s.outputOffset.length, |files| - s.file
  {
    NextPreservesSound(files, s);
    NextInside(files, s);
    EndOfNext(files, s);
    var n := Next(files, s);
    if n.AtEnd() {
      EndOfAtEnd(files, n);
    } else {
      EndOfInside(files, n);
    }
  }

  /**
   * The input is where a chunk ending at stream position `position` leaves
   * it: inside the files, the block still to pass over ends at `position`,
   * and a state past the last file has an empty block at offset 0.
   */
  predicate Resumed(files: seq<nat>, r: ChunkState, position: int)
  {
    && r.file <= |files|
    && r.inputLength == FileLength(files, r.file)
    && 0 <= r.inputOffset.offset
    && 0 <= r.inputOffset.length
    && r.InputEnd() <= r.inputLength
    && InputPosition(files, r) + r.inputOffset.length == position
    && (r.file == |files| ==> r.inputOffset.offset == 0 && r.inputOffset.length == 0)
  }

  /**
   * After resuming, the block to pass over ends where the chunk ends, and
   * the input has gone past the last file exactly when the chunk took more
   * than one input block and ends at the end of the output.
   */
  lemma ResumeLands(files: seq<nat>, outputLength: int, c: ChunkState)
    requires Config(files, outputLength) && ChunkSound(files, outputLength, c)
    requires c.outputOffset.offset != outputLength
    ensures Resumed(files, Resume(files, c), c.outputOffset.offset + c.outputOffset.length)
    ensures Resume(files, c).file == |files|
        <==> (c.outputOffset.length != c.inputOffset.length
              && c.outputOffset.offset + c.outputOffset.length == outputLength)
  {
    SoundShape(files, outputLength, c);
    var r := Resume(files, c);
    var position := c.outputOffset.offset + c.outputOffset.length;
    if c.outputOffset.length != c.inputOffset.length {
      EndOfInside(files, c);
      assert Resumed(files, r, position);
      if r.file < |files| {
        SumPrefixBound(files, r.file);
        assert position < outputLength;
      } else {
        assert files[..r.file] == files;
      }
    } else {
      assert r == c;
    }
  }

  /**
   * The input is ready for a chunk starting at stream position `position`:
   * inside the files, at the start of the next transfer block of its file,
   * and inside that file unless past the last one.
   */
  predicate Ready(files: seq<nat>, a: ChunkState, position: int)
  {
    && a.file <= |files|
    && a.inputLength == FileLength(files, a.file)
    && 0 <= a.inputOffset.offset <= a.inputLength
    && Inside(files, a)
    && a.inputOffset.length == BlockLength(a.inputLength - a.inputOffset.offset)
    && InputPosition(files, a) == position
  }

  /**
   * The input side of a step: pass over the block if there is a file left
   * (nextInputBlock()), then size the next block as one transfer block of
   * what is left of the file.
   */
  function NextBlock(files: seq<nat>, r: ChunkState): (a: ChunkState)
    requires r.file <= |files|
  {
    var passed := if r.file != |files| then PassBlock(files, r) else r;
    passed.(inputOffset := passed.inputOffset.WithLength(BlockLength(passed.inputLength - passed.inputOffset.offset)))
  }

  /** Passing over the resumed block leaves the input ready where the chunk ended. */
  lemma {:induction false} NextBlockLands(files: seq<nat>, r: ChunkState, position: int)
    requires forall i :: 0 <= i < |files| ==> files[i] > 0
    requires Resumed(files, r, position)
    ensures Ready(files, NextBlock(files, r), position)
  {
    if r.file != |files| && r.InputEnd() == r.inputLength {
      RollKeepsPosition(files, r.file);
      assert NextBlock(files, r).inputOffset.offset == 0;
    } else if r.file != |files| {
      assert NextBlock(files, r).inputOffset.offset == r.InputEnd();
    }
  }

  /** The output side of a step: the next chunk is the next transfer block of the output. */
  function NextChunk(o: MappingOffset, outputLength: int): (next: MappingOffset)
  {
    var moved := o.Plus(o.length);
    moved.WithLength(BlockLength(outputLength - moved.offset))
  }

  /**
   * operator ++, corrected: nothing happens once the output offset is at the
   * end of the output; otherwise the input resumes after the chunk, moves on
   * to the next block, and the output moves on to the next chunk.
   */
  function Step(files: seq<nat>, outputLength: int, c: ChunkState): (r: ChunkState)
    requires ChunkSound(files, outputLength, c)
  {
    if c.outputOffset.offset == outputLength then c
    else NextBlock(files, Resume(files, c)).(outputOffset := NextChunk(c.outputOffset, outputLength))
  }

  /**
   * operator ++ as written: the block is passed over unconditionally, and
   * `None` stands for the failed assertion in nextInputBlock().
   */
  function StepAsWritten(files: seq<nat>, outputLength: int, c: ChunkState): (r: Option<ChunkState>)
    requires ChunkSound(files, outputLength, c)
  {
    if c.outputOffset.offset == outputLength then Some(c)
    else
      var resumed := Resume(files, c);
      if !CanRoll(files, resumed) then None
      else
        var passed := PassBlock(files, resumed);
        Some(passed.(inputOffset := passed.inputOffset.WithLength(BlockLength(passed.inputLength - passed.inputOffset.offset)),
                     outputOffset := NextChunk(c.outputOffset, outputLength)))
  }

  /**
   * The step as written trips its assertion exactly on a last chunk that
   * takes more than one input block; everywhere else it agrees with the
   * corrected step.
   */
  lemma StepAsWrittenTrips(files: seq<nat>, outputLength: int, c: ChunkState)
    requires Config(files, outputLength) && ChunkSound(files, outputLength, c)
    ensures StepAsWritten(files, outputLength, c).None?
        <==> (c.outputOffset.offset != outputLength
              && c.outputOffset.offset + c.outputOffset.length == outputLength
              && c.outputOffset.length != c.inputOffset.length)
    ensures StepAsWritten(files, outputLength, c).Some? ==>
      StepAsWritten(files, outputLength, c).value == Step(files, outputLength, c)
  {
    if c.outputOffset.offset != outputLength {
      ResumeLands(files, outputLength, c);
    }
  }

  /**
   * The smallest case: two inputs of 1 KiB. The single chunk takes a block
   * from each, so the step as written trips, while the corrected step moves
   * the output offset to the end of the output.
   */
  lemma TwoSmallFilesTrip(files: seq<nat>, outputLength: int)
    requires files == [1024, 1024] && outputLength == 2048
    ensures Config(files, outputLength) && ChunkSound(files, outputLength, BeginState(files, outputLength))
    ensures StepAsWritten(files, outputLength, BeginState(files, outputLength)) == None
    ensures Step(files, outputLength, BeginState(files, outputLength)).outputOffset.offset == outputLength
  {
    assert Sum(files) == outputLength by {
      assert files[1..][1..] == [];
    }
    var b := BeginState(files, outputLength);
    assert b.outputOffset.length == 2048 && b.inputOffset.length == 1024;
    BeginSound(files, outputLength);
    StepAsWrittenTrips(files, outputLength, b);
    StepSound(files, outputLength, b);
  }

  /**
   * A step keeps the iterator sound; the next chunk starts where the current
   * one ends and is one transfer block of what is left, so the output offset
   * moves on.
   */
  lemma StepSound(files: seq<nat>, outputLength: int, c: ChunkState)
    requires Config(files, outputLength) && ChunkSound(files, outputLength, c)
    requires c.outputOffset.offset != outputLength
    ensures ChunkSound(files, outputLength, Step(files, outputLength, c))
    ensures Step(files, outputLength, c).outputOffset.offset == c.outputOffset.offset + c.outputOffset.length
    ensures Step(files, outputLength, c).outputOffset.length
         == BlockLength(outputLength - (c.outputOffset.offset + c.outputOffset.length))
    ensures c.outputOffset.offset < Step(files, outputLength, c).outputOffset.offset <= outputLength
  {
    SoundShape(files, outputLength, c);
    var position := c.outputOffset.offset + c.outputOffset.length;
    ResumeLands(files, outputLength, c);
    NextBlockLands(files, Resume(files, c), position);
    var a := NextBlock(files, Resume(files, c));
    var o := NextChunk(c.outputOffset, outputLength);
    var r := a.(outputOffset := o);
    assert Step(files, outputLength, c) == r;
    assert InputPosition(files, r) == InputPosition(files, a);
    UnreadCompletesStream(files, r);
  }

  /**
   * A sound iterator compares equal to end() exactly when its output offset
   * has reached the end of the output.
   */
  lemma AtEndSentinel(files: seq<nat>, outputLength: int, c: ChunkState)
    requires Config(files, outputLength) && ChunkSound(files, outputLength, c)
    ensures SameChunk(c, EndSentinel(files, outputLength)) <==> c.outputOffset.offset == outputLength
  {
    if c.outputOffset.offset == outputLength && c.file < |files| {
      SumPrefixBound(files, c.file);
    }
  }

  /** begin() is a sound iterator. */
  lemma BeginSound(files: seq<nat>, outputLength: int)
    requires Config(files, outputLength)
    ensures ChunkSound(files, outputLength, BeginState(files, outputLength))
  {
    var b := BeginState(files, outputLength);
    assert InputPosition(files, b) == 0 by {
      assert files[..0] == [];
    }
    SumPrefixBound(files, 0);
    UnreadCompletesStream(files, b);
  }

  /**
   * The chunks a range-for over the iterator visits from `c`: it stops when
   * the iterator compares equal to end().
   */
  function Chunks(files: seq<nat>, outputLength: int, c: ChunkState): seq<Span>
    requires Config(files, outputLength) && ChunkSound(files, outputLength, c)
    decreases outputLength - c.outputOffset.offset
  {
    AtEndSentinel(files, outputLength, c);
    if SameChunk(c, EndSentinel(files, outputLength)) then []
    else
      StepSound(files, outputLength, c);
      [Span(c.outputOffset.offset, c.outputOffset.length)] + Chunks(files, outputLength, Step(files, outputLength, c))
  }

  /** Every span is one transfer block of what is left of the output from its start. */
  predicate BlockSized(spans: seq<Span>, outputLength: int)
  {
    forall i :: 0 <= i < |spans| ==> spans[i].length == BlockLength(outputLength - spans[i].offset)
  }

  lemma BlockSizedCons(first: Span, rest: seq<Span>, outputLength: int)
    requires first.length == BlockLength(outputLength - first.offset)
    requires BlockSized(rest, outputLength)
    ensures BlockSized([first] + rest, outputLength)
  {
    assert forall i :: 0 < i < |[first] + rest| ==> ([first] + rest)[i] == rest[i - 1];
  }

  /**
   * The chunks visited from a sound iterator tile the output from the
   * current chunk to the end, and each is one transfer block of what is left
   * of the output.
   */
  lemma {:induction false} ChunksTile(files: seq<nat>, outputLength: int, c: ChunkState)
    requires Config(files, outputLength) && ChunkSound(files, outputLength, c)
    ensures Tiles(Chunks(files, outputLength, c), c.outputOffset.offset, outputLength)
    ensures BlockSized(Chunks(files, outputLength, c), outputLength)
    decreases outputLength - c.outputOffset.offset
  {
    AtEndSentinel(files, outputLength, c);
    SoundShape(files, outputLength, c);
    if c.outputOffset.offset != outputLength {
      ChunksStep(files, outputLength, c);
      var next := Step(files, outputLength, c);
      ChunksTile(files, outputLength, next);
      var first := Span(c.outputOffset.offset, c.outputOffset.length);
      var rest := Chunks(files, outputLength, next);
      TilesCons(first, rest, outputLength);
      BlockSizedCons(first, rest, outputLength);
    }
  }

  /** One chunk of the range-for: the current chunk, then the chunks from the next one. */
  lemma ChunksStep(files: seq<nat>, outputLength: int, c: ChunkState)
    requires Config(files, outputLength) && ChunkSound(files, outputLength, c)
    requires c.outputOffset.offset != outputLength
    ensures ChunkSound(files, outputLength, Step(files, outputLength, c))
    ensures Step(files, outputLength, c).outputOffset.offset == c.outputOffset.offset + c.outputOffset.length
    ensures Chunks(files, outputLength, c)
         == [Span(c.outputOffset.offset, c.outputOffset.length)] + Chunks(files, outputLength, Step(files, outputLength, c))
  {
    AtEndSentinel(files, outputLength, c);
    StepSound(files, outputLength, c);
  }

  /**
   * Iterating from begin() to end() visits chunks that tile the whole
   * output, none longer than one transfer block.
   */
  lemma ChunkerPartitionsOutput(files: seq<nat>, outputLength: int)
    requires Config(files, outputLength)
    ensures ChunkSound(files, outputLength, BeginState(files, outputLength))
    ensures Tiles(Chunks(files, outputLength, BeginState(files, outputLength)), 0, outputLength)
    ensures BlockSized(Chunks(files, outputLength, BeginState(files, outputLength)), outputLength)
    ensures forall s :: s in Chunks(files, outputLength, BeginState(files, outputLength)) ==>
      s.length <= TransferBlockSize
  {
    BeginSound(files, outputLength);
    ChunksTile(files, outputLength, BeginState(files, outputLength));
  }

  /**
   * One input of one transfer block copied to an output of the same size:
   * begin() is the whole block on both sides and is not end().
   */
  lemma SingleBlockBegin()
    ensures var files: seq<nat> := [TransferBlockSize];
            var b := BeginState(files, TransferBlockSize);
            && Config(files, TransferBlockSize) && ChunkSound(files, TransferBlockSize, b)
            && b == ChunkState(0, TransferBlockSize, MappingOffset(0, 0, TransferBlockSize), MappingOffset(0, 0, TransferBlockSize))
            && !SameChunk(b, EndSentinel(files, TransferBlockSize))
  {
    var files: seq<nat> := [TransferBlockSize];
    assert files[1..] == [];
    assert Config(files, TransferBlockSize);
    BeginSound(files, TransferBlockSize);
    AtEndSentinel(files, TransferBlockSize, BeginState(files, TransferBlockSize));
  }

  /** The same input: one step from begin() reaches end(), and a further step stays there. */
  lemma SingleBlockStep()
    ensures var files: seq<nat> := [TransferBlockSize];
            var b := BeginState(files, TransferBlockSize);
            && ChunkSound(files, TransferBlockSize, b)
            && ChunkSound(files, TransferBlockSize, Step(files, TransferBlockSize, b))
            && SameChunk(Step(files, TransferBlockSize, b), EndSentinel(files, TransferBlockSize))
            && Step(files, TransferBlockSize, Step(files, TransferBlockSize, b)) == Step(files, TransferBlockSize, b)
  {
    var files: seq<nat> := [TransferBlockSize];
    var b := BeginState(files, TransferBlockSize);
    SingleBlockBegin();
    StepSound(files, TransferBlockSize, b);
    AtEndSentinel(files, TransferBlockSize, Step(files, TransferBlockSize, b));
  }

  /** A chunking_t object: the output length is fixed at construction. */
  class Chunker {
    var file: nat
    var inputLength: int
    var inputOffset: MappingOffset
    const outputLength: int
    var outputOffset: MappingOffset

    /** subchunkState() (and operator *): the four fields as a chunk state. */
    function SubchunkState(): ChunkState
      reads this
    {
      ChunkState(file, inputLength, inputOffset, outputOffset)
    }

    /** The default constructor, which begin() uses. */
    constructor (files: seq<nat>, outputLength: int)
      requires |files| > 0
      ensures this.outputLength == outputLength
      ensures SubchunkState() == BeginState(files, outputLength)
    {
      file := 0;
      inputLength := files[0];
      inputOffset := Zero.WithLength(BlockLength(files[0]));
      this.outputLength := outputLength;
      outputOffset := Zero.WithLength(BlockLength(outputLength));
    }

    /** The constructor end() uses: past the last file, at the end of the output. */
    constructor AtEnd(files: seq<nat>, outputLength: int)
      ensures this.outputLength == outputLength
      ensures SubchunkState() == EndSentinel(files, outputLength)
    {
      file := |files|;
      inputLength := 0;
      inputOffset := Zero;
      this.outputLength := outputLength;
      outputOffset := FromOffset(outputLength);
    }

    /**
     * nextInputBlock(): pass over the current block, rolling over to the next
     * file at the end of this one; the assertion that there is a file to roll
     * over from is the precondition.
     */
    method NextInputBlock(files: seq<nat>)
      requires file <= |files| && CanRoll(files, SubchunkState())
      modifies this
      ensures SubchunkState() == PassBlock(files, old(SubchunkState()))
    {
      inputOffset := inputOffset.Plus(inputOffset.length);
      if inputOffset.offset == inputLength {
        file := file + 1;
        inputLength := if file == |files| then 0 else files[file];
        inputOffset := Zero;
      }
    }

    /**
     * The first half of operator ++: take the input position from the end of
     * the sub-chunk walk over the chunk (`EndOf`, which `ChunkCursor.End`
     * computes) when the chunk's output and input lengths differ.
     */
    method ResumeInput(files: seq<nat>)
      requires Sound(files, SubchunkState())
      modifies this
      ensures SubchunkState() == Resume(files, old(SubchunkState()))
    {
      var start := SubchunkState();
      var resumed := start;
      if start.outputOffset.length != start.inputOffset.length {
        var state := EndOf(files, start);
        resumed := ChunkState(state.file, state.inputLength, state.inputOffset, start.outputOffset);
      }
      file, inputLength, inputOffset := resumed.file, resumed.inputLength, resumed.inputOffset;
    }

    /** operator ++, with the block passed over only while a file is left. */
    method Increment(files: seq<nat>)
      requires Config(files, outputLength) && ChunkSound(files, outputLength, SubchunkState())
      modifies this
      ensures SubchunkState() == Step(files, outputLength, old(SubchunkState()))
    {
      if outputOffset.offset == outputLength {
        return;
      }
      ResumeInput(files);
      if file != |files| {
        NextInputBlock(files);
      }
      inputOffset := inputOffset.WithLength(BlockLength(inputLength - inputOffset.offset));
      outputOffset := outputOffset.Plus(outputOffset.length);
      outputOffset := outputOffset.WithLength(BlockLength(outputLength - outputOffset.offset));
    }

    predicate Equals(other: Chunker)
      reads this, other
    {
      SameChunk(SubchunkState(), other.SubchunkState())
    }
  }

  /** fileChunker_t: hands out the begin() and end() iterators. */
  class FileChunker {
    constructor ()
    {
    }

    method Begin(files: seq<nat>, outputLength: int) returns (c: Chunker)
      requires |files| > 0
      ensures fresh(c) && c.outputLength == outputLength
      ensures c.SubchunkState() == BeginState(files, outputLength)
    {
      c := new Chunker(files, outputLength);
    }

    method End(files: seq<nat>, outputLength: int) returns (c: Chunker)
      ensures fresh(c) && c.outputLength == outputLength
      ensures c.SubchunkState() == EndSentinel(files, outputLength)
    {
      c := new Chunker.AtEnd(files, outputLength);
    }
  }
}
