/**
 * chunkSpans::chunkState_t: the sub-block walker used by the chunk-spans
 * algorithm. It differs from the block-linear one in that every sub-block is
 * also capped at one transfer block, since a span can be many blocks long.
 *
 * As written, operator ++ sizes the next sub-block by the whole length of the
 * current file instead of by what is left of it, so a sub-block that starts
 * part-way into a file can run past that file's end. `NextAsWritten` models
 * the code as written and `AsWrittenOvershoots` exhibits the overrun; `Next`
 * is the corrected step, and the rest of the model uses it.
 */
module SpanChunkStates {
  import opened Chunking
  import opened MappingOffsets
  import opened InputFiles
  import opened ChunkStates

  /**
   * The states stepping keeps to: the file is real (or the end iterator), the
   * recorded length is that file's, the sub-block lies inside the file and
   * inside what is left of the output, an empty sub-block with output still
   * to fill sits at the end of its file, and the input left covers the output
   * left.
   */
  predicate Sound(files: seq<nat>, s: ChunkState)
  {
    && s.file <= |files|
    && s.inputLength == FileLength(files, s.file)
    && 0 <= s.inputOffset.offset
    && 0 <= s.inputOffset.length <= s.outputOffset.length
    && s.InputEnd() <= s.inputLength
    && (s.inputOffset.length == 0 && !s.AtEnd() ==> s.InputEnd() == s.inputLength)
    && s.outputOffset.length <= Unread(files, s)
  }

  /**
   * operator ++ as written: the output range loses the sub-block just copied
   * from its front; the input moves past that sub-block, rolling over to the
   * next file at the end of this one; and the next sub-block's length is the
   * least of a transfer block, the output left, and the length of the whole
   * current file.
   */
  function NextAsWritten(files: seq<nat>, s: ChunkState): (r: ChunkState)
    requires s.AtEnd() || (s.file <= |files| && CanRoll(files, s))
  {
    if s.AtEnd() then s
    else
      var t := PassBlock(files, s.(outputOffset := MovedOutput(s)));
      t.(inputOffset := t.inputOffset.WithLength(BlockLength(Min(MovedOutput(s).length, t.inputLength))))
  }

  /** The input sub-block once passed over, still in the same file. */
  function Passed(s: ChunkState): MappingOffset
  {
    s.inputOffset.Plus(s.inputOffset.length)
  }

  /** The output range left after the current sub-block is copied. */
  function MovedOutput(s: ChunkState): MappingOffset
  {
    s.outputOffset.Plus(s.inputOffset.length).WithLength(s.outputOffset.length - s.inputOffset.length)
  }

  /**
   * The last line of the corrected operator ++: the new sub-block is capped by
   * a transfer block, the output left and what is left of the file.
   */
  function SizeBlock(t: ChunkState, remainder: int): ChunkState
  {
    t.(inputOffset := t.inputOffset.WithLength(BlockLength(Min(remainder, t.inputLength - t.inputOffset.offset))))
  }

  /**
   * operator ++ corrected: as written, except that the next sub-block's
   * length is bounded by what is left of the current file.
   */
  function Next(files: seq<nat>, s: ChunkState): (r: ChunkState)
    requires s.AtEnd() || (s.file <= |files| && CanRoll(files, s))
    ensures s.AtEnd() ==> r == s
  {
    if s.AtEnd() then s
    else SizeBlock(PassBlock(files, s.(outputOffset := MovedOutput(s))), MovedOutput(s).length)
  }

  /**
   * The corrected step at the end of a file: the output range moves on by the
   * sub-block, the input moves to the start of the next file, and the new
   * sub-block is the least of a transfer block, the output left and the
   * length of that file.
   */
  lemma NextRolls(files: seq<nat>, s: ChunkState)
    requires !s.AtEnd() && s.file < |files| && s.InputEnd() == s.inputLength
    ensures Next(files, s) == ChunkState(s.file + 1, FileLength(files, s.file + 1),
              MappingOffset(0, 0, BlockLength(Min(MovedOutput(s).length, FileLength(files, s.file + 1)))),
              MovedOutput(s))
  {
    var u := s.(outputOffset := MovedOutput(s));
    assert u.InputEnd() == u.inputLength;
    assert PassBlock(files, u) == u.(file := s.file + 1, inputLength := FileLength(files, s.file + 1), inputOffset := Zero);
  }

  /**
   * The corrected step inside a file: the output range moves on by the
   * sub-block, the input moves past it in the same file, and the new
   * sub-block is the least of a transfer block, the output left and what is
   * left of the file.
   */
  lemma NextStays(files: seq<nat>, s: ChunkState)
    requires !s.AtEnd() && s.file <= |files| && s.InputEnd() != s.inputLength
    ensures Next(files, s) == ChunkState(s.file, s.inputLength,
              Passed(s).WithLength(BlockLength(Min(MovedOutput(s).length, s.inputLength - Passed(s).offset))),
              MovedOutput(s))
  {
    var u := s.(outputOffset := MovedOutput(s));
    assert u.InputEnd() != u.inputLength;
    assert PassBlock(files, u) == u.(inputOffset := Passed(s));
  }

  /** The output range left after a step moves on by the sub-block and keeps its end. */
  lemma MovedOutputKeepsEnd(s: ChunkState)
    ensures MovedOutput(s).offset == s.outputOffset.offset + s.inputOffset.length
    ensures MovedOutput(s).length == s.outputOffset.length - s.inputOffset.length
  {
  }

  /** A sound state never trips the assertion in nextInputBlock(). */
  lemma SoundCanRoll(files: seq<nat>, s: ChunkState)
    requires Sound(files, s) && !s.AtEnd()
    ensures CanRoll(files, s)
  {
  }

  /**
   * The overrun: from a sound state whose sub-block stops short of the end of
   * its file by less than both a transfer block and the output left, the
   * step as written picks a sub-block that ends past the end of the file.
   */
  lemma AsWrittenOvershoots(files: seq<nat>, s: ChunkState)
    requires Sound(files, s) && !s.AtEnd()
    requires s.InputEnd() < s.inputLength
    requires s.inputLength - s.InputEnd()
           < BlockLength(s.outputOffset.length - s.inputOffset.length)
    ensures CanRoll(files, s)
    ensures NextAsWritten(files, s).file == s.file
    ensures NextAsWritten(files, s).InputEnd() > NextAsWritten(files, s).inputLength
    ensures !Sound(files, NextAsWritten(files, s))
  {
  }

  /**
   * Two inputs of one and a half transfer blocks each, copied as one span of
   * three transfer blocks (what the chunk-spans algorithm does on one
   * processor): the first sub-block is one transfer block; the step as
   * written then takes a second full block, ending half a block past the end
   * of the first file, where the corrected step takes the half block left.
   */
  lemma OvershootExample()
    ensures var half := TransferBlockSize / 2;
            var files := [3 * half, 3 * half];
            var s := ChunkState(0, 3 * half, MappingOffset(0, 0, 2 * half), MappingOffset(0, 0, 6 * half));
            && Sound(files, s)
            && NextAsWritten(files, s).InputEnd() == 4 * half > files[0]
            && Next(files, s).InputEnd() == files[0]
  {
    var half := TransferBlockSize / 2;
    var files := [3 * half, 3 * half];
    var s := ChunkState(0, 3 * half, MappingOffset(0, 0, 2 * half), MappingOffset(0, 0, 6 * half));
    assert Following(files, 0) == 3 * half by {
      assert files[1..] == [3 * half];
      assert Sum(files[1..]) == 3 * half + Sum([]);
    }
  }

  /**
   * One input of exactly one transfer block, filling a chunk of one transfer
   * block: a single step copies the whole file, moves past the last file and
   * leaves the output range empty at the end of the block.
   */
  lemma AlignedChunkFills()
    ensures var files: seq<nat> := [TransferBlockSize];
            var s := ChunkState(0, TransferBlockSize, MappingOffset(0, 0, TransferBlockSize), MappingOffset(0, 0, TransferBlockSize));
            && Sound(files, s) && !s.AtEnd()
            && Next(files, s) == ChunkState(1, 0, Zero, MappingOffset(TransferBlockSize, 0, 0))
            && Next(files, s).AtEnd()
            && EndOf(files, s) == Next(files, s)
  {
    var files: seq<nat> := [TransferBlockSize];
    var s := ChunkState(0, TransferBlockSize, MappingOffset(0, 0, TransferBlockSize), MappingOffset(0, 0, TransferBlockSize));
    assert files[1..] == [];
    assert Sound(files, s);
    NextRolls(files, s);
    EndOfNext(files, s);
  }

  /** Three inputs of 1 KiB, 3 KiB and one transfer block. */
  function UnalignedFiles(): seq<nat>
  {
    [1024, 3072, TransferBlockSize]
  }

  /** A chunk of one transfer block starting with the whole first input. */
  function UnalignedBegin(): ChunkState
  {
    ChunkState(0, 1024, MappingOffset(0, 0, 1024), MappingOffset(0, 0, TransferBlockSize))
  }

  /** After the first input: the whole second input, at output offset 1 KiB. */
  function UnalignedMiddle1(): ChunkState
  {
    ChunkState(1, 3072, MappingOffset(0, 0, 3072), MappingOffset(1024, 1024, TransferBlockSize - 1024))
  }

  /** After the second input: what is left of the chunk, from the start of the third input. */
  function UnalignedMiddle2(): ChunkState
  {
    ChunkState(2, TransferBlockSize, MappingOffset(0, 0, TransferBlockSize - 4096),
               MappingOffset(4096, 0, TransferBlockSize - 4096))
  }

  /** The chunk filled, partway into the third input. */
  function UnalignedEnd(): ChunkState
  {
    ChunkState(2, TransferBlockSize, MappingOffset(TransferBlockSize - 4096, 0, 0), MappingOffset(TransferBlockSize, 0, 0))
  }

  /** The four states are the ones the two-argument offset constructor builds from their offsets and lengths. */
  lemma UnalignedOffsetsConstructed()
    ensures UnalignedMiddle1().outputOffset == FromRange(1024, TransferBlockSize - 1024)
    ensures UnalignedMiddle2().outputOffset == FromRange(4096, TransferBlockSize - 4096)
    ensures UnalignedEnd().inputOffset == FromOffset(TransferBlockSize - 4096)
    ensures UnalignedEnd().outputOffset == FromRange(TransferBlockSize, 0)
  {
    assert PageRem(1024) == 1024;
    assert PageRem(4096) == 0;
    assert PageRem(TransferBlockSize - 4096) == 0;
    assert PageRem(TransferBlockSize) == 0;
  }

  /** The first step rolls over to the second input, which fits in what is left of the chunk. */
  lemma UnalignedFirstStep()
    ensures Next(UnalignedFiles(), UnalignedBegin()) == UnalignedMiddle1() && !UnalignedMiddle1().AtEnd()
  {
    NextRolls(UnalignedFiles(), UnalignedBegin());
  }

  /** The second step rolls over to the third input, of which only the rest of the chunk is taken. */
  lemma UnalignedSecondStep()
    ensures Next(UnalignedFiles(), UnalignedMiddle1()) == UnalignedMiddle2() && !UnalignedMiddle2().AtEnd()
  {
    NextRolls(UnalignedFiles(), UnalignedMiddle1());
  }

  /** The third step fills the chunk and stays in the third input. */
  lemma UnalignedLastStep()
    ensures Next(UnalignedFiles(), UnalignedMiddle2()) == UnalignedEnd() && UnalignedEnd().AtEnd()
  {
    NextStays(UnalignedFiles(), UnalignedMiddle2());
  }

  /** The chunk over the three inputs starts from a sound state that is not at its end. */
  lemma UnalignedBeginSound()
    ensures Sound(UnalignedFiles(), UnalignedBegin()) && !UnalignedBegin().AtEnd()
  {
    var files := UnalignedFiles();
    assert files[1..] == [3072, TransferBlockSize] && files[1..][1..] == [TransferBlockSize];
    assert Following(files, 0) == 3072 + TransferBlockSize;
  }

  /** Three steps from the first state of the chunk over the three inputs reach the filled chunk. */
  lemma UnalignedChunkFills()
    ensures Next(UnalignedFiles(), Next(UnalignedFiles(), Next(UnalignedFiles(), UnalignedBegin()))) == UnalignedEnd()
  {
    UnalignedFirstStep();
    UnalignedSecondStep();
    UnalignedLastStep();
  }

  /** end() of the chunk over the three inputs computes the filled chunk. */
  lemma UnalignedEndOf()
    ensures Sound(UnalignedFiles(), UnalignedBegin())
    ensures EndOf(UnalignedFiles(), UnalignedBegin()) == UnalignedEnd()
  {
    var files := UnalignedFiles();
    UnalignedBeginSound();
    UnalignedFirstStep();
    EndOfNext(files, UnalignedBegin());
    UnalignedSecondStep();
    EndOfNext(files, UnalignedMiddle1());
    UnalignedLastStep();
    EndOfNext(files, UnalignedMiddle2());
  }

  /**
   * `r` is laid out as the corrected step lays out the state after `s`: the
   * output range moved on by the sub-block, the input moved past the
   * sub-block or on to the next file, and the next sub-block capped by a
   * transfer block, the output left and the file left.
   */
  predicate Stepped(files: seq<nat>, s: ChunkState, r: ChunkState)
  {
    && r.outputOffset.offset == s.outputOffset.offset + s.inputOffset.length
    && r.outputOffset.length == s.outputOffset.length - s.inputOffset.length
    && (s.InputEnd() == s.inputLength ==>
          r.file == s.file + 1 && r.inputLength == FileLength(files, s.file + 1) && r.inputOffset.offset == 0)
    && (s.InputEnd() != s.inputLength ==>
          r.file == s.file && r.inputLength == s.inputLength && r.inputOffset.offset == s.InputEnd())
    && r.inputOffset.length == BlockLength(Min(r.outputOffset.length, r.inputLength - r.inputOffset.offset))
  }

  /** The corrected step lays the state out as `Stepped` says. */
  lemma NextStepped(files: seq<nat>, s: ChunkState)
    requires !s.AtEnd() && s.file <= |files| && CanRoll(files, s)
    ensures Stepped(files, s, Next(files, s))
  {
    if s.InputEnd() == s.inputLength {
      RollStepped(files, s);
    } else {
      StayStepped(files, s);
    }
  }

  /** `NextStepped` at the end of a file. */
  lemma RollStepped(files: seq<nat>, s: ChunkState)
    requires !s.AtEnd() && s.file < |files| && s.InputEnd() == s.inputLength
    ensures Stepped(files, s, Next(files, s))
  {
    MovedOutputKeepsEnd(s);
    NextRolls(files, s);
    var r := Next(files, s);
    assert r.outputOffset.offset == s.outputOffset.offset + s.inputOffset.length;
    assert r.outputOffset.length == s.outputOffset.length - s.inputOffset.length;
    assert r.file == s.file + 1 && r.inputLength == FileLength(files, s.file + 1) && r.inputOffset.offset == 0;
    var moved, length := MovedOutput(s).length, FileLength(files, s.file + 1);
    assert r.inputOffset == MappingOffset(0, 0, BlockLength(Min(moved, length)));
    assert r.outputOffset.length == moved;
    assert r.inputLength - r.inputOffset.offset == length;
    assert r.inputOffset.length == BlockLength(Min(r.outputOffset.length, r.inputLength - r.inputOffset.offset));
  }

  /** `NextStepped` inside a file. */
  lemma StayStepped(files: seq<nat>, s: ChunkState)
    requires !s.AtEnd() && s.file <= |files| && s.InputEnd() != s.inputLength
    ensures Stepped(files, s, Next(files, s))
  {
    MovedOutputKeepsEnd(s);
    NextStays(files, s);
    var r := Next(files, s);
    assert r.outputOffset.offset == s.outputOffset.offset + s.inputOffset.length;
    assert r.outputOffset.length == s.outputOffset.length - s.inputOffset.length;
    assert r.file == s.file && r.inputLength == s.inputLength && r.inputOffset.offset == s.InputEnd();
    var moved, left := MovedOutput(s).length, s.inputLength - Passed(s).offset;
    assert r.inputOffset == Passed(s).WithLength(BlockLength(Min(moved, left)));
    assert r.outputOffset.length == moved;
    assert r.inputLength - r.inputOffset.offset == left;
    assert r.inputOffset.length == BlockLength(Min(r.outputOffset.length, r.inputLength - r.inputOffset.offset));
  }

  /**
   * Any state laid out as the corrected step lays it out is sound, sits as
   * far into the input stream as the output has moved on, and has less
   * output left or a later file.
   */
  lemma {:induction false} StepSound(files: seq<nat>, s: ChunkState, r: ChunkState)
    requires Sound(files, s) && !s.AtEnd() && Stepped(files, s, r)
    ensures Sound(files, r)
    ensures InputPosition(files, r) == InputPosition(files, s) + s.inputOffset.length
    ensures r.outputOffset.length < s.outputOffset.length
         || (r.outputOffset.length == s.outputOffset.length && r.file == s.file + 1)
  {
    if s.InputEnd() == s.inputLength {
      RollKeepsPosition(files, s.file);
    }
  }

  /**
   * The corrected step keeps the state sound, moves the input position on by
   * exactly as much as the output position, and either shortens the output
   * left or moves on to the next file.
   */
  lemma NextPreservesSound(files: seq<nat>, s: ChunkState)
    requires Sound(files, s) && !s.AtEnd()
    ensures CanRoll(files, s)
    ensures Sound(files, Next(files, s))
    ensures Next(files, s).outputOffset.offset == s.outputOffset.offset + s.inputOffset.length
    ensures Next(files, s).outputOffset.length == s.outputOffset.length - s.inputOffset.length
    ensures InputPosition(files, Next(files, s)) == InputPosition(files, s) + s.inputOffset.length
    ensures Next(files, s).outputOffset.length < s.outputOffset.length
         || (Next(files, s).outputOffset.length == s.outputOffset.length && Next(files, s).file == s.file + 1)
  {
    SoundCanRoll(files, s);
    NextStepped(files, s);
    StepSound(files, s, Next(files, s));
  }

  /**
   * end(): the state reached by stepping until nothing of the output is left.
   * It fills exactly the output range the state started with, and the input
   * position has moved on by the same amount.
   */
  function EndOf(files: seq<nat>, s: ChunkState): (e: ChunkState)
    requires Sound(files, s)
    ensures Sound(files, e)
    ensures e.AtEnd()
    ensures Next(files, e) == e
    ensures e.outputOffset.offset == s.outputOffset.offset + s.outputOffset.length
    ensures InputPosition(files, e) == InputPosition(files, s) + s.outputOffset.length
    decreases s.outputOffset.length, |files| - s.file
  {
    if s.AtEnd() then s
    else
      NextPreservesSound(files, s);
      EndOf(files, Next(files, s))
  }

  /** Every state on the way to the end has the same end. */
  lemma EndOfNext(files: seq<nat>, s: ChunkState)
    requires Sound(files, s) && !s.AtEnd()
    ensures s.file <= |files| && CanRoll(files, s)
    ensures Sound(files, Next(files, s)) && EndOf(files, Next(files, s)) == EndOf(files, s)
    ensures Next(files, s).outputOffset.length < s.outputOffset.length
         || (Next(files, s).outputOffset.length == s.outputOffset.length && Next(files, s).file == s.file + 1)
  {
    NextPreservesSound(files, s);
  }

  /** A chunkSpans::chunkState_t object, stepping with the corrected sub-block length. */
  class ChunkCursor {
    var file: nat
    var inputLength: int
    var inputOffset: MappingOffset
    var outputOffset: MappingOffset

    function State(): ChunkState
      reads this
    {
      ChunkState(file, inputLength, inputOffset, outputOffset)
    }

    /** The four-field constructor, and the copy constructor given another's state. */
    constructor (s: ChunkState)
      ensures State() == s
    {
      file, inputLength, inputOffset, outputOffset := s.file, s.inputLength, s.inputOffset, s.outputOffset;
    }

    predicate AtEnd()
      reads this
    {
      outputOffset.length == 0
    }

    method NextInputBlock(files: seq<nat>)
      requires file <= |files| && CanRoll(files, State())
      modifies this
      ensures State() == PassBlock(files, old(State()))
    {
      inputOffset := inputOffset.Plus(inputOffset.length);
      if inputOffset.offset == inputLength {
        file := file + 1;
        inputLength := if file == |files| then 0 else files[file];
        inputOffset := Zero;
      }
    }

    method Increment(files: seq<nat>)
      requires AtEnd() || (file <= |files| && CanRoll(files, State()))
      modifies this
      ensures State() == Next(files, old(State()))
    {
      if AtEnd() {
        return;
      }
      ghost var s := State();
      var remainder := outputOffset.length - inputOffset.length;
      outputOffset := outputOffset.Plus(inputOffset.length);
      outputOffset := outputOffset.WithLength(remainder);
      assert State() == s.(outputOffset := MovedOutput(s));
      NextInputBlock(files);
      ghost var t := State();
      inputOffset := inputOffset.WithLength(BlockLength(Min(remainder, inputLength - inputOffset.offset)));
      assert State() == SizeBlock(t, remainder);
    }

    /** end(): step a copy of this state until it is at its end. */
    method End(files: seq<nat>) returns (e: ChunkState)
      requires Sound(files, State())
      ensures e == EndOf(files, State())
    {
      var start := State();
      var state := new ChunkCursor(start);
      while !state.AtEnd()
        invariant Sound(files, state.State())
        invariant EndOf(files, state.State()) == EndOf(files, start)
        decreases state.outputOffset.length, |files| - state.file
      {
        EndOfNext(files, state.State());
        state.Increment(files);
      }
      e := state.State();
    }

    predicate Equals(other: ChunkCursor)
      reads this, other
    {
      State().Equals(other.State())
    }
  }
}
