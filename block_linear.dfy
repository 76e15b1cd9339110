/**
 * blockLinear::chunkState_t: walks one output chunk through the input files,
 * one input sub-block at a time. Each step copies the current sub-block, moves
 * the output range on by its length and picks the next sub-block, rolling over
 * to the next input file when the current one is used up.
 */
module BlockLinear {
  import opened Chunking
  import opened MappingOffsets
  import opened InputFiles
  import opened ChunkStates

  /**
   * The states from which stepping is well defined and keeps to the input:
   * the file is real (or the end iterator), the recorded length is that
   * file's, the sub-block lies inside the file and inside what is left of the
   * output, a sub-block shorter than the output left runs to the end of its
   * file, and the input left covers the output left.
   */
  predicate Sound(files: seq<nat>, s: ChunkState)
  {
    && s.file <= |files|
    && s.inputLength == FileLength(files, s.file)
    && 0 <= s.inputOffset.offset
    && 0 <= s.inputOffset.length <= s.outputOffset.length
    && s.InputEnd() <= s.inputLength
    && (s.inputOffset.length == s.outputOffset.length || s.InputEnd() == s.inputLength)
    && s.outputOffset.length <= Unread(files, s)
  }

  /**
   * nextInputBlock(remainder): move past the current sub-block, roll over to
   * the next file at the end of this one, and take the next sub-block's length
   * as the smaller of `remainder` and the (new) file's length.
   */
  function AdvanceInput(files: seq<nat>, s: ChunkState, remainder: int): (r: ChunkState)
    requires s.file <= |files| && CanRoll(files, s)
  {
    var t := PassBlock(files, s);
    t.(inputOffset := t.inputOffset.WithLength(Min(remainder, t.inputLength)))
  }

  /**
   * operator ++: nothing happens at the end; otherwise the output range
   * loses the sub-block just copied from its front and the next sub-block is
   * chosen.
   */
  function Next(files: seq<nat>, s: ChunkState): (r: ChunkState)
    requires s.AtEnd() || (s.file <= |files| && CanRoll(files, s))
    ensures s.AtEnd() ==> r == s
    ensures !s.AtEnd() ==> r.outputOffset.offset == s.outputOffset.offset + s.inputOffset.length
    ensures !s.AtEnd() ==>
      r.outputOffset.offset + r.outputOffset.length == s.outputOffset.offset + s.outputOffset.length
    ensures !s.AtEnd() ==> r.inputOffset.length == Min(r.outputOffset.length, r.inputLength)
  {
    if s.AtEnd() then s
    else
      var remainder := s.outputOffset.length - s.inputOffset.length;
      var t := s.(outputOffset := s.outputOffset.Plus(s.inputOffset.length).WithLength(remainder));
      AdvanceInput(files, t, remainder)
  }

  /** A sound state never trips the assertion in nextInputBlock(). */
  lemma SoundCanRoll(files: seq<nat>, s: ChunkState)
    requires Sound(files, s) && !s.AtEnd()
    ensures CanRoll(files, s)
  {
  }

  /**
   * A step keeps the state sound, moves the input position on by exactly as
   * much as the output position, and either shortens the output left or
   * moves on to the next file.
   */
  lemma {:induction false} NextPreservesSound(files: seq<nat>, s: ChunkState)
    requires Sound(files, s) && !s.AtEnd()
    ensures CanRoll(files, s)
    ensures Sound(files, Next(files, s))
    ensures InputPosition(files, Next(files, s)) == InputPosition(files, s) + s.inputOffset.length
    ensures Next(files, s).outputOffset.length < s.outputOffset.length
         || (Next(files, s).outputOffset.length == s.outputOffset.length && Next(files, s).file == s.file + 1)
  {
    SoundCanRoll(files, s);
    var r := Next(files, s);
    if s.InputEnd() == s.inputLength {
      RollKeepsPosition(files, s.file);
      assert r.file == s.file + 1;
    } else {
      assert r.file == s.file;
    }
  }

  /**
   * end(): the state reached by stepping until nothing of the output is left.
   * It fills exactly the output range the state started with, and the input
   * position has moved on by the same amount.
   */
  function EndOf(files: seq<nat>, s: ChunkState): (e: ChunkState)
    requires Sound(files, s)
    ensures Sound(files, e) && e.AtEnd() && Next(files, e) == e
    ensures e.outputOffset.offset == s.outputOffset.offset + s.outputOffset.length
    ensures InputPosition(files, e) == InputPosition(files, s) + s.outputOffset.length
    decreases s.outputOffset.length, |files| - s.file
  {
    if s.AtEnd() then s
    else
      NextPreservesSound(files, s);
      EndOf(files, Next(files, s))
  }

  /** A state at its end is its own end. */
  lemma EndOfAtEnd(files: seq<nat>, s: ChunkState)
    requires Sound(files, s) && s.AtEnd()
    ensures EndOf(files, s) == s
  {
  }

  /** Every state on the way to the end has the same end. */
  lemma EndOfNext(files: seq<nat>, s: ChunkState)
    requires Sound(files, s) && !s.AtEnd()
    ensures Sound(files, Next(files, s)) && EndOf(files, Next(files, s)) == EndOf(files, s)
  {
    NextPreservesSound(files, s);
  }

  /** A chunkState_t object; the input file list is passed to the methods that need it. */
  class ChunkCursor {
    var file: nat
    var inputLength: int
    var inputOffset: MappingOffset
    var outputOffset: MappingOffset

    function State(): ChunkState
      reads this
    {
      ChunkState(file, inputLength, inputOffset, outputOffset)
    }

    /** The four-field constructor, and the copy constructor given another's state. */
    constructor (s: ChunkState)
      ensures State() == s
    {
      file, inputLength, inputOffset, outputOffset := s.file, s.inputLength, s.inputOffset, s.outputOffset;
    }

    predicate AtEnd()
      reads this
    {
      outputOffset.length == 0
    }

    method NextInputBlock(files: seq<nat>, remainder: int)
      requires file <= |files| && CanRoll(files, State())
      modifies this
      ensures State() == AdvanceInput(files, old(State()), remainder)
    {
      ghost var s := State();
      inputOffset := inputOffset.Plus(inputOffset.length);
      assert inputOffset.offset == s.InputEnd();
      if inputOffset.offset == inputLength {
        file := file + 1;
        inputLength := if file == |files| then 0 else files[file];
        inputOffset := Zero;
      }
      inputOffset := inputOffset.WithLength(Min(remainder, inputLength));
    }

    method Increment(files: seq<nat>)
      requires AtEnd() || (file <= |files| && CanRoll(files, State()))
      modifies this
      ensures State() == Next(files, old(State()))
    {
      if AtEnd() {
        return;
      }
      var remainder := outputOffset.length - inputOffset.length;
      outputOffset := outputOffset.Plus(inputOffset.length);
      outputOffset := outputOffset.WithLength(remainder);
      NextInputBlock(files, remainder);
    }

    /** end(): step a copy of this state until it is at its end. */
    method End(files: seq<nat>) returns (e: ChunkState)
      requires Sound(files, State())
      ensures e == EndOf(files, State())
    {
      var start := State();
      var state := new ChunkCursor(start);
      while !state.AtEnd()
        invariant Sound(files, state.State())
        invariant EndOf(files, state.State()) == EndOf(files, start)
        decreases state.outputOffset.length, |files| - state.file
      {
        NextPreservesSound(files, state.State());
        EndOfNext(files, state.State());
        state.Increment(files);
      }
      e := state.State();
    }

    predicate Equals(other: ChunkCursor)
      reads this, other
    {
      State().Equals(other.State())
    }
  }
}
