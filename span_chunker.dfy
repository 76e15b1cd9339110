/**
 * chunkSpans::chunking_t and fileChunker_t: the iterator that cuts the output
 * file into spans, one per unit of work, and keeps track of where in the input
 * files each span's bytes come from. Stepping the iterator walks the current
 * span's sub-blocks to their end (with chunkState_t::end()) to find where the
 * next span's input starts, then moves the output range on to the next span.
 *
 * The output file's length is a constant of the iterator here; the list of
 * input file lengths is passed to the operations that read it. The tail rule
 * used is the intended one (`SpanPlans.TailLength`); `StepAsWritten` steps with
 * the rule as written.
 */
module SpanChunker {
  import opened Chunking
  import opened MappingOffsets
  import opened InputFiles
  import opened ChunkStates
  import opened SpanChunkStates
  import opened SpanPlans

  /**
   * What the copy driver sets up before iterating: spans of at least one
   * transfer block, an output exactly as long as the inputs together, and no
   * empty input (pcat refuses those when it opens them).
   */
  predicate Config(files: seq<nat>, span: nat, outputLength: int)
  {
    && span >= TransferBlockSize
    && Sum(files) == outputLength
    && forall i :: 0 <= i < |files| ==> files[i] > 0
  }

  /**
   * begin(): the first file, its first transfer block (the range
   * `{0, blockLength(length)}`, which `FromRangeAtStart` shows is the default
   * offset with that length), and the first span of
   * the output (one span long, or the whole output if that is shorter).
   */
  function BeginState(files: seq<nat>, span: nat, outputLength: int): ChunkState
  {
    ChunkState(0, FileLength(files, 0), Zero.WithLength(BlockLength(FileLength(files, 0))),
               Zero.WithLength(Min(span, outputLength)))
  }

  /**
   * end(): past the last file, whose length reads as 0, with an empty input
   * range at offset 0 and the output offset at the end of the output.
   */
  function EndSentinel(files: seq<nat>, outputLength: int): ChunkState
  {
    ChunkState(|files|, FileLength(files, |files|), Zero.WithLength(BlockLength(FileLength(files, |files|))),
               FromOffset(outputLength))
  }

  /**
   * The states the iterator keeps to: its sub-chunk state is sound, the input
   * block is the next transfer block of the file and starts inside the file
   * (unless past the last file), the input block sits as far into the stream
   * of inputs as the span sits into the output, and the span is the rest of
   * the output or at least one span long.
   */
  predicate ChunkerSound(files: seq<nat>, span: nat, outputLength: int, c: ChunkState)
  {
    && Sound(files, c)
    && c.inputOffset.length == BlockLength(c.inputLength - c.inputOffset.offset)
    && (c.file < |files| ==> c.inputOffset.offset < c.inputLength)
    && InputPosition(files, c) == c.outputOffset.offset
    && (c.outputOffset.length == outputLength - c.outputOffset.offset || c.outputOffset.length >= span)
  }

  /**
   * In a sound state the input left is exactly the output left, the span
   * fits in it, and a span is empty only at the end of the output.
   */
  lemma SoundShape(files: seq<nat>, span: nat, outputLength: int, c: ChunkState)
    requires Config(files, span, outputLength) && ChunkerSound(files, span, outputLength, c)
    ensures Unread(files, c) == outputLength - c.outputOffset.offset
    ensures 0 <= c.outputOffset.offset <= outputLength
    ensures 0 <= c.outputOffset.length <= outputLength - c.outputOffset.offset
    ensures c.outputOffset.offset < outputLength ==> c.outputOffset.length > 0
  {
    UnreadCompletesStream(files, c);
  }

  /**
   * The input side of a step's first half: when the span's output length
   * differs from its input block, the input resumes where the sub-chunk walk
   * over the span ends; otherwise the span is that one block.
   */
  function Resume(files: seq<nat>, c: ChunkState): ChunkState
    requires Sound(files, c)
  {
    if c.outputOffset.length != c.inputOffset.length then
      EndOf(files, c).(outputOffset := c.outputOffset)
    else c
  }

  /** Resuming a span that still has input to pass over lands on that span's end. */
  lemma ResumeIsEnd(files: seq<nat>, c: ChunkState, e: ChunkState)
    requires Sound(files, c) && c.outputOffset.length != c.inputOffset.length
    requires e == EndOf(files, c)
    ensures Resume(files, c) == ChunkState(e.file, e.inputLength, e.inputOffset, c.outputOffset)
  {
  }

  /** A span whose input block covers its output is resumed as it is. */
  lemma ResumeKeeps(files: seq<nat>, c: ChunkState)
    requires Sound(files, c) && c.outputOffset.length == c.inputOffset.length
    ensures Resume(files, c) == c
  {
  }

  /**
   * The input is where a span ending at stream position `position` leaves it:
   * inside the files, with the block still to pass over ending at
   * `position`, and empty past the last file.
   */
  predicate Resumed(files: seq<nat>, r: ChunkState, position: int)
  {
    && r.file <= |files|
    && r.inputLength == FileLength(files, r.file)
    && 0 <= r.inputOffset.offset
    && 0 <= r.inputOffset.length
    && r.InputEnd() <= r.inputLength
    && InputPosition(files, r) + r.inputOffset.length == position
    && (r.file == |files| ==> r.inputOffset.length == 0)
  }

  /** After resuming, the block to pass over ends where the span ends. */
  lemma ResumeLands(files: seq<nat>, span: nat, outputLength: int, c: ChunkState)
    requires Config(files, span, outputLength) && ChunkerSound(files, span, outputLength, c)
    requires c.outputOffset.offset != outputLength
    ensures Resumed(files, Resume(files, c), c.outputOffset.offset + c.outputOffset.length)
  {
    SoundShape(files, span, outputLength, c);
  }

  /**
   * nextInputBlock(): pass over the current block, rolling over to the next
   * file at the end of this one, and take the next transfer block of what is
   * left of the file.
   */
  function NextBlock(files: seq<nat>, s: ChunkState): ChunkState
    requires s.file <= |files| && CanRoll(files, s)
  {
    if s.InputEnd() == s.inputLength then
      s.(file := s.file + 1, inputLength := FileLength(files, s.file + 1),
         inputOffset := Zero.WithLength(BlockLength(FileLength(files, s.file + 1))))
    else
      s.(inputOffset := Passed(s).WithLength(BlockLength(s.inputLength - Passed(s).offset)))
  }

  /**
   * The input is ready for a span starting at stream position `position`:
   * inside the files, at the start of the next transfer block of its file,
   * and inside that file unless past the last one.
   */
  predicate Carried(files: seq<nat>, a: ChunkState, position: int)
  {
    && a.file <= |files|
    && a.inputLength == FileLength(files, a.file)
    && 0 <= a.inputOffset.offset <= a.inputLength
    && (a.file < |files| ==> a.inputOffset.offset < a.inputLength)
    && a.inputOffset.length == BlockLength(a.inputLength - a.inputOffset.offset)
    && InputPosition(files, a) == position
  }

  /**
   * Passing over the block (when there is a file left to pass over) leaves
   * the input ready at the stream position where the span ended.
   */
  lemma {:induction false} NextBlockLands(files: seq<nat>, r: ChunkState, position: int)
    requires forall i :: 0 <= i < |files| ==> files[i] > 0
    requires Resumed(files, r, position)
    ensures r.file != |files| ==> CanRoll(files, r) && Carried(files, NextBlock(files, r), position)
    ensures r.file == |files| ==> Carried(files, r, position)
  {
    if r.file != |files| {
      if r.InputEnd() == r.inputLength {
        RollKeepsPosition(files, r.file);
        assert NextBlock(files, r).inputOffset.offset == 0;
      } else {
        assert NextBlock(files, r).inputOffset.offset == r.InputEnd();
      }
    }
  }

  /** The input side of a whole step: resume, then move on to the next block. */
  function Carry(files: seq<nat>, span: nat, outputLength: int, c: ChunkState): (a: ChunkState)
    requires Config(files, span, outputLength) && ChunkerSound(files, span, outputLength, c)
    requires c.outputOffset.offset != outputLength
    ensures Carried(files, a, c.outputOffset.offset + c.outputOffset.length)
  {
    ResumeLands(files, span, outputLength, c);
    NextBlockLands(files, Resume(files, c), c.outputOffset.offset + c.outputOffset.length);
    var r := Resume(files, c);
    if r.file != |files| then NextBlock(files, r) else r
  }

  /** The output side of a step: the next span starts where this one ends. */
  function NextSpan(o: MappingOffset, span: nat, outputLength: int): (next: MappingOffset)
    requires span > 0 && o.offset + o.length <= outputLength
  {
    o.Plus(o.length).WithLength(TailLength(outputLength - (o.offset + o.length), span))
  }

  /** The output side of a step with the tail test as written. */
  function NextSpanAsWritten(o: MappingOffset, span: nat, outputLength: int): (next: MappingOffset)
    requires span > 0 && o.offset + o.length <= outputLength
  {
    o.Plus(o.length).WithLength(TailLengthAsWritten(outputLength - (o.offset + o.length), span))
  }

  /**
   * operator ++: nothing happens once the output offset is at the end of the
   * output; otherwise the input moves on past the span and the output range
   * moves on to the next span.
   */
  function Step(files: seq<nat>, span: nat, outputLength: int, c: ChunkState): (r: ChunkState)
    requires Config(files, span, outputLength) && ChunkerSound(files, span, outputLength, c)
  {
    if c.outputOffset.offset == outputLength then c
    else
      SoundShape(files, span, outputLength, c);
      Carry(files, span, outputLength, c).(outputOffset := NextSpan(c.outputOffset, span, outputLength))
  }

  /** operator ++ with the tail test as written. */
  function StepAsWritten(files: seq<nat>, span: nat, outputLength: int, c: ChunkState): (r: ChunkState)
    requires Config(files, span, outputLength) && ChunkerSound(files, span, outputLength, c)
  {
    if c.outputOffset.offset == outputLength then c
    else
      SoundShape(files, span, outputLength, c);
      Carry(files, span, outputLength, c).(outputOffset := NextSpanAsWritten(c.outputOffset, span, outputLength))
  }

  /**
   * Any state whose input is ready at the stream position where a span ends
   * and whose output range starts there, sized by the tail rule, is sound.
   */
  lemma {:induction false} SpanSound(files: seq<nat>, span: nat, outputLength: int, a: ChunkState)
    requires Config(files, span, outputLength)
    requires Carried(files, a, a.outputOffset.offset)
    requires 0 <= a.outputOffset.offset <= outputLength
    requires a.outputOffset.length == TailLength(outputLength - a.outputOffset.offset, span)
    ensures ChunkerSound(files, span, outputLength, a)
  {
    UnreadCompletesStream(files, a);
  }

  /**
   * A step keeps the iterator sound; the next span starts where the current
   * one ends and is sized by the tail rule, so the output left shrinks.
   */
  lemma StepSound(files: seq<nat>, span: nat, outputLength: int, c: ChunkState)
    requires Config(files, span, outputLength) && ChunkerSound(files, span, outputLength, c)
    requires c.outputOffset.offset != outputLength
    ensures ChunkerSound(files, span, outputLength, Step(files, span, outputLength, c))
    ensures Step(files, span, outputLength, c).outputOffset.offset
         == c.outputOffset.offset + c.outputOffset.length
    ensures Step(files, span, outputLength, c).outputOffset.length
         == TailLength(outputLength - (c.outputOffset.offset + c.outputOffset.length), span)
    ensures c.outputOffset.offset < Step(files, span, outputLength, c).outputOffset.offset <= outputLength
  {
    SoundShape(files, span, outputLength, c);
    var a := Carry(files, span, outputLength, c);
    var o := NextSpan(c.outputOffset, span, outputLength);
    assert Step(files, span, outputLength, c) == a.(outputOffset := o);
    assert o.offset == c.outputOffset.offset + c.outputOffset.length;
    CarriedIgnoresOutput(files, a, o, o.offset);
    SpanSound(files, span, outputLength, a.(outputOffset := o));
  }

  /** Where the input is ready does not depend on the output range. */
  lemma CarriedIgnoresOutput(files: seq<nat>, a: ChunkState, o: MappingOffset, position: int)
    requires Carried(files, a, position)
    ensures Carried(files, a.(outputOffset := o), position)
  {
    assert InputPosition(files, a.(outputOffset := o)) == InputPosition(files, a);
  }

  /**
   * A sound iterator compares equal to end() exactly when its output offset
   * has reached the end of the output: the input is then used up, and the
   * input position sits past the last file.
   */
  lemma AtEndSentinel(files: seq<nat>, span: nat, outputLength: int, c: ChunkState)
    requires Config(files, span, outputLength) && ChunkerSound(files, span, outputLength, c)
    ensures SameChunk(c, EndSentinel(files, outputLength)) <==> c.outputOffset.offset == outputLength
  {
    EndSentinelOffsets(files, outputLength);
    if c.outputOffset.offset == outputLength {
      if c.file < |files| {
        SumPrefixBound(files, c.file);
        assert false;
      }
      assert files[..c.file] == files;
    }
  }

  /** end() sits past the last file, at input offset 0 and at the end of the output. */
  lemma EndSentinelOffsets(files: seq<nat>, outputLength: int)
    ensures EndSentinel(files, outputLength).file == |files|
    ensures EndSentinel(files, outputLength).inputOffset.offset == 0
    ensures EndSentinel(files, outputLength).outputOffset.offset == outputLength
  {
  }

  /** begin() is a sound iterator. */
  lemma BeginSound(files: seq<nat>, span: nat, outputLength: int)
    requires Config(files, span, outputLength)
    ensures ChunkerSound(files, span, outputLength, BeginState(files, span, outputLength))
  {
    var b := BeginState(files, span, outputLength);
    assert InputPosition(files, b) == 0 by {
      assert files[..0] == [];
    }
    UnreadCompletesStream(files, b);
  }

  /**
   * The spans a range-for over the iterator visits from `c`: it stops when
   * the iterator compares equal to end().
   */
  function Spans(files: seq<nat>, span: nat, outputLength: int, c: ChunkState): seq<Span>
    requires Config(files, span, outputLength) && ChunkerSound(files, span, outputLength, c)
    decreases outputLength - c.outputOffset.offset
  {
    AtEndSentinel(files, span, outputLength, c);
    if SameChunk(c, EndSentinel(files, outputLength)) then []
    else
      StepSound(files, span, outputLength, c);
      [Span(c.outputOffset.offset, c.outputOffset.length)] + Spans(files, span, outputLength, Step(files, span, outputLength, c))
  }

  /**
   * The iterator where the range-for leaves it: stepped until it compares
   * equal to end(), which it does with its output offset at the end of the
   * output.
   */
  function Finish(files: seq<nat>, span: nat, outputLength: int, c: ChunkState): (e: ChunkState)
    requires Config(files, span, outputLength) && ChunkerSound(files, span, outputLength, c)
    ensures ChunkerSound(files, span, outputLength, e)
    ensures SameChunk(e, EndSentinel(files, outputLength))
    ensures e.outputOffset.offset == outputLength
    decreases outputLength - c.outputOffset.offset
  {
    AtEndSentinel(files, span, outputLength, c);
    if SameChunk(c, EndSentinel(files, outputLength)) then c
    else
      StepSound(files, span, outputLength, c);
      Finish(files, span, outputLength, Step(files, span, outputLength, c))
  }

  /** The spans visited are the ones the tail rule lays out from the current span on. */
  lemma {:induction false} SpansFollowPlan(files: seq<nat>, span: nat, outputLength: int, c: ChunkState)
    requires Config(files, span, outputLength) && ChunkerSound(files, span, outputLength, c)
    ensures SoundShapeHolds(files, span, outputLength, c)
    ensures Spans(files, span, outputLength, c)
         == SpansFrom(outputLength, span, c.outputOffset.offset, c.outputOffset.length)
    decreases outputLength - c.outputOffset.offset
  {
    SoundShape(files, span, outputLength, c);
    if c.outputOffset.offset != outputLength {
      var next := Step(files, span, outputLength, c);
      SpansStep(files, span, outputLength, c);
      SpansFollowPlan(files, span, outputLength, next);
      SpansFromStep(outputLength, span, c.outputOffset.offset, c.outputOffset.length,
                    next.outputOffset.offset, next.outputOffset.length);
    } else {
      AtEndSentinel(files, span, outputLength, c);
    }
  }

  /** One span of the range-for: the current span, then the spans from the next one. */
  lemma SpansStep(files: seq<nat>, span: nat, outputLength: int, c: ChunkState)
    requires Config(files, span, outputLength) && ChunkerSound(files, span, outputLength, c)
    requires c.outputOffset.offset != outputLength
    ensures ChunkerSound(files, span, outputLength, Step(files, span, outputLength, c))
    ensures Step(files, span, outputLength, c).outputOffset.offset
         == c.outputOffset.offset + c.outputOffset.length
    ensures Step(files, span, outputLength, c).outputOffset.length
         == TailLength(outputLength - (c.outputOffset.offset + c.outputOffset.length), span)
    ensures Spans(files, span, outputLength, c)
         == [Span(c.outputOffset.offset, c.outputOffset.length)]
          + Spans(files, span, outputLength, Step(files, span, outputLength, c))
  {
    AtEndSentinel(files, span, outputLength, c);
    StepSound(files, span, outputLength, c);
  }

  /** The preconditions of `SpansFrom` at the iterator's current span. */
  predicate SoundShapeHolds(files: seq<nat>, span: nat, outputLength: int, c: ChunkState)
  {
    && 0 <= c.outputOffset.offset <= outputLength
    && 0 <= c.outputOffset.length <= outputLength - c.outputOffset.offset
    && (c.outputOffset.offset < outputLength ==> c.outputOffset.length > 0)
    && span > 0
  }

  /**
   * Iterating from begin() to end() visits exactly the spans of the output
   * plan: they tile the whole output, every span after the first is one span
   * long except the last, which takes in the tail, and each span's input
   * starts at the same position in the stream of inputs as the span starts in
   * the output.
   */
  lemma ChunkerPartitionsOutput(files: seq<nat>, span: nat, outputLength: int)
    requires Config(files, span, outputLength)
    ensures ChunkerSound(files, span, outputLength, BeginState(files, span, outputLength))
    ensures Spans(files, span, outputLength, BeginState(files, span, outputLength)) == OutputSpans(outputLength, span)
    ensures Tiles(Spans(files, span, outputLength, BeginState(files, span, outputLength)), 0, outputLength)
  {
    BeginSound(files, span, outputLength);
    SpansFollowPlan(files, span, outputLength, BeginState(files, span, outputLength));
    OutputSpansTile(outputLength, span);
  }

  /**
   * With an empty output (so no inputs), begin() already equals end() and
   * the range-for visits no span.
   */
  lemma EmptyBeginIsEnd(files: seq<nat>, span: nat, outputLength: int)
    requires Config(files, span, outputLength) && outputLength == 0
    ensures ChunkerSound(files, span, outputLength, BeginState(files, span, outputLength))
    ensures SameChunk(BeginState(files, span, outputLength), EndSentinel(files, outputLength))
    ensures Spans(files, span, outputLength, BeginState(files, span, outputLength)) == []
  {
    var b := BeginState(files, span, outputLength);
    BeginSound(files, span, outputLength);
    AtEndSentinel(files, span, outputLength, b);
    assert b.outputOffset.offset == outputLength;
  }

  /**
   * The second span as written, for an output longer than one span but
   * shorter than two: it starts one span in and is a whole span long.
   */
  lemma AsWrittenSecondSpan(files: seq<nat>, span: nat, outputLength: int)
    requires Config(files, span, outputLength)
    requires span < outputLength < 2 * span && outputLength < OffsetRange
    ensures ChunkerSound(files, span, outputLength, BeginState(files, span, outputLength))
    ensures StepAsWritten(files, span, outputLength, BeginState(files, span, outputLength)).outputOffset.offset == span
    ensures StepAsWritten(files, span, outputLength, BeginState(files, span, outputLength)).outputOffset.length == span
  {
    BeginSound(files, span, outputLength);
    TailAsWrittenOvershoots(outputLength - span, span);
  }

  /** The second span as written leaves its sub-chunk state unsound. */
  lemma AsWrittenSecondSpanUnsound(files: seq<nat>, span: nat, outputLength: int)
    requires Config(files, span, outputLength)
    requires span < outputLength < 2 * span && outputLength < OffsetRange
    ensures ChunkerSound(files, span, outputLength, BeginState(files, span, outputLength))
    ensures !Sound(files, StepAsWritten(files, span, outputLength, BeginState(files, span, outputLength)))
  {
    var b := BeginState(files, span, outputLength);
    AsWrittenSecondSpan(files, span, outputLength);
    SoundShape(files, span, outputLength, b);
    assert b.outputOffset.offset == 0 && b.outputOffset.length == span;
    var a := Carry(files, span, outputLength, b);
    var o := NextSpanAsWritten(b.outputOffset, span, outputLength);
    var w := StepAsWritten(files, span, outputLength, b);
    assert w == a.(outputOffset := o);
    CarriedIgnoresOutput(files, a, o, span);
    UnreadCompletesStream(files, w);
  }

  /** The intended second span is the rest of the output. */
  lemma IntendedSecondSpan(files: seq<nat>, span: nat, outputLength: int)
    requires Config(files, span, outputLength)
    requires span < outputLength < 2 * span && outputLength < OffsetRange
    ensures ChunkerSound(files, span, outputLength, BeginState(files, span, outputLength))
    ensures Step(files, span, outputLength, BeginState(files, span, outputLength)).outputOffset.offset == span
    ensures Step(files, span, outputLength, BeginState(files, span, outputLength)).outputOffset.length == outputLength - span
  {
    BeginSound(files, span, outputLength);
    TailAsWrittenOvershoots(outputLength - span, span);
    StepSound(files, span, outputLength, BeginState(files, span, outputLength));
  }

  /**
   * The overrun of the tail test as written: when the output is longer than
   * one span but shorter than two, the second span as written is a whole
   * span long and runs past the end of the output, so its sub-chunk state is
   * no longer sound; the intended rule gives it the rest of the output.
   */
  lemma StepAsWrittenOvershoots(files: seq<nat>, span: nat, outputLength: int)
    requires Config(files, span, outputLength)
    requires span < outputLength < 2 * span && outputLength < OffsetRange
    ensures ChunkerSound(files, span, outputLength, BeginState(files, span, outputLength))
    ensures var w := StepAsWritten(files, span, outputLength, BeginState(files, span, outputLength));
      && w.outputOffset.offset == span
      && w.outputOffset.offset + w.outputOffset.length == 2 * span > outputLength
      && !Sound(files, w)
    ensures var r := Step(files, span, outputLength, BeginState(files, span, outputLength));
      && r.outputOffset.offset == span
      && r.outputOffset.offset + r.outputOffset.length == outputLength
  {
    AsWrittenSecondSpan(files, span, outputLength);
    AsWrittenSecondSpanUnsound(files, span, outputLength);
    IntendedSecondSpan(files, span, outputLength);
  }

  /** A chunking_t object: the span length and the output length are fixed at construction. */
  class Chunker {
    const spanLength: nat
    var file: nat
    var inputLength: int
    var inputOffset: MappingOffset
    const outputLength: int
    var outputOffset: MappingOffset

    /** subchunkState() (and operator *): the four fields as a chunk state. */
    function SubchunkState(): ChunkState
      reads this
    {
      ChunkState(file, inputLength, inputOffset, outputOffset)
    }

    /** The one-argument constructor, which begin() uses. */
    constructor (files: seq<nat>, spanLength: nat, outputLength: int)
      ensures this.spanLength == spanLength && this.outputLength == outputLength
      ensures SubchunkState() == BeginState(files, spanLength, outputLength)
    {
      var first := 0;
      var length := if first == |files| then 0 else files[first];
      this.spanLength := spanLength;
      file := first;
      inputLength := length;
      inputOffset := Zero.WithLength(BlockLength(length));
      this.outputLength := outputLength;
      outputOffset := Zero.WithLength(Min(spanLength, outputLength));
    }

    /** The constructor that end() uses: past the last file, at the end of the output. */
    constructor AtEnd(files: seq<nat>, spanLength: nat, outputLength: int)
      ensures this.spanLength == spanLength && this.outputLength == outputLength
      ensures SubchunkState() == EndSentinel(files, outputLength)
    {
      this.spanLength := spanLength;
      file := |files|;
      inputLength := 0;
      inputOffset := Zero.WithLength(BlockLength(0));
      this.outputLength := outputLength;
      outputOffset := FromOffset(outputLength);
    }

    method NextInputBlock(files: seq<nat>)
      requires file <= |files| && CanRoll(files, SubchunkState())
      modifies this
      ensures SubchunkState() == NextBlock(files, old(SubchunkState()))
    {
      inputOffset := inputOffset.Plus(inputOffset.length);
      if inputOffset.offset == inputLength {
        file := file + 1;
        inputLength := if file == |files| then 0 else files[file];
        inputOffset := Zero.WithLength(BlockLength(inputLength));
      } else {
        inputOffset := inputOffset.WithLength(BlockLength(inputLength - inputOffset.offset));
      }
    }

    /**
     * The first half of operator ++: when the span's output length differs
     * from its input block, take the input position from the end of the
     * sub-chunk walk over the span (`subchunkState().end()`, the value
     * `EndOf` that `ChunkCursor.End` is proved to compute). The three input
     * fields are written once the new values are known; when the lengths
     * agree they are written back unchanged.
     */
    method ResumeInput(files: seq<nat>)
      requires Sound(files, SubchunkState())
      modifies this
      ensures SubchunkState() == Resume(files, old(SubchunkState()))
    {
      var start := SubchunkState();
      var resumed := start;
      if start.outputOffset.length != start.inputOffset.length {
        var state := EndOf(files, start);
        ResumeIsEnd(files, start, state);
        resumed := ChunkState(state.file, state.inputLength, state.inputOffset, start.outputOffset);
      } else {
        ResumeKeeps(files, start);
      }
      file, inputLength, inputOffset := resumed.file, resumed.inputLength, resumed.inputOffset;
    }

    /**
     * The input side of operator ++: resume after the span just handed out,
     * then pick the next input sub-block unless the inputs are used up.
     */
    method CarryInput(files: seq<nat>)
      requires Config(files, spanLength, outputLength)
      requires ChunkerSound(files, spanLength, outputLength, SubchunkState())
      requires outputOffset.offset != outputLength
      modifies this
      ensures SubchunkState() == Carry(files, spanLength, outputLength, old(SubchunkState())).(outputOffset := old(outputOffset))
    {
      ghost var c := SubchunkState();
      ResumeInput(files);
      ResumeLands(files, spanLength, outputLength, c);
      NextBlockLands(files, SubchunkState(), c.outputOffset.offset + c.outputOffset.length);
      if file != |files| {
        NextInputBlock(files);
      }
    }

    /**
     * The output side of operator ++: the next span starts where this one
     * ends and is a whole span long unless it is the tail.
     */
    method AdvanceOutput()
      requires spanLength > 0 && outputOffset.offset + outputOffset.length <= outputLength
      modifies this
      ensures SubchunkState() == old(SubchunkState()).(outputOffset := NextSpan(old(outputOffset), spanLength, outputLength))
    {
      outputOffset := outputOffset.Plus(outputOffset.length);
      if outputOffset.offset == outputLength {
        outputOffset := outputOffset.WithLength(0);
      } else if outputLength - outputOffset.offset - spanLength < spanLength {
        outputOffset := outputOffset.WithLength(outputLength - outputOffset.offset);
      } else {
        outputOffset := outputOffset.WithLength(spanLength);
      }
    }

    method Increment(files: seq<nat>)
      requires Config(files, spanLength, outputLength)
      requires ChunkerSound(files, spanLength, outputLength, SubchunkState())
      modifies this
      ensures SubchunkState() == Step(files, spanLength, outputLength, old(SubchunkState()))
    {
      if outputOffset.offset == outputLength {
        return;
      }
      ghost var c := SubchunkState();
      SoundShape(files, spanLength, outputLength, c);
      CarryInput(files);
      AdvanceOutput();
    }

    predicate Equals(other: Chunker)
      reads this, other
    {
      SameChunk(SubchunkState(), other.SubchunkState())
    }
  }

  /** fileChunker_t: hands out the begin() and end() iterators for one span length. */
  class FileChunker {
    const spanLength: nat

    constructor (spanLength: nat)
      ensures this.spanLength == spanLength
    {
      this.spanLength := spanLength;
    }

    method Begin(files: seq<nat>, outputLength: int) returns (c: Chunker)
      ensures fresh(c) && c.spanLength == spanLength && c.outputLength == outputLength
      ensures c.SubchunkState() == BeginState(files, spanLength, outputLength)
    {
      c := new Chunker(files, spanLength, outputLength);
    }

    method End(files: seq<nat>, outputLength: int) returns (c: Chunker)
      ensures fresh(c) && c.spanLength == spanLength && c.outputLength == outputLength
      ensures c.SubchunkState() == EndSentinel(files, outputLength)
    {
      c := new Chunker.AtEnd(files, spanLength, outputLength);
    }
  }
}
