/**
 * chunkedCopy() of the legacy engine: every chunk the legacy chunker hands
 * out is given to copyChunk(), and the copy succeeds when every chunk's copy
 * does. The thread pool is replaced by copying the chunks one after the
 * other (`ChunkedCopy`); `AnyOrderCopyIsStream` shows that the order in which
 * the pool's threads take the chunks does not change the result.
 *
 * Together these close the chain from the chunker to the output file: each
 * chunk the chunker visits meets what copyChunk() asks of it, the bytes
 * copyChunk() writes for it are the chunk's own run of the stream of inputs,
 * and the runs of all the chunks make up the whole stream.
 */
module LegacyCopy {
  import opened Chunking
  import opened MappingOffsets
  import opened InputFiles
  import opened ChunkStates
  import opened BlockLinear
  import opened MemoryMaps
  import opened SpanPlans
  import opened LegacyChunker
  import opened CopyChunks

  /**
   * The offsets the legacy iterator holds stay in normal form, and a chunk
   * that starts before the end of the output starts on a page boundary.
   */
  predicate Aligned(outputLength: int, c: ChunkState)
  {
    && Normal(c.inputOffset)
    && Normal(c.outputOffset)
    && (c.outputOffset.offset < outputLength ==> c.outputOffset.offset % 4096 == 0)
  }

  /** An offset in normal form that sits on a page boundary needs no adjustment. */
  lemma BoundaryNeedsNoAdjustment(m: MappingOffset)
    requires Normal(m) && m.offset >= 0 && m.offset % 4096 == 0
    ensures m.Adjustment() == 0 && m.AdjustedOffset() == m.offset
  {
  }

  /** The sub-chunk walk keeps the input offset in normal form all the way to its end. */
  lemma {:induction false} EndOfKeepsNormal(files: seq<nat>, s: ChunkState)
    requires Sound(files, s) && Normal(s.inputOffset)
    ensures Normal(EndOf(files, s).inputOffset)
    decreases s.outputOffset.length, |files| - s.file
  {
    if !s.AtEnd() {
      SoundCanRoll(files, s);
      NextKeepsNormal(files, s);
      EndOfNext(files, s);
      EndOfKeepsNormal(files, Next(files, s));
    }
  }

  /** begin() is aligned: both offsets are the default value with a length. */
  lemma BeginAligned(files: seq<nat>, outputLength: int)
    requires |files| > 0
    ensures Aligned(outputLength, BeginState(files, outputLength))
  {
    ZeroIsDefault();
    WithLengthKeepsOffset(Zero, BlockLength(files[0]));
    WithLengthKeepsOffset(Zero, BlockLength(outputLength));
  }

  /** Resuming the input after a chunk keeps the input offset in normal form. */
  lemma ResumeKeepsNormal(files: seq<nat>, c: ChunkState)
    requires Sound(files, c) && Normal(c.inputOffset)
    ensures Normal(Resume(files, c).inputOffset)
  {
    if c.outputOffset.length != c.inputOffset.length {
      EndOfKeepsNormal(files, c);
    }
  }

  /** Passing over the block and sizing the next one keeps the input offset in normal form. */
  lemma NextBlockKeepsNormal(files: seq<nat>, r: ChunkState)
    requires r.file <= |files| && Normal(r.inputOffset)
    ensures Normal(NextBlock(files, r).inputOffset)
  {
    var passed := if r.file != |files| then PassBlock(files, r) else r;
    assert Normal(passed.inputOffset) by {
      if r.file != |files| && r.InputEnd() == r.inputLength {
        ZeroIsDefault();
        assert passed.inputOffset == Zero;
      } else if r.file != |files| {
        assert passed.inputOffset == r.inputOffset.Plus(r.inputOffset.length);
      }
    }
    var n := BlockLength(passed.inputLength - passed.inputOffset.offset);
    assert NextBlock(files, r).inputOffset == passed.inputOffset.WithLength(n);
    WithLengthKeepsOffset(passed.inputOffset, n);
  }

  /**
   * The next chunk is in normal form, and unless it starts at the end of the
   * output the chunk before it was a whole transfer block, so it starts on a
   * page boundary too.
   */
  lemma NextChunkAligned(o: MappingOffset, outputLength: int)
    requires 0 <= o.offset < outputLength && o.offset % 4096 == 0
    requires o.length == BlockLength(outputLength - o.offset)
    ensures Normal(NextChunk(o, outputLength))
    ensures NextChunk(o, outputLength).offset < outputLength ==> NextChunk(o, outputLength).offset % 4096 == 0
  {
    var moved := o.Plus(o.length);
    WithLengthKeepsOffset(moved, BlockLength(outputLength - moved.offset));
    if moved.offset < outputLength {
      assert o.length == TransferBlockSize;
    }
  }

  /**
   * operator ++ keeps the iterator aligned: the offsets are rebuilt with
   * `+=`, the default value or the length setter, and a chunk that does not
   * reach the end of the output is a whole transfer block, which is a whole
   * number of pages.
   */
  lemma StepKeepsAligned(files: seq<nat>, outputLength: int, c: ChunkState)
    requires Config(files, outputLength) && ChunkSound(files, outputLength, c)
    requires Aligned(outputLength, c) && c.outputOffset.offset != outputLength
    ensures Aligned(outputLength, Step(files, outputLength, c))
  {
    SoundShape(files, outputLength, c);
    ResumeKeepsNormal(files, c);
    NextBlockKeepsNormal(files, Resume(files, c));
    NextChunkAligned(c.outputOffset, outputLength);
  }

  /**
   * Every chunk the iterator visits before end() meets what the legacy
   * copyChunk() asks of it, and the bytes it must receive are the run of the
   * stream of inputs at the chunk's own place in the output.
   */
  lemma ChunkReady(contents: seq<seq<bv8>>, outputLength: int, c: ChunkState)
    requires Config(Lengths(contents), outputLength)
    requires ChunkSound(Lengths(contents), outputLength, c) && Aligned(outputLength, c)
    requires c.outputOffset.offset != outputLength
    ensures Sound(Lengths(contents), c) && c.file < |contents| && !c.AtEnd()
    ensures 0 <= c.outputOffset.offset && c.outputOffset.offset + c.outputOffset.length <= outputLength
    ensures c.outputOffset.Adjustment() == 0 && Productive(c)
    ensures |Concat(contents)| == outputLength
    ensures Wanted(contents, c)
         == Concat(contents)[c.outputOffset.offset..c.outputOffset.offset + c.outputOffset.length]
  {
    var files := Lengths(contents);
    SoundShape(files, outputLength, c);
    BoundaryNeedsNoAdjustment(c.outputOffset);
    ConcatLength(contents);
    WantedIsRun(contents, c, c.outputOffset.offset, c.outputOffset.length);
  }

  /**
   * Writing a chunk's run of the stream over an output whose bytes before
   * the chunk already match the stream makes the output match the stream up
   * to the end of the chunk.
   */
  lemma PrefixGrows(stream: seq<bv8>, output: seq<bv8>, at: nat, n: nat)
    requires at + n <= |stream| == |output|
    requires output[..at] == stream[..at]
    ensures Overwrite(output, at, stream[at..at + n])[..at + n] == stream[..at + n]
  {
    var written := Overwrite(output, at, stream[at..at + n]);
    OverwriteEffect(output, at, stream[at..at + n]);
    assert forall i :: 0 <= i < at ==> written[i] == stream[i] by {
      assert forall i :: 0 <= i < at ==> output[i] == output[..at][i];
    }
  }

  /** The iterator states the range-for passes through: sound and aligned. */
  predicate OnCourse(files: seq<nat>, outputLength: int, c: ChunkState)
  {
    ChunkSound(files, outputLength, c) && Aligned(outputLength, c)
  }

  /** operator ++ from a chunk before the end keeps the iterator on course and moves it to the end of the chunk. */
  lemma StepOnCourse(files: seq<nat>, outputLength: int, c: ChunkState)
    requires Config(files, outputLength) && OnCourse(files, outputLength, c)
    requires c.outputOffset.offset != outputLength
    ensures OnCourse(files, outputLength, Step(files, outputLength, c))
    ensures Step(files, outputLength, c).outputOffset.offset == c.outputOffset.offset + c.outputOffset.length
  {
    StepSound(files, outputLength, c);
    StepKeepsAligned(files, outputLength, c);
  }

  /**
   * copyChunk() on a chunk the iterator visits: on success the part of the
   * output that holds the stream grows to the end of the chunk.
   */
  method CopyCurrent(contents: seq<seq<bv8>>, output: array<bv8>, c: ChunkState, sys: System, ghost stream: seq<bv8>)
    returns (result: int)
    requires Config(Lengths(contents), output.Length)
    requires stream == Concat(contents) && |stream| == output.Length
    requires OnCourse(Lengths(contents), output.Length, c) && c.outputOffset.offset != output.Length
    requires output[..c.outputOffset.offset] == stream[..c.outputOffset.offset]
    requires sys.errno != 0
    modifies output
    ensures c.outputOffset.offset + c.outputOffset.length <= output.Length
    ensures result == 0 ==>
      output[..c.outputOffset.offset + c.outputOffset.length] == stream[..c.outputOffset.offset + c.outputOffset.length]
    ensures Granted(sys) && sys.synced ==> result == 0
  {
    assert NoEmptyFiles(contents);
    ChunkReady(contents, output.Length, c);
    ghost var before := output[..];
    result := CopyChunkLegacy(contents, output, c, sys);
    if result == 0 {
      PrefixGrows(stream, before, c.outputOffset.offset, c.outputOffset.length);
    }
  }

  /**
   * One round of the range-for: copyChunk() on the current chunk, then, if
   * it succeeded, operator ++.
   */
  method CopyRound(contents: seq<seq<bv8>>, output: array<bv8>, chunk: Chunker, sys: System, ghost stream: seq<bv8>)
    returns (result: int)
    requires Config(Lengths(contents), output.Length) && chunk.outputLength == output.Length
    requires stream == Concat(contents) && |stream| == output.Length
    requires OnCourse(Lengths(contents), output.Length, chunk.SubchunkState())
    requires chunk.SubchunkState().outputOffset.offset != output.Length
    requires output[..chunk.SubchunkState().outputOffset.offset] == stream[..chunk.SubchunkState().outputOffset.offset]
    requires sys.errno != 0
    modifies output, chunk
    ensures result == 0 ==> chunk.SubchunkState() == Step(Lengths(contents), output.Length, old(chunk.SubchunkState()))
    ensures result == 0 ==> OnCourse(Lengths(contents), output.Length, chunk.SubchunkState())
    ensures result == 0 ==> old(chunk.SubchunkState()).outputOffset.offset < chunk.SubchunkState().outputOffset.offset <= output.Length
    ensures result == 0 ==>
      output[..chunk.SubchunkState().outputOffset.offset] == stream[..chunk.SubchunkState().outputOffset.offset]
    ensures Granted(sys) && sys.synced ==> result == 0
  {
    var files := Lengths(contents);
    var c := chunk.SubchunkState();
    result := CopyCurrent(contents, output, c, sys, stream);
    if result != 0 {
      return;
    }
    StepOnCourse(files, output.Length, c);
    assert chunk.SubchunkState() == c;
    chunk.Increment(files);
  }

  /**
   * chunkedCopy() of the legacy engine with the chunks copied one after the
   * other: each chunk from begin() to end() is copied by copyChunk(), the
   * `k`-th with the operating system's answers `systems(k)`, and the first
   * failure is the result. On success the output holds the input files laid
   * end to end; when every mapping, piece of advice and msync() is granted,
   * the copy succeeds.
   */
  method ChunkedCopy(contents: seq<seq<bv8>>, output: array<bv8>, systems: nat -> System)
    returns (result: int)
    requires Config(Lengths(contents), output.Length)
    requires forall k: nat :: systems(k).errno != 0
    modifies output
    ensures result == 0 ==> output[..] == Concat(contents)
    ensures (forall k: nat :: Granted(systems(k)) && systems(k).synced) ==> result == 0
  {
    var files := Lengths(contents);
    var n := output.Length;
    ConcatLength(contents);
    ghost var stream := Concat(contents);
    var chunker := new FileChunker();
    var chunk := chunker.Begin(files, n);
    var end := chunker.End(files, n);
    BeginSound(files, n);
    BeginAligned(files, n);
    var k: nat := 0;
    while !chunk.Equals(end)
      invariant chunk != end && chunk.outputLength == n
      invariant end.SubchunkState() == EndSentinel(files, n)
      invariant OnCourse(files, n, chunk.SubchunkState())
      invariant |stream| == n && output[..chunk.SubchunkState().outputOffset.offset] == stream[..chunk.SubchunkState().outputOffset.offset]
      decreases n - chunk.SubchunkState().outputOffset.offset
    {
      AtEndSentinel(files, n, chunk.SubchunkState());
      result := CopyRound(contents, output, chunk, systems(k), stream);
      if result != 0 {
        return;
      }
      k := k + 1;
    }
    AtEndSentinel(files, n, chunk.SubchunkState());
    assert output[..] == output[..n];
    return 0;
  }

  /** Every span lies inside an output of `outputLength` bytes. */
  predicate InOutput(spans: seq<Span>, outputLength: int)
  {
    forall i :: 0 <= i < |spans| ==>
      0 <= spans[i].offset && 0 <= spans[i].length && spans[i].offset + spans[i].length <= outputLength
  }

  /** Each span ends before any later span starts. */
  predicate Apart(spans: seq<Span>)
  {
    forall i, j :: 0 <= i < j < |spans| ==> spans[i].offset + spans[i].length <= spans[j].offset
  }

  /** The spans of a tiling lie inside the output and do not overlap. */
  lemma {:induction false} TilesApart(spans: seq<Span>, offset: int, outputLength: int)
    requires Tiles(spans, offset, outputLength) && offset >= 0
    ensures forall i :: 0 <= i < |spans| ==> offset <= spans[i].offset
    ensures InOutput(spans, outputLength) && Apart(spans)
    decreases |spans|
  {
    if spans != [] {
      TilesTail(spans, offset, outputLength);
      var rest := spans[1..];
      TilesApart(rest, offset + spans[0].length, outputLength);
      assert forall i :: 0 < i < |spans| ==> spans[i] == rest[i - 1];
    }
  }

  /** The indices of `order` pick spans of the tiling. */
  predicate Picks(order: seq<nat>, count: nat)
  {
    forall j :: 0 <= j < |order| ==> order[j] < count
  }

  /**
   * The output after the threads of the pool have copied the chunks in the
   * order `order` (indices into `spans`), each copy writing its chunk's run
   * of the stream.
   */
  function CopyInOrder(stream: seq<bv8>, output: seq<bv8>, spans: seq<Span>, order: seq<nat>): (r: seq<bv8>)
    requires |output| == |stream| && InOutput(spans, |stream|) && Picks(order, |spans|)
    ensures |r| == |output|
  {
    if order == [] then output
    else
      var last := spans[order[|order| - 1]];
      var before := CopyInOrder(stream, output, spans, order[..|order| - 1]);
      Overwrite(before, last.offset, stream[last.offset..last.offset + last.length])
  }

  /**
   * A write of a span's run of the stream leaves that span copied, and keeps
   * any other span copied when the two spans do not overlap.
   */
  lemma WriteKeepsCopied(stream: seq<bv8>, output: seq<bv8>, written: Span, kept: Span)
    requires |output| == |stream|
    requires 0 <= written.offset && 0 <= written.length && written.offset + written.length <= |stream|
    requires 0 <= kept.offset && 0 <= kept.length && kept.offset + kept.length <= |stream|
    requires kept == written
          || (Copied(stream, output, kept)
              && (kept.offset + kept.length <= written.offset || written.offset + written.length <= kept.offset))
    ensures Copied(stream, Overwrite(output, written.offset, stream[written.offset..written.offset + written.length]), kept)
  {
    var run := stream[written.offset..written.offset + written.length];
    var after := Overwrite(output, written.offset, run);
    OverwriteEffect(output, written.offset, run);
    var a, b := kept.offset, kept.offset + kept.length;
    if kept != written {
      forall i | a <= i < b
        ensures after[i] == stream[i]
      {
        assert output[a..b][i - a] == stream[a..b][i - a];
      }
    }
    assert after[a..b] == stream[a..b];
  }

  /** One more copy keeps the span of an earlier entry of the order copied. */
  lemma CopiedAfterWrite(stream: seq<bv8>, before: seq<bv8>, spans: seq<Span>, i: nat, last: nat)
    requires |before| == |stream| && InOutput(spans, |stream|) && Apart(spans)
    requires i < |spans| && last < |spans|
    requires i == last || Copied(stream, before, spans[i])
    ensures Copied(stream, Overwrite(before, spans[last].offset,
      stream[spans[last].offset..spans[last].offset + spans[last].length]), spans[i])
  {
    if i < last {
      assert spans[i].offset + spans[i].length <= spans[last].offset;
    } else if last < i {
      assert spans[last].offset + spans[last].length <= spans[i].offset;
    }
    WriteKeepsCopied(stream, before, spans[last], spans[i]);
  }

  /**
   * Copying the spans of `order` in turn leaves every span that `order`
   * names copied, whatever the order and however often a span comes up.
   */
  lemma {:induction false} CopiedInOrder(stream: seq<bv8>, output: seq<bv8>, spans: seq<Span>, order: seq<nat>)
    requires |output| == |stream| && InOutput(spans, |stream|) && Apart(spans) && Picks(order, |spans|)
    ensures forall j :: 0 <= j < |order| ==> Copied(stream, CopyInOrder(stream, output, spans, order), spans[order[j]])
    decreases |order|
  {
    if order != [] {
      var prefix := order[..|order| - 1];
      var last := order[|order| - 1];
      CopiedInOrder(stream, output, spans, prefix);
      var before := CopyInOrder(stream, output, spans, prefix);
      var after := CopyInOrder(stream, output, spans, order);
      assert after == Overwrite(before, spans[last].offset, stream[spans[last].offset..spans[last].offset + spans[last].length]);
      forall j | 0 <= j < |order|
        ensures Copied(stream, after, spans[order[j]])
      {
        if j < |prefix| {
          assert prefix[j] == order[j];
          assert Copied(stream, before, spans[prefix[j]]);
        }
        CopiedAfterWrite(stream, before, spans, order[j], last);
      }
    }
  }

  /** When every span is named in `order`, every span named there being copied means every span is. */
  lemma EveryNamedCopied(stream: seq<bv8>, result: seq<bv8>, spans: seq<Span>, order: seq<nat>)
    requires Picks(order, |spans|)
    requires forall i :: 0 <= i < |spans| ==> i in order
    requires forall j :: 0 <= j < |order| ==> Copied(stream, result, spans[order[j]])
    ensures forall i :: 0 <= i < |spans| ==> Copied(stream, result, spans[i])
  {
    forall i | 0 <= i < |spans|
      ensures Copied(stream, result, spans[i])
    {
      assert i in order;
      var j :| 0 <= j < |order| && order[j] == i;
    }
  }

  /**
   * However the thread pool orders the copies, once every chunk of a tiling
   * of the output has been copied at least once the output is the stream.
   */
  lemma AnyOrderCopyIsStream(stream: seq<bv8>, output: seq<bv8>, spans: seq<Span>, order: seq<nat>)
    requires |output| == |stream| && Tiles(spans, 0, |stream|) && Picks(order, |spans|)
    requires forall i :: 0 <= i < |spans| ==> i in order
    ensures InOutput(spans, |stream|)
    ensures CopyInOrder(stream, output, spans, order) == stream
  {
    TilesApart(spans, 0, |stream|);
    CopiedInOrder(stream, output, spans, order);
    var result := CopyInOrder(stream, output, spans, order);
    EveryNamedCopied(stream, result, spans, order);
    TiledCopyIsStream(stream, result, spans, 0);
  }

  /**
   * The chunks of the legacy chunker, copied in any order that takes each
   * at least once, give the input files laid end to end.
   */
  lemma LegacyChunksInAnyOrder(contents: seq<seq<bv8>>, output: seq<bv8>, order: seq<nat>)
    requires Config(Lengths(contents), |output|)
    requires Picks(order, |Chunks(Lengths(contents), |output|, BeginState(Lengths(contents), |output|))|)
    requires forall i :: 0 <= i < |Chunks(Lengths(contents), |output|, BeginState(Lengths(contents), |output|))| ==> i in order
    ensures |Concat(contents)| == |output|
    ensures InOutput(Chunks(Lengths(contents), |output|, BeginState(Lengths(contents), |output|)), |output|)
    ensures CopyInOrder(Concat(contents), output, Chunks(Lengths(contents), |output|, BeginState(Lengths(contents), |output|)), order)
         == Concat(contents)
  {
    ConcatLength(contents);
    ChunkerPartitionsOutput(Lengths(contents), |output|);
    AnyOrderCopyIsStream(Concat(contents), output, Chunks(Lengths(contents), |output|, BeginState(Lengths(contents), |output|)), order);
  }
}
