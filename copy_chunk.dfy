/**
 * copyChunk(): copies one output chunk. The chunk's range of the output file
 * is mapped and advised once; then, one input sub-block at a time, the
 * sub-block is mapped out of its input file, advised, and copied into the
 * output mapping at the running offset, and the chunk state is stepped on.
 * Finally the output mapping is synchronised.
 *
 * The files are byte arrays and sequences (see MemoryMaps); what the
 * operating system answers to each mmap(), madvise() and msync() call, and
 * the errno value it leaves behind on a failure, form a `System` parameter.
 */
module CopyChunks {
  import opened Chunking
  import opened MappingOffsets
  import opened InputFiles
  import opened ChunkStates
  import opened BlockLinear
  import opened MemoryMaps
  import opened SpanPlans

  /** EINVAL, the result of a copy whose bounds check throws. */
  const EINVAL: int := 22

  /** The madvise() flags the copy passes. */
  datatype Advice = Sequential | WillNeed | DontDump

  /**
   * The operating system's answers during one copy: the address the output
   * mapping gets (0 when mmap() fails), whether madvise() accepts each flag
   * on it, the address and the advice answers of the `k`-th input mapping,
   * whether msync() succeeds, and the errno value a failure leaves.
   */
  datatype System = System(
    outputAddress: nat,
    outputAdvice: Advice -> bool,
    inputAddress: nat -> nat,
    inputAdvice: (nat, Advice) -> bool,
    synced: bool,
    errno: int)

  /** The output mapping is made and accepts MADV_SEQUENTIAL and MADV_DONTDUMP. */
  predicate OutputGranted(sys: System)
  {
    sys.outputAddress != 0 && AdviseAll([sys.outputAdvice(Sequential), sys.outputAdvice(DontDump)])
  }

  /** The `k`-th input mapping is made and accepts all three flags. */
  predicate BlockGranted(sys: System, k: nat)
  {
    && sys.inputAddress(k) != 0
    && AdviseAll([sys.inputAdvice(k, Sequential), sys.inputAdvice(k, WillNeed), sys.inputAdvice(k, DontDump)])
  }

  /** Every mapping and every piece of advice of the copy succeeds. */
  ghost predicate Granted(sys: System)
  {
    OutputGranted(sys) && forall k: nat :: BlockGranted(sys, k)
  }

  /**
   * A state whose output is not yet filled has a non-empty input sub-block
   * (one with nothing in it would make address() throw).
   */
  predicate Productive(s: ChunkState)
  {
    !s.AtEnd() ==> s.inputOffset.length > 0
  }

  /** Every input file has something in it. */
  predicate NoEmptyFiles(contents: seq<seq<bv8>>)
  {
    forall f :: 0 <= f < |contents| ==> |contents[f]| > 0
  }

  /**
   * The bytes a chunk must receive: the stream of all the input files read
   * from the chunk's input position on, as much as the chunk's output range
   * is long.
   */
  function Wanted(contents: seq<seq<bv8>>, s: ChunkState): (bytes: seq<bv8>)
    requires Sound(Lengths(contents), s)
    ensures |bytes| == s.outputOffset.length
  {
    UnreadCompletesStream(Lengths(contents), s);
    ConcatLength(contents);
    var p := InputPosition(Lengths(contents), s);
    Concat(contents)[p..p + s.outputOffset.length]
  }

  /**
   * The bytes a chunk must receive are the run of the stream that starts at
   * its input position and is as long as its output range.
   */
  lemma WantedIsRun(contents: seq<seq<bv8>>, s: ChunkState, p: nat, n: nat)
    requires Sound(Lengths(contents), s)
    requires p == InputPosition(Lengths(contents), s) && n == s.outputOffset.length
    ensures p + n <= |Concat(contents)| && Wanted(contents, s) == Concat(contents)[p..p + n]
  {
    UnreadCompletesStream(Lengths(contents), s);
    ConcatLength(contents);
  }

  /** A step keeps the offsets in normal form. */
  lemma NextKeepsNormal(files: seq<nat>, s: ChunkState)
    requires s.file <= |files| && CanRoll(files, s) && !s.AtEnd()
    requires Normal(s.inputOffset)
    ensures Normal(Next(files, s).inputOffset) && Normal(Next(files, s).outputOffset)
  {
    var remainder := s.outputOffset.length - s.inputOffset.length;
    var moved := s.outputOffset.Plus(s.inputOffset.length);
    var t := s.(outputOffset := moved.WithLength(remainder));
    assert Next(files, s) == AdvanceInput(files, t, remainder);
    WithLengthKeepsOffset(moved, remainder);
    var u := PassBlock(files, t);
    assert Normal(u.inputOffset) by {
      if t.InputEnd() == t.inputLength {
        ZeroIsDefault();
      }
    }
    WithLengthKeepsOffset(u.inputOffset, Min(remainder, u.inputLength));
  }

  /**
   * With no empty input file, a step from a productive state leads to a
   * productive state: a shorter sub-block than the output left only happens
   * at the end of a file, and the next file has bytes.
   */
  lemma NextKeepsProductive(contents: seq<seq<bv8>>, s: ChunkState)
    requires Sound(Lengths(contents), s) && !s.AtEnd() && Productive(s)
    requires NoEmptyFiles(contents)
    ensures CanRoll(Lengths(contents), s)
    ensures Productive(Next(Lengths(contents), s))
  {
    NextPreservesSound(Lengths(contents), s);
  }

  /**
   * The first half of the body of both copy loops for the `block`-th input
   * sub-block: map it out of its input file and advise it, then take the
   * address of its first byte, which lies `adjustment` bytes into the
   * mapping. The result is 0 with the sub-block's bytes, errno when the
   * mapping or the advice fails, or EINVAL when address() throws.
   */
  method ReadBlock(contents: seq<seq<bv8>>, s: ChunkState, sys: System, block: nat)
    returns (result: int, src: seq<bv8>)
    requires Sound(Lengths(contents), s) && s.file < |contents| && Normal(s.inputOffset)
    requires sys.errno != 0
    ensures !BlockGranted(sys, block) ==> result == sys.errno
    ensures BlockGranted(sys, block) ==> result == (if s.inputOffset.length > 0 then 0 else EINVAL)
    ensures result == 0 ==> src == contents[s.file][s.inputOffset.offset..s.InputEnd()]
  {
    var input := s.inputOffset;
    AlignedPartBounds(input);
    var inputFile := new bv8[|contents[s.file]|](i requires 0 <= i < |contents[s.file]| => contents[s.file][i]);
    var inputChunk := new Mmap.Map(inputFile, input.AdjustedOffset(), input.AdjustedLength(), sys.inputAddress(block));
    if !inputChunk.Valid() {
      return sys.errno, [];
    } else if !AdviseAll([sys.inputAdvice(block, Sequential), sys.inputAdvice(block, WillNeed), sys.inputAdvice(block, DontDump)]) {
      return sys.errno, [];
    }
    if inputChunk.Index(input.Adjustment()) == OutOfRange {
      return EINVAL, [];
    }
    assert inputFile[..] == contents[s.file];
    src := inputChunk.View()[input.Adjustment()..];
    assert src == contents[s.file][input.offset..s.InputEnd()];
    return 0, src;
  }

  /**
   * The body of both copy loops for the `block`-th input sub-block: read it
   * (see ReadBlock) and copy it into `outputChunk` at `offset`. The result
   * is 0, errno when the mapping or the advice fails, or EINVAL when one of
   * the two bounds checks throws; the output changes only on success.
   *
   * Seen from the stream of input bytes: when the file under the output
   * mapping is `before` with the stream's run from `p0` on, `done` bytes
   * long, written at `at`, and the sub-block is what follows that run and
   * goes right after it, a successful copy leaves the run one sub-block
   * longer.
   */
  method CopyBlock(contents: seq<seq<bv8>>, outputChunk: Mmap, offset: int, s: ChunkState,
                   sys: System, block: nat, ghost before: seq<bv8>, ghost at: nat, ghost p0: nat, ghost done: nat)
    returns (result: int, ghost copied: nat)
    requires Sound(Lengths(contents), s) && s.file < |contents| && Normal(s.inputOffset)
    requires outputChunk.Window() && outputChunk.Valid()
    requires 0 <= offset && (offset < outputChunk.len ==> s.inputOffset.length <= outputChunk.len - offset)
    requires sys.errno != 0
    requires InputPosition(Lengths(contents), s) == p0 + done && outputChunk.start + offset == at + done
    requires p0 + done <= |Concat(contents)| && at + done <= |before|
    requires outputChunk.file[..] == Overwrite(before, at, Concat(contents)[p0..p0 + done])
    modifies outputChunk.file
    ensures !BlockGranted(sys, block) ==> result == sys.errno
    ensures BlockGranted(sys, block) ==>
      result == (if s.inputOffset.length > 0 && offset < outputChunk.len then 0 else EINVAL)
    ensures copied == done + s.inputOffset.length
    ensures result == 0 ==> offset < outputChunk.len && p0 + copied <= |Concat(contents)|
    ensures result == 0 ==> outputChunk.file[..] == Overwrite(before, at, Concat(contents)[p0..p0 + copied])
    ensures result != 0 ==> outputChunk.file[..] == old(outputChunk.file[..])
  {
    copied := done + s.inputOffset.length;
    var src;
    result, src := ReadBlock(contents, s, sys, block);
    if result != 0 {
      return;
    }
    ghost var image := outputChunk.file[..];
    ghost var piece := contents[s.file][s.inputOffset.offset..s.InputEnd()];
    assert src[..s.inputOffset.length] == piece;
    var status := outputChunk.CopyTo(offset, src, s.inputOffset.length);
    if status == OutOfRange {
      return EINVAL, copied;
    }
    assert outputChunk.file[..] == Overwrite(image, at + done, piece);
    CopyStep(contents, s, image, before, at, p0, done, copied);
  }

  /** Two runs of a sequence side by side are the run that spans both. */
  lemma AdjacentRuns(stream: seq<bv8>, a: nat, b: nat, c: nat)
    requires a <= b <= c <= |stream|
    ensures stream[a..b] + stream[b..c] == stream[a..c]
  {
  }

  /**
   * A sub-block of a sound state is the run of the stream that starts at the
   * state's input position.
   */
  lemma BlockIsStreamRun(contents: seq<seq<bv8>>, s: ChunkState)
    requires Sound(Lengths(contents), s) && s.file < |contents|
    ensures InputPosition(Lengths(contents), s) + s.inputOffset.length <= |Concat(contents)|
    ensures contents[s.file][s.inputOffset.offset..s.InputEnd()] ==
      Concat(contents)[InputPosition(Lengths(contents), s)..InputPosition(Lengths(contents), s) + s.inputOffset.length]
  {
    ConcatSlice(contents, s.file, s.inputOffset.offset, s.InputEnd());
  }

  /**
   * One loop step of the byte-level proof: the output that holds the run of
   * the stream copied so far, with the next sub-block written after that
   * run, holds a run of the stream one sub-block longer.
   */
  lemma CopyStep(contents: seq<seq<bv8>>, s: ChunkState, image: seq<bv8>, before: seq<bv8>,
                 at: nat, p0: nat, done: nat, copied: nat)
    requires Sound(Lengths(contents), s) && s.file < |contents|
    requires InputPosition(Lengths(contents), s) == p0 + done && p0 + done <= |Concat(contents)|
    requires copied == done + s.inputOffset.length && at + copied <= |before|
    requires image == Overwrite(before, at, Concat(contents)[p0..p0 + done])
    ensures p0 + copied <= |Concat(contents)|
    ensures Overwrite(image, at + done, contents[s.file][s.inputOffset.offset..s.InputEnd()])
         == Overwrite(before, at, Concat(contents)[p0..p0 + copied])
  {
    var stream := Concat(contents);
    var n := s.inputOffset.length;
    BlockIsStreamRun(contents, s);
    OverwriteTwice(before, at, stream[p0..p0 + done], stream[p0 + done..p0 + done + n]);
    AdjacentRuns(stream, p0, p0 + done, p0 + done + n);
  }

  /**
   * What the copy loop of copyChunk() returns for a chunk in state `s` whose
   * sub-blocks are numbered from `block` on: 0 once the chunk is full,
   * errno at the first sub-block whose mapping or advice is refused, and
   * EINVAL at the first empty sub-block (its address() throws).
   */
  function Outcome(files: seq<nat>, s: ChunkState, sys: System, block: nat): (result: int)
    requires Sound(files, s)
    ensures result == 0 || result == sys.errno || result == EINVAL
    decreases s.outputOffset.length, |files| - s.file
  {
    if s.AtEnd() then 0
    else if !BlockGranted(sys, block) then sys.errno
    else if s.inputOffset.length == 0 then EINVAL
    else
      NextPreservesSound(files, s);
      Outcome(files, Next(files, s), sys, block + 1)
  }

  /**
   * The same for the do-while loop of the legacy copyChunk(), which maps and
   * copies a first sub-block even when the chunk is already full: on an
   * empty chunk that sub-block is empty and the copy fails; on any other
   * chunk the legacy loop returns what the newer one does.
   */
  function LegacyOutcome(files: seq<nat>, s: ChunkState, sys: System): (result: int)
    requires Sound(files, s)
    ensures result == 0 || result == sys.errno || result == EINVAL
  {
    if s.AtEnd() then (if BlockGranted(sys, 0) then EINVAL else sys.errno)
    else Outcome(files, s, sys, 0)
  }

  /**
   * When every mapping and every piece of advice is granted and no input
   * file is empty, the copy loop succeeds.
   */
  lemma {:induction false} GrantedCopySucceeds(contents: seq<seq<bv8>>, s: ChunkState, sys: System, block: nat)
    requires Sound(Lengths(contents), s) && Productive(s) && NoEmptyFiles(contents)
    requires forall k: nat :: block <= k ==> BlockGranted(sys, k)
    ensures Outcome(Lengths(contents), s, sys, block) == 0
    decreases s.outputOffset.length, |contents| - s.file
  {
    if !s.AtEnd() {
      NextKeepsProductive(contents, s);
      NextPreservesSound(Lengths(contents), s);
      GrantedCopySucceeds(contents, Next(Lengths(contents), s), sys, block + 1);
    }
  }

  /**
   * The loop invariant on the chunk state shared by both copy loops: the
   * state is sound and normal, what is left of its output range is the end
   * of the chunk's range `out`, and its input position has moved on from
   * the chunk's `p0` by as much as its output position has.
   */
  predicate OnTrack(files: seq<nat>, s: ChunkState, out: MappingOffset, p0: int)
  {
    && Sound(files, s)
    && Normal(s.inputOffset)
    && out.offset <= s.outputOffset.offset
    && s.outputOffset.offset + s.outputOffset.length == out.offset + out.length
    && InputPosition(files, s) == p0 + (s.outputOffset.offset - out.offset)
  }

  /** A step keeps a state on track and moves its output position on by the sub-block copied. */
  lemma OnTrackStep(files: seq<nat>, s: ChunkState, out: MappingOffset, p0: int)
    requires OnTrack(files, s, out, p0) && !s.AtEnd()
    ensures CanRoll(files, s) && s.file < |files|
    ensures OnTrack(files, Next(files, s), out, p0)
    ensures Next(files, s).outputOffset.offset == s.outputOffset.offset + s.inputOffset.length
    ensures Next(files, s).outputOffset.length < s.outputOffset.length
         || (Next(files, s).outputOffset.length == s.outputOffset.length && Next(files, s).file == s.file + 1)
  {
    NextPreservesSound(files, s);
    NextKeepsNormal(files, s);
  }

  /**
   * The loop of the copyChunk() template that the block-linear algorithm
   * instantiates (the chunk-spans algorithm has a copyChunk() of its own):
   * while the chunk has output left, its current sub-block is copied into
   * the output mapping at the running offset, which starts at the output
   * adjustment, and the chunk is stepped on. The `k`-th sub-block uses the
   * `k`-th input mapping's answers.
   */
  method CopyBlocks(contents: seq<seq<bv8>>, outputChunk: Mmap, chunk: ChunkState, sys: System)
    returns (result: int)
    requires Sound(Lengths(contents), chunk)
    requires Normal(chunk.inputOffset) && Normal(chunk.outputOffset)
    requires 0 <= chunk.outputOffset.offset
    requires !chunk.AtEnd() ==> chunk.outputOffset.Adjustment() == 0
    requires outputChunk.Window() && outputChunk.Valid()
    requires outputChunk.start == chunk.outputOffset.AdjustedOffset()
    requires outputChunk.len == chunk.outputOffset.AdjustedLength()
    requires sys.errno != 0
    modifies outputChunk.file
    ensures result == 0 ==> (outputChunk.file[..] ==
      Overwrite(old(outputChunk.file[..]), chunk.outputOffset.offset, Wanted(contents, chunk)))
    ensures result == Outcome(Lengths(contents), chunk, sys, 0)
  {
    var files := Lengths(contents);
    var out := chunk.outputOffset;
    ghost var before := outputChunk.file[..];
    ghost var p0: nat := InputPosition(files, chunk);
    UnreadCompletesStream(files, chunk);
    ConcatLength(contents);
    var offset := out.Adjustment();
    var state := chunk;
    var block: nat := 0;
    ghost var done: nat := 0;
    ghost var goal := Outcome(files, chunk, sys, 0);
    OverwriteNothing(before, out.offset);
    while !state.AtEnd()
      invariant OnTrack(files, state, out, p0)
      invariant done == state.outputOffset.offset - out.offset
      invariant offset == out.Adjustment() + done
      invariant p0 + done <= |Concat(contents)|
      invariant outputChunk.file[..] == Overwrite(before, out.offset, Concat(contents)[p0..p0 + done])
      invariant Outcome(files, state, sys, block) == goal
      decreases state.outputOffset.length, |files| - state.file
    {
      OnTrackStep(files, state, out, p0);
      var r;
      r, done := CopyBlock(contents, outputChunk, offset, state, sys, block, before, out.offset, p0, done);
      if r != 0 {
        return r;
      }
      offset := offset + state.inputOffset.length;
      state := Next(files, state);
      block := block + 1;
    }
    WantedIsRun(contents, chunk, p0, done);
    return 0;
  }

  /**
   * The copyChunk(chunk) template the block-linear algorithm instantiates.
   * On success the chunk's range of the output holds the bytes the chunk
   * stands for and nothing else in the output has changed; when every
   * mapping and piece of advice is granted and no input file is empty the
   * copy succeeds unless msync() fails. The `syncFlag` is the global
   * `sync` flag; the option table's `--no-sync` and `--async` entries are
   * the options that turn it off.
   */
  method CopyChunk(contents: seq<seq<bv8>>, output: array<bv8>, chunk: ChunkState, sys: System, syncFlag: bool)
    returns (result: int)
    requires Sound(Lengths(contents), chunk)
    requires Normal(chunk.inputOffset) && Normal(chunk.outputOffset)
    requires 0 <= chunk.outputOffset.offset
    requires chunk.outputOffset.offset + chunk.outputOffset.length <= output.Length
    requires !chunk.AtEnd() ==> chunk.outputOffset.Adjustment() == 0
    requires sys.errno != 0
    modifies output
    ensures result == 0 ==>
      output[..] == Overwrite(old(output[..]), chunk.outputOffset.offset, Wanted(contents, chunk))
    ensures result == 0 ==> !syncFlag || sys.synced
    ensures !OutputGranted(sys) ==> result == sys.errno && output[..] == old(output[..])
    ensures OutputGranted(sys) ==>
      result == (var copy := Outcome(Lengths(contents), chunk, sys, 0); if copy != 0 then copy else if syncFlag && !sys.synced then sys.errno else 0)
    ensures Granted(sys) && Productive(chunk) && NoEmptyFiles(contents) ==>
      result == (if syncFlag && !sys.synced then sys.errno else 0)
  {
    if Granted(sys) && Productive(chunk) && NoEmptyFiles(contents) {
      GrantedCopySucceeds(contents, chunk, sys, 0);
    }
    var out := chunk.outputOffset;
    AlignedPartBounds(out);
    var outputChunk := new Mmap.Map(output, out.AdjustedOffset(), out.AdjustedLength(), sys.outputAddress);
    if !outputChunk.Valid() {
      return sys.errno;
    } else if !AdviseAll([sys.outputAdvice(Sequential), sys.outputAdvice(DontDump)]) {
      return sys.errno;
    }
    result := CopyBlocks(contents, outputChunk, chunk, sys);
    if result != 0 {
      return;
    }
    if syncFlag && !sys.synced {
      return sys.errno;
    }
    return 0;
  }

  /**
   * The do-while loop of the legacy copyChunk(): it copies at least one
   * sub-block, and stops once the running offset, which starts at the output
   * adjustment, reaches the chunk's length. That test is only right for a
   * chunk that starts on a page boundary (adjustment 0), which every chunk of
   * the legacy chunker does: it starts at a multiple of the transfer block
   * size.
   */
  method CopyBlocksLegacy(contents: seq<seq<bv8>>, outputChunk: Mmap, chunk: ChunkState, sys: System)
    returns (result: int)
    requires Sound(Lengths(contents), chunk) && chunk.file < |contents|
    requires Normal(chunk.inputOffset) && Normal(chunk.outputOffset)
    requires 0 <= chunk.outputOffset.offset
    requires chunk.outputOffset.Adjustment() == 0
    requires outputChunk.Window() && outputChunk.Valid()
    requires outputChunk.start == chunk.outputOffset.offset
    requires outputChunk.len == chunk.outputOffset.length
    requires sys.errno != 0
    modifies outputChunk.file
    ensures result == 0 ==> (outputChunk.file[..] ==
      Overwrite(old(outputChunk.file[..]), chunk.outputOffset.offset, Wanted(contents, chunk)))
    ensures result == LegacyOutcome(Lengths(contents), chunk, sys)
  {
    var files := Lengths(contents);
    var out := chunk.outputOffset;
    var outputLength := out.length;
    ghost var before := outputChunk.file[..];
    ghost var p0: nat := InputPosition(files, chunk);
    ghost var goal := LegacyOutcome(files, chunk, sys);
    var r, offset, state;
    ghost var done: nat;
    r, offset, state, done := LegacyFirstPass(contents, outputChunk, chunk, sys, before, p0);
    if r != 0 {
      return r;
    }
    var block: nat := 1;
    while offset < outputLength
      invariant OnTrack(files, state, out, p0)
      invariant offset == state.outputOffset.offset - out.offset
      invariant done == offset && p0 + done <= |Concat(contents)|
      invariant outputChunk.file[..] == Overwrite(before, out.offset, Concat(contents)[p0..p0 + done])
      invariant Outcome(files, state, sys, block) == goal
      decreases state.outputOffset.length, |files| - state.file
    {
      OnTrackStep(files, state, out, p0);
      r, done := CopyBlock(contents, outputChunk, offset, state, sys, block, before, out.offset, p0, done);
      if r != 0 {
        return r;
      }
      offset := offset + state.inputOffset.length;
      state := Next(files, state);
      block := block + 1;
    }
    WantedIsRun(contents, chunk, p0, done);
    return 0;
  }

  /**
   * The first pass of the legacy do-while loop, which runs before its
   * condition is first tested: it copies the chunk's first sub-block, or
   * fails as the whole loop would.
   */
  method LegacyFirstPass(contents: seq<seq<bv8>>, outputChunk: Mmap, chunk: ChunkState, sys: System,
                         ghost before: seq<bv8>, ghost p0: nat)
    returns (result: int, offset: int, state: ChunkState, ghost done: nat)
    requires Sound(Lengths(contents), chunk) && chunk.file < |contents|
    requires Normal(chunk.inputOffset) && Normal(chunk.outputOffset)
    requires 0 <= chunk.outputOffset.offset
    requires chunk.outputOffset.Adjustment() == 0
    requires outputChunk.Window() && outputChunk.Valid()
    requires outputChunk.start == chunk.outputOffset.offset
    requires outputChunk.len == chunk.outputOffset.length
    requires sys.errno != 0
    requires before == outputChunk.file[..] && p0 == InputPosition(Lengths(contents), chunk)
    modifies outputChunk.file
    ensures result != 0 ==> result == LegacyOutcome(Lengths(contents), chunk, sys)
    ensures result == 0 ==> OnTrack(Lengths(contents), state, chunk.outputOffset, p0)
    ensures result == 0 ==> offset == state.outputOffset.offset - chunk.outputOffset.offset
    ensures result == 0 ==> done == offset && p0 + done <= |Concat(contents)|
    ensures result == 0 ==> outputChunk.file[..] == Overwrite(before, chunk.outputOffset.offset, Concat(contents)[p0..p0 + done])
    ensures result == 0 ==> Outcome(Lengths(contents), state, sys, 1) == LegacyOutcome(Lengths(contents), chunk, sys)
  {
    var files := Lengths(contents);
    var out := chunk.outputOffset;
    UnreadCompletesStream(files, chunk);
    ConcatLength(contents);
    offset := out.Adjustment();
    state := chunk;
    OverwriteNothing(before, out.offset);
    if !state.AtEnd() {
      OnTrackStep(files, state, out, p0);
    }
    result, done := CopyBlock(contents, outputChunk, offset, state, sys, 0, before, out.offset, p0, 0);
    if result != 0 {
      return;
    }
    offset := offset + state.inputOffset.length;
    state := Next(files, state);
  }

  /**
   * copyChunk(chunk) of the legacy algorithm: the output mapping, the
   * do-while loop, and an msync() that always takes place.
   */
  method CopyChunkLegacy(contents: seq<seq<bv8>>, output: array<bv8>, chunk: ChunkState, sys: System)
    returns (result: int)
    requires Sound(Lengths(contents), chunk) && chunk.file < |contents|
    requires Normal(chunk.inputOffset) && Normal(chunk.outputOffset)
    requires 0 <= chunk.outputOffset.offset
    requires chunk.outputOffset.offset + chunk.outputOffset.length <= output.Length
    requires chunk.outputOffset.Adjustment() == 0
    requires sys.errno != 0
    modifies output
    ensures result == 0 ==>
      output[..] == Overwrite(old(output[..]), chunk.outputOffset.offset, Wanted(contents, chunk))
    ensures result == 0 ==> sys.synced
    ensures !OutputGranted(sys) ==> result == sys.errno && output[..] == old(output[..])
    ensures OutputGranted(sys) ==>
      result == (var copy := LegacyOutcome(Lengths(contents), chunk, sys); if copy != 0 then copy else if !sys.synced then sys.errno else 0)
    ensures chunk.AtEnd() && OutputGranted(sys) ==> result == (if BlockGranted(sys, 0) then EINVAL else sys.errno)
    ensures Granted(sys) && Productive(chunk) && NoEmptyFiles(contents) && !chunk.AtEnd() ==>
      result == (if sys.synced then 0 else sys.errno)
  {
    if Granted(sys) && Productive(chunk) && NoEmptyFiles(contents) {
      GrantedCopySucceeds(contents, chunk, sys, 0);
    }
    var out := chunk.outputOffset;
    AlignedPartBounds(out);
    var outputChunk := new Mmap.Map(output, out.AdjustedOffset(), out.AdjustedLength(), sys.outputAddress);
    if !outputChunk.Valid() {
      return sys.errno;
    } else if !AdviseAll([sys.outputAdvice(Sequential), sys.outputAdvice(DontDump)]) {
      return sys.errno;
    }
    result := CopyBlocksLegacy(contents, outputChunk, chunk, sys);
    if result != 0 {
      return;
    }
    if !sys.synced {
      return sys.errno;
    }
    return 0;
  }

  /** The range of `span` in the output holds the same range of the stream. */
  predicate Copied(stream: seq<bv8>, output: seq<bv8>, span: Span)
  {
    && 0 <= span.offset <= span.offset + span.length <= |stream| <= |output|
    && output[span.offset..span.offset + span.length] == stream[span.offset..span.offset + span.length]
  }

  /** Two equal runs side by side, the second reaching the end, make equal tails. */
  lemma JoinRuns(output: seq<bv8>, stream: seq<bv8>, from: nat, next: nat)
    requires from <= next <= |output| == |stream|
    requires output[from..next] == stream[from..next] && output[next..] == stream[next..]
    ensures output[from..] == stream[from..]
  {
    assert output[from..] == output[from..next] + output[next..];
    assert stream[from..] == stream[from..next] + stream[next..];
  }

  /**
   * When the chunks tile the output and each copy has left its chunk's range
   * equal to the same range of the stream, the whole output is the stream.
   * Each copy writes its own range only, so the order of the copies (they
   * run on a thread pool) does not matter.
   */
  lemma {:induction false} TiledCopyIsStream(stream: seq<bv8>, output: seq<bv8>, spans: seq<Span>, from: int)
    requires |output| == |stream| && 0 <= from <= |stream|
    requires Tiles(spans, from, |stream|)
    requires forall i :: 0 <= i < |spans| ==> Copied(stream, output, spans[i])
    ensures output[from..] == stream[from..]
    decreases |spans|
  {
    if spans != [] {
      var first := spans[0];
      var next := from + first.length;
      TilesTail(spans, from, |stream|);
      assert Copied(stream, output, first);
      var rest := spans[1..];
      forall i | 0 <= i < |rest|
        ensures Copied(stream, output, rest[i])
      {
        assert rest[i] == spans[i + 1];
      }
      TiledCopyIsStream(stream, output, rest, next);
      JoinRuns(output, stream, from, next);
    }
  }
}
