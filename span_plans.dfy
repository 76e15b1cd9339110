/**
 * How the chunk-spans algorithm cuts the output file into spans: the span
 * length chunkedCopy() picks for the number of processors, and the rule by
 * which chunking_t::operator ++ sizes each span after the first.
 *
 * As written, the tail test subtracts the unsigned span length from the
 * signed remainder, so when fewer than one span's worth of bytes remain the
 * difference wraps round to a huge unsigned value and the span is given the
 * full span length, running past the end of the output. `TailLengthAsWritten`
 * models the test as written and `TailAsWrittenOvershoots` exhibits the
 * overrun; `TailLength` is the evidently intended rule, which the rest of the
 * model uses.
 *
 * As written, chunkedCopy() divides by the processor count without checking
 * that there is one. `SpanFor` models the code as written, with `None` for
 * the division by zero, and `CheckedSpanFor` refuses a copy with no
 * processor instead.
 */
module SpanPlans {
  import opened Chunking
  import opened Options

  /** 2^64: one more than the largest size_t. */
  const SizeRange: nat := 0x1_0000_0000_0000_0000

  /** 2^63: one more than the largest off_t. */
  const OffsetRange: nat := 0x8000_0000_0000_0000

  /** The conversion of a signed 64-bit value to size_t: reduction modulo 2^64. */
  function AsUnsigned(value: int): (u: nat)
    ensures u < SizeRange
    ensures 0 <= value < SizeRange ==> u == value
    ensures -(SizeRange as int) <= value < 0 ==> u == value + SizeRange
  {
    value % SizeRange
  }

  /**
   * The span length chunkedCopy() works with: nothing (the short-file form)
   * when one transfer block per processor already covers the output, and
   * otherwise as many whole transfer blocks as one processor's share of the
   * output holds. With no processor at all (an empty affinity selection)
   * the short-file test only passes for an empty output, and the division
   * that follows it is by zero: `None` stands for that division.
   */
  function SpanFor(length: nat, processors: nat): (span: Option<nat>)
  {
    if TransferBlockSize * processors >= length then Some(0)
    else if processors == 0 then None
    else Some(length / (TransferBlockSize * processors) * TransferBlockSize)
  }

  /**
   * The division by zero happens exactly when there is no processor and the
   * output is not empty; a single byte of output is enough to reach it.
   */
  lemma SpanForDividesByZero(length: nat, processors: nat)
    ensures SpanFor(length, processors).None? <==> processors == 0 && length > 0
    ensures SpanFor(1, 0) == None
  {
  }

  /**
   * chunkedCopy() takes the short-file form exactly when one transfer block
   * per processor covers the output; otherwise the span is a whole, non-zero
   * number of transfer blocks, and one span per processor fits in the output
   * with less than one transfer block per processor to spare.
   */
  lemma SpanForFits(length: nat, processors: nat)
    requires processors > 0
    ensures SpanFor(length, processors).Some?
    ensures SpanFor(length, processors).value == 0 <==> TransferBlockSize * processors >= length
    ensures SpanFor(length, processors).value % TransferBlockSize == 0
    ensures SpanFor(length, processors).value > 0 ==> SpanFor(length, processors).value >= TransferBlockSize
    ensures processors * SpanFor(length, processors).value <= length
    ensures SpanFor(length, processors).value > 0 ==>
      length - processors * SpanFor(length, processors).value < processors * TransferBlockSize
  {
    var block := TransferBlockSize * processors;
    if block < length {
      var k := length / block;
      assert k >= 1;
      assert k * block <= length < (k + 1) * block;
      assert processors * (k * TransferBlockSize) == k * block;
    }
  }

  /**
   * The span length with the processor count checked first: a copy with no
   * processor to run it is refused (`None`), whatever the output length, and
   * otherwise the span is the one chunkedCopy() computes.
   */
  function CheckedSpanFor(length: nat, processors: nat): (span: Option<nat>)
  {
    if processors == 0 then None else SpanFor(length, processors)
  }

  /**
   * The checked span length never divides by zero: it is refused exactly
   * when there is no processor, and otherwise it is defined and agrees with
   * chunkedCopy()'s, with all that `SpanForFits` says of it.
   */
  lemma CheckedSpanForDefined(length: nat, processors: nat)
    ensures CheckedSpanFor(length, processors).Some? <==> processors > 0
    ensures processors > 0 ==> CheckedSpanFor(length, processors) == SpanFor(length, processors)
    ensures CheckedSpanFor(length, processors).Some? ==>
      processors * CheckedSpanFor(length, processors).value <= length
      && CheckedSpanFor(length, processors).value % TransferBlockSize == 0
  {
    if processors > 0 {
      SpanForFits(length, processors);
    }
  }

  /**
   * The length of the span that starts with `remainder` bytes of output left,
   * as intended: none when nothing is left, all of it when fewer than two
   * spans' worth remain, one span otherwise.
   */
  function TailLength(remainder: int, span: nat): (length: int)
    requires remainder >= 0 && span > 0
    ensures 0 <= length <= remainder
    ensures remainder > 0 ==> length > 0
    ensures length == remainder <==> remainder < 2 * span
    ensures length < remainder ==> length == span && remainder - length >= span
  {
    if remainder == 0 then 0
    else if remainder - span < span then remainder
    else span
  }

  /**
   * The same rule as written: `outputLength - outputOffset - spanLength` is
   * computed in size_t, so the subtraction of the span wraps round when the
   * remainder is the smaller.
   */
  function TailLengthAsWritten(remainder: int, span: nat): int
    requires remainder >= 0 && span > 0
  {
    if remainder == 0 then 0
    else if AsUnsigned(remainder - span) < span then remainder
    else span
  }

  /**
   * While at least one span's worth of output remains the rule as written
   * agrees with the intended one.
   */
  lemma TailAsWrittenAgrees(remainder: int, span: nat)
    requires span > 0 && span <= remainder < OffsetRange
    ensures TailLengthAsWritten(remainder, span) == TailLength(remainder, span)
  {
  }

  /**
   * With fewer than one span's worth of output left, the rule as written
   * hands out a whole span, which ends past the end of the output.
   */
  lemma TailAsWrittenOvershoots(remainder: int, span: nat)
    requires 0 < remainder < span < OffsetRange
    ensures TailLengthAsWritten(remainder, span) == span > remainder
    ensures TailLength(remainder, span) == remainder
  {
    assert AsUnsigned(remainder - span) == remainder - span + SizeRange;
  }

  /** One span of the output: where it starts and how long it is. */
  datatype Span = Span(offset: int, length: int)

  /** The total length covered by a list of spans. */
  function Covered(spans: seq<Span>): int
  {
    if spans == [] then 0 else spans[0].length + Covered(spans[1..])
  }

  /**
   * The spans visited from a span at `offset` of length `length` on, when
   * each next span starts where the previous one ends and is sized by
   * `TailLength`; the walk stops at the end of the output.
   */
  function SpansFrom(outputLength: int, span: nat, offset: int, length: int): seq<Span>
    requires span > 0
    requires 0 <= offset <= outputLength
    requires 0 <= length <= outputLength - offset
    requires offset < outputLength ==> length > 0
    decreases outputLength - offset
  {
    if offset == outputLength then []
    else
      [Span(offset, length)]
        + SpansFrom(outputLength, span, offset + length, TailLength(outputLength - (offset + length), span))
  }

  /** The spans of a whole output: the first is one span long, or the whole output if shorter. */
  function OutputSpans(outputLength: nat, span: nat): seq<Span>
    requires span > 0
  {
    SpansFrom(outputLength, span, 0, Min(span, outputLength))
  }

  /**
   * A list of spans tiles the output from `offset` to its end: none is empty
   * or runs past the end, the first starts at `offset`, each starts where the one before ends, and
   * the last ends at the end of the output.
   */
  predicate Tiles(spans: seq<Span>, offset: int, outputLength: int)
  {
    && (spans == [] <==> offset == outputLength)
    && (spans != [] ==> spans[0].offset == offset)
    && (forall i :: 0 <= i < |spans| ==> 0 < spans[i].length <= outputLength - spans[i].offset)
    && (forall i :: 0 <= i < |spans| - 1 ==> spans[i].offset + spans[i].length == spans[i + 1].offset)
    && (spans != [] ==> spans[|spans| - 1].offset + spans[|spans| - 1].length == outputLength)
  }

  /** Putting a non-empty span in front of a tiling of what follows it. */
  lemma TilesCons(first: Span, rest: seq<Span>, outputLength: int)
    requires first.length > 0 && first.offset < outputLength
    requires Tiles(rest, first.offset + first.length, outputLength)
    ensures Tiles([first] + rest, first.offset, outputLength)
    ensures Covered([first] + rest) == first.length + Covered(rest)
  {
    var spans := [first] + rest;
    assert spans[1..] == rest;
    assert forall i :: 0 < i < |spans| ==> spans[i] == rest[i - 1];
  }

  /** Taking the first span off a tiling leaves a tiling of what follows it. */
  lemma TilesTail(spans: seq<Span>, offset: int, outputLength: int)
    requires Tiles(spans, offset, outputLength) && spans != []
    ensures spans[0].offset == offset && 0 < spans[0].length <= outputLength - offset
    ensures Tiles(spans[1..], offset + spans[0].length, outputLength)
  {
    var rest := spans[1..];
    assert forall i :: 0 <= i < |rest| ==> rest[i] == spans[i + 1];
    if rest != [] {
      assert rest[0].offset == spans[0].offset + spans[0].length;
    }
  }

  /** A tiling covers exactly the output from its start to the end. */
  lemma {:induction false} TilesCover(spans: seq<Span>, offset: int, outputLength: int)
    requires Tiles(spans, offset, outputLength)
    ensures Covered(spans) == outputLength - offset
    decreases |spans|
  {
    if spans != [] {
      var rest := spans[1..];
      assert forall i :: 0 <= i < |rest| ==> rest[i] == spans[i + 1];
      if rest != [] {
        assert rest[0].offset == spans[0].offset + spans[0].length;
      }
      TilesCover(rest, spans[0].offset + spans[0].length, outputLength);
    }
  }

  /** Away from the end of the output, the walk is the current span followed by the walk from the next. */
  lemma SpansFromStep(outputLength: int, span: nat, offset: int, length: int, nextOffset: int, nextLength: int)
    requires span > 0 && 0 <= offset < outputLength && 0 < length <= outputLength - offset
    requires nextOffset == offset + length && nextLength == TailLength(outputLength - nextOffset, span)
    ensures SpansFrom(outputLength, span, offset, length)
         == [Span(offset, length)] + SpansFrom(outputLength, span, nextOffset, nextLength)
  {
  }

  /**
   * The spans visited tile the output from `offset` to its end.
   */
  lemma {:induction false} SpansTile(outputLength: int, span: nat, offset: int, length: int)
    requires span > 0
    requires 0 <= offset <= outputLength
    requires 0 <= length <= outputLength - offset
    requires offset < outputLength ==> length > 0
    ensures Tiles(SpansFrom(outputLength, span, offset, length), offset, outputLength)
    ensures SpansFrom(outputLength, span, offset, length) != [] ==>
      SpansFrom(outputLength, span, offset, length)[0] == Span(offset, length)
    ensures Covered(SpansFrom(outputLength, span, offset, length)) == outputLength - offset
    decreases outputLength - offset
  {
    if offset < outputLength {
      var next := offset + length;
      var nextLength := TailLength(outputLength - next, span);
      var rest := SpansFrom(outputLength, span, next, nextLength);
      SpansFromStep(outputLength, span, offset, length, next, nextLength);
      SpansTile(outputLength, span, next, nextLength);
      TilesCons(Span(offset, length), rest, outputLength);
    }
  }

  /**
   * Every span after the first is one span long, except the last, which takes
   * in the tail and is shorter than two spans.
   */
  lemma {:induction false} SpansSized(outputLength: int, span: nat, offset: int, length: int)
    requires span > 0
    requires 0 <= offset <= outputLength
    requires 0 <= length <= outputLength - offset
    requires offset < outputLength ==> length > 0
    ensures var spans := SpansFrom(outputLength, span, offset, length);
      && (forall i :: 0 < i < |spans| - 1 ==> spans[i].length == span)
      && (|spans| > 1 ==> spans[|spans| - 1].length < 2 * span)
    decreases outputLength - offset
  {
    if offset < outputLength {
      var next := offset + length;
      var nextLength := TailLength(outputLength - next, span);
      var rest := SpansFrom(outputLength, span, next, nextLength);
      var spans := SpansFrom(outputLength, span, offset, length);
      SpansSized(outputLength, span, next, nextLength);
      SpansTile(outputLength, span, next, nextLength);
      SpansFromStep(outputLength, span, offset, length, next, nextLength);
      assert forall i :: 0 < i < |spans| ==> spans[i] == rest[i - 1];
      if |rest| > 1 {
        assert rest[0].offset + rest[0].length == rest[1].offset;
      }
    }
  }

  /**
   * The spans of a whole output tile it from offset 0 to its end; every span
   * between the first and the last is one span long, and the last is shorter
   * than two spans.
   */
  lemma OutputSpansTile(outputLength: nat, span: nat)
    requires span > 0
    ensures Tiles(OutputSpans(outputLength, span), 0, outputLength)
    ensures Covered(OutputSpans(outputLength, span)) == outputLength
    ensures var spans := OutputSpans(outputLength, span);
      && (forall i :: 0 < i < |spans| - 1 ==> spans[i].length == span)
      && (|spans| > 1 ==> spans[|spans| - 1].length < 2 * span)
  {
    var first := Min(span, outputLength);
    assert OutputSpans(outputLength, span) == SpansFrom(outputLength, span, 0, first);
    SpansTile(outputLength, span, 0, first);
    SpansSized(outputLength, span, 0, first);
  }

  /**
   * 34 transfer blocks of output cut into spans of 8 transfer blocks: spans
   * start at 0, 8, 16 and 24 blocks, and the last takes in the 2-block tail.
   */
  lemma ThirtyFourBlocksInSpansOfEight()
    ensures OutputSpans(34 * TransferBlockSize, 8 * TransferBlockSize)
         == [Span(0, 8 * TransferBlockSize), Span(8 * TransferBlockSize, 8 * TransferBlockSize),
             Span(16 * TransferBlockSize, 8 * TransferBlockSize), Span(24 * TransferBlockSize, 10 * TransferBlockSize)]
  {
    var b := TransferBlockSize;
    var span := 8 * b;
    var total := 34 * b;
    assert SpansFrom(total, span, 34 * b, 0) == [];
    assert SpansFrom(total, span, 24 * b, 10 * b) == [Span(24 * b, 10 * b)];
    assert SpansFrom(total, span, 16 * b, 8 * b) == [Span(16 * b, 8 * b), Span(24 * b, 10 * b)];
    assert SpansFrom(total, span, 8 * b, 8 * b) == [Span(8 * b, 8 * b), Span(16 * b, 8 * b), Span(24 * b, 10 * b)];
  }

  /**
   * One transfer block plus a page of output in spans of one transfer block:
   * the second span starts one block in; as written it is given a whole
   * block, ending a block minus a page past the end, where the intended rule
   * gives it the page that is left.
   */
  lemma UnalignedTailExample()
    ensures TailLengthAsWritten(4096, TransferBlockSize) == TransferBlockSize
    ensures TransferBlockSize + TailLengthAsWritten(4096, TransferBlockSize) > TransferBlockSize + 4096
    ensures TailLength(4096, TransferBlockSize) == 4096
    ensures OutputSpans(TransferBlockSize + 4096, TransferBlockSize)
         == [Span(0, TransferBlockSize), Span(TransferBlockSize, 4096)]
  {
    TailAsWrittenOvershoots(4096, TransferBlockSize);
    var b := TransferBlockSize;
    assert SpansFrom(b + 4096, b, b + 4096, 0) == [];
    assert SpansFrom(b + 4096, b, b, 4096) == [Span(b, 4096)];
  }
}
