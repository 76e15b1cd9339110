/**
 * The list of input files pcat concatenates. The chunk engine only needs each
 * file's length; the copy also needs the bytes. The bytes of the output are the
 * inputs laid end to end, so a position in the output is a position in the
 * "stream" of all inputs.
 */
module InputFiles {

  /** The total length of a run of files. */
  function Sum(lengths: seq<nat>): (total: nat)
    ensures lengths == [] ==> total == 0
  {
    if lengths == [] then 0 else lengths[0] + Sum(lengths[1..])
  }

  lemma {:induction false} SumAppend(a: seq<nat>, b: seq<nat>)
    ensures Sum(a + b) == Sum(a) + Sum(b)
  {
    if a == [] {
      assert a + b == b;
    } else {
      assert (a + b)[1..] == a[1..] + b;
      SumAppend(a[1..], b);
    }
  }

  /** Splitting the list at `i`: what lies before plus what lies from `i` on. */
  lemma SumSplit(lengths: seq<nat>, i: nat)
    requires i <= |lengths|
    ensures Sum(lengths[..i]) + Sum(lengths[i..]) == Sum(lengths)
  {
    assert lengths[..i] + lengths[i..] == lengths;
    SumAppend(lengths[..i], lengths[i..]);
  }

  /** Moving one file across the split point. */
  lemma SumStep(lengths: seq<nat>, i: nat)
    requires i < |lengths|
    ensures Sum(lengths[..i + 1]) == Sum(lengths[..i]) + lengths[i]
    ensures Sum(lengths[i..]) == lengths[i] + Sum(lengths[i + 1..])
  {
    assert lengths[..i + 1] == lengths[..i] + [lengths[i]];
    SumAppend(lengths[..i], [lengths[i]]);
    assert Sum([lengths[i]]) == lengths[i] + Sum([]);
    assert lengths[i..][1..] == lengths[i + 1..];
  }

  /** Every file before the one at `i` fits in the total. */
  lemma SumPrefixBound(lengths: seq<nat>, i: nat)
    requires i < |lengths|
    ensures Sum(lengths[..i]) + lengths[i] <= Sum(lengths)
  {
    SumSplit(lengths, i);
    SumStep(lengths, i);
  }

  /** The length of each input file. */
  function Lengths(contents: seq<seq<bv8>>): (lengths: seq<nat>)
    ensures |lengths| == |contents|
    ensures forall i :: 0 <= i < |contents| ==> lengths[i] == |contents[i]|
  {
    if contents == [] then [] else [|contents[0]|] + Lengths(contents[1..])
  }

  /** The bytes of all input files, one after the other. */
  function Concat(contents: seq<seq<bv8>>): (stream: seq<bv8>)
  {
    if contents == [] then [] else contents[0] + Concat(contents[1..])
  }

  /** The stream is as long as the files together. */
  lemma {:induction false} ConcatLength(contents: seq<seq<bv8>>)
    ensures |Concat(contents)| == Sum(Lengths(contents))
  {
    if contents != [] {
      ConcatLength(contents[1..]);
      assert Lengths(contents)[1..] == Lengths(contents[1..]);
    }
  }

  /** The files before `f`, seen from the second file on, are one shorter. */
  lemma PrefixLengthsCons(contents: seq<seq<bv8>>, f: nat)
    requires 0 < f <= |contents|
    ensures Sum(Lengths(contents)[..f]) == |contents[0]| + Sum(Lengths(contents[1..])[..f - 1])
  {
    var rest := contents[1..];
    assert Lengths(contents)[..f] == [|contents[0]|] + Lengths(rest)[..f - 1];
    SumAppend([|contents[0]|], Lengths(rest)[..f - 1]);
    assert Sum([|contents[0]|]) == |contents[0]| + Sum([]);
  }

  /**
   * Byte `j` of file `f` sits in the stream at the total length of the files
   * before `f`, plus `j`.
   */
  lemma {:induction false} ConcatAt(contents: seq<seq<bv8>>, f: nat, j: nat)
    requires f < |contents| && j < |contents[f]|
    ensures Sum(Lengths(contents)[..f]) + j < |Concat(contents)|
    ensures Concat(contents)[Sum(Lengths(contents)[..f]) + j] == contents[f][j]
  {
    var rest := contents[1..];
    var stream := Concat(contents);
    assert stream == contents[0] + Concat(rest);
    if f == 0 {
      assert Lengths(contents)[..f] == [];
      assert stream[j] == contents[0][j];
    } else {
      ConcatAt(rest, f - 1, j);
      PrefixLengthsCons(contents, f);
      var inRest := Sum(Lengths(rest)[..f - 1]) + j;
      assert stream[|contents[0]| + inRest] == Concat(rest)[inRest];
    }
  }

  /** Two runs agree when they agree byte for byte. */
  lemma SameRun(stream: seq<bv8>, file: seq<bv8>, base: nat, lo: nat, hi: nat)
    requires lo <= hi <= |file| && base + hi <= |stream|
    requires forall k :: lo <= k < hi ==> stream[base + k] == file[k]
    ensures file[lo..hi] == stream[base + lo..base + hi]
  {
    var left, right := file[lo..hi], stream[base + lo..base + hi];
    assert |left| == |right|;
    forall i | 0 <= i < |left|
      ensures left[i] == right[i]
    {
      assert left[i] == file[lo + i] && right[i] == stream[base + (lo + i)];
    }
  }

  /**
   * A run of bytes inside file `f` is the run of the stream at the same
   * distance from `base`, the total length of the files before `f`.
   */
  lemma ConcatRun(contents: seq<seq<bv8>>, f: nat, base: nat, lo: nat, hi: nat)
    requires f < |contents| && lo <= hi <= |contents[f]| && base == Sum(Lengths(contents)[..f])
    ensures base + hi <= |Concat(contents)|
    ensures contents[f][lo..hi] == Concat(contents)[base + lo..base + hi]
  {
    var stream := Concat(contents);
    SumPrefixBound(Lengths(contents), f);
    ConcatLength(contents);
    forall k | lo <= k < hi
      ensures stream[base + k] == contents[f][k]
    {
      ConcatAt(contents, f, k);
    }
    SameRun(stream, contents[f], base, lo, hi);
  }

  /**
   * A run of bytes inside one file is the matching run of the stream.
   */
  lemma ConcatSlice(contents: seq<seq<bv8>>, f: nat, lo: nat, hi: nat)
    requires f < |contents| && lo <= hi <= |contents[f]|
    ensures Sum(Lengths(contents)[..f]) + hi <= |Concat(contents)|
    ensures contents[f][lo..hi]
         == Concat(contents)[Sum(Lengths(contents)[..f]) + lo..Sum(Lengths(contents)[..f]) + hi]
  {
    ConcatRun(contents, f, Sum(Lengths(contents)[..f]), lo, hi);
  }
}
