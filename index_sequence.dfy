/**
 * indexIterator_t and indexSequence_t: a half-open run of indices that a
 * range-for can walk, used to hand each worker thread its processor index.
 * The iterator is an object whose `++` bumps its index in place; the sequence
 * is a pair of bounds that hands out fresh iterators.
 */
module IndexSequences {

  /** indexIterator_t */
  class IndexIterator {
    var index: nat

    /** indexIterator_t(value) */
    constructor (value: nat)
      ensures index == value
    {
      index := value;
    }

    /** operator *: the index the iterator stands at. */
    function Deref(): nat
      reads this
    {
      index
    }

    /**
     * operator ++ (prefix): the iterator moves on by exactly one index and a
     * copy of it, as it now stands, is returned.
     */
    method Increment() returns (copy: IndexIterator)
      modifies this
      ensures index == old(index) + 1
      ensures fresh(copy) && copy.index == index
    {
      index := index + 1;
      copy := new IndexIterator(index);
    }
  }

  /** operator ==: two iterators are equal when they stand at the same index. */
  predicate Equal(a: IndexIterator, b: IndexIterator)
    reads a, b
  {
    a.Deref() == b.Deref()
  }

  /** operator !=, written out on its own in the same way. */
  predicate NotEqual(a: IndexIterator, b: IndexIterator)
    reads a, b
  {
    a.Deref() != b.Deref()
  }

  /** indexSequence_t: the bounds of a run of indices. */
  datatype IndexSequence = IndexSequence(first: nat, last: nat)
  {
    /** The indices a range-for over the sequence visits: first up to, not including, last. */
    function Indices(): (r: seq<nat>)
    {
      if first <= last then seq(last - first, k => first + k) else []
    }

    /** begin() */
    method Begin() returns (it: IndexIterator)
      ensures fresh(it) && it.index == first
    {
      it := new IndexIterator(first);
    }

    /** end() */
    method End() returns (it: IndexIterator)
      ensures fresh(it) && it.index == last
    {
      it := new IndexIterator(last);
    }
  }

  /**
   * Walking a sequence the way a range-for does (from begin(), applying ++
   * until the iterator equals end()) visits exactly its indices, in order.
   */
  method Walk(indices: IndexSequence) returns (visited: seq<nat>)
    requires indices.first <= indices.last
    ensures visited == indices.Indices()
  {
    var it := indices.Begin();
    var stop := indices.End();
    visited := [];
    while NotEqual(it, stop)
      invariant indices.first <= it.index <= indices.last && stop.index == indices.last
      invariant visited == indices.Indices()[..it.index - indices.first]
      decreases indices.last - it.index
    {
      visited := visited + [it.Deref()];
      var _ := it.Increment();
    }
  }

  /** == and != always disagree, and equality is reflexive and symmetric. */
  lemma EqualityIsComplement(a: IndexIterator, b: IndexIterator)
    ensures Equal(a, b) <==> !NotEqual(a, b)
    ensures Equal(a, a) && (Equal(a, b) <==> Equal(b, a))
  {
  }

  /** An empty sequence (first == last) has begin() == end() and nothing to visit. */
  method EmptySequence(n: nat) returns (same: bool, visited: seq<nat>)
    ensures same && visited == []
  {
    var empty := IndexSequence(n, n);
    var b := empty.Begin();
    var e := empty.End();
    same := Equal(b, e);
    visited := Walk(empty);
  }

  /**
   * The iterator test: an iterator made at 0 equals one made at 0 and not one
   * made at 1; after ++ it equals the returned copy and one made at 1.
   */
  method IteratorSteps() returns (before: bool, copied: bool, after: bool)
    ensures before && copied && after
  {
    var it := new IndexIterator(0);
    var zero := new IndexIterator(0);
    var one := new IndexIterator(1);
    before := Equal(it, zero) && !Equal(it, one) && NotEqual(it, one);
    var copy := it.Increment();
    copied := Equal(copy, it);
    after := Equal(it, one) && NotEqual(it, zero);
  }
}
