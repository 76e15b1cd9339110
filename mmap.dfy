/**
 * mmap_t: one memory mapping of a window of a file. The mapping call itself
 * belongs to the operating system and is not modelled: the address it
 * returned is a parameter (0 when it failed, which mmap_t records as a null
 * address), and the file is a byte array that the mapping shows from the
 * window's start on. A shared mapping writes straight into that array.
 * madvise() and msync() outcomes are parameters of their callers.
 */
module MemoryMaps {

  /** How a bounds-checked access ends: done, or with std::out_of_range thrown. */
  datatype Status = Done | OutOfRange

  /** `bytes` with `data` written over it from position `at` on. */
  function Overwrite(bytes: seq<bv8>, at: nat, data: seq<bv8>): (r: seq<bv8>)
    requires at + |data| <= |bytes|
    ensures |r| == |bytes|
  {
    bytes[..at] + data + bytes[at + |data|..]
  }

  /**
   * What a write does: the run from `at` on holds `data`, and every byte
   * outside that run is the byte that was there.
   */
  lemma OverwriteEffect(bytes: seq<bv8>, at: nat, data: seq<bv8>)
    requires at + |data| <= |bytes|
    ensures Overwrite(bytes, at, data)[at..at + |data|] == data
    ensures forall i :: 0 <= i < |bytes| && !(at <= i < at + |data|) ==> Overwrite(bytes, at, data)[i] == bytes[i]
    ensures forall i :: at <= i < at + |data| ==> Overwrite(bytes, at, data)[i] == data[i - at]
  {
  }

  /** Two writes one after the other are one write of both runs. */
  lemma OverwriteTwice(bytes: seq<bv8>, at: nat, first: seq<bv8>, second: seq<bv8>)
    requires at + |first| + |second| <= |bytes|
    ensures Overwrite(Overwrite(bytes, at, first), at + |first|, second) == Overwrite(bytes, at, first + second)
  {
    var middle := Overwrite(bytes, at, first);
    var left := Overwrite(middle, at + |first|, second);
    var right := Overwrite(bytes, at, first + second);
    OverwriteEffect(bytes, at, first);
    OverwriteEffect(middle, at + |first|, second);
    OverwriteEffect(bytes, at, first + second);
    assert |left| == |right|;
    forall i | 0 <= i < |left|
      ensures left[i] == right[i]
    {
      if at <= i < at + |first| {
        assert left[i] == first[i - at];
        assert right[i] == (first + second)[i - at];
      } else if at + |first| <= i < at + |first| + |second| {
        assert left[i] == second[i - at - |first|];
        assert right[i] == (first + second)[i - at];
      }
    }
  }

  /** Writing nothing changes nothing. */
  lemma OverwriteNothing(bytes: seq<bv8>, at: nat)
    requires at <= |bytes|
    ensures Overwrite(bytes, at, []) == bytes
  {
  }

  /**
   * advise<flag, flags...>(): each flag is passed to madvise() in turn, and
   * the first refusal stops the walk. `outcomes` holds what madvise() would
   * answer for each flag; there is always at least one flag.
   */
  function AdviseAll(outcomes: seq<bool>): bool
    requires |outcomes| > 0
  {
    if !outcomes[0] then false
    else if |outcomes| == 1 then true
    else AdviseAll(outcomes[1..])
  }

  /** How many madvise() calls the walk makes before it stops. */
  function AdviceCalls(outcomes: seq<bool>): nat
    requires |outcomes| > 0
  {
    if !outcomes[0] || |outcomes| == 1 then 1
    else 1 + AdviceCalls(outcomes[1..])
  }

  /** The walk succeeds exactly when madvise() accepts every flag. */
  lemma {:induction false} AdviseAllEvery(outcomes: seq<bool>)
    requires |outcomes| > 0
    ensures AdviseAll(outcomes) <==> forall i :: 0 <= i < |outcomes| ==> outcomes[i]
  {
    if outcomes[0] && |outcomes| > 1 {
      AdviseAllEvery(outcomes[1..]);
      assert forall i :: 1 <= i < |outcomes| ==> outcomes[i] == outcomes[1..][i - 1];
    }
  }

  /**
   * The walk stops at the first refusal: every flag before the last one
   * asked for was accepted, and it stops early only on a refusal.
   */
  lemma {:induction false} AdviceStopsAtFirstRefusal(outcomes: seq<bool>)
    requires |outcomes| > 0
    ensures 1 <= AdviceCalls(outcomes) <= |outcomes|
    ensures forall i :: 0 <= i < AdviceCalls(outcomes) - 1 ==> outcomes[i]
    ensures AdviceCalls(outcomes) < |outcomes| ==> !outcomes[AdviceCalls(outcomes) - 1]
    ensures AdviseAll(outcomes) <==> AdviceCalls(outcomes) == |outcomes| && outcomes[|outcomes| - 1]
  {
    if outcomes[0] && |outcomes| > 1 {
      var rest := outcomes[1..];
      AdviceStopsAtFirstRefusal(rest);
      assert forall i :: 1 <= i < |outcomes| ==> outcomes[i] == rest[i - 1];
    }
  }

  class Mmap {
    /** `_addr`: where the mapping starts in memory; 0 is the null address. */
    var addr: nat
    /** `_len`: the length asked for, kept even when the mapping failed. */
    var len: int
    /** The file the mapping shows, and where in it the window starts. */
    var file: array<bv8>
    var start: int

    /** A valid mapping shows a window that lies inside its file. */
    predicate Window()
      reads this
    {
      addr != 0 ==> 0 <= start && 0 <= len && start + len <= file.Length
    }

    /** The bytes a valid mapping shows. */
    function View(): (bytes: seq<bv8>)
      reads this, file
      requires Window() && addr != 0
      ensures |bytes| == len
    {
      file[start..start + len]
    }

    /** The default constructor: no mapping, length 0. */
    constructor ()
      ensures Window() && !Valid() && Length() == 0
      ensures Index(0) == OutOfRange
    {
      addr := 0;
      len := 0;
      file := new bv8[0];
      start := 0;
    }

    /**
     * Mapping `length` bytes of `file` from `offset` on; `address` is what
     * the mapping call returned, 0 when it failed.
     */
    constructor Map(file: array<bv8>, offset: int, length: int, address: nat)
      requires address != 0 ==> 0 <= offset && 0 <= length && offset + length <= file.Length
      ensures Window() && (Valid() <==> address != 0)
      ensures addr == address && len == length && this.file == file && start == offset
    {
      addr := address;
      len := length;
      this.file := file;
      start := offset;
    }

    /** valid(): the mapping call succeeded. */
    predicate Valid()
      reads this
    {
      addr != 0
    }

    function Length(): int
      reads this
    {
      len
    }

    /**
     * index(): whether byte `idx` lies before the end of the mapping; the
     * access throws std::out_of_range otherwise. The check is on the upper
     * end only.
     */
    function Index(idx: int): Status
      reads this
    {
      if idx < len then Done else OutOfRange
    }

    /** address(): the address of byte `offset`, or std::out_of_range. */
    function Address(offset: int): (a: nat)
      reads this
      requires Index(offset) == Done && addr + offset >= 0
    {
      addr + offset
    }

    /**
     * copyTo(idx, src, n): the `n` bytes at `src` go to the mapping from
     * byte `idx` on. The bounds check of index() comes first, so an `idx` at
     * or past the end throws even when `n` is 0; the assertion that the run
     * fits is the last precondition.
     */
    method CopyTo(idx: int, src: seq<bv8>, n: int) returns (status: Status)
      requires Window() && Valid()
      requires 0 <= idx && 0 <= n <= |src|
      requires idx < len ==> n <= len - idx
      modifies file
      ensures status == Index(idx)
      ensures status == Done ==> file[..] == Overwrite(old(file[..]), start + idx, src[..n])
      ensures status == OutOfRange ==> file[..] == old(file[..])
    {
      status := Index(idx);
      if status == OutOfRange {
        return;
      }
      var at := start + idx;
      forall i | at <= i < at + n {
        file[i] := src[i - at];
      }
      OverwriteEffect(old(file[..]), at, src[..n]);
      assert file[..] == Overwrite(old(file[..]), at, src[..n]);
    }

    /**
     * copyFrom(idx, dst, n): the `n` bytes from byte `idx` on are read out,
     * after the same bounds check and assertion as copyTo().
     */
    method CopyFrom(idx: int, n: int) returns (status: Status, bytes: seq<bv8>)
      requires Window() && Valid()
      requires 0 <= idx && 0 <= n
      requires idx < len ==> n <= len - idx
      ensures status == Index(idx)
      ensures status == Done ==> bytes == View()[idx..idx + n]
    {
      status := Index(idx);
      if status == OutOfRange {
        return status, [];
      }
      bytes := file[start + idx..start + idx + n];
      assert forall k :: 0 <= k < n ==> bytes[k] == View()[idx + k];
    }

    /** operator ==: the same address and the same length. */
    predicate Equals(other: Mmap)
      reads this, other
    {
      addr == other.addr && len == other.len
    }

    /**
     * swap(): the two objects exchange address and length; the window shown
     * goes with the address.
     */
    method Swap(other: Mmap)
      modifies this, other
      ensures addr == old(other.addr) && len == old(other.len)
      ensures file == old(other.file) && start == old(other.start)
      ensures other.addr == old(addr) && other.len == old(len)
      ensures other.file == old(file) && other.start == old(start)
    {
      var a, l, f, s := addr, len, file, start;
      addr, len, file, start := other.addr, other.len, other.file, other.start;
      other.addr, other.len, other.file, other.start := a, l, f, s;
    }
  }

  /** A default map compares equal to another default map and throws on address(0). */
  lemma DefaultMapsEqual(a: Mmap, b: Mmap)
    requires !a.Valid() && a.Length() == 0 && !b.Valid() && b.Length() == 0
    ensures a.Equals(b) && a.Index(0) == OutOfRange
  {
  }
}
