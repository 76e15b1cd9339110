/**
 * affinity_t: the processors pcat's worker threads may run on, and pinning a
 * thread to one of them by index.
 *
 * On POSIX systems the constructor reads the calling thread's allowed CPU set
 * and walks the CPU ids upwards, keeping each allowed id that passes the
 * pinning filter while the thread cap has room. On Windows it walks the
 * active processor masks of each processor group. The operating system's
 * answers (the allowed set, the group masks) are parameters here.
 */
module Affinity {
  import opened Options
  import opened IndexSequences

  /** CPU_SETSIZE: the number of CPU ids a cpu_set_t can hold (glibc's value). */
  const CpuSetSize: nat := 1024

  /** Whether CPU `id` passes the pinning filter: no list given, or the id is on it. */
  predicate Pinned(pinning: Option<seq<nat>>, id: nat)
  {
    pinning.None? || id in pinning.value
  }

  /** Whether CPU `id` is one the constructor would take, cap aside. */
  predicate Eligible(allowed: set<nat>, pinning: Option<seq<nat>>, id: nat)
  {
    id in allowed && Pinned(pinning, id)
  }

  /** The eligible CPU ids below `n`, lowest first. */
  function EligibleBelow(allowed: set<nat>, pinning: Option<seq<nat>>, n: nat): seq<nat>
  {
    if n == 0 then []
    else EligibleBelow(allowed, pinning, n - 1) + (if Eligible(allowed, pinning, n - 1) then [n - 1] else [])
  }

  /** The front of `ids` that a thread cap lets through: all of it when there is no cap. */
  function Capped(ids: seq<nat>, threads: Option<nat>): (r: seq<nat>)
    ensures r <= ids
    ensures |r| == if threads.Some? && threads.value < |ids| then threads.value else |ids|
  {
    if threads.Some? && threads.value < |ids| then ids[..threads.value] else ids
  }

  /** The processors the POSIX constructor selects. */
  function Selection(allowed: set<nat>, threads: Option<nat>, pinning: Option<seq<nat>>): seq<nat>
  {
    Capped(EligibleBelow(allowed, pinning, CpuSetSize), threads)
  }

  /** The set of eligible CPU ids below `n`. */
  function EligibleSet(allowed: set<nat>, pinning: Option<seq<nat>>, n: nat): set<nat>
  {
    set id: nat | id < n && Eligible(allowed, pinning, id)
  }

  /** A set of CPU ids that a cpu_set_t can hold. */
  predicate InCpuSet(allowed: set<nat>)
  {
    forall id :: id in allowed ==> id < CpuSetSize
  }

  /**
   * EligibleBelow lists exactly the eligible ids below `n`, each once, in
   * strictly increasing order.
   */
  lemma {:induction false} EligibleBelowIsSorted(allowed: set<nat>, pinning: Option<seq<nat>>, n: nat)
    ensures forall k :: 0 <= k < |EligibleBelow(allowed, pinning, n)| ==>
      EligibleBelow(allowed, pinning, n)[k] < n && Eligible(allowed, pinning, EligibleBelow(allowed, pinning, n)[k])
    ensures forall j, k :: 0 <= j < k < |EligibleBelow(allowed, pinning, n)| ==>
      EligibleBelow(allowed, pinning, n)[j] < EligibleBelow(allowed, pinning, n)[k]
    ensures forall id: nat :: id < n && Eligible(allowed, pinning, id) ==> id in EligibleBelow(allowed, pinning, n)
  {
    if n > 0 {
      EligibleBelowIsSorted(allowed, pinning, n - 1);
    }
  }

  /** EligibleBelow has as many entries as there are eligible ids below `n`. */
  lemma {:induction false} EligibleBelowCount(allowed: set<nat>, pinning: Option<seq<nat>>, n: nat)
    ensures |EligibleBelow(allowed, pinning, n)| == |EligibleSet(allowed, pinning, n)|
  {
    if n > 0 {
      EligibleBelowCount(allowed, pinning, n - 1);
      var smaller := EligibleSet(allowed, pinning, n - 1);
      if Eligible(allowed, pinning, n - 1) {
        assert EligibleSet(allowed, pinning, n) == smaller + {n - 1};
        assert n - 1 !in smaller;
      } else {
        assert EligibleSet(allowed, pinning, n) == smaller;
      }
    }
  }

  /** Past the last allowed id, looking further adds nothing. */
  lemma {:induction false} NothingAllowedFrom(allowed: set<nat>, pinning: Option<seq<nat>>, from: nat, n: nat)
    requires from <= n
    requires forall id :: id in allowed ==> id < from
    ensures EligibleBelow(allowed, pinning, n) == EligibleBelow(allowed, pinning, from)
  {
    if from < n {
      NothingAllowedFrom(allowed, pinning, from, n - 1);
    }
  }

  /** Offering one more id to a capped list: it is taken only while the cap has room. */
  lemma CappedAppend(ids: seq<nat>, id: nat, threads: Option<nat>)
    ensures Capped(ids + [id], threads) ==
      if threads.None? || |Capped(ids, threads)| < threads.value then Capped(ids, threads) + [id]
      else Capped(ids, threads)
  {
    if threads.Some? && threads.value <= |ids| {
      assert (ids + [id])[..threads.value] == ids[..threads.value];
    }
  }

  /**
   * The selection loop of the POSIX constructor: for each CPU id from 0 up,
   * an id in the remaining set is kept when the cap has room and the pinning
   * list names it, and is then cleared from the set; the walk stops early
   * once the set is empty.
   */
  method SelectProcessors(allowed: set<nat>, threads: Option<nat>, pinning: Option<seq<nat>>)
    returns (processors: seq<nat>)
    ensures processors == Selection(allowed, threads, pinning)
  {
    processors := [];
    var affinity := allowed;
    var i := 0;
    while i < CpuSetSize
      invariant i <= CpuSetSize
      invariant forall id :: id in affinity <==> id in allowed && id >= i
      invariant processors == Capped(EligibleBelow(allowed, pinning, i), threads)
    {
      CappedAppend(EligibleBelow(allowed, pinning, i), i, threads);
      if i in affinity {
        if (threads.None? || |processors| < threads.value) && (pinning.None? || i in pinning.value) {
          processors := processors + [i];
        }
        affinity := affinity - {i};
      } else if |affinity| == 0 {
        NothingAllowedFrom(allowed, pinning, i, CpuSetSize);
        break;
      }
      i := i + 1;
    }
  }

  /**
   * Every selected id is allowed and passes the pinning filter, the ids come
   * in strictly increasing order, and there are never more than the cap.
   */
  lemma SelectionIsAllowedAndSorted(allowed: set<nat>, threads: Option<nat>, pinning: Option<seq<nat>>)
    ensures forall k :: 0 <= k < |Selection(allowed, threads, pinning)| ==>
      Selection(allowed, threads, pinning)[k] in allowed && Pinned(pinning, Selection(allowed, threads, pinning)[k])
    ensures forall j, k :: 0 <= j < k < |Selection(allowed, threads, pinning)| ==>
      Selection(allowed, threads, pinning)[j] < Selection(allowed, threads, pinning)[k]
    ensures threads.Some? ==> |Selection(allowed, threads, pinning)| <= threads.value
  {
    var all := EligibleBelow(allowed, pinning, CpuSetSize);
    EligibleBelowIsSorted(allowed, pinning, CpuSetSize);
    var sel := Selection(allowed, threads, pinning);
    assert forall k :: 0 <= k < |sel| ==> sel[k] == all[k];
  }

  /**
   * With neither a thread cap nor a pinning list, every allowed CPU is
   * selected, so there are as many processors as the set has members.
   */
  lemma UnrestrictedSelectsAll(allowed: set<nat>)
    requires InCpuSet(allowed)
    ensures forall id :: id in allowed <==> id in Selection(allowed, None, None)
    ensures |Selection(allowed, None, None)| == |allowed|
  {
    EligibleBelowIsSorted(allowed, None, CpuSetSize);
    EligibleBelowCount(allowed, None, CpuSetSize);
    assert EligibleSet(allowed, None, CpuSetSize) == allowed;
  }

  /**
   * Under a cap of `t` threads the selection is the `t` lowest eligible ids
   * (all of them when there are fewer): any eligible id left out lies above
   * every selected one, and is left out only because the cap is full.
   */
  lemma CapTakesLowest(allowed: set<nat>, t: nat, pinning: Option<seq<nat>>, id: nat)
    requires id < CpuSetSize && Eligible(allowed, pinning, id)
    requires id !in Selection(allowed, Some(t), pinning)
    ensures |Selection(allowed, Some(t), pinning)| == t
    ensures forall k :: 0 <= k < t ==> Selection(allowed, Some(t), pinning)[k] < id
  {
    var all := EligibleBelow(allowed, pinning, CpuSetSize);
    EligibleBelowIsSorted(allowed, pinning, CpuSetSize);
    var sel := Selection(allowed, Some(t), pinning);
    var p :| 0 <= p < |all| && all[p] == id;
    assert forall k :: 0 <= k < |sel| ==> sel[k] == all[k];
    assert !(p < |sel|);
    forall k | 0 <= k < t
      ensures sel[k] < id
    {
      assert sel[k] == all[k];
    }
  }

  /** A cap of one thread selects just the lowest allowed CPU. */
  lemma SingleThreadTakesFirst(allowed: set<nat>)
    requires InCpuSet(allowed) && allowed != {}
    ensures |Selection(allowed, Some(1), None)| == 1
    ensures Selection(allowed, Some(1), None)[0] in allowed
    ensures forall id :: id in allowed ==> Selection(allowed, Some(1), None)[0] <= id
  {
    var all := EligibleBelow(allowed, None, CpuSetSize);
    EligibleBelowIsSorted(allowed, None, CpuSetSize);
    var x :| x in allowed;
    assert x in all;
    forall id | id in allowed
      ensures all[0] <= id
    {
      assert id in all;
      var k :| 0 <= k < |all| && all[k] == id;
      assert k == 0 || all[0] < all[k];
    }
  }

  /** The affinity set pinTo installs: just the chosen processor. */
  datatype PinOutcome = OutOfRange | PinnedTo(cpus: set<nat>)

  /** affinity_t on POSIX systems. */
  class PosixAffinity {
    var processors: seq<nat>

    /**
     * affinity_t(): `allowed` is the set sched_getaffinity reports, `threads`
     * the thread count option and `pinning` the pinning option, when given.
     */
    constructor (allowed: set<nat>, threads: Option<nat>, pinning: Option<seq<nat>>)
      ensures processors == Selection(allowed, threads, pinning)
    {
      var selected := SelectProcessors(allowed, threads, pinning);
      processors := selected;
    }

    /** numProcessors() */
    function NumProcessors(): nat
      reads this
    {
      |processors|
    }

    /** indexSequence(): the indices 0 up to numProcessors(). */
    function Indices(): (r: IndexSequence)
      reads this
      ensures r.Indices() == seq(|processors|, k => k)
    {
      IndexSequence(0, NumProcessors())
    }

    /**
     * pinTo(thread, index): an index past the processors is out of range;
     * otherwise the thread is confined to that one processor.
     */
    function PinTo(index: nat): (r: PinOutcome)
      reads this
      ensures r.OutOfRange? <==> index >= NumProcessors()
      ensures r.PinnedTo? ==> r.cpus == {processors[index]} && |r.cpus| == 1
    {
      if index >= |processors| then OutOfRange else PinnedTo({processors[index]})
    }
  }

  /** Every index of indexSequence() pins a thread; numProcessors() itself does not. */
  lemma IndicesArePinnable(a: PosixAffinity)
    ensures forall k :: k in a.Indices().Indices() ==> a.PinTo(k).PinnedTo?
    ensures a.PinTo(a.NumProcessors()) == OutOfRange
  {
  }

  /**
   * Building an affinity_t: when the allowed set cannot be read the
   * constructor throws system_error and no object results.
   */
  method NewPosixAffinity(allowed: Option<set<nat>>, threads: Option<nat>, pinning: Option<seq<nat>>)
    returns (r: Option<PosixAffinity>)
    ensures r.None? <==> allowed.None?
    ensures r.Some? ==> fresh(r.value) && r.value.processors == Selection(allowed.value, threads, pinning)
  {
    if allowed.None? {
      return None;
    }
    var a := new PosixAffinity(allowed.value, threads, pinning);
    return Some(a);
  }

  // ---------------------------------------------------------------------
  // Windows: processor groups.
  // ---------------------------------------------------------------------

  /** The number of bits in a KAFFINITY mask. */
  const MaskBits: nat := 64

  function Pow2(n: nat): (r: nat)
    ensures r >= 1
  {
    if n == 0 then 1 else 2 * Pow2(n - 1)
  }

  /** The number of bits `mask` takes up: the position just past its highest set bit. */
  function Width(mask: nat): nat
  {
    if mask == 0 then 0 else 1 + Width(mask / 2)
  }

  /** A KAFFINITY mask: nothing set at bit 64 or above. */
  predicate IsMask(mask: nat)
  {
    Width(mask) <= MaskBits
  }

  /** Every mask of a run fits in a KAFFINITY. */
  predicate AllMasks(masks: seq<nat>)
  {
    forall g :: 0 <= g < |masks| ==> IsMask(masks[g])
  }

  /** A mask fits in `n` bits exactly when it is below 2^n. */
  lemma {:induction false} WidthIsBound(mask: nat, n: nat)
    ensures Width(mask) <= n <==> mask < Pow2(n)
  {
    if n > 0 && mask != 0 {
      WidthIsBound(mask / 2, n - 1);
    }
  }

  /** The kind of record GetLogicalProcessorInformationEx returns. */
  datatype Relationship = RelationGroup | OtherRelation

  /**
   * A SYSTEM_LOGICAL_PROCESSOR_INFORMATION_EX record: its relationship and,
   * for a group record, the active processor mask of each active group.
   */
  datatype ProcessorInfo = ProcessorInfo(relationship: Relationship, activeMasks: seq<nat>)

  /** A selected processor: its group index and its bit within that group's mask. */
  datatype GroupProcessor = GroupProcessor(group: nat, processor: nat)

  /** The positions of the set bits of `mask`, lowest first, numbering its lowest bit `from`. */
  function SetBits(mask: nat, from: nat): seq<nat>
    decreases mask
  {
    if mask == 0 then []
    else (if mask % 2 == 1 then [from] else []) + SetBits(mask / 2, from + 1)
  }

  /** Bit `n` of `mask`: the low bit of the mask shifted down `n` places. */
  predicate BitSet(mask: nat, n: nat)
  {
    if n == 0 then mask % 2 == 1 else BitSet(mask / 2, n - 1)
  }

  /** The processors of one group, in the order of their bits. */
  function InGroup(group: nat, bits: seq<nat>): (r: seq<GroupProcessor>)
  {
    if bits == [] then [] else [GroupProcessor(group, bits[0])] + InGroup(group, bits[1..])
  }

  /** InGroup pairs each bit, in place, with the group. */
  lemma {:induction false} InGroupAt(group: nat, bits: seq<nat>)
    ensures |InGroup(group, bits)| == |bits|
    ensures forall k :: 0 <= k < |bits| ==> InGroup(group, bits)[k] == GroupProcessor(group, bits[k])
  {
    if bits != [] {
      InGroupAt(group, bits[1..]);
    }
  }

  /** The processors of the groups from index `group` on. */
  function GroupsFrom(masks: seq<nat>, group: nat): seq<GroupProcessor>
    requires group <= |masks|
    decreases |masks| - group
  {
    if group == |masks| then []
    else InGroup(group, SetBits(masks[group], 0)) + GroupsFrom(masks, group + 1)
  }

  /** The processors the Windows constructor lists for a run of information records. */
  function Walked(infos: seq<ProcessorInfo>, r: nat): seq<GroupProcessor>
    requires r <= |infos|
    decreases |infos| - r
  {
    if r == |infos| then []
    else Listed(infos[r]) + Walked(infos, r + 1)
  }

  /** The processors one information record contributes: none unless it describes groups. */
  function Listed(info: ProcessorInfo): seq<GroupProcessor>
  {
    if info.relationship == RelationGroup then GroupsFrom(info.activeMasks, 0) else []
  }

  /** One turn of the outer loop: the processors listed so far grow by one record's. */
  lemma WalkStep(infos: seq<ProcessorInfo>, r: nat, processors: seq<GroupProcessor>)
    requires r < |infos| && processors + Walked(infos, r) == Walked(infos, 0)
    ensures infos[r].relationship != RelationGroup ==> processors + Walked(infos, r + 1) == Walked(infos, 0)
    ensures infos[r].relationship == RelationGroup ==>
      processors + GroupsFrom(infos[r].activeMasks, 0) + Walked(infos, r + 1) == Walked(infos, 0)
  {
    var listed, rest := Listed(infos[r]), Walked(infos, r + 1);
    assert Walked(infos, r) == listed + rest;
    AppendAssociates(processors, listed, rest);
    if infos[r].relationship != RelationGroup {
      assert processors + listed == processors;
    }
  }

  lemma AppendAssociates(a: seq<GroupProcessor>, b: seq<GroupProcessor>, c: seq<GroupProcessor>)
    ensures a + (b + c) == (a + b) + c
  {
  }

  /** SetBits lists exactly the set bits, each as its position, in increasing order. */
  lemma {:induction false} SetBitsAreTheBits(mask: nat, from: nat)
    ensures forall k :: 0 <= k < |SetBits(mask, from)| ==> from <= SetBits(mask, from)[k]
    ensures forall j, k :: 0 <= j < k < |SetBits(mask, from)| ==> SetBits(mask, from)[j] < SetBits(mask, from)[k]
    ensures forall n: nat :: BitSet(mask, n) <==> from + n in SetBits(mask, from)
    decreases mask
  {
    if mask != 0 {
      SetBitsAreTheBits(mask / 2, from + 1);
      forall n: nat
        ensures BitSet(mask, n) <==> from + n in SetBits(mask, from)
      {
        if n > 0 {
          assert BitSet(mask, n) <==> BitSet(mask / 2, n - 1);
          assert from + n in SetBits(mask, from) <==> (from + 1) + (n - 1) in SetBits(mask / 2, from + 1);
        }
      }
    } else {
      NoBitsOfZero();
    }
  }

  /** The empty mask has no bit set. */
  lemma {:induction false} NoBitsOfZero()
    ensures forall n: nat :: !BitSet(0, n)
  {
    forall n: nat
      ensures !BitSet(0, n)
    {
      ZeroBit(n);
    }
  }

  lemma {:induction false} ZeroBit(n: nat)
    ensures !BitSet(0, n)
  {
    if n > 0 {
      ZeroBit(n - 1);
    }
  }

  /** The processors of a group are listed in increasing bit order, all in that group. */
  lemma GroupIsAscending(group: nat, mask: nat)
    ensures forall k :: 0 <= k < |InGroup(group, SetBits(mask, 0))| ==> InGroup(group, SetBits(mask, 0))[k].group == group
    ensures forall j, k :: 0 <= j < k < |InGroup(group, SetBits(mask, 0))| ==>
      InGroup(group, SetBits(mask, 0))[j].processor < InGroup(group, SetBits(mask, 0))[k].processor
    ensures forall n: nat :: BitSet(mask, n) <==> GroupProcessor(group, n) in InGroup(group, SetBits(mask, 0))
  {
    SetBitsAreTheBits(mask, 0);
    var bits := SetBits(mask, 0);
    InGroupAt(group, bits);
    forall n: nat
      ensures n in bits <==> GroupProcessor(group, n) in InGroup(group, bits)
    {
      if GroupProcessor(group, n) in InGroup(group, bits) {
        var k :| 0 <= k < |bits| && InGroup(group, bits)[k] == GroupProcessor(group, n);
      }
      if n in bits {
        var k :| 0 <= k < |bits| && bits[k] == n;
        assert InGroup(group, bits)[k] == GroupProcessor(group, n);
      }
    }
  }

  /** The groups' processors come group by group: every pair is ordered by group, then by bit. */
  lemma {:induction false} GroupsFromAreOrdered(masks: seq<nat>, group: nat)
    requires group <= |masks|
    ensures forall k :: 0 <= k < |GroupsFrom(masks, group)| ==> group <= GroupsFrom(masks, group)[k].group < |masks|
    ensures forall j, k :: 0 <= j < k < |GroupsFrom(masks, group)| ==>
      Before(GroupsFrom(masks, group)[j], GroupsFrom(masks, group)[k])
    decreases |masks| - group
  {
    if group < |masks| {
      GroupsFromAreOrdered(masks, group + 1);
      GroupIsAscending(group, masks[group]);
    }
  }

  /** Lexicographic order on (group, processor). */
  predicate Before(a: GroupProcessor, b: GroupProcessor)
  {
    a.group < b.group || (a.group == b.group && a.processor < b.processor)
  }

  /** The processors one group's mask yields are appended to the list. */
  lemma {:induction false} InGroupAppend(group: nat, xs: seq<nat>, ys: seq<nat>)
    ensures InGroup(group, xs + ys) == InGroup(group, xs) + InGroup(group, ys)
  {
    if xs == [] {
      assert xs + ys == ys;
    } else {
      assert (xs + ys)[1..] == xs[1..] + ys;
      InGroupAppend(group, xs[1..], ys);
    }
  }

  /** Taking the low bit off a mask: it is listed first, then the bits of the shifted mask. */
  lemma ShiftBits(mask: nat, from: nat)
    ensures SetBits(mask, from) == (if mask % 2 == 1 then [from] else []) + SetBits(mask / 2, from + 1)
    ensures mask != 0 ==> Width(mask / 2) + 1 == Width(mask)
  {
  }

  /** The low bit of a mask, as the list of its position when it is set. */
  function LowBit(mask: nat, position: nat): (r: seq<nat>)
  {
    if mask % 2 == 1 then [position] else []
  }

  /**
   * One turn of the inner loop: the bits seen so far grow by the low bit,
   * the bits still to come are those of the shifted mask, and the processors
   * listed grow by the low bit's processor.
   */
  lemma BitStep(activeMask: nat, group: nat, done: seq<nat>, mask: nat, i: nat)
    requires SetBits(activeMask, 0) == done + SetBits(mask, i)
    ensures SetBits(activeMask, 0) == (done + LowBit(mask, i)) + SetBits(mask / 2, i + 1)
    ensures mask / 2 == 0 ==> SetBits(activeMask, 0) == done + LowBit(mask, i)
    ensures mask != 0 ==> Width(mask / 2) + 1 == Width(mask)
    ensures InGroup(group, done + LowBit(mask, i)) ==
      InGroup(group, done) + if mask % 2 == 1 then [GroupProcessor(group, i)] else []
  {
    ShiftBits(mask, i);
    InGroupAppend(group, done, LowBit(mask, i));
    assert InGroup(group, [i]) == [GroupProcessor(group, i)];
  }

  /**
   * The inner loop of the Windows constructor: test the low bit of the mask,
   * record (group, bit) when it is set, shift the mask down and stop as soon
   * as it is empty.
   */
  method AddGroup(processors: seq<GroupProcessor>, group: nat, activeMask: nat)
    returns (result: seq<GroupProcessor>)
    requires IsMask(activeMask)
    ensures result == processors + InGroup(group, SetBits(activeMask, 0))
  {
    result := processors;
    var mask: nat := activeMask;
    var i: nat := 0;
    ghost var done: seq<nat> := [];
    while i < MaskBits
      invariant i <= MaskBits
      invariant Width(mask) <= MaskBits - i
      invariant SetBits(activeMask, 0) == done + SetBits(mask, i)
      invariant result == processors + InGroup(group, done)
    {
      BitStep(activeMask, group, done, mask, i);
      if mask % 2 == 1 {
        result := result + [GroupProcessor(group, i)];
      }
      done := done + LowBit(mask, i);
      mask := mask / 2;
      if mask == 0 {
        return;
      }
      i := i + 1;
    }
    assert mask == 0;
    assert done + SetBits(mask, i) == done;
  }

  /** The middle loop of the Windows constructor: each active group of one record in turn. */
  method AddGroups(processors: seq<GroupProcessor>, activeMasks: seq<nat>) returns (result: seq<GroupProcessor>)
    requires AllMasks(activeMasks)
    ensures result == processors + GroupsFrom(activeMasks, 0)
  {
    result := processors;
    var g := 0;
    while g < |activeMasks|
      invariant g <= |activeMasks|
      invariant result + GroupsFrom(activeMasks, g) == processors + GroupsFrom(activeMasks, 0)
    {
      result := AddGroup(result, g, activeMasks[g]);
      g := g + 1;
    }
  }

  /**
   * The Windows constructor's walk: for each group record, for each active
   * group in it, add that group's processors; other records are skipped.
   */
  method WalkGroups(infos: seq<ProcessorInfo>) returns (processors: seq<GroupProcessor>)
    requires forall r :: 0 <= r < |infos| ==> AllMasks(infos[r].activeMasks)
    ensures processors == Walked(infos, 0)
  {
    processors := [];
    var r := 0;
    while r < |infos|
      invariant r <= |infos|
      invariant processors + Walked(infos, r) == Walked(infos, 0)
    {
      WalkStep(infos, r, processors);
      var info := infos[r];
      if info.relationship == RelationGroup {
        processors := AddGroups(processors, info.activeMasks);
      }
      r := r + 1;
    }
  }

  /**
   * retrieveProcessorInfo's buffer size: how many records of `structLength`
   * bytes it takes to hold `returnLength` bytes, rounding up.
   */
  function RecordCount(returnLength: nat, structLength: nat): (count: nat)
    requires structLength > 0
    ensures count * structLength >= returnLength
    ensures count == 0 || (count - 1) * structLength < returnLength
  {
    var count := returnLength / structLength;
    count + if returnLength - count * structLength != 0 then 1 else 0
  }

  /** The mask pinTo builds for a processor bit has that bit set and no other. */
  lemma {:induction false} SingleBitMask(processor: nat, from: nat)
    ensures SetBits(Pow2(processor), from) == [from + processor]
  {
    if processor > 0 {
      SingleBitMask(processor - 1, from + 1);
      var half := Pow2(processor - 1);
      var mask := 2 * half;
      assert Pow2(processor) == mask;
      assert mask % 2 == 0 && mask / 2 == half && mask != 0;
      assert SetBits(mask, from) == SetBits(half, from + 1);
    } else {
      assert Pow2(0) == 1;
      assert SetBits(1, from) == [from] + SetBits(0, from + 1);
    }
  }

  /** The GROUP_AFFINITY pinTo installs: a one-bit mask within one group. */
  datatype GroupAffinity = GroupAffinity(mask: nat, group: nat)

  /** affinity_t on Windows. */
  class WindowsAffinity {
    var processors: seq<GroupProcessor>

    /**
     * affinity_t(): `infos` stands for the records retrieveProcessorInfo
     * returns.
     */
    constructor (infos: seq<ProcessorInfo>)
      requires forall r :: 0 <= r < |infos| ==> AllMasks(infos[r].activeMasks)
      ensures processors == Walked(infos, 0)
    {
      var walked := WalkGroups(infos);
      processors := walked;
    }

    /** numProcessors() */
    function NumProcessors(): nat
      reads this
    {
      |processors|
    }

    /** indexSequence(): the indices 0 up to numProcessors(). */
    function Indices(): (r: IndexSequence)
      reads this
      ensures r.Indices() == seq(|processors|, k => k)
    {
      IndexSequence(0, NumProcessors())
    }

    /**
     * pinTo(thread, index): an index past the processors is out of range;
     * otherwise the thread gets the group of that processor and a mask with
     * only its bit set.
     */
    function PinTo(index: nat): (r: Option<GroupAffinity>)
      reads this
      ensures r.None? <==> index >= NumProcessors()
      ensures r.Some? ==> r.value.group == processors[index].group
      ensures r.Some? ==> SetBits(r.value.mask, 0) == [processors[index].processor]
    {
      if index >= |processors| then None
      else
        var p := processors[index];
        SingleBitMask(p.processor, 0);
        Some(GroupAffinity(Pow2(p.processor), p.group))
    }
  }
}
