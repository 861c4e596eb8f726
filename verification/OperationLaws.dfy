/**
What the operations on the heap change and what they leave alone, field by field, record by
record and word by word.
 */
module OperationLaws {
  import opened Wrappers
  import opened Words
  import opened ChunkHeaders
  import opened Blocks
  import opened Reachability
  import opened WeakRegistry
  import opened Accounting
  import opened Lifecycle
  import opened Layout
  import opened Marking
  import opened Sweeping
  import opened HeapState
  import opened Mutation
  import opened FinalizerLaws
  import opened CollectionLaws
  import opened GCManager

  // --- Allocation ---

  // The new block: what its record and its header say.
  lemma AllocatedBlock(
      s: Snapshot, s': Snapshot, p: Address, size: Word, alignment: Word, destructor: Option<seq<Act>>,
      constructing: bool)
    requires Allocated(s, s', p, size, alignment, destructor, constructing)
    ensures
      && p in s'.allocations
      && var b := s'.allocations[p];
         && b.payloadBegin == p && b.payloadEnd as nat == p + size && b.constructing == constructing
         && b.header.size == size && b.header.destructor == destructor && b.header !in s.registered
         && s'.registered == s.registered + {b.header}
  {
    AllocatedFacts(s, s', p, size, alignment, destructor, constructing);
    hide *;
    RegisteredParts(s, s'.allocations[p].header, p, constructing);
  }

  // Every word of it is zero.
  lemma AllocatedZero(
      s: Snapshot, s': Snapshot, p: Address, size: Word, alignment: Word, destructor: Option<seq<Act>>,
      constructing: bool)
    requires Allocated(s, s', p, size, alignment, destructor, constructing)
    ensures forall a: Address :: p <= a < p + size ==> Load(s'.weak.memory, a) == 0
  {
    AllocatedFacts(s, s', p, size, alignment, destructor, constructing);
    hide *;
    RegisteredParts(s, s'.allocations[p].header, p, constructing);
    ZeroedWords(s.weak.memory, s'.weak.memory, p, size);
  }

  // It lies on the alignments that were asked for, past its header.
  lemma AllocatedAligned(
      s: Snapshot, s': Snapshot, p: Address, size: Word, alignment: Word, destructor: Option<seq<Act>>,
      constructing: bool)
    requires Allocated(s, s', p, size, alignment, destructor, constructing)
    ensures size > 0 && alignment > 0 && p % alignment == 0 && p % 8 == 0
    ensures p in s'.allocations && 32 <= s'.allocations[p].header.payloadOffset < p
  {
    hide RegisteredAt, Occupied, LayoutOf;
    LayoutExact(size, alignment);
  }

  // With its header it overlaps no other block with its own, and no weak handle lies in it.
  lemma AllocatedApart(
      s: Snapshot, s': Snapshot, p: Address, size: Word, alignment: Word, destructor: Option<seq<Act>>,
      constructing: bool)
    requires Allocated(s, s', p, size, alignment, destructor, constructing)
    ensures p in s'.allocations
    ensures forall a :: a in s.allocations ==>
              s.allocations[a].payloadEnd <= p - s'.allocations[p].header.payloadOffset ||
              p + size <= a - s.allocations[a].header.payloadOffset
    ensures forall h :: h in s'.weak.handles ==> !(p <= h < p + size)
  {
    AllocatedFacts(s, s', p, size, alignment, destructor, constructing);
    hide *;
    PlacedApart(s, s'.allocations[p].header, p);
    RegisteredParts(s, s'.allocations[p].header, p, constructing);
  }

  lemma AllocatedFacts(
      s: Snapshot, s': Snapshot, p: Address, size: Word, alignment: Word, destructor: Option<seq<Act>>,
      constructing: bool)
    requires Allocated(s, s', p, size, alignment, destructor, constructing)
    ensures
      && p in s'.allocations && p + size <= PAYLOAD_LIMIT
      && var h := s'.allocations[p].header;
         && h.size == size && h.destructor == destructor && Placed(s, h, p)
         && s.managedBytes + h.size <= WORD_MAX && s.reservedBytes + (h.payloadOffset + h.size) <= WORD_MAX
         && s' == RegisteredAt(s, h, p, constructing) && s'.allocations[p] == BlockRecord(h, p, p + size, constructing)
  {
    hide StatsWith, LedgerWith, ZeroRange, Occupied;
  }

  lemma ZeroedWords(mem: Memory, mem': Memory, p: Address, size: Word)
    requires mem' == ZeroRange(mem, p, p + size)
    ensures forall a: Address :: p <= a < p + size ==> Load(mem', a) == 0
  {
  }

  // The reasons to refuse an allocation, in numbers.
  lemma RefusedExactly(asked: Snapshot, s: Snapshot, size: Word, alignment: Word, allocator: OperatorNew)
    ensures
      var offset := if alignment < 32 then 32 else alignment;
      Refused(asked, s, size, alignment, allocator) <==>
      || size == 0 || !IsPower(alignment) || offset > 65535 || offset + size > 0xFFFF_FFFF_FFFF_FFFF
      || s.managedBytes + size > 0xFFFF_FFFF_FFFF_FFFF || s.reservedBytes + (offset + size) > 0xFFFF_FFFF_FFFF_FFFF
      || allocator(Occupied(asked.allocations, asked.weak.handles), offset + size,
                   if alignment < 16 then 16 else alignment).None?
  {
    LayoutExact(size, alignment);
    hide LayoutOf, Occupied, IsPower;
  }

  // Whatever happens during a call is a succession of collections by other threads.
  lemma {:induction false} PausedMeans(s: Snapshot, pauses: seq<Pause>, s': Snapshot)
    ensures Paused(s, pauses, s') <==>
              if pauses == [] then s' == s
              else
                && pauses[0].before == s && pauses[|pauses| - 1].after == s'
                && (forall i, j :: 0 <= i && j == i + 1 && j < |pauses| ==> pauses[i].after == pauses[j].before)
                && forall i :: 0 <= i < |pauses| ==>
                     ValidState(pauses[i].before) &&
                     Collected(pauses[i].before, pauses[i].after, pauses[i].stack, pauses[i].report)
    decreases |pauses|
  {
    hide ValidState, Collected;
    if pauses != [] {
      var n := |pauses| - 1;
      PausedMeans(s, pauses[..n], pauses[n].before);
      assert forall i :: 0 <= i < n ==> pauses[..n][i] == pauses[i];
    }
  }

  // The counters of an allocation.
  lemma AllocationCounted(
      s: Snapshot, s': Snapshot, p: Address, size: Word, alignment: Word, destructor: Option<seq<Act>>,
      constructing: bool)
    requires Allocated(s, s', p, size, alignment, destructor, constructing)
    ensures s'.managedBytes as nat == s.managedBytes + size && p in s'.allocations
    ensures s'.reservedBytes as nat == s.reservedBytes + (s'.allocations[p].header.payloadOffset + size)
    ensures s'.stats.totalAllocations as nat == AtMost(s.stats.totalAllocations + 1, 0xFFFF_FFFF_FFFF_FFFF)
    ensures s'.stats.bytesAllocatedTotal as nat == AtMost(s.stats.bytesAllocatedTotal + size, 0xFFFF_FFFF_FFFF_FFFF)
    ensures s'.stats.peakLiveBytes >= s.stats.peakLiveBytes && s'.stats.peakLiveBytes >= s'.managedBytes
    ensures s'.stats.peakLiveBytes == s.stats.peakLiveBytes || s'.stats.peakLiveBytes == s'.managedBytes
    ensures s'.stats.peakLiveBlocks >= s.stats.peakLiveBlocks && s'.stats.peakLiveBlocks >= |s'.allocations|
    ensures s'.stats.peakLiveBlocks == s.stats.peakLiveBlocks || s'.stats.peakLiveBlocks == |s'.allocations|
    ensures s'.stats.totalCollections == s.stats.totalCollections
    ensures s'.stats.bytesReclaimedLast == s.stats.bytesReclaimedLast
    ensures s'.stats.blocksReclaimedLast == s.stats.blocksReclaimedLast
    ensures s'.stats.bytesReclaimedTotal == s.stats.bytesReclaimedTotal
  {
    AllocatedFacts(s, s', p, size, alignment, destructor, constructing);
    RegisteredParts(s, s'.allocations[p].header, p, constructing);
    hide Allocated, RegisteredAt, Placed, LedgerWith, ZeroRange;
  }

  function AtMost(n: nat, limit: nat): nat {
    if n <= limit then n else limit
  }

  // --- Publication and release ---

  // finish_construction changes one flag.
  lemma PublishedBlock(s: Snapshot, p: Address)
    requires p in s.allocations
    ensures
      var s' := Constructed(s, p);
      && s'.allocations.Keys == s.allocations.Keys
      && (forall a :: a in s.allocations && a != p ==> s'.allocations[a] == s.allocations[a])
      && s'.allocations[p].header == s.allocations[p].header && !s'.allocations[p].constructing
      && s'.allocations[p].payloadBegin == s.allocations[p].payloadBegin
      && s'.allocations[p].payloadEnd == s.allocations[p].payloadEnd
      && s'.weak == s.weak && s'.rootRanges == s.rootRanges && s'.log == s.log && s'.stats == s.stats
      && s'.managedBytes == s.managedBytes && s'.reservedBytes == s.reservedBytes && s'.threshold == s.threshold
      && s'.collecting == s.collecting && s'.registered == s.registered && s'.released == s.released
      && s'.pending == s.pending && s'.ledger == s.ledger
  {
  }

  // release_unconstructed takes one block, its bytes, and the handles into it.
  lemma ReleasedBlock(s: Snapshot, p: Address)
    requires BytesHeld(s, p)
    ensures
      var s', b := Released(s, p), s.allocations[p];
      && s'.allocations.Keys == s.allocations.Keys - {p}
      && (forall a :: a in s'.allocations ==> s'.allocations[a] == s.allocations[a])
      && s'.rootRanges == s.rootRanges && s'.stats == s.stats && s'.threshold == s.threshold
      && s'.managedBytes + b.header.size == s.managedBytes
      && s'.reservedBytes + (b.header.payloadOffset + b.header.size) == s.reservedBytes
      && s'.log == s.log + [Freed(b.header)] && s'.released == s.released + {b.header}
      && s'.collecting == s.collecting && s'.registered == s.registered && s'.pending == s.pending
      && s'.weak.handles == s.weak.handles && s'.weak.busy == s.weak.busy && s'.weak.guarded == s.weak.guarded
  {
    hide LedgerWithout;
  }

  lemma ReleasedHandles(s: Snapshot, p: Address, a: Address)
    requires BytesHeld(s, p)
    ensures
      var w', end := Released(s, p).weak, s.allocations[p].payloadEnd;
      && (a in w'.targets <==> a in s.weak.targets && !(p <= s.weak.targets[a] < end))
      && (a in w'.targets ==> w'.targets[a] == s.weak.targets[a])
      && Load(w'.memory, a) == if a in s.weak.targets && p <= s.weak.targets[a] < end then 0 else Load(s.weak.memory, a)
  {
    hide LedgerWithout;
  }

  // --- Root ranges ---

  // A range is published in order, whatever the order of its endpoints.
  lemma NormalizedExact(begin: Address, end: Address)
    requires begin != end
    ensures
      var r := Normalized(begin, end);
      r.begin < r.end && ((r.begin == begin && r.end == end) || (r.begin == end && r.end == begin))
  {
  }

  lemma RangesOnly(s: Snapshot, ranges: seq<RootRange>)
    ensures
      var s' := WithRanges(s, ranges);
      && s'.rootRanges == ranges && s'.allocations == s.allocations && s'.weak == s.weak && s'.log == s.log
      && s'.stats == s.stats && s'.managedBytes == s.managedBytes && s'.reservedBytes == s.reservedBytes
      && s'.threshold == s.threshold && s'.collecting == s.collecting && s'.registered == s.registered
      && s'.released == s.released && s'.pending == s.pending && s'.ledger == s.ledger
  {
  }

  // Registering keeps what the list held and adds one range; unregistering an equal range
  // afterwards, in either order of the endpoints, takes one away again.
  lemma RangeComesAndGoes(ranges: seq<RootRange>, begin: Address, end: Address)
    requires begin != end
    ensures
      var r := Normalized(begin, end);
      && multiset(ranges + [r]) == multiset(ranges) + multiset{r}
      && Normalized(end, begin) == r
      && multiset(WithoutFirst(ranges + [r], r)) == multiset(ranges)
      && (r !in ranges ==> WithoutFirst(ranges + [r], r) == ranges)
  {
    var r := Normalized(begin, end);
    OneRemoved(ranges + [r], r);
    var i := FirstRemoved(ranges + [r], r);
    hide WithoutFirst;
    if r !in ranges {
      assert (ranges + [r])[i] == r && i == |ranges|;
      assert (ranges + [r])[..i] == ranges;
    }
  }

  // A published root object of one aligned word keeps what the word addresses over the next
  // collection, whatever else is registered.
  lemma PublishedSlotSurvives(
      s: Snapshot, s': Snapshot, stack: seq<Word>, report: Report, slot: Address, v: Address)
    requires ValidState(s) && slot != 0 && slot % 8 == 0 && slot + 8 <= 0xFFFF_FFFF_FFFF_FFFF
    requires Collected(WithRanges(s, s.rootRanges + [Normalized(slot, slot + 8)]), s', stack, report)
    requires v in s.allocations && slot in s.weak.memory && v <= s.weak.memory[slot] < s.allocations[v].payloadEnd
    ensures v in s'.allocations && s'.allocations[v] == s.allocations[v]
  {
    var r := Normalized(slot, slot + 8);
    NormalizedExact(slot, slot + 8);
    var s1 := WithRanges(s, s.rootRanges + [r]);
    hide ValidState, Collected, Normalized;
    RangedIsValid(s, s.rootRanges + [r]);
    LeastSurvivors(s1, s', stack, report, {});
    assert s1.rootRanges[|s.rootRanges|] == r;
    SlotStarts(s1, stack, r, slot, v);
  }

  lemma RangedIsValid(s: Snapshot, ranges: seq<RootRange>)
    requires ValidState(s)
    ensures ValidState(WithRanges(s, ranges))
  {
    hide WellFormed, HeadersFit, Consistent, Balanced, Lives;
  }

  lemma SlotStarts(s: Snapshot, stack: seq<Word>, r: RootRange, slot: Address, v: Address)
    requires slot != 0 && slot % 8 == 0 && r.begin == slot && r.end as nat == slot + 8 && r in s.rootRanges
    requires v in s.allocations && slot in s.weak.memory && v <= s.weak.memory[slot] < s.allocations[v].payloadEnd
    ensures StartsAt(s, stack, v)
  {
    assert WordInto(s, r.begin, r.end, v);
    assert RangeInto(s, r, v);
  }

  // The same through the calls: gc_root's registration and the collection after it.
  method RegisterThenCollect(manager: GC_Manager, slot: Address, stack: seq<Word>, ghost v: Address)
    returns (status: Status)
    requires manager.Valid() && !manager.collecting
    requires slot != 0 && slot % 8 == 0 && slot + 8 <= 0xFFFF_FFFF_FFFF_FFFF
    requires v in manager.allocations && slot in manager.memory
    requires v <= manager.memory[slot] < manager.allocations[v].payloadEnd
    modifies manager, manager.Headers()
    ensures manager.Valid() && status == Done
    ensures v in manager.allocations && manager.allocations[v] == old(manager.allocations[v])
  {
    ghost var s, s1, report, pauses := manager.State(), manager.State(), NO_REPORT, [];
    hide *;
    manager.Fields();
    pauses := manager.RegisterRootRange(slot, slot + 8, []);
    s1 := manager.State();
    NoPausesMeans(pauses);
    NothingPaused(WithRanges(s, s.rootRanges + [Normalized(slot, slot + 8)]), pauses, s1);
    manager.Fields();
    status, report := manager.Collect(stack, true, NoFailure);
    PublishedSlotSurvives(s, manager.State(), stack, report, slot, v);
    manager.Fields();
  }

  lemma NoPausesMeans(pauses: seq<Pause>)
    requires AsParked(pauses, [], false)
    ensures pauses == []
  {
  }

  lemma NothingPaused(s: Snapshot, pauses: seq<Pause>, s': Snapshot)
    requires Paused(s, pauses, s') && pauses == []
    ensures s' == s
  {
  }

  // --- Shutdown ---

  // Nothing is left of the heap and its counters; the batch lists every header.
  lemma NothingAfterShutdown(s: Snapshot, s': Snapshot, report: Report)
    requires ValidState(s) && ShutDown(s, s', report)
    ensures s'.allocations == map[] && s'.managedBytes == 0 && s'.reservedBytes == 0
    ensures s'.stats == GCStats(0, 0, 0, 0, 0, 0, 0, 0)
    ensures s'.threshold == s.threshold && s'.collecting == s.collecting && s'.pending == {}
    ensures s'.registered == s.registered && s'.released == s.released
    ensures forall h :: h in report.batch <==> exists a :: a in s.allocations && s.allocations[a].header == h
    ensures s'.log == s.log + Finalizations(report.batch) + Frees(report.batch)
  {
    ShutdownParts(s, s', report);
    hide *;
    ValidIsMarkable(s);
    KeepNothing(s.allocations);
    BatchCovers(s.allocations, Restrict(s.allocations, s.allocations.Keys - {}), s.weak.memory, report);
    HeadersAre(s.allocations);
  }

  lemma HeadersAre(heap: Allocations)
    ensures forall h :: h in HeadersOf(heap) <==> exists a :: a in heap && heap[a].header == h
  {
  }

  lemma ShutdownParts(s: Snapshot, s': Snapshot, report: Report)
    requires ShutDown(s, s', report)
    ensures s'.allocations == map[] && s'.managedBytes == 0 && s'.reservedBytes == 0
    ensures s'.stats == GCStats(0, 0, 0, 0, 0, 0, 0, 0)
    ensures s'.threshold == s.threshold && s'.collecting == s.collecting && s'.pending == {}
    ensures s'.registered == s.registered && s'.released == s.released
    ensures s'.log == s.log + Finalizations(report.batch) + Frees(report.batch)
    ensures InOrder(report.records, Restrict(s.allocations, s.allocations.Keys - {}))
    ensures OrderedBy(report.records, s.weak.memory, report.batch, report.g, report.out)
    ensures s'.weak == RunFinalizers(Forget(s.weak, s.weak.targets.Keys), report.batch)
    ensures s'.rootRanges == RangesAfterBatch(s.rootRanges, report.batch)
  {
    hide InOrder, OrderedBy, Restrict, HeadersOf, RunFinalizers, RangesAfterBatch, Finalizations, Frees, Forget,
         IsBlank;
  }

  // Every registered handle is null afterwards; no entry is left; any other word holds what a
  // finalizer wrote last, if any did.
  lemma WordsAfterShutdown(s: Snapshot, s': Snapshot, report: Report, a: Address)
    returns (acts: seq<Act>, cuts: seq<nat>)
    requires ValidState(s) && ShutDown(s, s', report)
    ensures ActsOf(report.batch, acts, cuts) && a !in s'.weak.targets
    ensures a in s'.weak.handles <==> a in s.weak.handles && (a in s.weak.busy || DropWeak(a) !in acts)
    ensures a in s'.weak.handles ==>
              Load(s'.weak.memory, a) == if a in s.weak.targets then 0 else Load(s.weak.memory, a)
    ensures a !in s.weak.handles && a !in s.weak.guarded ==>
              && (forall i, v :: LastWrite(acts, i, a, v) ==> Load(s'.weak.memory, a) == v)
              && (Unwritten(acts, a) ==> Load(s'.weak.memory, a) == Load(s.weak.memory, a))
  {
    hide *;
    ShutdownParts(s, s', report);
    ValidParts(s);
    ghost var w := Forget(s.weak, s.weak.targets.Keys);
    AllForgotten(s.weak, s.allocations, a);
    acts, cuts := FinalizersAreActs(w, s.rootRanges, report.batch);
    HandlesAfter(w, acts);
    if a in s'.weak.handles {
      PrivateWordAfter(w, acts, a);
    }
    if a !in s.weak.handles && a !in s.weak.guarded {
      WordAfter(w, acts, a);
    }
  }

  lemma AllForgotten(w: WeakState, allocations: Allocations, a: Address)
    requires Consistent(w, allocations)
    ensures
      var w' := Forget(w, w.targets.Keys);
      && w'.targets == map[] && w'.handles == w.handles && w'.busy == w.busy && w'.guarded == w.guarded
      && Load(w'.memory, a) == (if a in w.targets then 0 else Load(w.memory, a))
      && (a in w.targets ==> a in w.handles)
  {
  }

  // --- Bytes ---

  // The byte counters are the sizes of the payloads, and of payloads with their headers.
  lemma BytesAreSizes(s: Snapshot)
    requires ValidState(s)
    ensures s.managedBytes as nat == Total(PayloadSize, s.allocations)
    ensures s.reservedBytes as nat == Total(RegionSize, s.allocations)
  {
    hide Consistent, Lives, Total;
    forall a | a in s.allocations
      ensures PayloadBytes(s.allocations[a]) == PayloadSize(s.allocations[a])
      ensures ReservedBytes(s.allocations[a]) == RegionSize(s.allocations[a])
    {
    }
    SameBytes(PayloadBytes, PayloadSize, s.allocations);
    SameBytes(ReservedBytes, RegionSize, s.allocations);
  }

  function PayloadSize(b: BlockRecord): nat {
    if b.payloadBegin <= b.payloadEnd then b.payloadEnd - b.payloadBegin else 0
  }

  function RegionSize(b: BlockRecord): nat {
    var begin := b.payloadBegin - b.header.payloadOffset;
    if begin <= b.payloadEnd as int then b.payloadEnd - begin else 0
  }

  lemma {:induction false} SameBytes(f: BlockRecord -> nat, g: BlockRecord -> nat, allocations: Allocations)
    requires forall a :: a in allocations ==> f(allocations[a]) == g(allocations[a])
    ensures Total(f, allocations) == Total(g, allocations)
    decreases |allocations|
  {
    if allocations != map[] {
      var a := Least(allocations.Keys);
      KeysAfterErase(allocations, a);
      SameBytes(f, g, allocations - {a});
      TotalErase(f, allocations, a);
      TotalErase(g, allocations, a);
    }
  }
}
