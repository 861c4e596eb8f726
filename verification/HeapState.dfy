/**
The whole state of the heap as one value, its invariant, and what each operation does to it.
 */
module HeapState {
  import opened Wrappers
  import opened Words
  import opened Bits
  import opened ChunkHeaders
  import opened Blocks
  import opened Reachability
  import opened FinalizationOrder
  import opened WeakRegistry
  import opened Accounting
  import opened Lifecycle
  import opened Layout
  import opened Marking
  import opened Sweeping

  datatype Snapshot = Snapshot(
    allocations: Allocations, rootRanges: seq<RootRange>, weak: WeakState, managedBytes: Word, reservedBytes: Word,
    threshold: Word, collecting: bool, stats: GCStats,
    registered: set<ChunkHeader>, released: set<ChunkHeader>, pending: set<ChunkHeader>, log: seq<Event>,
    ledger: Ledger)

  // Headers describe their blocks, and no two blocks overlap, headers included.
  ghost predicate HeadersFit(allocations: Allocations) {
    && (forall a :: a in allocations ==>
          var h := allocations[a].header;
          h.size == allocations[a].payloadEnd - a && h.magicNumber == CHUNK_MAGIC_NUMBER &&
          HEADER_SIZE <= h.payloadOffset < a && a % WORD_SIZE == 0)
    && (forall a, b :: a in allocations && b in allocations && a < b ==>
          allocations[a].payloadEnd <= b - allocations[b].header.payloadOffset)
  }

  ghost predicate ValidState(s: Snapshot) {
    && WellFormed(s.allocations) && HeadersFit(s.allocations)
    && Consistent(s.weak, s.allocations)
    && Balanced(s.allocations, s.managedBytes, s.reservedBytes, s.stats, s.ledger)
    && Lives(s.allocations, s.registered, s.released, s.pending, s.log)
    && (!s.collecting ==> s.pending == {})
  }

  lemma ValidParts(s: Snapshot)
    requires ValidState(s)
    ensures WellFormed(s.allocations) && HeadersFit(s.allocations) && Consistent(s.weak, s.allocations)
    ensures Balanced(s.allocations, s.managedBytes, s.reservedBytes, s.stats, s.ledger)
    ensures Lives(s.allocations, s.registered, s.released, s.pending, s.log)
    ensures !s.collecting ==> s.pending == {}
  {
  }

  lemma PartsValid(s: Snapshot)
    requires WellFormed(s.allocations) && HeadersFit(s.allocations) && Consistent(s.weak, s.allocations)
    requires Balanced(s.allocations, s.managedBytes, s.reservedBytes, s.stats, s.ledger)
    requires Lives(s.allocations, s.registered, s.released, s.pending, s.log)
    requires !s.collecting ==> s.pending == {}
    ensures ValidState(s)
  {
  }

  lemma EmptyIsConsistent()
    ensures Consistent(WeakState(Targets([]), map[], {}, {}, {}), map[])
    ensures Lives(map[], {}, {}, {}, [])
  {
  }

  lemma ValidIsMarkable(s: Snapshot)
    requires ValidState(s)
    ensures WellFormed(s.allocations) && Markable(s.allocations)
  {
  }

  // --- Finalizers and frees ---

  // The root ranges after one thing a finalizer does, after several, and after a batch.
  function RangesAfterAct(ranges: seq<RootRange>, act: Act): seq<RootRange> {
    if act.DropRange? then WithoutRange(ranges, act.begin, act.end) else ranges
  }

  function RangesAfterActs(ranges: seq<RootRange>, acts: seq<Act>): seq<RootRange>
    decreases |acts|
  {
    if acts == [] then ranges else RangesAfterAct(RangesAfterActs(ranges, acts[..|acts| - 1]), acts[|acts| - 1])
  }

  function RangesAfterBatch(ranges: seq<RootRange>, batch: seq<ChunkHeader>): seq<RootRange>
    decreases |batch|
  {
    if batch == [] then ranges
    else
      var before := RangesAfterBatch(ranges, batch[..|batch| - 1]);
      var last := batch[|batch| - 1].destructor;
      if last.Some? then RangesAfterActs(before, last.value) else before
  }

  // After one thing a finalizer does, and after several.
  function AfterAct(s: Snapshot, act: Act): Snapshot {
    s.(weak := RunAct(s.weak, act), rootRanges := RangesAfterAct(s.rootRanges, act))
  }

  function AfterActs(s: Snapshot, acts: seq<Act>): Snapshot {
    s.(weak := RunActs(s.weak, acts), rootRanges := RangesAfterActs(s.rootRanges, acts))
  }

  // After the destructor of h.
  function AfterFinalizer(s: Snapshot, h: ChunkHeader): Snapshot {
    if h.destructor.Some? then AfterActs(s.(log := s.log + [Finalized(h)]), h.destructor.value) else s
  }

  // After the destructors of the batch.
  function AfterFinalizers(s: Snapshot, batch: seq<ChunkHeader>): Snapshot {
    s.(weak := RunFinalizers(s.weak, batch), rootRanges := RangesAfterBatch(s.rootRanges, batch),
       log := s.log + Finalizations(batch))
  }

  // After destroy_blocks: all destructors, then all frees.
  function AfterDestroy(s: Snapshot, batch: seq<ChunkHeader>): Snapshot {
    s.(weak := RunFinalizers(s.weak, batch), rootRanges := RangesAfterBatch(s.rootRanges, batch), pending := {},
       log := s.log + Finalizations(batch) + Frees(batch))
  }

  lemma ActKeepsValid(s: Snapshot, act: Act)
    requires ValidState(s)
    ensures ValidState(AfterAct(s, act))
  {
    RunActConsistent(s.weak, act, s.allocations);
  }

  lemma DropIfRegistered(s: Snapshot, storage: Address)
    requires ValidState(s) && storage in s.weak.handles && storage !in s.weak.busy
    ensures Load(s.weak.memory, storage) == 0 ==> s.weak.targets - {storage} == s.weak.targets
  {
    NonzeroIffRegistered(s.weak, s.allocations, storage);
  }

  lemma LogKeepsValid(s: Snapshot, h: ChunkHeader)
    requires ValidState(s) && h in s.pending && Finalized(h) !in s.log
    ensures ValidState(s.(log := s.log + [Finalized(h)]))
  {
    LivesFinalize(s.allocations, s.registered, s.released, s.pending, s.log, h);
  }

  lemma RunNoActs(s: Snapshot, acts: seq<Act>)
    ensures AfterActs(s, acts[..0]) == s
  {
    assert acts[..0] == [];
  }

  lemma OneMoreAct(s: Snapshot, acts: seq<Act>, i: nat)
    requires i < |acts|
    ensures AfterActs(s, acts[..i + 1]) == AfterAct(AfterActs(s, acts[..i]), acts[i])
  {
    assert acts[..i + 1][..i] == acts[..i];
  }

  lemma FinalizeNone(s: Snapshot, batch: seq<ChunkHeader>)
    ensures AfterFinalizers(s, batch[..0]) == s
  {
    assert batch[..0] == [];
    assert s.log + [] == s.log;
  }

  lemma FreeNone(s: Snapshot, batch: seq<ChunkHeader>)
    ensures AfterFrees(s, batch[..0]) == s
  {
    assert batch[..0] == [];
    assert s.log + [] == s.log;
    assert s.pending - Listing([]) == s.pending;
  }

  lemma AllFreed(s: Snapshot, batch: seq<ChunkHeader>)
    requires Detached(batch, s.pending, s.log)
    ensures AfterFrees(AfterFinalizers(s, batch), batch) == AfterDestroy(s, batch)
  {
    assert s.pending - Listing(batch) == {};
  }

  lemma OneMoreFinalizer(s: Snapshot, batch: seq<ChunkHeader>, i: nat)
    requires i < |batch|
    ensures AfterFinalizers(s, batch[..i + 1]) == AfterFinalizer(AfterFinalizers(s, batch[..i]), batch[i])
  {
    assert batch[..i + 1][..i] == batch[..i] && batch[..i + 1][i] == batch[i];
    assert s.log + Finalizations(batch[..i]) + [Finalized(batch[i])] ==
           s.log + (Finalizations(batch[..i]) + [Finalized(batch[i])]);
    assert s.log + Finalizations(batch[..i]) == s.log + (Finalizations(batch[..i]) + []);
  }

  lemma {:induction false} FinalizationsOf(batch: seq<ChunkHeader>, e: Event)
    requires e in Finalizations(batch)
    ensures e.Finalized? && e.header in batch
    decreases |batch|
  {
    var n := |batch| - 1;
    if e in Finalizations(batch[..n]) {
      FinalizationsOf(batch[..n], e);
    }
  }

  // Every block of the batch that has a destructor is finalized.
  lemma {:induction false} FinalizationsCover(batch: seq<ChunkHeader>, h: ChunkHeader)
    requires h in batch && h.destructor.Some?
    ensures Finalized(h) in Finalizations(batch)
    decreases |batch|
  {
    var n := |batch| - 1;
    if batch[n] != h {
      assert batch == batch[..n] + [batch[n]];
      FinalizationsCover(batch[..n], h);
    }
  }

  // The destructors of the batch have run.
  ghost predicate AllFinalized(batch: seq<ChunkHeader>, log: seq<Event>) {
    forall h :: h in batch && h.destructor.Some? ==> Finalized(h) in log
  }

  lemma BatchFinalized(s: Snapshot, batch: seq<ChunkHeader>)
    ensures AllFinalized(batch, AfterFinalizers(s, batch).log)
  {
    forall h | h in batch && h.destructor.Some?
      ensures Finalized(h) in AfterFinalizers(s, batch).log
    {
      FinalizationsCover(batch, h);
    }
  }

  // The next destructor of a detached batch has not run yet.
  lemma NextNotFinalized(s: Snapshot, batch: seq<ChunkHeader>, i: nat)
    requires Detached(batch, s.pending, s.log) && i < |batch|
    ensures Finalized(batch[i]) !in AfterFinalizers(s, batch[..i]).log && batch[i] in s.pending
  {
    if Finalized(batch[i]) in Finalizations(batch[..i]) {
      FinalizationsOf(batch[..i], Finalized(batch[i]));
    }
  }

  function Listing(batch: seq<ChunkHeader>): set<ChunkHeader> {
    set h | h in batch
  }

  function AfterFrees(s: Snapshot, batch: seq<ChunkHeader>): Snapshot {
    s.(pending := s.pending - Listing(batch), log := s.log + Frees(batch))
  }

  lemma OneMoreFree(s: Snapshot, batch: seq<ChunkHeader>, i: nat)
    requires i < |batch| && ValidState(AfterFrees(s, batch[..i])) && s.collecting
    requires batch[i] in s.pending && batch[i] !in batch[..i] && AllFinalized(batch, s.log)
    ensures
      var s1 := AfterFrees(s, batch[..i]);
      AfterFrees(s, batch[..i + 1]) == s1.(pending := s1.pending - {batch[i]}, log := s1.log + [Freed(batch[i])])
    ensures ValidState(AfterFrees(s, batch[..i + 1]))
  {
    hide *;
    ghost var s1 := AfterFrees(s, batch[..i]);
    FreeStep(s, batch, i);
    ValidParts(s1);
    LivesFree(s1.allocations, s1.registered, s1.released, s1.pending, s1.log, batch[i]);
    PartsValid(AfterFrees(s, batch[..i + 1]));
  }

  lemma FreeStep(s: Snapshot, batch: seq<ChunkHeader>, i: nat)
    requires i < |batch| && batch[i] in s.pending && batch[i] !in batch[..i] && AllFinalized(batch, s.log)
    ensures
      var s1 := AfterFrees(s, batch[..i]);
      && AfterFrees(s, batch[..i + 1]) == s1.(pending := s1.pending - {batch[i]}, log := s1.log + [Freed(batch[i])])
      && batch[i] in s1.pending && (batch[i].destructor.Some? ==> Finalized(batch[i]) in s1.log)
      && s1.collecting == s.collecting
  {
    var s1 := AfterFrees(s, batch[..i]);
    assert batch[..i + 1] == batch[..i] + [batch[i]];
    assert batch[..i + 1][..i] == batch[..i] && batch[..i + 1][i] == batch[i];
    assert s.log + (Frees(batch[..i]) + [Freed(batch[i])]) == s.log + Frees(batch[..i]) + [Freed(batch[i])];
    assert Listing(batch[..i + 1]) == Listing(batch[..i]) + {batch[i]};
    assert s.pending - Listing(batch[..i + 1]) == s1.pending - {batch[i]};
  }

  // --- Collection ---

  function StatsAfter(stats: GCStats, bytes: Word, blocks: nat): GCStats {
    stats.(totalCollections := WrappingAdd(stats.totalCollections, 1),
           blocksReclaimedLast := blocks,
           bytesReclaimedLast := bytes,
           bytesReclaimedTotal := WrappingAdd(stats.bytesReclaimedTotal, bytes))
  }

  function LedgerAfter(ledger: Ledger, bytes: nat, managed: nat, blocks: nat): Ledger {
    ledger.(collections := ledger.collections + 1,
            reclaimedBytes := ledger.reclaimedBytes + bytes,
            history := ledger.history + [(managed, blocks)])
  }

  // Sweep and statistics: s became s', keeping exactly the blocks of `kept`.
  ghost predicate Reclaimed(s: Snapshot, s': Snapshot, kept: set<Address>, report: Report) {
    && s'.managedBytes <= s.managedBytes
    && var bytes: Word := s.managedBytes - s'.managedBytes;
    && CollectedFrom(s.allocations, kept, s.weak.memory, report, s'.allocations)
    && bytes as nat == Total(PayloadBytes, Restrict(s.allocations, s.allocations.Keys - kept))
    && s'.weak == Expire(s.weak, s.allocations, s.allocations.Keys - kept)
    && s'.stats == StatsAfter(s.stats, bytes, |report.batch|)
    && s'.ledger == LedgerAfter(s.ledger, bytes, s'.managedBytes, |s'.allocations|)
    && s'.pending == HeadersOf(s.allocations) - HeadersOf(s'.allocations)
    && s' == s.(allocations := s'.allocations, weak := s'.weak, managedBytes := s'.managedBytes,
                reservedBytes := s'.reservedBytes, stats := s'.stats, ledger := s'.ledger, pending := s'.pending)
  }

  // The sweep alone: the blocks outside `kept` are gone, with their weak handles and bytes.
  ghost predicate SweptAll(s: Snapshot, s': Snapshot, kept: set<Address>) {
    && s'.allocations == s.allocations - (s.allocations.Keys - kept)
    && s'.weak == Expire(s.weak, s.allocations, s.allocations.Keys - kept)
    && s'.managedBytes as nat == Total(PayloadBytes, s'.allocations)
    && s'.reservedBytes as nat == Total(ReservedBytes, s'.allocations)
    && s' == s.(allocations := s'.allocations, weak := s'.weak, managedBytes := s'.managedBytes,
                reservedBytes := s'.reservedBytes)
  }

  // The state between the sweep and the finalizers, as the final state s' determines it.
  ghost function BeforeFinalizers(s: Snapshot, s': Snapshot, kept: set<Address>): Snapshot {
    s.(allocations := s'.allocations,
       weak := Expire(s.weak, s.allocations, s.allocations.Keys - kept),
       managedBytes := s'.managedBytes, reservedBytes := s'.reservedBytes,
       stats := s'.stats, ledger := s'.ledger,
       pending := HeadersOf(s.allocations) - HeadersOf(s'.allocations))
  }

  // A completed collection whose scan of stacks, registers and globals visited `stack`.
  ghost predicate Collected(s: Snapshot, s': Snapshot, stack: seq<Word>, report: Report) {
    WellFormed(s.allocations) &&
    var kept := Reached(s.allocations, s.weak.memory, stack + RangeWords(s.rootRanges, s.weak.memory));
    var mid := BeforeFinalizers(s, s', kept);
    Reclaimed(s, mid, kept, report) && s' == AfterDestroy(mid, report.batch)
  }

  // The flag `collecting` is up between start and end, and down again afterwards.
  lemma FinishCollection(s: Snapshot, mid: Snapshot, s': Snapshot, stack: seq<Word>, kept: set<Address>, report: Report)
    requires WellFormed(s.allocations) && !s.collecting
    requires kept == Reached(s.allocations, s.weak.memory, stack + RangeWords(s.rootRanges, s.weak.memory))
    requires Reclaimed(s.(collecting := true), mid, kept, report)
    requires s' == AfterDestroy(mid, report.batch).(collecting := false)
    ensures Collected(s, s', stack, report)
  {
    hide WellFormed, Reached, CollectedFrom, Total, Expire, RunFinalizers, Finalizations, Frees, RangeWords, Restrict,
         HeadersOf;
    assert BeforeFinalizers(s, s', kept) == mid.(collecting := false);
  }

  lemma AddMod(n: nat, k: Word)
    ensures (n % WORD_LIMIT + k) % WORD_LIMIT == (n + k) % WORD_LIMIT
  {
  }

  lemma PeakOfLonger(history: seq<(nat, nat)>, last: (nat, nat))
    ensures PeakBytes(history + [last]) == if PeakBytes(history) < last.0 then last.0 else PeakBytes(history)
    ensures PeakBlocks(history + [last]) == if PeakBlocks(history) < last.1 then last.1 else PeakBlocks(history)
  {
    assert (history + [last])[..|history|] == history;
  }

  // Blocks leaving the heap keep the books balanced.
  lemma BalancedAfterCollection(
      before: Allocations, m: Word, r: Word, stats: GCStats, ledger: Ledger,
      after: Allocations, m': Word, r': Word, blocks: nat)
    requires Balanced(before, m, r, stats, ledger) && m' <= m && |after| <= |before|
    requires m' as nat == Total(PayloadBytes, after) && r' as nat == Total(ReservedBytes, after)
    ensures Balanced(after, m', r', StatsAfter(stats, m - m', blocks), LedgerAfter(ledger, m - m', m', |after|))
  {
    hide Total, Saturated, PeakBytes, PeakBlocks;
    AddMod(ledger.collections, 1);
    AddMod(ledger.reclaimedBytes, m - m');
    PeaksStay(ledger.history, (m' as nat, |after|));
  }

  lemma PeaksStay(history: seq<(nat, nat)>, x: (nat, nat))
    requires history != [] && x.0 <= history[|history| - 1].0 && x.1 <= history[|history| - 1].1
    ensures PeakBytes(history + [x]) == PeakBytes(history) && PeakBlocks(history + [x]) == PeakBlocks(history)
  {
    PeakOfLonger(history, x);
    PeaksAreMaxima(history);
  }

  lemma SubMapSize(allocations: Allocations, dead: set<Address>)
    ensures |allocations - dead| <= |allocations|
  {
    assert (allocations - dead).Keys == allocations.Keys - dead;
    assert |(allocations - dead).Keys| == |allocations - dead| && |allocations.Keys| == |allocations|;
    assert allocations.Keys - dead <= allocations.Keys;
    SubsetSize(allocations.Keys - dead, allocations.Keys);
  }

  lemma SubsetSize(a: set<Address>, b: set<Address>)
    requires a <= b
    ensures |a| <= |b|
  {
    if a != b {
      SmallerSet(a, b);
    }
  }

  lemma HeadersFitAfter(allocations: Allocations, dead: set<Address>)
    requires WellFormed(allocations) && HeadersFit(allocations)
    ensures WellFormed(allocations - dead) && HeadersFit(allocations - dead)
  {
  }

  lemma LiveNotFinalized(s: Snapshot, a: Address)
    requires ValidState(s) && a in s.allocations
    ensures Finalized(s.allocations[a].header) !in s.log
  {
    assert HasBlock(s.allocations, s.allocations[a].header);
  }

  // The batch lists the headers that leave the heap, each once, none of them finalized.
  lemma BatchListsHeaders(s: Snapshot, kept: set<Address>, report: Report)
    requires ValidState(s)
    requires
      var dead := Restrict(s.allocations, s.allocations.Keys - kept);
      InOrder(report.records, dead) && OrderedBy(report.records, s.weak.memory, report.batch, report.g, report.out)
    ensures Detached(report.batch, HeadersOf(Restrict(s.allocations, s.allocations.Keys - kept)), s.log)
  {
    hide ValidState;
    var dead := Restrict(s.allocations, s.allocations.Keys - kept);
    ValidIsMarkable(s);
    forall h | h in HeadersOf(dead)
      ensures Finalized(h) !in s.log
    {
      var a :| a in dead && dead[a].header == h;
      assert s.allocations[a].header == h;
      LiveNotFinalized(s, a);
    }
    hide InOrder, OrderedBy;
    BatchCovers(s.allocations, dead, s.weak.memory, report);
  }

  lemma BatchCovers(heap: Allocations, dead: Allocations, mem: Memory, report: Report)
    requires Markable(heap) && forall a :: a in dead ==> a in heap && dead[a] == heap[a]
    requires InOrder(report.records, dead) && OrderedBy(report.records, mem, report.batch, report.g, report.out)
    ensures forall i, j :: 0 <= i < j < |report.batch| ==> report.batch[i] != report.batch[j]
    ensures forall h :: h in report.batch <==> h in HeadersOf(dead)
  {
    OrderIsPermutation(report.g, report.out);
    BatchDistinct(heap, dead, mem, report);
    hide Ordered, Represents, Greedy, Exhausted, Markable, HeadersOf;
    forall h | h in report.batch
      ensures h in HeadersOf(dead)
    {
      BatchDead(dead, mem, report, h);
    }
    forall h | h in HeadersOf(dead)
      ensures h in report.batch
    {
      DeadBatched(dead, mem, report, h);
    }
  }

  lemma BatchDistinct(heap: Allocations, dead: Allocations, mem: Memory, report: Report)
    requires Markable(heap) && forall a :: a in dead ==> a in heap && dead[a] == heap[a]
    requires InOrder(report.records, dead) && OrderedBy(report.records, mem, report.batch, report.g, report.out)
    ensures forall i, j :: 0 <= i < j < |report.batch| ==> report.batch[i] != report.batch[j]
  {
    var order := OrderOf(report);
    OrderIsPermutation(report.g, report.out);
    hide Ordered, Represents, Greedy, Exhausted, Markable;
    forall i, j | 0 <= i < j < |report.batch|
      ensures report.batch[i] != report.batch[j]
    {
      assert order[i] in order && order[j] in order;
      DistinctHeaders(heap, dead, report.records, order[i], order[j]);
    }
  }

  lemma BatchDead(dead: Allocations, mem: Memory, report: Report, h: ChunkHeader)
    requires InOrder(report.records, dead) && OrderedBy(report.records, mem, report.batch, report.g, report.out)
    requires h in report.batch
    ensures h in HeadersOf(dead)
  {
    hide Ordered, Represents, Greedy, Exhausted;
    var i :| 0 <= i < |report.batch| && report.batch[i] == h;
    var r := report.records[OrderOf(report)[i]];
    assert r.payloadBegin in dead && dead[r.payloadBegin].header == h;
  }

  lemma DeadBatched(dead: Allocations, mem: Memory, report: Report, h: ChunkHeader)
    requires InOrder(report.records, dead) && OrderedBy(report.records, mem, report.batch, report.g, report.out)
    requires h in HeadersOf(dead)
    ensures h in report.batch
  {
    EveryBlockListed(dead, report.records);
    OrderIsPermutation(report.g, report.out);
    hide Ordered, Represents, Greedy, Exhausted;
    var order := OrderOf(report);
    var a :| a in dead && dead[a].header == h;
    var k :| 0 <= k < |report.records| && report.records[k].payloadBegin == a && report.records[k] == dead[a];
    assert k in order;
    var i :| 0 <= i < |order| && order[i] == k;
    assert report.batch[i] == h;
  }

  lemma BatchIsDetached(s: Snapshot, s': Snapshot, kept: set<Address>, report: Report)
    requires ValidState(s) && Reclaimed(s, s', kept, report)
    ensures Detached(report.batch, s'.pending, s'.log)
  {
    DetachedHeaders(s.allocations, kept);
    BatchListsHeaders(s, kept, report);
  }

  lemma DistinctHeaders(heap: Allocations, dead: Allocations, records: seq<BlockRecord>, j: nat, k: nat)
    requires InOrder(records, dead) && Markable(heap) && j < |records| && k < |records| && j != k
    requires forall a :: a in dead ==> a in heap && dead[a] == heap[a]
    ensures records[j].header != records[k].header
  {
    LaterBegin(records, if j < k then j else k);
  }

  lemma DetachedHeaders(heap: Allocations, kept: set<Address>)
    requires Markable(heap)
    ensures HeadersOf(heap) - HeadersOf(heap - (heap.Keys - kept)) == HeadersOf(Restrict(heap, heap.Keys - kept))
  {
    var rest, dead := heap - (heap.Keys - kept), Restrict(heap, heap.Keys - kept);
    forall h | h in HeadersOf(dead)
      ensures h in HeadersOf(heap) && h !in HeadersOf(rest)
    {
      var a :| a in dead && dead[a].header == h;
      assert heap[a].header == h;
    }
    forall h | h in HeadersOf(heap) && h !in HeadersOf(rest)
      ensures h in HeadersOf(dead)
    {
      var a :| a in heap && heap[a].header == h;
      assert a !in rest;
      assert a in dead && dead[a].header == h;
    }
  }

  lemma ReclaimedLives(s: Snapshot, after: Allocations, kept: set<Address>)
    requires Lives(s.allocations, s.registered, s.released, {}, s.log)
    requires after == s.allocations - (s.allocations.Keys - kept)
    ensures Lives(after, s.registered, s.released, HeadersOf(s.allocations) - HeadersOf(after), s.log)
  {
    LivesDetach(s.allocations, s.registered, s.released, {}, s.log, s.allocations.Keys - kept);
    assert {} + HeadersOf(s.allocations) - HeadersOf(after) == HeadersOf(s.allocations) - HeadersOf(after);
  }

  lemma ReclaimedBooks(s: Snapshot, s': Snapshot, kept: set<Address>, blocks: nat)
    requires Balanced(s.allocations, s.managedBytes, s.reservedBytes, s.stats, s.ledger)
    requires s'.allocations == s.allocations - (s.allocations.Keys - kept) && s'.managedBytes <= s.managedBytes
    requires s'.managedBytes as nat == Total(PayloadBytes, s'.allocations)
    requires s'.reservedBytes as nat == Total(ReservedBytes, s'.allocations)
    requires s'.stats == StatsAfter(s.stats, s.managedBytes - s'.managedBytes, blocks)
    requires s'.ledger == LedgerAfter(s.ledger, s.managedBytes - s'.managedBytes, s'.managedBytes, |s'.allocations|)
    ensures Balanced(s'.allocations, s'.managedBytes, s'.reservedBytes, s'.stats, s'.ledger)
  {
    SubMapSize(s.allocations, s.allocations.Keys - kept);
    BalancedAfterCollection(s.allocations, s.managedBytes, s.reservedBytes, s.stats, s.ledger,
                            s'.allocations, s'.managedBytes, s'.reservedBytes, blocks);
  }

  lemma ReclaimedIsValid(s: Snapshot, s': Snapshot, kept: set<Address>, report: Report)
    requires ValidState(s) && s.collecting && s.pending == {} && Reclaimed(s, s', kept, report)
    requires s'.managedBytes as nat == Total(PayloadBytes, s'.allocations)
    requires s'.reservedBytes as nat == Total(ReservedBytes, s'.allocations)
    ensures ValidState(s')
  {
    hide WellFormed, HeadersFit, Consistent, Balanced, Lives, InOrder, OrderedBy, Expire, StatsAfter, LedgerAfter,
         Total;
    HeadersFitAfter(s.allocations, s.allocations.Keys - kept);
    ExpireConsistent(s.weak, s.allocations, s.allocations.Keys - kept);
    ReclaimedBooks(s, s', kept, |report.batch|);
    ReclaimedLives(s, s'.allocations, kept);
  }

  // The statistics of a collection, and the headers that wait for their finalizers.
  function Recorded(s: Snapshot, bytes: Word, blocks: nat, headers: set<ChunkHeader>): Snapshot {
    s.(stats := StatsAfter(s.stats, bytes, blocks),
       ledger := LedgerAfter(s.ledger, bytes, s.managedBytes, |s.allocations|),
       pending := headers - HeadersOf(s.allocations))
  }

  lemma SweptTotals(s: Snapshot, s1: Snapshot, kept: set<Address>)
    requires ValidState(s) && SweptAll(s, s1, kept)
    ensures s.managedBytes as nat ==
              s1.managedBytes + Total(PayloadBytes, Restrict(s.allocations, s.allocations.Keys - kept))
  {
    TotalSplit(PayloadBytes, s.allocations, s.allocations.Keys - kept);
  }

  lemma FinishSweep(s: Snapshot, s1: Snapshot, s': Snapshot, kept: set<Address>, report: Report, bytes: Word)
    requires ValidState(s) && s.collecting && s.pending == {} && SweptAll(s, s1, kept)
    requires InOrder(report.records, Restrict(s.allocations, s.allocations.Keys - kept))
    requires OrderedBy(report.records, s.weak.memory, report.batch, report.g, report.out)
    requires bytes as nat == Total(PayloadBytes, Restrict(s.allocations, s.allocations.Keys - kept))
    requires s' == Recorded(s1, bytes, |report.batch|, HeadersOf(s.allocations))
    ensures ValidState(s') && Reclaimed(s, s', kept, report) && Detached(report.batch, s'.pending, s'.log)
  {
    SweptIsReclaimed(s, s1, s', kept, report, bytes);
    RecordedTotals(s, s1, s', kept, report, bytes);
    hide *;
    ReclaimedIsValid(s, s', kept, report);
    BatchIsDetached(s, s', kept, report);
  }

  lemma RecordedTotals(s: Snapshot, s1: Snapshot, s': Snapshot, kept: set<Address>, report: Report, bytes: Word)
    requires SweptAll(s, s1, kept) && s' == Recorded(s1, bytes, |report.batch|, HeadersOf(s.allocations))
    ensures s'.managedBytes as nat == Total(PayloadBytes, s'.allocations)
    ensures s'.reservedBytes as nat == Total(ReservedBytes, s'.allocations)
  {
  }

  lemma SweptIsReclaimed(s: Snapshot, s1: Snapshot, s': Snapshot, kept: set<Address>, report: Report, bytes: Word)
    requires ValidState(s) && SweptAll(s, s1, kept)
    requires InOrder(report.records, Restrict(s.allocations, s.allocations.Keys - kept))
    requires OrderedBy(report.records, s.weak.memory, report.batch, report.g, report.out)
    requires bytes as nat == Total(PayloadBytes, Restrict(s.allocations, s.allocations.Keys - kept))
    requires s' == Recorded(s1, bytes, |report.batch|, HeadersOf(s.allocations))
    ensures Reclaimed(s, s', kept, report)
  {
    hide ValidState, InOrder, OrderedBy, Total, Expire, Restrict, HeadersOf, StatsAfter, LedgerAfter;
    SweptTotals(s, s1, kept);
  }

  // --- Shutdown ---

  // Everything is detached, every handle zeroed, the statistics and the ledger start over.
  ghost predicate DetachedAll(s: Snapshot, s': Snapshot, report: Report) {
    && CollectedFrom(s.allocations, {}, s.weak.memory, report, s'.allocations)
    && s'.allocations == map[] && s'.managedBytes == 0 && s'.reservedBytes == 0
    && s'.weak == Forget(s.weak, s.weak.targets.Keys)
    && s'.stats == EMPTY_STATS && IsBlank(s'.ledger)
    && s'.pending == HeadersOf(s.allocations)
    && s' == s.(allocations := s'.allocations, weak := s'.weak, managedBytes := s'.managedBytes,
                reservedBytes := s'.reservedBytes, stats := s'.stats, ledger := s'.ledger, pending := s'.pending)
  }

  ghost predicate ShutDown(s: Snapshot, s': Snapshot, report: Report) {
    var mid := s.(allocations := map[], weak := Forget(s.weak, s.weak.targets.Keys),
                  managedBytes := 0, reservedBytes := 0, stats := s'.stats, ledger := s'.ledger,
                  pending := HeadersOf(s.allocations));
    DetachedAll(s, mid, report) && s' == AfterDestroy(mid, report.batch)
  }

  lemma FinishShutdown(s: Snapshot, mid: Snapshot, s': Snapshot, report: Report)
    requires !s.collecting && DetachedAll(s.(collecting := true), mid, report)
    requires s' == AfterDestroy(mid, report.batch).(collecting := false)
    ensures ShutDown(s, s', report)
  {
  }

  lemma DetachedAllIsValid(s: Snapshot, s': Snapshot)
    requires ValidState(s) && s.pending == {} && s'.allocations == map[]
    requires s'.collecting && s'.registered == s.registered && s'.released == s.released && s'.log == s.log
    requires s'.pending == HeadersOf(s.allocations) && s'.weak == Forget(s.weak, s.weak.targets.Keys)
    requires Balanced(s'.allocations, s'.managedBytes, s'.reservedBytes, s'.stats, s'.ledger)
    ensures ValidState(s')
  {
    hide WellFormed, HeadersFit, Balanced, Lives, Consistent, Forget, HeadersOf;
    KeepNothing(s.allocations);
    NothingLeft(s.weak, s.allocations);
    ReclaimedLives(s, map[], {});
    EmptyHeap();
  }

  ghost function Cleared(s: Snapshot, headers: set<ChunkHeader>, ledger: Ledger): Snapshot {
    Emptied(s, headers).(weak := Forget(s.weak, s.weak.targets.Keys), ledger := ledger)
  }

  function Emptied(s: Snapshot, headers: set<ChunkHeader>): Snapshot {
    s.(allocations := map[], managedBytes := 0, reservedBytes := 0, stats := EMPTY_STATS, pending := headers)
  }

  lemma EmptiedFields(s: Snapshot, headers: set<ChunkHeader>)
    ensures Emptied(s, headers) ==
              s.(allocations := map[], managedBytes := 0, reservedBytes := 0, stats := EMPTY_STATS, pending := headers)
  {
  }

  lemma CollectedAll(s: Snapshot, report: Report)
    requires InOrder(report.records, s.allocations)
    requires OrderedBy(report.records, s.weak.memory, report.batch, report.g, report.out)
    ensures CollectedFrom(s.allocations, {}, s.weak.memory, report, map[])
  {
    hide InOrder, OrderedBy, Restrict;
    KeepNothing(s.allocations);
  }

  lemma FinishDetachAll(s: Snapshot, s': Snapshot, report: Report)
    requires ValidState(s) && s.collecting && s.pending == {}
    requires CollectedFrom(s.allocations, {}, s.weak.memory, report, map[])
    requires IsBlank(s'.ledger) && Balanced(map[], 0, 0, EMPTY_STATS, s'.ledger)
    requires s' == Cleared(s, HeadersOf(s.allocations), s'.ledger)
    ensures ValidState(s') && DetachedAll(s, s', report)
  {
    hide ValidState, CollectedFrom, Balanced, IsBlank, Forget, HeadersOf;
    DetachedAllIsValid(s, s');
  }

  lemma KeepNothing(heap: Allocations)
    ensures heap - (heap.Keys - {}) == map[] && Restrict(heap, heap.Keys - {}) == heap
    ensures HeadersOf(heap) - HeadersOf(map[]) == HeadersOf(heap)
  {
  }

  lemma EmptyHeap()
    ensures WellFormed(map[]) && HeadersFit(map[])
  {
  }

  lemma NothingLeft(w: WeakState, heap: Allocations)
    requires Consistent(w, heap)
    ensures Consistent(Forget(w, w.targets.Keys), map[])
  {
  }

  lemma WholeBatchIsDetached(s: Snapshot, report: Report)
    requires ValidState(s) && CollectedFrom(s.allocations, {}, s.weak.memory, report, map[])
    ensures Detached(report.batch, HeadersOf(s.allocations), s.log)
  {
    hide ValidState, InOrder, OrderedBy, Restrict, HeadersOf, Detached;
    KeepNothing(s.allocations);
    BatchListsHeaders(s, {}, report);
  }

  lemma RaiseFlag(s: Snapshot)
    requires ValidState(s) && !s.collecting
    ensures ValidState(s.(collecting := true)) && s.pending == {}
  {
  }

  lemma LowerFlag(s: Snapshot)
    requires ValidState(s) && s.pending == {}
    ensures ValidState(s.(collecting := false))
  {
  }

  lemma ReclaimedKeepsFlag(s: Snapshot, s': Snapshot, kept: set<Address>, report: Report)
    requires Reclaimed(s, s', kept, report)
    ensures s'.collecting == s.collecting && HeadersOf(s'.allocations) <= HeadersOf(s.allocations)
  {
  }

  lemma DetachedAllKeepsFlag(s: Snapshot, s': Snapshot, report: Report)
    requires DetachedAll(s, s', report)
    ensures s'.collecting == s.collecting && HeadersOf(s'.allocations) == {}
  {
  }
}
