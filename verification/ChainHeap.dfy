/**
A heap whose collection finalizes a block before another that refers to it, although neither
lies on a cycle: two blocks that refer to each other, and a chain of two blocks behind them.
 */
module ChainHeap {
  import opened Wrappers
  import opened Words
  import opened ChunkHeaders
  import opened Blocks
  import opened Reachability
  import opened FinalizationOrder
  import opened WeakRegistry
  import opened Lifecycle
  import opened Marking
  import opened Sweeping
  import opened HeapState
  import opened Mutation
  import opened CollectionTheorems
  import opened GCManager

  // Four headers of blocks of two words.
  predicate ChainHeaders(hs: seq<ChunkHeader>) {
    && |hs| == 4
    && (forall i, j :: 0 <= i < j < 4 ==> hs[i] != hs[j])
    && forall i :: 0 <= i < 4 ==>
         hs[i].size == 16 && hs[i].payloadOffset == 32 && hs[i].magicNumber == CHUNK_MAGIC_NUMBER
  }

  function FirstBlocks(hs: seq<ChunkHeader>, n: nat): Allocations
    requires n <= |hs| == 4
  {
    if n == 0 then map[] else FirstBlocks(hs, n - 1)[48 * n := ChainRecord(hs[n - 1], n - 1)]
  }

  lemma {:induction false} BlocksBelow(hs: seq<ChunkHeader>, n: nat)
    requires n <= |hs| == 4
    ensures forall a :: a in FirstBlocks(hs, n) ==>
              a + 16 <= 48 * n + 16 && FirstBlocks(hs, n)[a].payloadEnd as nat == a + 16
  {
    if n > 0 {
      BlocksBelow(hs, n - 1);
    }
  }

  // The first n blocks are in place, and there are no roots and no weak handles.
  ghost predicate Growing(s: Snapshot, hs: seq<ChunkHeader>, n: nat)
    requires n <= |hs| == 4
  {
    && ValidState(s) && s.allocations == FirstBlocks(hs, n) && s.rootRanges == []
    && s.weak.handles == {} && s.weak.guarded == {}
    && s.managedBytes as nat == 16 * n && s.reservedBytes as nat == 48 * n
    && forall i :: n <= i < 4 ==> hs[i] !in s.registered
  }

  lemma NextPlaced(s: Snapshot, hs: seq<ChunkHeader>, n: nat)
    requires ChainHeaders(hs) && n < 4 && Growing(s, hs, n)
    ensures ValidState(s) && |hs| == 4 && Placed(s, hs[n], 48 * n + 48) && hs[n].size == 16 && hs[n].payloadOffset == 32
    ensures s.managedBytes as nat == 16 * n && s.reservedBytes as nat == 48 * n
    ensures s.managedBytes + hs[n].size <= WORD_MAX && s.reservedBytes + (hs[n].payloadOffset + hs[n].size) <= WORD_MAX
    ensures 48 * n + 48 + hs[n].size <= PAYLOAD_LIMIT
    ensures ChainRecord(hs[n], n) == BlockRecord(hs[n], 48 * n + 48, 48 * n + 48 + hs[n].size, false)
  {
    hide ValidState;
    BlocksBelow(hs, n);
  }

  predicate AllZero(mem: Memory) {
    forall a :: a in mem ==> mem[a] == 0
  }

  lemma OneMoreBlock(s: Snapshot, hs: seq<ChunkHeader>, n: nat)
    requires ChainHeaders(hs) && n < 4 && Growing(s, hs, n) && AllZero(s.weak.memory)
    ensures |hs| == 4 && s.managedBytes + hs[n].size <= WORD_MAX
    ensures s.reservedBytes + (hs[n].payloadOffset + hs[n].size) <= WORD_MAX
    ensures 48 * n + 48 + hs[n].size <= PAYLOAD_LIMIT
    ensures
      var s' := RegisteredAt(s, hs[n], 48 * n + 48, false);
      && Placed(s, hs[n], 48 * n + 48) && Growing(s', hs, n + 1) && AllZero(s'.weak.memory)
      && s'.log == s.log && s'.collecting == s.collecting
  {
    hide *;
    NextPlaced(s, hs, n);
    RegisteredParts(s, hs[n], 48 * n + 48, false);
    RegisteredIsValid(s, hs[n], 48 * n + 48, false);
    RegisteredRest(s, hs[n], 48 * n + 48);
    StillZero(s.weak.memory, 48 * n + 48, 48 * n + 48 + hs[n].size);
    GrownByOne(s, RegisteredAt(s, hs[n], 48 * n + 48, false), hs, n);
  }

  lemma StillZero(mem: Memory, begin: nat, end: nat)
    requires AllZero(mem)
    ensures AllZero(ZeroRange(mem, begin, end))
  {
  }

  lemma GrownByOne(s: Snapshot, s': Snapshot, hs: seq<ChunkHeader>, n: nat)
    requires ChainHeaders(hs) && n < 4 && Growing(s, hs, n) && ValidState(s')
    requires s'.allocations == s.allocations[48 * n + 48 := ChainRecord(hs[n], n)]
    requires s'.rootRanges == s.rootRanges && s'.weak == s.weak.(memory := s'.weak.memory)
    requires s'.managedBytes as nat == s.managedBytes + 16 && s'.reservedBytes as nat == s.reservedBytes + 48
    requires s'.registered == s.registered + {hs[n]}
    ensures Growing(s', hs, n + 1)
  {
    hide ValidState;
  }

  lemma RegisteredRest(s: Snapshot, h: ChunkHeader, p: Address)
    requires s.managedBytes + h.size <= WORD_MAX && s.reservedBytes + (h.payloadOffset + h.size) <= WORD_MAX
    requires p + h.size <= PAYLOAD_LIMIT
    ensures RegisteredAt(s, h, p, false).rootRanges == s.rootRanges
  {
    hide StatsWith, LedgerWith, ZeroRange;
  }

  // The four blocks with their words.
  ghost predicate IsChainHeap(s: Snapshot, hs: seq<ChunkHeader>) {
    |hs| == 4 && Growing(s, hs, 4) && ChainMemory(s.weak.memory)
  }

  lemma ChainParts(s: Snapshot, hs: seq<ChunkHeader>)
    requires IsChainHeap(s, hs)
    ensures |hs| == 4 && WellFormed(s.allocations) && s.allocations == FirstBlocks(hs, 4)
    ensures s.rootRanges == [] && ChainMemory(s.weak.memory)
  {
  }

  lemma FourBlocks(hs: seq<ChunkHeader>)
    requires |hs| == 4
    ensures FirstBlocks(hs, 4) == map[48 := ChainRecord(hs[0], 0), 96 := ChainRecord(hs[1], 1),
                                      144 := ChainRecord(hs[2], 2), 192 := ChainRecord(hs[3], 3)]
  {
    assert FirstBlocks(hs, 1) == map[48 := ChainRecord(hs[0], 0)];
    assert FirstBlocks(hs, 2) == map[48 := ChainRecord(hs[0], 0), 96 := ChainRecord(hs[1], 1)];
    assert FirstBlocks(hs, 3) == FirstBlocks(hs, 2)[144 := ChainRecord(hs[2], 2)];
  }

  lemma NothingReached(s: Snapshot, stack: seq<Word>, hs: seq<ChunkHeader>)
    requires |hs| == 4 && WellFormed(s.allocations) && s.allocations == FirstBlocks(hs, 4) && s.rootRanges == []
    requires forall w :: w in stack ==> !Live(s.allocations, w)
    ensures Survivors(s, stack) == {}
  {
    FourBlocks(hs);
    var roots := stack + RangeWords(s.rootRanges, s.weak.memory);
    assert roots == stack;
    forall v | IsRoot(s.allocations, roots, v)
      ensures false
    {
      var w :| w in roots && Contains(s.allocations[v], w);
      assert Owns(s.allocations, v, w);
    }
    ClosedIsReached(s.allocations, s.weak.memory, roots, {});
  }

  lemma ChainListed(records: seq<BlockRecord>, hs: seq<ChunkHeader>)
    requires |hs| == 4 && InOrder(records, FirstBlocks(hs, 4))
    ensures records == ChainRecords(hs)
  {
    FourBlocks(hs);
    var heap := FirstBlocks(hs, 4);
    hide FirstBlocks, InOrder;
    assert heap.Keys == {48, 96, 144, 192};
    ListedInOrder(records, heap);
    assert forall i :: 0 <= i < 4 ==> records[i] == ChainRecord(hs[i], i);
  }

  lemma ListedInOrder(records: seq<BlockRecord>, heap: Allocations)
    requires InOrder(records, heap) && heap.Keys == {48, 96, 144, 192}
    ensures records == [heap[48], heap[96], heap[144], heap[192]]
  {
    assert |heap| == |heap.Keys| == 4;
    var a, b := records[0].payloadBegin, records[1].payloadBegin;
    var c, d := records[2].payloadBegin, records[3].payloadBegin;
    assert a in heap.Keys && b in heap.Keys && c in heap.Keys && d in heap.Keys && a < b < c < d;
    FourKeys(a, b, c, d);
    hide Ordered;
  }

  lemma FourKeys(a: nat, b: nat, c: nat, d: nat)
    requires {a, b, c, d} <= {48, 96, 144, 192} && a < b < c < d
    ensures a == 48 && b == 96 && c == 144 && d == 192
  {
    assert a in {a, b, c, d} && b in {a, b, c, d} && c in {a, b, c, d} && d in {a, b, c, d};
  }

  lemma OnlyOrder(report: Report, mem: Memory, hs: seq<ChunkHeader>)
    requires |hs| == 4 && ChainMemory(mem) && report.records == ChainRecords(hs)
    requires OrderedBy(report.records, mem, report.batch, report.g, report.out)
    ensures report.batch == [hs[3], hs[2], hs[1], hs[0]]
  {
    hide Represents, Greedy, Exhausted, ChainMemory, Refers, OnCycle, IsFinalizationOrder, Ordered;
    MakeOrder(report.records, mem, report.g, report.out);
    DownstreamInversion(hs, mem, OrderOf(report));
    assert OrderOf(report) == [3, 2, 1, 0];
  }

  lemma AllDead(allocations: Allocations)
    ensures Restrict(allocations, allocations.Keys - {}) == allocations
    ensures allocations - (allocations.Keys - {}) == map[]
  {
  }

  // Every collection of this heap that finds no address of a block finalizes the chain from
  // its far end: block 3 before block 2, which refers to it.
  lemma FinalizedBackwards(s: Snapshot, s': Snapshot, stack: seq<Word>, report: Report, hs: seq<ChunkHeader>)
    requires IsChainHeap(s, hs) && Collected(s, s', stack, report)
    requires forall w :: w in stack ==> !Live(s.allocations, w)
    ensures |hs| == 4 && report.batch == [hs[3], hs[2], hs[1], hs[0]]
    ensures s'.allocations == map[] && s'.log == s.log + Finalizations(report.batch) + Frees(report.batch)
  {
    hide *;
    ChainParts(s, hs);
    NothingReached(s, stack, hs);
    CollectedParts(s, s', stack, report);
    AllDead(s.allocations);
    ChainListed(report.records, hs);
    OnlyOrder(report, s.weak.memory, hs);
  }

  // --- The heap exists ---

  lemma NoBlocksYet(s: Snapshot, hs: seq<ChunkHeader>)
    requires |hs| == 4 && ValidState(s) && s.allocations == map[] && s.rootRanges == [] && s.weak.handles == {}
    requires s.weak.guarded == {} && s.managedBytes == 0 && s.reservedBytes == 0 && s.registered == {}
    requires s.weak.memory == map[] && hs[0] != hs[1] && hs[0] != hs[2] && hs[0] != hs[3]
    requires hs[1] != hs[2] && hs[1] != hs[3] && hs[2] != hs[3]
    requires forall h :: h in hs ==> h.size == 16 && h.payloadOffset == 32 && h.magicNumber == CHUNK_MAGIC_NUMBER
    ensures Growing(s, hs, 0) && AllZero(s.weak.memory) && ChainHeaders(hs) && HeadersOf(s.allocations) == {}
  {
    hide ValidState;
  }

  // A word written into the heap.
  lemma WordWritten(s: Snapshot, hs: seq<ChunkHeader>, address: Address, value: Word)
    requires |hs| == 4 && Growing(s, hs, 4)
    ensures
      var s' := AfterAct(s, Store(address, value));
      && Growing(s', hs, 4) && s'.weak.memory == s.weak.memory[address := value] && s'.log == s.log
      && s'.collecting == s.collecting
  {
    hide *;
    GrowingValid(s, hs);
    ActKeepsValid(s, Store(address, value));
    StoreGrows(s, AfterAct(s, Store(address, value)), hs, address, value);
  }

  lemma GrowingValid(s: Snapshot, hs: seq<ChunkHeader>)
    requires |hs| == 4 && Growing(s, hs, 4)
    ensures ValidState(s)
  {
    hide ValidState;
  }

  lemma StoreGrows(s: Snapshot, s': Snapshot, hs: seq<ChunkHeader>, address: Address, value: Word)
    requires |hs| == 4 && Growing(s, hs, 4) && s' == AfterAct(s, Store(address, value)) && ValidState(s')
    ensures Growing(s', hs, 4) && s'.weak.memory == s.weak.memory[address := value] && s'.log == s.log
    ensures s'.collecting == s.collecting
  {
    hide ValidState, FirstBlocks;
  }

  lemma WordsOfChain(mem: Memory, mem': Memory)
    requires AllZero(mem) && mem' == mem[48 := 96][96 := 48][104 := 144][144 := 192]
    ensures ChainMemory(mem')
  {
  }

  // Four allocations.
  method BuildBlocks(manager: GC_Manager, hs: seq<ChunkHeader>)
    requires manager.Valid() && ChainHeaders(hs) && |hs| == 4
    requires Growing(manager.State(), hs, 0) && AllZero(manager.State().weak.memory)
    modifies manager
    ensures manager.Valid() && Growing(manager.State(), hs, 4) && AllZero(manager.State().weak.memory)
    ensures manager.State().collecting == old(manager.State()).collecting
    ensures manager.State().log == old(manager.State()).log
    ensures manager.Headers() <= old(manager.Headers()) + set h | h in hs
  {
    hide GC_Manager.Valid, GC_Manager.State, GC_Manager.Headers, GC_Manager.Weak, Growing, Placed, RegisteredAt,
         AllZero, ChainHeaders, FirstBlocks, ValidState, HeadersOf, Targets, DistinctStorage;
    var i := 0;
    while i < 4
      invariant 0 <= i <= 4 && manager.Valid() && Growing(manager.State(), hs, i)
      invariant AllZero(manager.State().weak.memory)
      invariant manager.State().collecting == old(manager.State()).collecting
      invariant manager.State().log == old(manager.State()).log
      invariant manager.Headers() <= old(manager.Headers()) + set h | h in hs
    {
      OneMoreBlock(manager.State(), hs, i);
      manager.Fields();
      manager.RegisterBlock(hs[i], 48 * i + 48, false);
      i := i + 1;
    }
  }

  // Four words.
  method LinkBlocks(manager: GC_Manager, hs: seq<ChunkHeader>)
    requires manager.Valid() && ChainHeaders(hs) && Growing(manager.State(), hs, 4)
    requires AllZero(manager.State().weak.memory)
    modifies manager`memory
    ensures manager.Valid() && IsChainHeap(manager.State(), hs) && manager.Headers() == old(manager.Headers())
    ensures manager.State().collecting == old(manager.State()).collecting
    ensures manager.State().log == old(manager.State()).log
  {
    hide GC_Manager.Valid, GC_Manager.State, Growing, AfterAct, AllZero, ChainMemory;
    WordWritten(manager.State(), hs, 48, 96);
    manager.StoreWord(48, 96);
    WordWritten(manager.State(), hs, 96, 48);
    manager.StoreWord(96, 48);
    WordWritten(manager.State(), hs, 104, 144);
    manager.StoreWord(104, 144);
    WordWritten(manager.State(), hs, 144, 192);
    manager.StoreWord(144, 192);
    WordsOfChain(old(manager.State()).weak.memory, manager.State().weak.memory);
  }

  method FinalizeChain(manager: GC_Manager, hs: seq<ChunkHeader>) returns (status: Status)
    requires manager.Valid() && ChainHeaders(hs) && Growing(manager.State(), hs, 0)
    requires AllZero(manager.State().weak.memory)
    requires !manager.collecting && |hs| == 4
    modifies manager, manager.Headers(), hs
    ensures manager.Valid() && status == Done && manager.allocations == map[]
    ensures
      var batch := [hs[3], hs[2], hs[1], hs[0]];
      manager.log == old(manager.log) + Finalizations(batch) + Frees(batch)
  {
    hide *;
    manager.Fields();
    BuildBlocks(manager, hs);
    LinkBlocks(manager, hs);
    ghost var s, report := manager.State(), NO_REPORT;
    manager.Fields();
    status, report := manager.Collect([], true, NoFailure);
    FinalizedBackwards(s, manager.State(), [], report, hs);
    manager.Fields();
  }

  // A run of the manager from its construction: four allocations, four writes, a collection.
  method RunChain() returns (hs: seq<ChunkHeader>, manager: GC_Manager, status: Status)
    ensures |hs| == 4 && manager.Valid() && status == Done && manager.allocations == map[]
    ensures manager.log == Finalizations([hs[3], hs[2], hs[1], hs[0]]) + Frees([hs[3], hs[2], hs[1], hs[0]])
  {
    hide *;
    manager := new GC_Manager();
    var h0 := new ChunkHeader(16, Some([]), 32, 16);
    var h1 := new ChunkHeader(16, Some([]), 32, 16);
    var h2 := new ChunkHeader(16, Some([]), 32, 16);
    var h3 := new ChunkHeader(16, Some([]), 32, 16);
    hs := [h0, h1, h2, h3];
    manager.Fields();
    NoBlocksYet(manager.State(), hs);
    status := FinalizeChain(manager, hs);
  }
}
