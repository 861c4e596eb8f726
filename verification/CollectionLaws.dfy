/**
What a collection does, in terms of addresses, words and bytes alone: which blocks stay, and
what it leaves of every other part of the heap's state.
 */
module CollectionLaws {
  import opened Wrappers
  import opened Words
  import opened ChunkHeaders
  import opened Blocks
  import opened RootScanner
  import opened Reachability
  import opened FinalizationOrder
  import opened WeakRegistry
  import opened Accounting
  import opened Lifecycle
  import opened Marking
  import opened Sweeping
  import opened HeapState
  import opened Mutation
  import opened FinalizerLaws
  import opened CollectionTheorems

  // --- What stays ---

  // The word that was written at an aligned address between lo and hi lies in the payload of v.
  ghost predicate WordInto(s: Snapshot, lo: nat, hi: nat, v: Address) {
    exists a: Address :: a % 8 == 0 && lo <= a && a + 8 <= hi && a in s.weak.memory && v in s.allocations &&
                         v <= s.weak.memory[a] < s.allocations[v].payloadEnd
  }

  // The same for a range whose endpoints come in either order; a null endpoint holds nothing.
  ghost predicate RangeInto(s: Snapshot, r: RootRange, v: Address) {
    && r.begin != 0 && r.end != 0
    && if r.begin <= r.end then WordInto(s, r.begin, r.end, v) else WordInto(s, r.end, r.begin, v)
  }

  // A block to start from: it is under construction, or a word of the stack or of a registered
  // range addresses it.
  ghost predicate StartsAt(s: Snapshot, stack: seq<Word>, v: Address) {
    v in s.allocations &&
    (|| s.allocations[v].constructing
     || (exists w :: w in stack && v <= w < s.allocations[v].payloadEnd)
     || (exists r :: r in s.rootRanges && RangeInto(s, r, v)))
  }

  // The blocks to start from are kept, and what a word of a kept payload addresses.
  ghost predicate Complete(s: Snapshot, stack: seq<Word>, kept: set<Address>) {
    && (forall v :: StartsAt(s, stack, v) ==> v in kept)
    && (forall u, v :: u in kept && u in s.allocations && WordInto(s, u, s.allocations[u].payloadEnd, v) ==> v in kept)
  }

  // A word of a payload, by address and by index.
  lemma WordIntoPoints(s: Snapshot, u: Address, v: Address)
    requires WellFormed(s.allocations) && HeadersFit(s.allocations) && u in s.allocations && v in s.allocations
    requires WordInto(s, u, s.allocations[u].payloadEnd, v)
    ensures PointsTo(s.allocations, s.weak.memory, u, v)
  {
    var b := s.allocations[u];
    var a: Address :| a % 8 == 0 && u <= a && a + 8 <= b.payloadEnd && a in s.weak.memory &&
                      v <= s.weak.memory[a] < s.allocations[v].payloadEnd;
    assert b.payloadBegin == u && u % 8 == 0 && s.allocations[v].payloadBegin == v;
    hide WellFormed, HeadersFit;
    IndexOf(b, a);
    var k: nat := (a - u) / 8;
    assert PayloadWord(s.weak.memory, b, k) == s.weak.memory[a];
  }

  lemma IndexOf(b: BlockRecord, a: Address)
    requires b.payloadBegin <= a && a + 8 <= b.payloadEnd && a % 8 == 0 && b.payloadBegin % 8 == 0
    ensures a == b.payloadBegin + 8 * ((a - b.payloadBegin) / 8) && (a - b.payloadBegin) / 8 < PayloadWords(b)
  {
  }

  lemma PointsWordInto(s: Snapshot, u: Address, v: Address)
    requires WellFormed(s.allocations) && HeadersFit(s.allocations)
    requires PointsTo(s.allocations, s.weak.memory, u, v)
    ensures u in s.allocations && v in s.allocations && WordInto(s, u, s.allocations[u].payloadEnd, v)
  {
    var b := s.allocations[u];
    var k: nat :| k < PayloadWords(b) && Contains(s.allocations[v], PayloadWord(s.weak.memory, b, k));
    assert b.payloadBegin == u && u % 8 == 0 && u < b.payloadEnd <= PAYLOAD_LIMIT;
    assert s.allocations[v].payloadBegin == v && v > 0;
    hide WellFormed, HeadersFit, PointsTo, PayloadWords, WordInto;
    AddressOfWord(b, k);
    WordFound(s, b, u + 8 * k, v);
  }

  lemma AddressOfWord(b: BlockRecord, k: nat)
    requires b.payloadBegin % 8 == 0 && b.payloadBegin < b.payloadEnd && k < PayloadWords(b)
    ensures (b.payloadBegin + 8 * k) % 8 == 0 && b.payloadBegin + 8 * k + 8 <= b.payloadEnd
  {
  }

  lemma WordFound(s: Snapshot, b: BlockRecord, a: nat, v: Address)
    requires a % 8 == 0 && b.payloadBegin <= a && a + 8 <= b.payloadEnd && v in s.allocations && v > 0
    requires v <= Load(s.weak.memory, a) < s.allocations[v].payloadEnd
    ensures WordInto(s, b.payloadBegin, b.payloadEnd, v)
  {
    assert a in s.weak.memory && v <= s.weak.memory[a];
  }

  lemma RangeIntoWords(s: Snapshot, r: RootRange, v: Address)
    requires v in s.allocations && s.allocations[v].payloadBegin == v && r in s.rootRanges && RangeInto(s, r, v)
    ensures exists w :: w in RangeWords(s.rootRanges, s.weak.memory) && Contains(s.allocations[v], w)
  {
    var lo, hi := if r.begin <= r.end then r.begin else r.end, if r.begin <= r.end then r.end else r.begin;
    var a: Address :| a % 8 == 0 && lo <= a && a + 8 <= hi && a in s.weak.memory &&
                      v <= s.weak.memory[a] < s.allocations[v].payloadEnd;
    VisitedExact(r.begin, r.end);
    hide Visited;
    assert WordBetween(r.begin, r.end, a);
    RangeWordListed(s.rootRanges, s.weak.memory, r, a);
    hide RangeWords;
    assert Contains(s.allocations[v], s.weak.memory[a]);
  }

  lemma WordsRangeInto(s: Snapshot, w: Word, v: Address)
    requires v in s.allocations && s.allocations[v].payloadBegin == v && v > 0
    requires w in RangeWords(s.rootRanges, s.weak.memory) && Contains(s.allocations[v], w)
    ensures exists r :: r in s.rootRanges && RangeInto(s, r, v)
  {
    var r, a := RangeWordSource(s.rootRanges, s.weak.memory, w);
    hide RangeWords;
    VisitedExact(r.begin, r.end);
    hide Visited;
    assert WordBetween(r.begin, r.end, a) && a in s.weak.memory;
    assert RangeInto(s, r, v);
  }

  lemma StartsAtRoots(s: Snapshot, stack: seq<Word>, v: Address)
    requires WellFormed(s.allocations)
    ensures StartsAt(s, stack, v) <==> IsRoot(s.allocations, RootWords(s, stack), v)
  {
    if v in s.allocations {
      assert s.allocations[v].payloadBegin == v && v > 0;
      hide WellFormed, RangeWords, RangeInto;
      forall r | r in s.rootRanges && RangeInto(s, r, v)
        ensures exists w :: w in RangeWords(s.rootRanges, s.weak.memory) && Contains(s.allocations[v], w)
      {
        RangeIntoWords(s, r, v);
      }
      forall w | w in RangeWords(s.rootRanges, s.weak.memory) && Contains(s.allocations[v], w)
        ensures exists r :: r in s.rootRanges && RangeInto(s, r, v)
      {
        WordsRangeInto(s, w, v);
      }
      StartsIn(s, stack, v);
    }
  }

  lemma StartsIn(s: Snapshot, stack: seq<Word>, v: Address)
    requires v in s.allocations && s.allocations[v].payloadBegin == v
    requires (exists w :: w in RangeWords(s.rootRanges, s.weak.memory) && Contains(s.allocations[v], w)) <==>
             (exists r :: r in s.rootRanges && RangeInto(s, r, v))
    ensures StartsAt(s, stack, v) <==> IsRoot(s.allocations, RootWords(s, stack), v)
  {
    hide RangeWords, RangeInto;
    var ranges := RangeWords(s.rootRanges, s.weak.memory);
    forall w | w in stack || w in ranges
      ensures w in RootWords(s, stack)
    {
    }
    if IsRoot(s.allocations, RootWords(s, stack), v) && !s.allocations[v].constructing {
      var w :| w in RootWords(s, stack) && Contains(s.allocations[v], w);
      assert w in stack || w in ranges;
    }
    if w :| w in stack && v <= w < s.allocations[v].payloadEnd {
      assert w in RootWords(s, stack) && Contains(s.allocations[v], w);
    }
  }

  lemma CompleteIsClosed(s: Snapshot, stack: seq<Word>, kept: set<Address>)
    requires WellFormed(s.allocations) && HeadersFit(s.allocations)
    ensures Complete(s, stack, kept) <==> Closed(s.allocations, s.weak.memory, RootWords(s, stack), kept)
  {
    hide WellFormed, HeadersFit, RootWords, PointsTo, WordInto, StartsAt, IsRoot;
    forall v: Address
      ensures StartsAt(s, stack, v) <==> IsRoot(s.allocations, RootWords(s, stack), v)
    {
      StartsAtRoots(s, stack, v);
    }
    forall u: Address, v: Address
      ensures PointsTo(s.allocations, s.weak.memory, u, v) <==>
                u in s.allocations && v in s.allocations && WordInto(s, u, s.allocations[u].payloadEnd, v)
    {
      EdgeIsWord(s, u, v);
    }
    WordIntoBlock(s);
  }

  lemma WordIntoBlock(s: Snapshot)
    ensures forall lo: nat, hi: nat, v :: WordInto(s, lo, hi, v) ==> v in s.allocations
  {
  }

  lemma EdgeIsWord(s: Snapshot, u: Address, v: Address)
    requires WellFormed(s.allocations) && HeadersFit(s.allocations)
    ensures PointsTo(s.allocations, s.weak.memory, u, v) <==>
              u in s.allocations && v in s.allocations && WordInto(s, u, s.allocations[u].payloadEnd, v)
  {
    hide WellFormed, HeadersFit, PointsTo, WordInto;
    if PointsTo(s.allocations, s.weak.memory, u, v) {
      PointsWordInto(s, u, v);
    } else if u in s.allocations && v in s.allocations && WordInto(s, u, s.allocations[u].payloadEnd, v) {
      WordIntoPoints(s, u, v);
    }
  }

  lemma ReachedLeast(allocations: Allocations, mem: Memory, roots: seq<Word>, kept: set<Address>)
    requires WellFormed(allocations) && Closed(allocations, mem, roots, kept)
    ensures Reached(allocations, mem, roots) <= kept
  {
    hide WellFormed;
    forall v | v in Reached(allocations, mem, roots)
      ensures v in kept
    {
      var p :| Chain(allocations, mem, roots, p) && p[|p| - 1] == v;
      ChainStaysInside(allocations, mem, roots, kept, p);
    }
  }

  // The blocks that stay, and no others, are complete: every complete set contains them.
  lemma LeastSurvivors(s: Snapshot, s': Snapshot, stack: seq<Word>, report: Report, kept: set<Address>)
    requires ValidState(s) && Collected(s, s', stack, report)
    ensures Complete(s, stack, s'.allocations.Keys)
    ensures Complete(s, stack, kept) ==> s'.allocations.Keys <= kept
    ensures forall a :: a in s'.allocations ==> a in s.allocations && s'.allocations[a] == s.allocations[a]
  {
    hide *;
    ValidParts(s);
    CollectedParts(s, s', stack, report);
    SurvivorsAreReached(s, stack);
    ReachedInHeap(s, stack);
    SurvivorKeys(s.allocations, s'.allocations, Survivors(s, stack));
    ReachedIsClosed(s.allocations, s.weak.memory, RootWords(s, stack));
    CompleteIsClosed(s, stack, Survivors(s, stack));
    CompleteIsClosed(s, stack, kept);
    if Complete(s, stack, kept) {
      ReachedLeast(s.allocations, s.weak.memory, RootWords(s, stack), kept);
    }
  }

  // So a block that stays, and is none to start from, is addressed by a word of another one
  // that stays.
  lemma SurvivorHasReason(s: Snapshot, s': Snapshot, stack: seq<Word>, report: Report, v: Address)
    requires ValidState(s) && Collected(s, s', stack, report) && v in s'.allocations && !StartsAt(s, stack, v)
    ensures exists u :: u in s'.allocations && u != v && u in s.allocations &&
                        WordInto(s, u, s.allocations[u].payloadEnd, v)
  {
    hide *;
    LeastSurvivors(s, s', stack, report, s'.allocations.Keys - {v});
    if forall u :: u in s'.allocations && u != v && u in s.allocations ==>
         !WordInto(s, u, s.allocations[u].payloadEnd, v)
    {
      WithoutOne(s, stack, s'.allocations.Keys, v);
    }
  }

  lemma WithoutOne(s: Snapshot, stack: seq<Word>, kept: set<Address>, v: Address)
    requires Complete(s, stack, kept) && !StartsAt(s, stack, v)
    requires forall u :: u in kept && u != v && u in s.allocations ==>
               !WordInto(s, u, s.allocations[u].payloadEnd, v)
    ensures Complete(s, stack, kept - {v})
  {
    hide StartsAt, WordInto;
  }

  // Nothing that stays, and no root word, addresses a byte of what goes.
  lemma NoWordIntoTheDead(s: Snapshot, s': Snapshot, stack: seq<Word>, report: Report, u: Address, dead: Address)
    requires ValidState(s) && Collected(s, s', stack, report)
    requires dead in s.allocations && dead !in s'.allocations
    ensures !StartsAt(s, stack, dead)
    ensures u in s'.allocations && u in s.allocations ==> !WordInto(s, u, s.allocations[u].payloadEnd, dead)
  {
    LeastSurvivors(s, s', stack, report, {});
    hide ValidState, Collected, StartsAt, WordInto;
  }

  lemma SurvivorKeys(heap: Allocations, heap': Allocations, kept: set<Address>)
    requires heap' == heap - (heap.Keys - kept) && kept <= heap.Keys
    ensures heap'.Keys == kept && forall a :: a in heap' ==> a in heap && heap'[a] == heap[a]
  {
  }

  // --- What changes besides ---

  // The batch lists the headers of the blocks that go, each once.
  lemma BatchIsDead(s: Snapshot, s': Snapshot, stack: seq<Word>, report: Report)
    requires ValidState(s) && Collected(s, s', stack, report)
    ensures forall i, j :: 0 <= i < j < |report.batch| ==> report.batch[i] != report.batch[j]
    ensures forall h :: h in report.batch <==>
                        exists a :: a in s.allocations && a !in s'.allocations && s.allocations[a].header == h
    ensures |report.batch| + |s'.allocations| == |s.allocations|
  {
    hide *;
    ValidParts(s);
    ValidIsMarkable(s);
    CollectedParts(s, s', stack, report);
    ReachedInHeap(s, stack);
    ghost var kept := Survivors(s, stack);
    BatchCovers(s.allocations, Restrict(s.allocations, s.allocations.Keys - kept), s.weak.memory, report);
    DeadHeaders(s.allocations, s'.allocations, kept);
    BatchSize(Restrict(s.allocations, s.allocations.Keys - kept), s.weak.memory, report);
    SizesAddUp(s.allocations, s'.allocations, kept);
  }

  lemma DeadHeaders(heap: Allocations, heap': Allocations, kept: set<Address>)
    requires heap' == heap - (heap.Keys - kept)
    ensures forall h :: h in HeadersOf(Restrict(heap, heap.Keys - kept)) <==>
                        exists a :: a in heap && a !in heap' && heap[a].header == h
  {
    var dead := Restrict(heap, heap.Keys - kept);
    forall a | a in heap && a !in heap'
      ensures a in dead && dead[a] == heap[a]
    {
    }
  }

  lemma BatchSize(dead: Allocations, mem: Memory, report: Report)
    requires InOrder(report.records, dead) && OrderedBy(report.records, mem, report.batch, report.g, report.out)
    ensures |report.batch| == |dead|
  {
    OrderIsPermutation(report.g, report.out);
    hide Ordered, Represents, Greedy, Exhausted, Residue;
  }

  lemma SizesAddUp(heap: Allocations, heap': Allocations, kept: set<Address>)
    requires heap' == heap - (heap.Keys - kept) && kept <= heap.Keys
    ensures |Restrict(heap, heap.Keys - kept)| + |heap'| == |heap|
  {
    var dead := Restrict(heap, heap.Keys - kept);
    assert dead.Keys == heap.Keys - kept && heap'.Keys == kept;
    assert |dead| == |dead.Keys| && |heap'| == |heap'.Keys| && |heap| == |heap.Keys|;
    assert heap.Keys == dead.Keys + heap'.Keys;
  }

  // Every block that goes is freed, after its destructor if it has one; nothing else is.
  lemma LoggedExactly(s: Snapshot, s': Snapshot, stack: seq<Word>, report: Report, e: Event)
    requires ValidState(s) && Collected(s, s', stack, report)
    ensures s.log <= s'.log
    ensures e in s'.log[|s.log|..] <==>
              (e.Freed? || e.header.destructor.Some?) &&
              exists a :: a in s.allocations && a !in s'.allocations && s.allocations[a].header == e.header
  {
    hide *;
    ValidParts(s);
    BatchIsDead(s, s', stack, report);
    CollectedParts(s, s', stack, report);
    LogTail(s.log, Finalizations(report.batch), Frees(report.batch));
    EventsOf(report.batch, e);
  }

  lemma LogTail(log: seq<Event>, a: seq<Event>, b: seq<Event>)
    ensures log <= log + a + b && (log + a + b)[|log|..] == a + b
  {
  }

  lemma {:induction false} EventsOf(batch: seq<ChunkHeader>, e: Event)
    ensures e in Finalizations(batch) + Frees(batch) <==> (e.Freed? || e.header.destructor.Some?) && e.header in batch
    decreases |batch|
  {
    if batch != [] {
      var n := |batch| - 1;
      EventsOf(batch[..n], e);
      assert batch == batch[..n] + [batch[n]];
    }
  }

  // The counters after a collection.
  lemma CollectionCounted(s: Snapshot, s': Snapshot, stack: seq<Word>, report: Report)
    requires ValidState(s) && Collected(s, s', stack, report)
    ensures s'.managedBytes <= s.managedBytes
    ensures s'.stats.bytesReclaimedLast == s.managedBytes - s'.managedBytes
    ensures s'.stats.blocksReclaimedLast == |s.allocations| - |s'.allocations|
    ensures s'.stats.totalCollections == (s.stats.totalCollections + 1) % 0x1_0000_0000_0000_0000
    ensures s'.stats.bytesReclaimedTotal ==
              (s.stats.bytesReclaimedTotal + s'.stats.bytesReclaimedLast) % 0x1_0000_0000_0000_0000
    ensures s'.stats.totalAllocations == s.stats.totalAllocations
    ensures s'.stats.bytesAllocatedTotal == s.stats.bytesAllocatedTotal
    ensures s'.stats.peakLiveBytes == s.stats.peakLiveBytes && s'.stats.peakLiveBlocks == s.stats.peakLiveBlocks
    ensures s'.threshold == s.threshold && s'.collecting == s.collecting
    ensures s'.registered == s.registered && s'.released == s.released && s'.pending == {}
  {
    hide *;
    CollectedRest(s, s', stack, report);
    DeadCount(s, s', stack, report);
    CollectedStats(s, s', stack, report);
    StatsCounted(s.stats, s.managedBytes - s'.managedBytes, |report.batch|);
  }

  lemma DeadCount(s: Snapshot, s': Snapshot, stack: seq<Word>, report: Report)
    requires ValidState(s) && Collected(s, s', stack, report)
    ensures |s'.allocations| <= |s.allocations| && |report.batch| == |s.allocations| - |s'.allocations|
  {
    hide *;
    BatchIsDead(s, s', stack, report);
  }

  lemma CollectedRest(s: Snapshot, s': Snapshot, stack: seq<Word>, report: Report)
    requires ValidState(s) && Collected(s, s', stack, report)
    ensures s'.threshold == s.threshold && s'.collecting == s.collecting
    ensures s'.registered == s.registered && s'.released == s.released && s'.pending == {}
  {
    hide *;
    ValidParts(s);
    CollectedParts(s, s', stack, report);
  }

  lemma CollectedStats(s: Snapshot, s': Snapshot, stack: seq<Word>, report: Report)
    requires Collected(s, s', stack, report)
    ensures s'.managedBytes <= s.managedBytes
    ensures s'.stats == StatsAfter(s.stats, s.managedBytes - s'.managedBytes, |report.batch|)
  {
    hide Reached, RangeWords, CollectedFrom, Total, Expire, RunFinalizers, RangesAfterBatch, HeadersOf, Finalizations,
         Frees, WellFormed, LedgerAfter, StatsAfter;
  }

  lemma StatsCounted(stats: GCStats, bytes: Word, blocks: nat)
    ensures
      var stats' := StatsAfter(stats, bytes, blocks);
      && stats'.bytesReclaimedLast == bytes && stats'.blocksReclaimedLast == blocks
      && stats'.totalCollections == (stats.totalCollections + 1) % 0x1_0000_0000_0000_0000
      && stats'.bytesReclaimedTotal == (stats.bytesReclaimedTotal + bytes) % 0x1_0000_0000_0000_0000
      && stats'.totalAllocations == stats.totalAllocations && stats'.bytesAllocatedTotal == stats.bytesAllocatedTotal
      && stats'.peakLiveBytes == stats.peakLiveBytes && stats'.peakLiveBlocks == stats.peakLiveBlocks
  {
  }

  // The state before the finalizers, and the acts that lead from there to the end.
  lemma BatchActs(s: Snapshot, s': Snapshot, stack: seq<Word>, report: Report)
    returns (acts: seq<Act>, cuts: seq<nat>, dead: set<Address>)
    requires ValidState(s) && Collected(s, s', stack, report)
    ensures ActsOf(report.batch, acts, cuts)
    ensures dead == s.allocations.Keys - s'.allocations.Keys
    ensures s'.weak == RunActs(Expire(s.weak, s.allocations, dead), acts)
    ensures s'.rootRanges == RangesAfterActs(s.rootRanges, acts)
  {
    hide *;
    ValidParts(s);
    CollectedParts(s, s', stack, report);
    ReachedInHeap(s, stack);
    SurvivorKeys(s.allocations, s'.allocations, Survivors(s, stack));
    dead := s.allocations.Keys - Survivors(s, stack);
    acts, cuts := FinalizersAreActs(Expire(s.weak, s.allocations, dead), s.rootRanges, report.batch);
  }

  // Which handles and entries stay: a handle, unless a finalizer destroys it while no operation
  // works on it; its entry, unless its target's block goes as well.
  lemma HandlesAftermath(s: Snapshot, s': Snapshot, stack: seq<Word>, report: Report, h: Address)
    returns (acts: seq<Act>, cuts: seq<nat>)
    requires ValidState(s) && ValidState(s') && Collected(s, s', stack, report)
    ensures ActsOf(report.batch, acts, cuts) && s'.weak.busy == s.weak.busy && s'.weak.guarded == s.weak.guarded
    ensures h in s'.weak.handles <==> h in s.weak.handles && (h in s.weak.busy || DropWeak(h) !in acts)
    ensures h in s'.weak.targets <==>
              h in s.weak.targets && h in s'.weak.handles &&
              exists b :: b in s'.allocations && b <= s.weak.targets[h] < s'.allocations[b].payloadEnd
    ensures h in s'.weak.targets ==> s'.weak.targets[h] == s.weak.targets[h]
  {
    ghost var dead;
    hide *;
    acts, cuts, dead := BatchActs(s, s', stack, report);
    ValidParts(s);
    ValidParts(s');
    ExpiredHandles(s.weak, s.allocations, dead);
    HandlesAfter(Expire(s.weak, s.allocations, dead), acts);
    if h in s.weak.targets {
      ExpiryExact(s, s', stack, report, h);
      LiveByBytes(s'.allocations, s.weak.targets[h]);
    }
  }

  lemma ExpiredHandles(w: WeakState, allocations: Allocations, dead: set<Address>)
    requires Consistent(w, allocations)
    ensures
      var w' := Expire(w, allocations, dead);
      && w'.handles == w.handles && w'.busy == w.busy && w'.guarded == w.guarded && w'.targets.Keys <= w.targets.Keys
      && forall h :: h in w'.targets ==> h in w'.handles
  {
  }

  lemma LiveByBytes(allocations: Allocations, a: Address)
    requires WellFormed(allocations)
    ensures Live(allocations, a) <==> exists b :: b in allocations && b <= a < allocations[b].payloadEnd
  {
    if b :| b in allocations && b <= a < allocations[b].payloadEnd {
      assert Owns(allocations, b, a);
    }
    if Live(allocations, a) {
      var b: Address :| Owns(allocations, b, a);
      assert b in allocations && b <= a < allocations[b].payloadEnd;
    }
  }

  // What words hold: those of handles that stay are zero if they lost their entry and unwritten
  // otherwise; counts of arrays under construction are unwritten; any other word holds what a
  // finalizer wrote last, if any did.
  lemma WordsAftermath(s: Snapshot, s': Snapshot, stack: seq<Word>, report: Report, a: Address)
    returns (acts: seq<Act>, cuts: seq<nat>)
    requires ValidState(s) && ValidState(s') && Collected(s, s', stack, report)
    ensures ActsOf(report.batch, acts, cuts)
    ensures a in s'.weak.handles && a in s.weak.targets && a !in s'.weak.targets ==> Load(s'.weak.memory, a) == 0
    ensures (a in s'.weak.handles && (a in s.weak.targets ==> a in s'.weak.targets)) || a in s.weak.guarded ==>
              Load(s'.weak.memory, a) == Load(s.weak.memory, a)
    ensures a !in s.weak.handles && a !in s.weak.guarded ==>
              && (forall i, v :: LastWrite(acts, i, a, v) ==> Load(s'.weak.memory, a) == v)
              && (Unwritten(acts, a) ==> Load(s'.weak.memory, a) == Load(s.weak.memory, a))
  {
    ghost var dead;
    hide *;
    acts, cuts, dead := BatchActs(s, s', stack, report);
    ghost var w := Expire(s.weak, s.allocations, dead);
    ValidParts(s);
    ExpiredHandles(s.weak, s.allocations, dead);
    ExpiredWord(s.weak, s.allocations, dead, a);
    if a in s'.weak.handles || a in s.weak.guarded {
      PrivateWordAfter(w, acts, a);
      HandlesAfter(w, acts);
    }
    if a !in s.weak.handles && a !in s.weak.guarded {
      WordAfter(w, acts, a);
    }
  }

  lemma ExpiredWord(w: WeakState, allocations: Allocations, dead: set<Address>, a: Address)
    requires Consistent(w, allocations)
    ensures
      var w' := Expire(w, allocations, dead);
      && (a in w.targets && a !in w'.targets ==> Load(w'.memory, a) == 0)
      && (a !in w.targets || a in w'.targets ==> Load(w'.memory, a) == Load(w.memory, a))
      && (a in w.guarded ==> Load(w'.memory, a) == Load(w.memory, a))
  {
    ExpireLoad(w, allocations, dead, a);
  }

  // How often a range is registered: once less for each finalizer act that unregisters it.
  lemma RangesAftermath(s: Snapshot, s': Snapshot, stack: seq<Word>, report: Report, r: RootRange)
    returns (acts: seq<Act>, cuts: seq<nat>)
    requires ValidState(s) && Collected(s, s', stack, report)
    ensures ActsOf(report.batch, acts, cuts)
    ensures
      var dropped, had := |set i | 0 <= i < |acts| && Drops(acts[i], r)|, multiset(s.rootRanges)[r];
      multiset(s'.rootRanges)[r] == if dropped <= had then had - dropped else 0
  {
    ghost var dead;
    acts, cuts, dead := BatchActs(s, s', stack, report);
    hide *;
    RangesAfter(s.rootRanges, acts, r);
  }
}
