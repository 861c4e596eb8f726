/**
What a completed collection guarantees, whatever the heap was: exactly the reachable blocks
remain, nothing dangles, an immediate second collection finds nothing, and finalizers run
before the blocks they refer to are finalized or freed.
 */
module CollectionTheorems {
  import opened Wrappers
  import opened Words
  import opened ChunkHeaders
  import opened Blocks
  import opened Reachability
  import opened FinalizationOrder
  import opened WeakRegistry
  import opened Accounting
  import opened Lifecycle
  import opened Marking
  import opened Sweeping
  import opened HeapState
  import opened Mutation
  import opened RootScanner

  // Every word a collection starts from: stacks and registers, then the registered ranges.
  ghost function RootWords(s: Snapshot, stack: seq<Word>): seq<Word> {
    stack + RangeWords(s.rootRanges, s.weak.memory)
  }

  lemma SurvivorsAreReached(s: Snapshot, stack: seq<Word>)
    requires WellFormed(s.allocations)
    ensures Survivors(s, stack) == Reached(s.allocations, s.weak.memory, RootWords(s, stack))
  {
  }

  // A block survives if and only if a chain of payload words reaches it from a root word or
  // from a block under construction.
  lemma KeepsExactlyTheReachable(s: Snapshot, s': Snapshot, stack: seq<Word>, report: Report, a: Address)
    requires WellFormed(s.allocations) && Collected(s, s', stack, report) && a in s.allocations
    ensures a in s'.allocations <==> Reachable(s.allocations, s.weak.memory, RootWords(s, stack), a)
    ensures a in s'.allocations ==> s'.allocations[a] == s.allocations[a]
  {
    hide Collected, Reachable, InOrder, OrderedBy, Expire, RunFinalizers, Finalizations, Frees, RangeWords, WellFormed;
    CollectedParts(s, s', stack, report);
  }

  // No root word, and no word of a surviving payload, addresses a byte of a reclaimed block.
  lemma NothingDangles(s: Snapshot, s': Snapshot, stack: seq<Word>, report: Report, dead: Address)
    requires WellFormed(s.allocations) && Collected(s, s', stack, report)
    requires dead in s.allocations && dead !in s'.allocations
    ensures forall w :: w in RootWords(s, stack) ==> !Contains(s.allocations[dead], w)
    ensures forall u, k: nat :: u in s'.allocations && u in s.allocations && k < PayloadWords(s.allocations[u]) ==>
              !Contains(s.allocations[dead], PayloadWord(s.weak.memory, s.allocations[u], k))
  {
    hide Collected, Reached, InOrder, OrderedBy, Expire, RunFinalizers, Finalizations, Frees, RangeWords;
    CollectedParts(s, s', stack, report);
    SurvivorsAreReached(s, stack);
    SurvivorsDoNotDangle(s.allocations, s.weak.memory, RootWords(s, stack), dead);
  }

  // --- Roots ---

  lemma {:induction false} RangeWordListed(ranges: seq<RootRange>, mem: Memory, range: RootRange, a: Address)
    requires range in ranges && a in Visited(range.begin, range.end)
    ensures Load(mem, a) in RangeWords(ranges, mem)
    decreases |ranges|
  {
    var n := |ranges| - 1;
    if range == ranges[n] {
      var addresses := Visited(range.begin, range.end);
      var i :| 0 <= i < |addresses| && addresses[i] == a;
      assert LoadAll(mem, addresses)[i] == Load(mem, a);
    } else {
      RangeWordListed(ranges[..n], mem, range, a);
    }
  }

  // A published gc_root keeps its object: the storage is one aligned word that the scan of
  // its range visits, and what the word addresses survives.
  lemma RootObjectKeepsTarget(
      s: Snapshot, s': Snapshot, stack: seq<Word>, report: Report, slot: Address, a: Address)
    requires WellFormed(s.allocations) && Collected(s, s', stack, report)
    requires slot > 0 && slot % WORD_SIZE == 0 && slot + WORD_SIZE <= WORD_MAX
    requires RootRange(slot, slot + WORD_SIZE) in s.rootRanges
    requires a in s.allocations && Contains(s.allocations[a], Load(s.weak.memory, slot))
    ensures a in s'.allocations && s'.allocations[a] == s.allocations[a]
  {
    SlotVisited(slot);
    hide *;
    RangeWordListed(s.rootRanges, s.weak.memory, RootRange(slot, slot + WORD_SIZE), slot);
    AddressedIsReachable(s, stack, Load(s.weak.memory, slot), a);
    KeepsExactlyTheReachable(s, s', stack, report, a);
  }

  lemma SlotVisited(slot: Address)
    requires slot > 0 && slot % WORD_SIZE == 0 && slot + WORD_SIZE <= WORD_MAX
    ensures slot in Visited(slot, slot + WORD_SIZE)
  {
    VisitedExact(slot, slot + WORD_SIZE);
    hide Visited;
  }

  lemma AddressedIsReachable(s: Snapshot, stack: seq<Word>, w: Word, a: Address)
    requires WellFormed(s.allocations) && w in RangeWords(s.rootRanges, s.weak.memory)
    requires a in s.allocations && Contains(s.allocations[a], w)
    ensures Reachable(s.allocations, s.weak.memory, RootWords(s, stack), a)
  {
    hide RangeWords, Reachable, WellFormed;
    assert IsRoot(s.allocations, RootWords(s, stack), a);
    RootIsReachable(s.allocations, s.weak.memory, RootWords(s, stack), a);
  }

  // --- A second collection ---

  predicate WritesNothing(acts: seq<Act>) {
    forall act :: act in acts ==> !act.Store?
  }

  predicate DropsNothing(acts: seq<Act>) {
    forall act :: act in acts ==> !act.DropRange?
  }

  // No finalizer of the batch writes a word.
  predicate NoStores(batch: seq<ChunkHeader>) {
    forall h :: h in batch && h.destructor.Some? ==> WritesNothing(h.destructor.value)
  }

  // Nor unregisters a root range.
  predicate Quiet(batch: seq<ChunkHeader>) {
    NoStores(batch) && forall h :: h in batch && h.destructor.Some? ==> DropsNothing(h.destructor.value)
  }

  lemma {:induction false} ActsKeepMemory(w: WeakState, acts: seq<Act>)
    requires WritesNothing(acts)
    ensures RunActs(w, acts).memory == w.memory
    decreases |acts|
  {
    if acts != [] {
      var n := |acts| - 1;
      assert acts[n] in acts;
      ActsKeepMemory(w, acts[..n]);
    }
  }

  lemma {:induction false} ActsKeepRanges(ranges: seq<RootRange>, acts: seq<Act>)
    requires DropsNothing(acts)
    ensures RangesAfterActs(ranges, acts) == ranges
    decreases |acts|
  {
    if acts != [] {
      var n := |acts| - 1;
      assert acts[n] in acts;
      ActsKeepRanges(ranges, acts[..n]);
    }
  }

  lemma {:induction false} FinalizersKeepMemory(w: WeakState, batch: seq<ChunkHeader>)
    requires NoStores(batch)
    ensures RunFinalizers(w, batch).memory == w.memory
    decreases |batch|
  {
    if batch != [] {
      var n := |batch| - 1;
      assert batch[n] in batch;
      FinalizersKeepMemory(w, batch[..n]);
      if batch[n].destructor.Some? {
        ActsKeepMemory(RunFinalizers(w, batch[..n]), batch[n].destructor.value);
      }
    }
  }

  lemma {:induction false} FinalizersKeepRanges(ranges: seq<RootRange>, batch: seq<ChunkHeader>)
    requires Quiet(batch)
    ensures RangesAfterBatch(ranges, batch) == ranges
    decreases |batch|
  {
    if batch != [] {
      var n := |batch| - 1;
      assert batch[n] in batch;
      FinalizersKeepRanges(ranges, batch[..n]);
      if batch[n].destructor.Some? {
        ActsKeepRanges(ranges, batch[n].destructor.value);
      }
    }
  }

  // The words of the registered ranges change only where memory does.
  lemma {:induction false} RangeWordsZeroed(ranges: seq<RootRange>, mem: Memory, mem': Memory)
    requires HighWordsZeroed(mem, mem')
    ensures HighRootsZeroed(RangeWords(ranges, mem), RangeWords(ranges, mem'))
    decreases |ranges|
  {
    if ranges != [] {
      var n := |ranges| - 1;
      RangeWordsZeroed(ranges[..n], mem, mem');
      LoadsZeroed(Visited(ranges[n].begin, ranges[n].end), mem, mem');
      JoinZeroed(RangeWords(ranges[..n], mem), RangeWords(ranges[..n], mem'),
                 LoadAll(mem, Visited(ranges[n].begin, ranges[n].end)),
                 LoadAll(mem', Visited(ranges[n].begin, ranges[n].end)));
    }
  }

  lemma LoadsZeroed(addresses: seq<Address>, mem: Memory, mem': Memory)
    requires HighWordsZeroed(mem, mem')
    ensures HighRootsZeroed(LoadAll(mem, addresses), LoadAll(mem', addresses))
  {
    forall i | 0 <= i < |addresses|
      ensures
        var before, after := LoadAll(mem, addresses)[i], LoadAll(mem', addresses)[i];
        after == before || (after == 0 && before >= PAYLOAD_LIMIT)
    {
      var a: Address := addresses[i];
      assert Load(mem', a) == Load(mem, a) || (Load(mem', a) == 0 && Load(mem, a) >= PAYLOAD_LIMIT);
    }
  }

  lemma JoinZeroed(a: seq<Word>, a': seq<Word>, b: seq<Word>, b': seq<Word>)
    requires HighRootsZeroed(a, a') && HighRootsZeroed(b, b')
    ensures HighRootsZeroed(a + b, a' + b')
  {
  }

  // A collection whose finalizers write no word only zeroes words that no payload address
  // equals.
  lemma OnlyHighWordsZeroed(s: Snapshot, s1: Snapshot, stack: seq<Word>, report: Report)
    requires ValidState(s) && WellFormed(s.allocations) && Collected(s, s1, stack, report) && NoStores(report.batch)
    ensures HighWordsZeroed(s.weak.memory, s1.weak.memory)
  {
    hide *;
    ValidParts(s);
    CollectedParts(s, s1, stack, report);
    ghost var dead := s.allocations.Keys - Survivors(s, stack);
    FinalizersKeepMemory(Expire(s.weak, s.allocations, dead), report.batch);
    ExpireZeroesHighWords(s.weak, s.allocations, dead);
  }

  lemma RangesStay(s: Snapshot, s1: Snapshot, stack: seq<Word>, report: Report)
    requires WellFormed(s.allocations) && Collected(s, s1, stack, report) && Quiet(report.batch)
    ensures s1.rootRanges == s.rootRanges && NoStores(report.batch)
  {
    hide Collected, Survivors, InOrder, OrderedBy, Expire, RunFinalizers, Finalizations, Frees, WellFormed,
         WritesNothing, DropsNothing, RangesAfterBatch;
    CollectedParts(s, s1, stack, report);
    FinalizersKeepRanges(s.rootRanges, report.batch);
  }

  lemma RootWordsZeroed(s: Snapshot, s1: Snapshot, stack: seq<Word>)
    requires HighWordsZeroed(s.weak.memory, s1.weak.memory) && s1.rootRanges == s.rootRanges
    ensures HighRootsZeroed(RootWords(s, stack), RootWords(s1, stack))
  {
    hide HighWordsZeroed, HighRootsZeroed, RangeWords;
    RangeWordsZeroed(s.rootRanges, s.weak.memory, s1.weak.memory);
    SameWords(stack);
    JoinZeroed(stack, stack, RangeWords(s.rootRanges, s.weak.memory), RangeWords(s.rootRanges, s1.weak.memory));
  }

  lemma KeptBlocks(s: Snapshot, kept: set<Address>)
    ensures s.allocations - (s.allocations.Keys - kept) == Restrict(s.allocations, kept)
    ensures kept <= s.allocations.Keys ==> Restrict(s.allocations, kept).Keys == kept
  {
  }

  // After a collection whose finalizers wrote nothing, the same roots reach what they reached.
  lemma ReachedAfterCollection(s: Snapshot, s1: Snapshot, stack: seq<Word>, report: Report)
    requires ValidState(s) && WellFormed(s.allocations) && WellFormed(s1.allocations)
    requires Collected(s, s1, stack, report) && Quiet(report.batch)
    ensures Survivors(s1, stack) == s1.allocations.Keys
  {
    var kept := Survivors(s, stack);
    ReachedInHeap(s, stack);
    hide *;
    RangesStay(s, s1, stack, report);
    OnlyHighWordsZeroed(s, s1, stack, report);
    RootWordsZeroed(s, s1, stack);
    CollectedParts(s, s1, stack, report);
    KeptBlocks(s, kept);
    SurvivorsAreReached(s, stack);
    SurvivorsAreReached(s1, stack);
    ReachedAgain(s.allocations, s.weak.memory, RootWords(s, stack), s1.weak.memory, RootWords(s1, stack), kept);
  }

  lemma SameWords(words: seq<Word>)
    ensures HighRootsZeroed(words, words)
  {
  }

  lemma ReachedInHeap(s: Snapshot, stack: seq<Word>)
    requires WellFormed(s.allocations)
    ensures Survivors(s, stack) <= s.allocations.Keys
  {
  }

  lemma EmptyList(records: seq<BlockRecord>, heap: Allocations)
    requires InOrder(records, heap) && heap == map[]
    ensures records == []
  {
  }

  lemma EmptyBatch(report: Report, mem: Memory)
    requires OrderedBy(report.records, mem, report.batch, report.g, report.out) && report.records == []
    ensures report.batch == []
  {
    OrderIsPermutation(report.g, report.out);
  }

  // An immediate second collection with unchanged roots reclaims nothing.
  lemma SecondCollectionReclaimsNothing(
      s: Snapshot, s1: Snapshot, s2: Snapshot, stack: seq<Word>, report1: Report, report2: Report)
    requires ValidState(s) && ValidState(s1)
    requires Collected(s, s1, stack, report1) && Quiet(report1.batch) && Collected(s1, s2, stack, report2)
    ensures s2.allocations == s1.allocations && report2.batch == [] && s2.log == s1.log
    ensures s2.weak == s1.weak
  {
    hide *;
    ValidParts(s);
    ValidParts(s1);
    ReachedAfterCollection(s, s1, stack, report1);
    CollectedParts(s1, s2, stack, report2);
    NothingDead(s1, s2, report2);
  }

  lemma NothingDead(s1: Snapshot, s2: Snapshot, report: Report)
    requires
      var dead := s1.allocations.Keys - s1.allocations.Keys;
      && s2.allocations == s1.allocations - dead
      && s2.weak == RunFinalizers(Expire(s1.weak, s1.allocations, dead), report.batch)
      && s2.log == s1.log + Finalizations(report.batch) + Frees(report.batch)
      && InOrder(report.records, Restrict(s1.allocations, dead))
      && OrderedBy(report.records, s1.weak.memory, report.batch, report.g, report.out)
    ensures s2.allocations == s1.allocations && report.batch == [] && s2.log == s1.log && s2.weak == s1.weak
  {
    hide InOrder, OrderedBy, Expire;
    var dead := s1.allocations.Keys - s1.allocations.Keys;
    assert dead == {};
    EmptyList(report.records, Restrict(s1.allocations, dead));
    EmptyBatch(report, s1.weak.memory);
    ExpireNothing(s1.weak, s1.allocations);
    assert s1.log + [] == s1.log;
  }

  // If no finalizer wrote a word, nothing dangles afterwards either.
  lemma NothingDanglesAfterwards(s: Snapshot, s': Snapshot, stack: seq<Word>, report: Report, dead: Address)
    requires ValidState(s) && WellFormed(s.allocations) && Collected(s, s', stack, report) && NoStores(report.batch)
    requires dead in s.allocations && dead !in s'.allocations
    ensures forall w :: w in RootWords(s', stack) ==> !Contains(s.allocations[dead], w)
    ensures forall u, k: nat :: u in s'.allocations && u in s.allocations && k < PayloadWords(s.allocations[u]) ==>
              !Contains(s.allocations[dead], PayloadWord(s'.weak.memory, s.allocations[u], k))
  {
    hide ValidState, Collected, RangeWords, NoStores, RootWords, HandleKept, Survived;
    NothingDangles(s, s', stack, report, dead);
    OnlyHighWordsZeroed(s, s', stack, report);
    RangesOnlyDropped(s, s', stack, report);
    forall w | w in RootWords(s', stack)
      ensures !Contains(s.allocations[dead], w)
    {
      RootWordTraced(s, s', stack, w);
    }
    forall u, k: nat | u in s'.allocations && u in s.allocations && k < PayloadWords(s.allocations[u])
      ensures !Contains(s.allocations[dead], PayloadWord(s'.weak.memory, s.allocations[u], k))
    {
      assert !Contains(s.allocations[dead], PayloadWord(s.weak.memory, s.allocations[u], k));
      var a: Address := s.allocations[u].payloadBegin + WORD_SIZE * k;
      assert Load(s'.weak.memory, a) == Load(s.weak.memory, a) || Load(s'.weak.memory, a) == 0;
    }
  }

  lemma RangesOnlyDropped(s: Snapshot, s': Snapshot, stack: seq<Word>, report: Report)
    requires ValidState(s) && Collected(s, s', stack, report)
    ensures multiset(s'.rootRanges) <= multiset(s.rootRanges)
  {
    hide Collected, HandleKept, WellFormed, HeadersFit, Consistent, Balanced, Lives;
    CollectedSurvives(s, s', stack, report);
  }

  lemma {:induction false} RangeWordSource(ranges: seq<RootRange>, mem: Memory, w: Word)
    returns (range: RootRange, a: Address)
    requires w in RangeWords(ranges, mem)
    ensures range in ranges && a in Visited(range.begin, range.end) && Load(mem, a) == w
    decreases |ranges|
  {
    var n := |ranges| - 1;
    if w in RangeWords(ranges[..n], mem) {
      range, a := RangeWordSource(ranges[..n], mem, w);
    } else {
      range := ranges[n];
      var addresses := Visited(range.begin, range.end);
      var i :| 0 <= i < |addresses| && LoadAll(mem, addresses)[i] == w;
      a := addresses[i];
    }
  }

  // A root word afterwards was a root word before, or is zero.
  lemma RootWordTraced(s: Snapshot, s': Snapshot, stack: seq<Word>, w: Word)
    requires HighWordsZeroed(s.weak.memory, s'.weak.memory) && multiset(s'.rootRanges) <= multiset(s.rootRanges)
    requires w in RootWords(s', stack)
    ensures w == 0 || w in RootWords(s, stack)
  {
    hide RangeWords, Visited;
    if w !in stack {
      var range, a := RangeWordSource(s'.rootRanges, s'.weak.memory, w);
      assert range in multiset(s'.rootRanges);
      assert range in s.rootRanges;
      RangeWordListed(s.rootRanges, s.weak.memory, range, a);
    }
  }

  // --- Weak handles ---

  // Finalizers drop an entry only together with its handle.
  ghost predicate EntryFollowsHandle(w: WeakState, w': WeakState, h: Address) {
    && (h in w'.targets ==> h in w.targets && w'.targets[h] == w.targets[h])
    && (h in w.targets && h in w'.handles ==> h in w'.targets)
  }

  lemma {:induction false} ActsDropEntries(w: WeakState, acts: seq<Act>, h: Address)
    requires h in w.handles
    ensures EntryFollowsHandle(w, RunActs(w, acts), h) && RunActs(w, acts).handles <= w.handles
    decreases |acts|
  {
    if acts != [] {
      ActsDropEntries(w, acts[..|acts| - 1], h);
    }
  }

  lemma {:induction false} FinalizersDropEntries(w: WeakState, batch: seq<ChunkHeader>, h: Address)
    requires h in w.handles
    ensures EntryFollowsHandle(w, RunFinalizers(w, batch), h) && RunFinalizers(w, batch).handles <= w.handles
    decreases |batch|
  {
    if batch != [] {
      var before := RunFinalizers(w, batch[..|batch| - 1]);
      FinalizersDropEntries(w, batch[..|batch| - 1], h);
      var last := batch[|batch| - 1].destructor;
      if last.Some? && h in before.handles {
        ActsDropEntries(before, last.value, h);
      } else if last.Some? {
        NoEntryLater(before, last.value, h);
      }
    }
  }

  lemma {:induction false} NoEntryLater(w: WeakState, acts: seq<Act>, h: Address)
    ensures h in RunActs(w, acts).targets ==> h in w.targets && RunActs(w, acts).targets[h] == w.targets[h]
    ensures RunActs(w, acts).handles <= w.handles
    decreases |acts|
  {
    if acts != [] {
      NoEntryLater(w, acts[..|acts| - 1], h);
    }
  }

  // A collection drops the entry of a handle exactly if the target's block is reclaimed or a
  // finalizer destroyed the handle, and never changes the target of an entry.
  lemma ExpiryExact(s: Snapshot, s': Snapshot, stack: seq<Word>, report: Report, h: Address)
    requires ValidState(s) && ValidState(s') && Collected(s, s', stack, report) && h in s.weak.targets
    ensures h in s'.weak.targets <==> Live(s'.allocations, s.weak.targets[h]) && h in s'.weak.handles
    ensures h in s'.weak.targets ==> s'.weak.targets[h] == s.weak.targets[h]
  {
    hide *;
    ValidParts(s);
    ValidParts(s');
    ListedHandle(s.weak, s.allocations, h);
    CollectedParts(s, s', stack, report);
    ghost var dead := s.allocations.Keys - Survivors(s, stack);
    ExpiredEntry(s.weak, s.allocations, dead, h);
    FinalizersDropEntries(Expire(s.weak, s.allocations, dead), report.batch, h);
    FollowsExactly(Expire(s.weak, s.allocations, dead), s'.weak, s'.allocations, h);
  }

  lemma ListedHandle(w: WeakState, allocations: Allocations, h: Address)
    requires Consistent(w, allocations) && h in w.targets
    ensures h in w.handles && Live(allocations, w.targets[h])
  {
  }

  lemma ExpiredEntry(w: WeakState, allocations: Allocations, dead: set<Address>, h: Address)
    requires WellFormed(allocations) && h in w.targets && Live(allocations, w.targets[h])
    ensures
      var w' := Expire(w, allocations, dead);
      && (h in w'.targets <==> Live(allocations - dead, w.targets[h]))
      && (h in w'.targets ==> w'.targets[h] == w.targets[h]) && w'.handles == w.handles
  {
    DeadTarget(allocations, dead, w.targets[h]);
  }

  lemma FollowsExactly(w: WeakState, w': WeakState, allocations: Allocations, h: Address)
    requires EntryFollowsHandle(w, w', h) && Consistent(w', allocations)
    ensures h in w'.targets <==> h in w.targets && h in w'.handles
    ensures h in w'.targets ==> w'.targets[h] == w.targets[h]
  {
  }

  // --- Finalizers ---

  // If a reclaimed block u refers to another, v, then u precedes v in the batch exactly if u
  // is not on or downstream of a cycle, or has the higher address.
  lemma ReferrersFinalizedFirst(mem: Memory, report: Report, u: nat, v: nat)
    requires OrderedBy(report.records, mem, report.batch, report.g, report.out)
    requires Refers(report.records, mem, u, v)
    ensures exists i, j :: 0 <= i < |report.batch| && 0 <= j < |report.batch| &&
              AtPosition(report, i, u) && AtPosition(report, j, v) &&
              (i < j <==> !DownstreamOfCycle(report.g, u) || u > v)
  {
    var g, out := report.g, report.out;
    assert Edge(g, u, v);
    hide Ordered, Refers, Contains, DownstreamOfCycle;
    OrderIsPermutation(g, out);
    ReferenceOrderExact(g, out, u, v);
    var order := OrderOf(report);
    assert u in order && v in order;
    var i :| 0 <= i < |order| && order[i] == u;
    var j :| 0 <= j < |order| && order[j] == v;
    assert AtPosition(report, i, u) && AtPosition(report, j, v);
    if Before(order, u, v) {
      var k, l :| 0 <= k < l < |order| && order[k] == u && order[l] == v;
      assert k == i && l == j;
    }
  }

  // The i-th header of the batch is that of record u, and u is at position i of the order.
  ghost predicate AtPosition(report: Report, i: nat, u: nat) {
    i < |report.batch| && i < |OrderOf(report)| && OrderOf(report)[i] == u &&
    u < |report.records| && report.batch[i] == report.records[u].header
  }

  lemma {:induction false} FreesOf(batch: seq<ChunkHeader>, e: Event)
    requires e in Frees(batch)
    ensures e.Freed? && e.header in batch
    decreases |batch|
  {
    var n := |batch| - 1;
    if e in Frees(batch[..n]) {
      FreesOf(batch[..n], e);
    }
  }

  // In what a collection adds to the log, no block is freed before the last destructor ran.
  lemma DestructorsBeforeFrees(s: Snapshot, s': Snapshot, stack: seq<Word>, report: Report, i: nat, j: nat)
    requires WellFormed(s.allocations) && Collected(s, s', stack, report)
    requires |s.log| <= i < |s'.log| && |s.log| <= j < |s'.log| && s'.log[i].Freed? && s'.log[j].Finalized?
    ensures j < i && s'.log[i].header in report.batch && s'.log[j].header in report.batch
  {
    hide Collected, Reached, InOrder, OrderedBy, Expire, RunFinalizers, Finalizations, Frees, RangeWords, WellFormed;
    CollectedParts(s, s', stack, report);
    var destructors, frees := Finalizations(report.batch), Frees(report.batch);
    assert s'.log == s.log + destructors + frees;
    forall e | e in destructors
      ensures e.Finalized? && e.header in report.batch
    {
      FinalizationsOf(report.batch, e);
    }
    forall e | e in frees
      ensures e.Freed? && e.header in report.batch
    {
      FreesOf(report.batch, e);
    }
    AppendedAt(s.log, destructors, frees, i);
    AppendedAt(s.log, destructors, frees, j);
  }

  lemma AppendedAt(base: seq<Event>, a: seq<Event>, b: seq<Event>, i: nat)
    requires |base| <= i < |base + a + b|
    ensures if i < |base| + |a| then (base + a + b)[i] in a else (base + a + b)[i] in b
  {
    if i < |base| + |a| {
      assert (base + a + b)[i] == a[i - |base|];
    } else {
      assert (base + a + b)[i] == b[i - |base| - |a|];
    }
  }
}
