/**
What the operations of mutator threads do to the heap: what may happen while a call is
parked, how a block enters the heap, and how it leaves without being finalized.
 */
module Mutation {
  import opened Wrappers
  import opened Words
  import opened Bits
  import opened ChunkHeaders
  import opened Blocks
  import opened Reachability
  import opened FinalizationOrder
  import opened WeakRegistry
  import opened Accounting
  import opened Lifecycle
  import opened Layout
  import opened Marking
  import opened Sweeping
  import opened HeapState

  // --- Collections of other threads, while this one is parked ---

  // The words that the collections of other threads scan, one list for each collection that
  // runs while a call is parked.
  type Parked = seq<seq<Word>>

  // One collection by another thread, from the state it found to the state it left.
  datatype Pause = Pause(before: Snapshot, stack: seq<Word>, report: Report, after: Snapshot)

  // The collections `pauses`, one after the other, lead from s to s'.
  ghost predicate Paused(s: Snapshot, pauses: seq<Pause>, s': Snapshot)
    decreases |pauses|
  {
    if pauses == [] then s' == s
    else
      var last := pauses[|pauses| - 1];
      && Paused(s, pauses[..|pauses| - 1], last.before) && ValidState(last.before)
      && Collected(last.before, last.after, last.stack, last.report) && s' == last.after
  }

  // The pauses are the collections that were to run while the call was parked: none if a collection
  // is running already, since the call is one of its own finalizers then.
  ghost predicate AsParked(pauses: seq<Pause>, parked: Parked, collecting: bool) {
    if collecting then pauses == []
    else |pauses| == |parked| && forall i :: 0 <= i < |parked| ==> pauses[i].stack == parked[i]
  }

  lemma ParkedThrough(pauses: seq<Pause>, parked: Parked)
    requires |pauses| <= |parked| && forall i :: 0 <= i < |pauses| ==> pauses[i].stack == parked[i]
    ensures |pauses| == |parked| ==> AsParked(pauses, parked, false)
    ensures pauses == [] ==> AsParked(pauses, parked, true)
  {
  }

  lemma NoPauses(s: Snapshot)
    ensures Paused(s, [], s)
  {
  }

  lemma OneMorePause(s: Snapshot, pauses: seq<Pause>, s1: Snapshot, s2: Snapshot, stack: seq<Word>, report: Report)
    requires Paused(s, pauses, s1) && ValidState(s1) && Collected(s1, s2, stack, report)
    ensures Paused(s, pauses + [Pause(s1, stack, report, s2)], s2)
  {
    hide ValidState, Collected;
    var more := pauses + [Pause(s1, stack, report, s2)];
    assert more[..|more| - 1] == pauses;
  }

  lemma {:induction false} PausesCompose(s: Snapshot, a: seq<Pause>, s1: Snapshot, b: seq<Pause>, s2: Snapshot)
    requires Paused(s, a, s1) && Paused(s1, b, s2)
    ensures Paused(s, a + b, s2)
    decreases |b|
  {
    hide ValidState, Collected;
    if b == [] {
      assert a + b == a;
    } else {
      var n := |b| - 1;
      PausesCompose(s, a, s1, b[..n], b[n].before);
      assert (a + b)[..|a + b| - 1] == a + b[..n];
    }
  }

  // What happened to a busy handle: nothing, or it was zeroed because its target was
  // reclaimed.
  ghost predicate HandleKept(s: Snapshot, s': Snapshot, h: Address) {
    var w, w' := s.weak, s'.weak;
    && h in w'.handles && h in w'.busy
    && (h in w'.targets ==> h in w.targets && w'.targets[h] == w.targets[h])
    && (h in w.targets && h !in w'.targets ==>
          Load(w'.memory, h) == 0 && !Live(s'.allocations, w.targets[h]))
    && ((h in w.targets <==> h in w'.targets) ==> Load(w'.memory, h) == Load(w.memory, h))
  }

  // What no collection changes: surviving records, blocks under construction, and the
  // handles somebody works on.
  ghost predicate Survived(s: Snapshot, s': Snapshot) {
    && (forall a :: a in s'.allocations ==> a in s.allocations && s'.allocations[a] == s.allocations[a])
    && (forall a :: a in s.allocations && s.allocations[a].constructing ==> a in s'.allocations)
    && multiset(s'.rootRanges) <= multiset(s.rootRanges) && s'.threshold == s.threshold
    && s'.collecting == s.collecting && s'.registered == s.registered && s'.released == s.released
    && s'.weak.busy == s.weak.busy && s'.weak.handles <= s.weak.handles && s'.weak.guarded == s.weak.guarded
    && (forall h :: h in s.weak.busy && h in s.weak.handles ==> HandleKept(s, s', h))
    && (forall g :: g in s.weak.guarded ==> Load(s'.weak.memory, g) == Load(s.weak.memory, g))
  }

  lemma SurvivedItself(s: Snapshot)
    ensures Survived(s, s)
  {
  }

  lemma SurvivedTwice(s: Snapshot, s1: Snapshot, s2: Snapshot)
    requires Survived(s, s1) && Survived(s1, s2)
    ensures Survived(s, s2)
  {
    forall h | h in s.weak.busy && h in s.weak.handles
      ensures HandleKept(s, s2, h)
    {
      assert HandleKept(s, s1, h) && HandleKept(s1, s2, h);
      if h in s.weak.targets && h !in s1.weak.targets {
        NotLiveAgain(s1.allocations, s2.allocations, s.weak.targets[h]);
      }
    }
  }

  lemma NotLiveAgain(allocations: Allocations, fewer: Allocations, target: Address)
    requires forall a :: a in fewer ==> a in allocations && fewer[a] == allocations[a]
    ensures Live(fewer, target) ==> Live(allocations, target)
  {
    if b :| Owns(fewer, b, target) {
      assert Owns(allocations, b, target);
    }
  }

  lemma ConstructingIsReached(s: Snapshot, roots: seq<Word>)
    requires WellFormed(s.allocations)
    ensures forall a :: a in s.allocations && s.allocations[a].constructing ==>
              a in Reached(s.allocations, s.weak.memory, roots)
  {
    ReachedIsClosed(s.allocations, s.weak.memory, roots);
    forall a | a in s.allocations && s.allocations[a].constructing
      ensures a in Reached(s.allocations, s.weak.memory, roots)
    {
      assert IsRoot(s.allocations, roots, a);
    }
  }

  lemma {:induction false} ActsKeepHandles(w: WeakState, acts: seq<Act>)
    ensures RunActs(w, acts).handles <= w.handles && RunActs(w, acts).busy == w.busy
    ensures RunActs(w, acts).guarded == w.guarded
    ensures forall g :: g in w.guarded ==> Load(RunActs(w, acts).memory, g) == Load(w.memory, g)
    decreases |acts|
  {
    if acts != [] {
      ActsKeepHandles(w, acts[..|acts| - 1]);
    }
  }

  lemma {:induction false} FinalizersKeepHandles(w: WeakState, batch: seq<ChunkHeader>)
    ensures RunFinalizers(w, batch).handles <= w.handles && RunFinalizers(w, batch).busy == w.busy
    ensures RunFinalizers(w, batch).guarded == w.guarded
    ensures forall g :: g in w.guarded ==> Load(RunFinalizers(w, batch).memory, g) == Load(w.memory, g)
    decreases |batch|
  {
    if batch != [] {
      FinalizersKeepHandles(w, batch[..|batch| - 1]);
      var last := batch[|batch| - 1].destructor;
      if last.Some? {
        ActsKeepHandles(RunFinalizers(w, batch[..|batch| - 1]), last.value);
      }
    }
  }

  lemma HandleAfterCollection(s: Snapshot, s': Snapshot, dead: set<Address>, batch: seq<ChunkHeader>, h: Address)
    requires WellFormed(s.allocations) && h in s.weak.busy && h in s.weak.handles
    requires s'.allocations == s.allocations - dead
    requires s'.weak == RunFinalizers(Expire(s.weak, s.allocations, dead), batch)
    ensures HandleKept(s, s', h)
  {
    RunFinalizersSparesBusy(Expire(s.weak, s.allocations, dead), batch, h);
    ExpireLoad(s.weak, s.allocations, dead, h);
    if h in s.weak.targets {
      DeadTarget(s.allocations, dead, s.weak.targets[h]);
    }
  }

  // An address in a block that goes is live no longer.
  lemma DeadTarget(allocations: Allocations, dead: set<Address>, target: Address)
    requires WellFormed(allocations)
    ensures FindsIn(allocations, target, dead) ==> !Live(allocations - dead, target)
    ensures !FindsIn(allocations, target, dead) && Live(allocations, target) ==> Live(allocations - dead, target)
  {
    if FindsIn(allocations, target, dead) {
      var b :| b in dead && Owns(allocations, b, target);
      if c :| Owns(allocations - dead, c, target) {
        UniqueBlock(allocations, target, b, c);
      }
    } else if b :| Owns(allocations, b, target) {
      assert Owns(allocations - dead, b, target);
    }
  }

  lemma {:induction false} ActsDropRanges(ranges: seq<RootRange>, acts: seq<Act>)
    ensures multiset(RangesAfterActs(ranges, acts)) <= multiset(ranges)
    decreases |acts|
  {
    if acts != [] {
      var before := RangesAfterActs(ranges, acts[..|acts| - 1]);
      ActsDropRanges(ranges, acts[..|acts| - 1]);
      var act := acts[|acts| - 1];
      if act.DropRange? {
        FewerRanges(before, Normalized(act.begin, act.end));
      }
    }
  }

  lemma {:induction false} FewerRanges(ranges: seq<RootRange>, range: RootRange)
    ensures multiset(WithoutFirst(ranges, range)) <= multiset(ranges)
    decreases |ranges|
  {
    if ranges != [] {
      assert ranges == [ranges[0]] + ranges[1..];
      FewerRanges(ranges[1..], range);
    }
  }

  lemma {:induction false} FinalizersDropRanges(ranges: seq<RootRange>, batch: seq<ChunkHeader>)
    ensures multiset(RangesAfterBatch(ranges, batch)) <= multiset(ranges)
    decreases |batch|
  {
    if batch != [] {
      FinalizersDropRanges(ranges, batch[..|batch| - 1]);
      var last := batch[|batch| - 1].destructor;
      if last.Some? {
        ActsDropRanges(RangesAfterBatch(ranges, batch[..|batch| - 1]), last.value);
      }
    }
  }

  ghost function Survivors(s: Snapshot, stack: seq<Word>): set<Address>
    requires WellFormed(s.allocations)
  {
    Reached(s.allocations, s.weak.memory, stack + RangeWords(s.rootRanges, s.weak.memory))
  }

  // What a completed collection does to each part of the state.
  lemma CollectedParts(s: Snapshot, s': Snapshot, stack: seq<Word>, report: Report)
    requires WellFormed(s.allocations) && Collected(s, s', stack, report)
    ensures
      var dead := s.allocations.Keys - Survivors(s, stack);
      && s'.allocations == s.allocations - dead
      && s'.weak == RunFinalizers(Expire(s.weak, s.allocations, dead), report.batch)
      && s'.rootRanges == RangesAfterBatch(s.rootRanges, report.batch)
      && s'.threshold == s.threshold && s'.collecting == s.collecting
      && s'.registered == s.registered && s'.released == s.released && s'.pending == {}
      && s'.log == s.log + Finalizations(report.batch) + Frees(report.batch)
      && InOrder(report.records, Restrict(s.allocations, dead))
      && OrderedBy(report.records, s.weak.memory, report.batch, report.g, report.out)
  {
    hide WellFormed, Reached, RangeWords, InOrder, OrderedBy, Restrict, StatsAfter, LedgerAfter, Total, Expire,
         RunFinalizers, RangesAfterBatch, HeadersOf, Finalizations, Frees;
  }

  lemma CollectedSurvives(s: Snapshot, s': Snapshot, stack: seq<Word>, report: Report)
    requires WellFormed(s.allocations) && Consistent(s.weak, s.allocations) && Collected(s, s', stack, report)
    ensures Survived(s, s')
  {
    hide Consistent, RangesAfterBatch, WellFormed, Collected, Reached, RangeWords, InOrder, OrderedBy, Restrict,
         Expire, RunFinalizers, Finalizations, Frees;
    CollectedParts(s, s', stack, report);
    var dead := s.allocations.Keys - Survivors(s, stack);
    ConstructingIsReached(s, stack + RangeWords(s.rootRanges, s.weak.memory));
    hide HandleKept;
    FinalizersKeepHandles(Expire(s.weak, s.allocations, dead), report.batch);
    ExpireHandles(s.weak, s.allocations, dead);
    FinalizersDropRanges(s.rootRanges, report.batch);
    forall h | h in s.weak.busy && h in s.weak.handles
      ensures HandleKept(s, s', h)
    {
      HandleAfterCollection(s, s', dead, report.batch, h);
    }
  }

  lemma ExpireHandles(w: WeakState, allocations: Allocations, dead: set<Address>)
    requires Consistent(w, allocations)
    ensures Expire(w, allocations, dead).handles == w.handles && Expire(w, allocations, dead).busy == w.busy
    ensures Expire(w, allocations, dead).guarded == w.guarded
    ensures forall g :: g in w.guarded ==> Load(Expire(w, allocations, dead).memory, g) == Load(w.memory, g)
  {
  }

  // Whatever happens while a call is parked, these things survive.
  lemma {:induction false} PausesSurvive(s: Snapshot, pauses: seq<Pause>, s': Snapshot)
    requires Paused(s, pauses, s')
    ensures Survived(s, s')
    decreases |pauses|
  {
    hide ValidState, Collected, Survived;
    if pauses == [] {
      SurvivedItself(s);
    } else {
      var n := |pauses| - 1;
      PausesSurvive(s, pauses[..n], pauses[n].before);
      ValidParts(pauses[n].before);
      CollectedSurvives(pauses[n].before, pauses[n].after, pauses[n].stack, pauses[n].report);
      SurvivedTwice(s, pauses[n].before, s');
    }
  }

  function WithRanges(s: Snapshot, ranges: seq<RootRange>): Snapshot {
    s.(rootRanges := ranges)
  }

  // --- A block enters the heap ---

  // The answer of operator new, given the regions in use, a size and an alignment; None
  // stands for std::bad_alloc.
  type OperatorNew = (set<(int, int)>, nat, nat) -> Option<Address>

  predicate Fresh(raw: Address, occupied: set<(int, int)>, size: nat, alignment: nat) {
    && raw > 0 && alignment > 0 && raw % alignment == 0 && raw + size <= PAYLOAD_LIMIT
    && forall r :: r in occupied ==> raw + size <= r.0 || r.1 <= raw
  }

  // The system allocator returns aligned, fresh regions of the flat address space.
  ghost predicate Honest(allocator: OperatorNew) {
    forall occupied, size, alignment :: allocator(occupied, size, alignment).Some? ==>
      Fresh(allocator(occupied, size, alignment).value, occupied, size, alignment)
  }

  lemma HonestAnswer(allocator: OperatorNew, occupied: set<(int, int)>, size: nat, alignment: nat)
    requires Honest(allocator) && allocator(occupied, size, alignment).Some?
    ensures Fresh(allocator(occupied, size, alignment).value, occupied, size, alignment)
  {
  }

  // Blocks with their headers, and the words of weak handles.
  function Occupied(allocations: Allocations, handles: set<Address>): set<(int, int)> {
    (set a | a in allocations :: (a - allocations[a].header.payloadOffset, allocations[a].payloadEnd as int)) +
    (set h | h in handles :: (h as int, h + WORD_SIZE))
  }

  lemma OccupiedShrinks(
      allocations: Allocations, handles: set<Address>, allocations': Allocations, handles': set<Address>,
      raw: Address, size: nat, alignment: nat)
    requires Fresh(raw, Occupied(allocations, handles), size, alignment)
    requires handles' <= handles
    requires forall a :: a in allocations' ==> a in allocations && allocations'[a] == allocations[a]
    ensures Fresh(raw, Occupied(allocations', handles'), size, alignment)
  {
    forall r | r in Occupied(allocations', handles')
      ensures r in Occupied(allocations, handles)
    {
    }
  }

  // memset(payload, 0, size).
  function ZeroRange(mem: Memory, begin: nat, end: nat): (r: Memory)
    ensures forall a: Address :: Load(r, a) == if begin <= a < end then 0 else Load(mem, a)
  {
    map a | a in mem && !(begin <= a < end) :: mem[a]
  }

  function Max(a: nat, b: nat): nat {
    if a < b then b else a
  }

  // The counters of register_block_locked.
  function StatsWith(stats: GCStats, size: Word, managed: Word, blocks: nat): GCStats {
    stats.(totalAllocations := SaturatingAdd(stats.totalAllocations, 1),
           bytesAllocatedTotal := SaturatingAdd(stats.bytesAllocatedTotal, size),
           peakLiveBytes := if stats.peakLiveBytes < managed then managed else stats.peakLiveBytes,
           peakLiveBlocks := Max(stats.peakLiveBlocks, blocks))
  }

  function LedgerWith(ledger: Ledger, size: nat, managed: nat, blocks: nat): Ledger {
    ledger.(allocations := ledger.allocations + 1,
            allocatedBytes := ledger.allocatedBytes + size,
            history := ledger.history + [(managed, blocks)])
  }

  function Counted(s: Snapshot, h: ChunkHeader): Snapshot
    requires s.managedBytes + h.size <= WORD_MAX && s.reservedBytes + (h.payloadOffset + h.size) <= WORD_MAX
  {
    var managed: Word := s.managedBytes + h.size;
    s.(managedBytes := managed,
       reservedBytes := s.reservedBytes + (h.payloadOffset + h.size),
       stats := StatsWith(s.stats, h.size, managed, |s.allocations|),
       ledger := LedgerWith(s.ledger, h.size, managed, |s.allocations|))
  }

  lemma CountedFields(s: Snapshot, s': Snapshot, h: ChunkHeader)
    requires s.managedBytes + h.size <= WORD_MAX && s.reservedBytes + (h.payloadOffset + h.size) <= WORD_MAX
    requires s'.managedBytes as nat == s.managedBytes + h.size
    requires s'.reservedBytes as nat == s.reservedBytes + (h.payloadOffset + h.size)
    requires s'.stats == StatsWith(s.stats, h.size, s'.managedBytes, |s.allocations|)
    requires s'.ledger == LedgerWith(s.ledger, h.size, s'.managedBytes, |s.allocations|)
    requires s' == s.(managedBytes := s'.managedBytes, reservedBytes := s'.reservedBytes, stats := s'.stats,
                      ledger := s'.ledger)
    ensures s' == Counted(s, h)
  {
    hide StatsWith, LedgerWith;
  }

  // memset and register_block_locked, for a header whose payload begins at p.
  function RegisteredAt(s: Snapshot, h: ChunkHeader, p: Address, constructing: bool): Snapshot
    requires s.managedBytes + h.size <= WORD_MAX && s.reservedBytes + (h.payloadOffset + h.size) <= WORD_MAX
    requires p + h.size <= PAYLOAD_LIMIT
  {
    Counted(s.(allocations := s.allocations[p := BlockRecord(h, p, p + h.size, constructing)],
               weak := s.weak.(memory := ZeroRange(s.weak.memory, p, p + h.size)),
               registered := s.registered + {h}), h)
  }

  // The region of header and payload is fresh, and the header describes it.
  ghost predicate Placed(s: Snapshot, h: ChunkHeader, p: Address) {
    && 0 < h.size && HEADER_SIZE <= h.payloadOffset < p && p % WORD_SIZE == 0 && p + h.size <= PAYLOAD_LIMIT
    && h.magicNumber == CHUNK_MAGIC_NUMBER && h !in s.registered
    && forall r :: r in Occupied(s.allocations, s.weak.handles) ==> p + h.size <= r.0 || r.1 <= p - h.payloadOffset
  }

  lemma PlacedApart(s: Snapshot, h: ChunkHeader, p: Address)
    requires Placed(s, h, p)
    ensures forall a :: a in s.allocations ==>
              p + h.size <= a - s.allocations[a].header.payloadOffset ||
              s.allocations[a].payloadEnd <= p - h.payloadOffset
    ensures forall w :: w in s.weak.handles ==> !(p <= w < p + h.size)
  {
    forall a | a in s.allocations
      ensures p + h.size <= a - s.allocations[a].header.payloadOffset ||
              s.allocations[a].payloadEnd <= p - h.payloadOffset
    {
      assert (a - s.allocations[a].header.payloadOffset, s.allocations[a].payloadEnd as int)
             in Occupied(s.allocations, s.weak.handles);
    }
    forall w | w in s.weak.handles
      ensures !(p <= w < p + h.size)
    {
      assert (w as int, w + WORD_SIZE) in Occupied(s.allocations, s.weak.handles);
    }
  }

  lemma RegisteredFits(s: Snapshot, h: ChunkHeader, p: Address, constructing: bool)
    requires WellFormed(s.allocations) && HeadersFit(s.allocations) && Placed(s, h, p)
    ensures
      var allocations := s.allocations[p := BlockRecord(h, p, p + h.size, constructing)];
      p !in s.allocations && WellFormed(allocations) && HeadersFit(allocations)
  {
    PlacedApart(s, h, p);
    hide Placed, Occupied;
    assert p !in s.allocations;
  }

  lemma RegisteredWeak(w: WeakState, allocations: Allocations, p: Address, b: BlockRecord, size: nat)
    requires Consistent(w, allocations) && p !in allocations
    requires forall h :: h in w.handles ==> !(p <= h < p + size)
    ensures Consistent(w.(memory := ZeroRange(w.memory, p, p + size)), allocations[p := b])
  {
    forall s | s in w.targets
      ensures Live(allocations[p := b], w.targets[s])
    {
      var o :| Owns(allocations, o, w.targets[s]);
      assert Owns(allocations[p := b], o, w.targets[s]);
    }
  }

  lemma RegisteredBooks(
      before: Allocations, m: Word, r: Word, stats: GCStats, ledger: Ledger, p: Address, b: BlockRecord,
      m': Word, r': Word)
    requires Balanced(before, m, r, stats, ledger) && p !in before
    requires m' as nat == m + b.header.size && r' as nat == r + ReservedBytes(b)
    ensures Balanced(before[p := b], m', r', StatsWith(stats, b.header.size, m', |before[p := b]|),
                     LedgerWith(ledger, b.header.size, m', |before[p := b]|))
  {
    TotalInsert(PayloadBytes, before, p, b);
    TotalInsert(ReservedBytes, before, p, b);
    PeakOfLonger(ledger.history, (m' as nat, |before[p := b]|));
  }

  lemma RegisteredIsValid(s: Snapshot, h: ChunkHeader, p: Address, constructing: bool)
    requires ValidState(s) && Placed(s, h, p)
    requires s.managedBytes + h.size <= WORD_MAX && s.reservedBytes + (h.payloadOffset + h.size) <= WORD_MAX
    ensures ValidState(RegisteredAt(s, h, p, constructing)) && p !in s.allocations
  {
    var b := BlockRecord(h, p, p + h.size, constructing);
    ValidParts(s);
    PlacedApart(s, h, p);
    RegisteredParts(s, h, p, constructing);
    hide *;
    RegisteredFits(s, h, p, constructing);
    RegisteredWeak(s.weak, s.allocations, p, b, h.size);
    RegisteredBooks(s.allocations, s.managedBytes, s.reservedBytes, s.stats, s.ledger, p, b,
                    s.managedBytes + h.size, s.reservedBytes + (h.payloadOffset + h.size));
    LivesRegister(s.allocations, s.registered, s.released, s.pending, s.log, p, b);
    PartsValid(RegisteredAt(s, h, p, constructing));
  }

  lemma RegisteredParts(s: Snapshot, h: ChunkHeader, p: Address, constructing: bool)
    requires Placed(s, h, p)
    requires s.managedBytes + h.size <= WORD_MAX && s.reservedBytes + (h.payloadOffset + h.size) <= WORD_MAX
    ensures
      var b, s' := BlockRecord(h, p, p + h.size, constructing), RegisteredAt(s, h, p, constructing);
      && b.header == h && b.payloadBegin == p && ReservedBytes(b) == h.payloadOffset + h.size && h !in s.registered
      && s'.allocations == s.allocations[p := b]
      && s'.weak == s.weak.(memory := ZeroRange(s.weak.memory, p, p + h.size))
      && s'.managedBytes as nat == s.managedBytes + h.size
      && s'.reservedBytes as nat == s.reservedBytes + (h.payloadOffset + h.size)
      && s'.stats == StatsWith(s.stats, h.size, s'.managedBytes, |s'.allocations|)
      && s'.ledger == LedgerWith(s.ledger, h.size, s'.managedBytes, |s'.allocations|)
      && s'.registered == s.registered + {h} && s'.released == s.released && s'.pending == s.pending
      && s'.log == s.log
      && s'.collecting == s.collecting
  {
    hide StatsWith, LedgerWith, ZeroRange, Occupied;
  }

  // What a successful allocation returned, and the state it left.
  ghost predicate Allocated(
      s: Snapshot, s': Snapshot, p: Address, payloadSize: Word, payloadAlignment: Word, destructor: Option<seq<Act>>,
      constructing: bool)
  {
    && LayoutOf(payloadSize, payloadAlignment).Some? && p in s'.allocations
    && var h, l := s'.allocations[p].header, LayoutOf(payloadSize, payloadAlignment).value;
       && h.size == payloadSize && h.destructor == destructor && h.payloadOffset == l.offset
       && h.AllocationAlignment() == l.alignment && p % payloadAlignment == 0
       && Placed(s, h, p) && s.managedBytes + payloadSize <= WORD_MAX && s.reservedBytes + l.total <= WORD_MAX
       && l.total == l.offset + payloadSize
       && s' == RegisteredAt(s, h, p, constructing)
  }

  // An allocation at p leaves everything else as it was: other records, words outside the
  // payload, root ranges, weak handles, and what happened before.
  ghost predicate LeavesRest(s: Snapshot, s': Snapshot, p: Address, size: Word) {
    && p !in s.allocations && s'.allocations.Keys == s.allocations.Keys + {p}
    && (forall a :: a in s.allocations ==> s'.allocations[a] == s.allocations[a])
    && (forall a: Address :: !(p <= a < p + size) ==> Load(s'.weak.memory, a) == Load(s.weak.memory, a))
    && s'.rootRanges == s.rootRanges && s'.threshold == s.threshold && s'.collecting == s.collecting
    && s'.weak.targets == s.weak.targets && s'.weak.handles == s.weak.handles && s'.weak.busy == s.weak.busy
    && s'.weak.guarded == s.weak.guarded
    && s'.log == s.log && s'.released == s.released && s'.pending == s.pending
  }

  lemma AllocationLeavesRest(
      s: Snapshot, s': Snapshot, p: Address, size: Word, alignment: Word, destructor: Option<seq<Act>>,
      constructing: bool)
    requires Allocated(s, s', p, size, alignment, destructor, constructing) && ValidState(s)
    ensures LeavesRest(s, s', p, size)
  {
    var h := s'.allocations[p].header;
    RegistrationLeavesRest(s, h, p, constructing);
    hide ValidState, Placed, RegisteredAt;
  }

  lemma RegistrationLeavesRest(s: Snapshot, h: ChunkHeader, p: Address, constructing: bool)
    requires ValidState(s) && Placed(s, h, p)
    requires s.managedBytes + h.size <= WORD_MAX && s.reservedBytes + (h.payloadOffset + h.size) <= WORD_MAX
    ensures LeavesRest(s, RegisteredAt(s, h, p, constructing), p, h.size)
  {
    RegisteredIsValid(s, h, p, constructing);
    hide ValidState, Placed, StatsWith, LedgerWith;
    RestOfRegistered(s, h, p, constructing);
  }

  lemma RestOfRegistered(s: Snapshot, h: ChunkHeader, p: Address, constructing: bool)
    requires s.managedBytes + h.size <= WORD_MAX && s.reservedBytes + (h.payloadOffset + h.size) <= WORD_MAX
    requires p + h.size <= PAYLOAD_LIMIT && p !in s.allocations
    ensures LeavesRest(s, RegisteredAt(s, h, p, constructing), p, h.size)
  {
    hide StatsWith, LedgerWith;
  }

  // The reasons to refuse an allocation: size or alignment, no memory when operator new was
  // last asked, or the byte counters at the end.
  ghost predicate Refused(
      asked: Snapshot, s: Snapshot, payloadSize: Word, payloadAlignment: Word, allocator: OperatorNew)
  {
    LayoutOf(payloadSize, payloadAlignment).Some? ==>
      var l := LayoutOf(payloadSize, payloadAlignment).value;
      || AddWouldOverflow(s.managedBytes, payloadSize) || AddWouldOverflow(s.reservedBytes, l.total)
      || allocator(Occupied(asked.allocations, asked.weak.handles), l.total, l.alignment).None?
  }

  // One of the states that the pauses lead through from s to s'.
  ghost predicate Passed(s: Snapshot, pauses: seq<Pause>, state: Snapshot, s': Snapshot) {
    exists k :: 0 <= k <= |pauses| && Paused(s, pauses[..k], state) && Paused(state, pauses[k..], s')
  }

  lemma PassedBetween(s: Snapshot, first: seq<Pause>, state: Snapshot, rest: seq<Pause>, s': Snapshot)
    requires Paused(s, first, state) && Paused(state, rest, s')
    ensures Passed(s, first + rest, state, s')
  {
    hide Paused;
    var pauses, k := first + rest, |first|;
    assert pauses[..k] == first && pauses[k..] == rest;
  }

  lemma AskedWithin(s: Snapshot, pauses: seq<Pause>, state: Snapshot, s': Snapshot)
    requires Paused(s, pauses, s') && (state == s || state == s')
    ensures Passed(s, pauses, state, s')
  {
    NoPauses(state);
    hide Paused;
    assert [] + pauses == pauses && pauses + [] == pauses;
    if state == s {
      PassedBetween(s, [], s, pauses, s');
    } else {
      PassedBetween(s, pauses, s', [], s');
    }
  }

  lemma PassedLater(s: Snapshot, first: seq<Pause>, s1: Snapshot, rest: seq<Pause>, state: Snapshot, s': Snapshot)
    requires Paused(s, first, s1) && Passed(s1, rest, state, s')
    ensures Passed(s, first + rest, state, s')
  {
    hide Paused;
    var k :| 0 <= k <= |rest| && Paused(s1, rest[..k], state) && Paused(state, rest[k..], s');
    PausesCompose(s, first, s1, rest[..k], state);
    PassedBetween(s, first + rest[..k], state, rest[k..], s');
    assert first + rest[..k] + rest[k..] == first + rest;
  }

  lemma NoLayout(asked: Snapshot, s: Snapshot, payloadSize: Word, payloadAlignment: Word, allocator: OperatorNew)
    requires payloadSize == 0 || !HasSingleBit(payloadAlignment) || LayoutOf(payloadSize, payloadAlignment).None?
    ensures Refused(asked, s, payloadSize, payloadAlignment, allocator)
  {
  }

  lemma AllocatorRefused(
      asked: Snapshot, s: Snapshot, payloadSize: Word, payloadAlignment: Word, allocator: OperatorNew, l: BlockLayout)
    requires LayoutOf(payloadSize, payloadAlignment) == Some(l)
    requires allocator(Occupied(asked.allocations, asked.weak.handles), l.total, l.alignment).None?
    ensures Refused(asked, s, payloadSize, payloadAlignment, allocator)
  {
    hide LayoutOf, Occupied;
  }

  lemma WouldOverflow(
      asked: Snapshot, s: Snapshot, payloadSize: Word, payloadAlignment: Word, allocator: OperatorNew, l: BlockLayout)
    requires LayoutOf(payloadSize, payloadAlignment) == Some(l)
    requires AddWouldOverflow(s.managedBytes, payloadSize) || AddWouldOverflow(s.reservedBytes, l.total)
    ensures Refused(asked, s, payloadSize, payloadAlignment, allocator)
  {
    hide LayoutOf, Occupied;
  }

  lemma LayoutBounds(
      payloadSize: Word, payloadAlignment: Word, l: BlockLayout, raw: Address, occupied: set<(int, int)>)
    requires LayoutOf(payloadSize, payloadAlignment) == Some(l) && Fresh(raw, occupied, l.total, l.alignment)
    ensures l.alignment > 0 && l.total == l.offset + payloadSize && raw + l.offset < WORD_LIMIT
    ensures Pow2(CountrZero(l.alignment)) == l.alignment
  {
    LayoutFits(payloadSize, payloadAlignment, raw);
  }

  // A region that was fresh stays fresh: collections only remove blocks and handles.
  lemma StillPlaced(
      s: Snapshot, pauses: seq<Pause>, s': Snapshot, h: ChunkHeader, raw: Address, payloadSize: Word,
      payloadAlignment: Word, l: BlockLayout)
    requires LayoutOf(payloadSize, payloadAlignment) == Some(l) && raw + l.offset < WORD_LIMIT
    requires Fresh(raw, Occupied(s.allocations, s.weak.handles), l.total, l.alignment) && Paused(s, pauses, s')
    requires h.size == payloadSize && h.payloadOffset == l.offset && h.magicNumber == CHUNK_MAGIC_NUMBER
    requires h !in s.registered
    ensures Placed(s', h, raw + l.offset) && (raw + l.offset) % payloadAlignment == 0
  {
    hide LayoutOf, Paused, Occupied;
    LayoutFits(payloadSize, payloadAlignment, raw);
    PausesSurvive(s, pauses, s');
    OccupiedShrinks(s.allocations, s.weak.handles, s'.allocations, s'.weak.handles, raw, l.total, l.alignment);
  }

  lemma NoOverflow(lhs: Word, rhs: Word)
    requires !AddWouldOverflow(lhs, rhs)
    ensures lhs + rhs <= WORD_MAX
  {
  }

  lemma NewBlock(
      s: Snapshot, s': Snapshot, h: ChunkHeader, p: Address, payloadSize: Word, payloadAlignment: Word,
      destructor: Option<seq<Act>>, constructing: bool, l: BlockLayout)
    requires LayoutOf(payloadSize, payloadAlignment) == Some(l) && l.total == l.offset + payloadSize
    requires h.size == payloadSize && h.destructor == destructor && h.payloadOffset == l.offset
    requires Pow2(h.alignmentShift) == l.alignment && p % payloadAlignment == 0
    requires s.managedBytes + payloadSize <= WORD_MAX && s.reservedBytes + l.total <= WORD_MAX
    requires Placed(s, h, p) && s' == RegisteredAt(s, h, p, constructing)
    ensures Allocated(s, s', p, payloadSize, payloadAlignment, destructor, constructing)
    ensures p in s'.allocations && s'.allocations[p].header == h
  {
    hide LayoutOf, StatsWith, LedgerWith, ZeroRange, Occupied;
  }

  lemma HeaderListed(allocations: Allocations, p: Address)
    requires p in allocations
    ensures allocations[p].header in HeadersOf(allocations)
  {
  }

  lemma FewerHeaders(allocations: Allocations, p: Address)
    ensures HeadersOf(allocations - {p}) <= HeadersOf(allocations)
  {
  }

  lemma BalancedTotals(s: Snapshot)
    requires ValidState(s)
    ensures s.managedBytes as nat == Total(PayloadBytes, s.allocations)
    ensures s.reservedBytes as nat == Total(ReservedBytes, s.allocations)
  {
  }

  lemma ProjectedBytes(managed: Word, incoming: Word, threshold: Word)
    ensures SaturatingAdd(managed, incoming) >= threshold <==> managed + incoming >= threshold
  {
  }

  lemma OneMoreHeader(allocations: Allocations, p: Address, b: BlockRecord)
    ensures HeadersOf(allocations[p := b]) <= HeadersOf(allocations) + {b.header}
  {
  }

  // --- Construction ends ---

  function Constructed(s: Snapshot, p: Address): Snapshot
    requires p in s.allocations
  {
    s.(allocations := s.allocations[p := s.allocations[p].(constructing := false)])
  }

  lemma SameTotal(bytes: BlockRecord -> nat, allocations: Allocations, p: Address, b: BlockRecord)
    requires p in allocations && bytes(b) == bytes(allocations[p])
    ensures Total(bytes, allocations[p := b]) == Total(bytes, allocations)
  {
    TotalErase(bytes, allocations, p);
    TotalErase(bytes, allocations[p := b], p);
    assert allocations[p := b] - {p} == allocations - {p};
  }

  lemma SameRegion(allocations: Allocations, p: Address, b: BlockRecord)
    requires WellFormed(allocations) && HeadersFit(allocations) && p in allocations
    requires b == allocations[p].(constructing := b.constructing)
    ensures WellFormed(allocations[p := b]) && HeadersFit(allocations[p := b])
  {
  }

  lemma SameTargets(allocations: Allocations, p: Address, b: BlockRecord, w: WeakState)
    requires Consistent(w, allocations) && p in allocations && b == allocations[p].(constructing := b.constructing)
    ensures Consistent(w, allocations[p := b])
  {
    forall s | s in w.targets
      ensures Live(allocations[p := b], w.targets[s])
    {
      var o :| Owns(allocations, o, w.targets[s]);
      assert Owns(allocations[p := b], o, w.targets[s]);
    }
  }

  lemma SameLives(
      allocations: Allocations, registered: set<ChunkHeader>, released: set<ChunkHeader>, pending: set<ChunkHeader>,
      log: seq<Event>, p: Address, b: BlockRecord)
    requires Lives(allocations, registered, released, pending, log) && p in allocations
    requires b.header == allocations[p].header
    ensures Lives(allocations[p := b], registered, released, pending, log)
  {
    forall h
      ensures HasBlock(allocations[p := b], h) <==> HasBlock(allocations, h)
    {
      if HasBlock(allocations, h) {
        var a :| a in allocations && allocations[a].header == h;
        assert allocations[p := b][a].header == h;
      }
    }
  }

  lemma ConstructedIsValid(s: Snapshot, p: Address)
    requires ValidState(s) && p in s.allocations
    ensures ValidState(Constructed(s, p))
  {
    var b := s.allocations[p].(constructing := false);
    ConstructedParts(s, p);
    hide *;
    ValidParts(s);
    SameRegion(s.allocations, p, b);
    SameTargets(s.allocations, p, b, s.weak);
    SameBooks(s.allocations, s.managedBytes, s.reservedBytes, s.stats, s.ledger, p, b);
    SameLives(s.allocations, s.registered, s.released, s.pending, s.log, p, b);
    PartsValid(Constructed(s, p));
  }

  lemma ConstructedParts(s: Snapshot, p: Address)
    requires p in s.allocations
    ensures
      var b := s.allocations[p].(constructing := false);
      Constructed(s, p) == s.(allocations := s.allocations[p := b])
  {
  }

  lemma SameBooks(
      allocations: Allocations, m: Word, r: Word, stats: GCStats, ledger: Ledger, p: Address, b: BlockRecord)
    requires Balanced(allocations, m, r, stats, ledger) && p in allocations
    requires b == allocations[p].(constructing := b.constructing)
    ensures Balanced(allocations[p := b], m, r, stats, ledger)
  {
    SameTotal(PayloadBytes, allocations, p, b);
    SameTotal(ReservedBytes, allocations, p, b);
    SameSize(allocations, p, b);
    hide Total, Saturated, PeakBytes, PeakBlocks;
  }

  lemma SameSize(allocations: Allocations, p: Address, b: BlockRecord)
    requires p in allocations
    ensures |allocations[p := b]| == |allocations|
  {
    assert allocations[p := b].Keys == allocations.Keys;
    assert |allocations[p := b].Keys| == |allocations[p := b]| && |allocations.Keys| == |allocations|;
  }

  // --- A block leaves without being finalized ---

  predicate BytesHeld(s: Snapshot, p: Address) {
    && p in s.allocations && s.allocations[p].header.size <= s.managedBytes
    && ReservedBytes(s.allocations[p]) <= s.reservedBytes
  }

  // release_unconstructed: handles into the block expire, its bytes are given back, its
  // memory is freed, and no destructor of the collector runs.
  ghost function Released(s: Snapshot, p: Address): Snapshot
    requires BytesHeld(s, p)
  {
    var h := s.allocations[p].header;
    var managed: Word := s.managedBytes - h.size;
    s.(allocations := s.allocations - {p},
       weak := Invalidate(s.weak, p, s.allocations[p].payloadEnd),
       managedBytes := managed,
       reservedBytes := s.reservedBytes - ReservedBytes(s.allocations[p]),
       released := s.released + {h},
       log := s.log + [Freed(h)],
       ledger := LedgerWithout(s.ledger, h.size, managed, |s.allocations - {p}|))
  }

  function LedgerWithout(ledger: Ledger, size: nat, managed: nat, blocks: nat): Ledger {
    ledger.(releasedBytes := ledger.releasedBytes + size, history := ledger.history + [(managed, blocks)])
  }

  lemma BytesCovered(s: Snapshot, p: Address)
    requires ValidState(s) && p in s.allocations
    ensures BytesHeld(s, p)
  {
    TotalAtLeast(PayloadBytes, s.allocations, p);
    TotalAtLeast(ReservedBytes, s.allocations, p);
  }

  lemma ReleasedBooks(
      before: Allocations, m: Word, r: Word, stats: GCStats, ledger: Ledger, p: Address, m': Word, r': Word)
    requires Balanced(before, m, r, stats, ledger) && p in before
    requires m == m' + before[p].header.size && r == r' + ReservedBytes(before[p])
    ensures Balanced(before - {p}, m', r', stats, LedgerWithout(ledger, before[p].header.size, m', |before - {p}|))
  {
    TotalErase(PayloadBytes, before, p);
    TotalErase(ReservedBytes, before, p);
    PeakOfLonger(ledger.history, (m' as nat, |before - {p}|));
    PeaksAreMaxima(ledger.history);
    SubMapSize(before, {p});
  }

  lemma HeaderStays(allocations: Allocations, p: Address, a: Address)
    requires a in allocations && a != p
    ensures allocations[a].header in HeadersOf(allocations - {p})
  {
    assert (allocations - {p})[a].header == allocations[a].header;
  }

  lemma ReleasedLives(
      allocations: Allocations, registered: set<ChunkHeader>, released: set<ChunkHeader>, log: seq<Event>, p: Address)
    requires Lives(allocations, registered, released, {}, log) && p in allocations
    ensures
      var h := allocations[p].header;
      Lives(allocations - {p}, registered, released + {h}, {}, log + [Freed(h)])
  {
    var h := allocations[p].header;
    assert HasBlock(allocations, h);
    LivesDetach(allocations, registered, released, {}, log, {p});
    var pending := {} + HeadersOf(allocations) - HeadersOf(allocations - {p});
    assert pending == {h} by {
      forall g | g in pending
        ensures g == h
      {
        var a :| a in allocations && allocations[a].header == g;
        if a != p {
          HeaderStays(allocations, p, a);
        }
      }
    }
    LivesRelease(allocations - {p}, registered, released, pending, log, h);
    assert pending - {h} == {};
  }

  lemma ReleasedIsValid(s: Snapshot, p: Address)
    requires ValidState(s) && s.pending == {} && BytesHeld(s, p)
    ensures ValidState(Released(s, p))
  {
    hide WellFormed, HeadersFit, Consistent, Balanced, Lives, Expire, Invalidate, LedgerWithout;
    HeadersFitAfter(s.allocations, {p});
    ExpireConsistent(s.weak, s.allocations, {p});
    ExpireNothing(s.weak, s.allocations);
    ExpireOneMore(s.weak, s.allocations, {}, p);
    assert {} + {p} == {p};
    ReleasedBooks(s.allocations, s.managedBytes, s.reservedBytes, s.stats, s.ledger, p,
                  s.managedBytes - s.allocations[p].header.size, s.reservedBytes - ReservedBytes(s.allocations[p]));
    ReleasedLives(s.allocations, s.registered, s.released, s.log, p);
  }
}
