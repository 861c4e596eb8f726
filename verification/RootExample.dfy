/**
A run of the manager from its construction: a block is allocated, a word that addresses it is
published as a root, and a collection keeps it; the range is withdrawn, and a second collection
finalizes and frees it.
 */
module RootExample {
  import opened Wrappers
  import opened Words
  import opened Bits
  import opened ChunkHeaders
  import opened Blocks
  import opened WeakRegistry
  import opened Accounting
  import opened Lifecycle
  import opened Layout
  import opened Marking
  import opened Sweeping
  import opened HeapState
  import opened Mutation
  import opened FinalizerLaws
  import opened CollectionLaws
  import opened OperationLaws
  import opened GCManager

  // An operator new that owns one region, at 64.
  function Allocator(): OperatorNew {
    (occupied: set<(int, int)>, size: nat, alignment: nat) =>
      if Fresh(64, occupied, size, alignment) then Some(64) else None
  }

  lemma AllocatorIsHonest()
    ensures Honest(Allocator())
  {
  }

  // With no block and no handle there is room for sixteen bytes.
  lemma RoomForOne(s: Snapshot, pauses: seq<Pause>, asked: Snapshot, mid: Snapshot)
    requires s.allocations == map[] && s.weak.handles == {} && ValidState(mid)
    requires Paused(s, pauses, mid) && Passed(s, pauses, asked, mid)
    ensures !Refused(asked, mid, 16, 8, Allocator())
  {
    var size: Word, alignment: Word := 16, 8;
    hide *;
    EmptyStays(s, pauses, mid);
    EmptyAsked(s, pauses, asked, mid);
    NoBytes(mid);
    NothingOccupied(asked);
    EightIsPower();
    RefusedExactly(asked, mid, size, alignment, Allocator());
    AllocatorAnswers();
  }

  lemma NothingOccupied(s: Snapshot)
    requires s.allocations == map[] && s.weak.handles == {}
    ensures Occupied(s.allocations, s.weak.handles) == {}
  {
  }

  lemma EightIsPower()
    ensures IsPower(8)
  {
    assert Pow2(3) == 8;
  }

  lemma AllocatorAnswers()
    ensures Allocator()({}, 48, 16) == Some(64)
  {
  }

  lemma EmptyStays(s: Snapshot, pauses: seq<Pause>, s': Snapshot)
    requires s.allocations == map[] && s.weak.handles == {} && Paused(s, pauses, s')
    ensures s'.allocations == map[] && s'.weak.handles == {}
  {
    hide Paused;
    PausesSurvive(s, pauses, s');
    hide HandleKept;
    assert forall a :: a !in s'.allocations;
  }

  lemma EmptyAsked(s: Snapshot, pauses: seq<Pause>, asked: Snapshot, mid: Snapshot)
    requires s.allocations == map[] && s.weak.handles == {} && Passed(s, pauses, asked, mid)
    ensures asked.allocations == map[] && asked.weak.handles == {}
  {
    hide Paused;
    var k :| 0 <= k <= |pauses| && Paused(s, pauses[..k], asked) && Paused(asked, pauses[k..], mid);
    EmptyStays(s, pauses[..k], asked);
  }

  lemma NoBytes(s: Snapshot)
    requires ValidState(s) && s.allocations == map[]
    ensures s.managedBytes == 0 && s.reservedBytes == 0
  {
    BalancedTotals(s);
    hide ValidState;
  }

  // With neither ranges nor stack words nor pinned blocks, everything goes.
  lemma NothingRooted(s: Snapshot, s': Snapshot, report: Report)
    requires ValidState(s) && Collected(s, s', [], report) && s.rootRanges == []
    requires forall a :: a in s.allocations ==> !s.allocations[a].constructing
    ensures s'.allocations == map[]
  {
    hide ValidState, Collected;
    LeastSurvivors(s, s', [], report, {});
    assert Complete(s, [], {});
    assert s'.allocations.Keys == {};
  }

  // No block, no handle, no count and no range.
  predicate Blank(s: Snapshot) {
    s.allocations == map[] && s.weak.handles == {} && s.weak.guarded == {} && s.rootRanges == []
  }

  lemma StillBlank(s: Snapshot, pauses: seq<Pause>, s': Snapshot)
    requires Blank(s) && Paused(s, pauses, s')
    ensures Blank(s') && s.allocations == map[] && s.weak.handles == {}
  {
    hide Paused;
    EmptyStays(s, pauses, s');
    PausesSurvive(s, pauses, s');
    assert |multiset(s'.rootRanges)| <= |multiset(s.rootRanges)|;
  }

  // One block, finished and with an empty destructor; word 16 lies outside it and is ordinary.
  ghost predicate Holding(s: Snapshot, p: Address) {
    && s.allocations.Keys == {p} && p > 16 && !s.allocations[p].constructing
    && s.allocations[p].payloadEnd as nat == p + 16 && s.allocations[p].header.destructor == Some([])
    && s.weak.handles == {} && 16 !in s.weak.guarded && !s.collecting
  }

  lemma NowHolding(s: Snapshot, s': Snapshot, p: Address)
    requires Allocated(s, s', p, 16, 8, Some([]), false) && ValidState(s) && Blank(s) && !s.collecting
    ensures Holding(s', p) && s'.rootRanges == []
  {
    AllocatedBlock(s, s', p, 16, 8, Some([]), false);
    AllocatedAligned(s, s', p, 16, 8, Some([]), false);
    AllocationLeavesRest(s, s', p, 16, 8, Some([]), false);
    hide Allocated, ValidState;
  }

  method Allocate(manager: GC_Manager) returns (status: Status, p: Address)
    requires manager.Valid() && !manager.collecting && Blank(manager.State())
    modifies manager, manager.Headers()
    ensures manager.Valid() && status == Done && Holding(manager.State(), p) && manager.rootRanges == []
    ensures fresh(manager.Headers() - old(manager.Headers()))
  {
    var size: Word, alignment: Word := 16, 8;
    hide *;
    ghost var s := manager.State();
    manager.Fields();
    AllocatorIsHonest();
    ghost var mid, pauses, made, asked;
    status, p, mid, pauses, made, asked := manager.MallocInternal(
      size, alignment, Some([]), false, true, Environment(Allocator(), [], NoFailure, [], [], []));
    manager.Fields();
    StillBlank(s, pauses, mid);
    if status != Done {
      RoomForOne(s, pauses, asked, mid);
    }
    NotCollecting(s, pauses, mid);
    NowHolding(mid, manager.State(), p);
  }

  lemma NotCollecting(s: Snapshot, pauses: seq<Pause>, s': Snapshot)
    requires Paused(s, pauses, s')
    ensures s'.collecting == s.collecting
  {
    hide Paused;
    PausesSurvive(s, pauses, s');
  }

  // --- The run ---

  // Word 16 addresses the block.
  lemma RootWritten(s: Snapshot, p: Address)
    requires Holding(s, p)
    ensures
      var s' := AfterAct(s, Store(16, p));
      Holding(s', p) && s'.rootRanges == s.rootRanges && 16 in s'.weak.memory && s'.weak.memory[16] == p
  {
  }

  lemma RangedHolding(s: Snapshot, p: Address, ranges: seq<RootRange>)
    requires Holding(s, p)
    ensures Holding(WithRanges(s, ranges), p) && WithRanges(s, ranges).rootRanges == ranges
  {
  }

  // At most the range [16, 24) is registered.
  predicate OneRange(s: Snapshot) {
    multiset(s.rootRanges) <= multiset{RootRange(16, 24)}
  }

  lemma CollectedHolding(s: Snapshot, s': Snapshot, report: Report, p: Address)
    requires ValidState(s) && Collected(s, s', [], report) && Holding(s, p) && s.rootRanges == [RootRange(16, 24)]
    requires 16 in s.weak.memory && s.weak.memory[16] == p
    ensures s'.allocations == s.allocations && OneRange(s') && !s'.collecting
    ensures s'.registered == s.registered && s'.released == s.released
  {
    hide *;
    ValidParts(s);
    CollectedSurvives(s, s', [], report);
    LeastSurvivors(s, s', [], report, {});
    PointedAt(s, p);
    SurvivedParts(s, s');
    StartKept(s, s', p);
  }

  lemma PointedAt(s: Snapshot, p: Address)
    requires Holding(s, p) && s.rootRanges == [RootRange(16, 24)] && 16 in s.weak.memory && s.weak.memory[16] == p
    ensures StartsAt(s, [], p) && OneRange(s) && s.allocations.Keys == {p} && !s.collecting
  {
    SlotStarts(s, [], RootRange(16, 24), 16, p);
    hide StartsAt;
  }

  lemma SurvivedParts(s: Snapshot, s': Snapshot)
    requires Survived(s, s') && OneRange(s)
    ensures OneRange(s') && s'.collecting == s.collecting && s'.registered == s.registered && s'.released == s.released
  {
    hide HandleKept;
  }

  lemma StartKept(s: Snapshot, s': Snapshot, p: Address)
    requires Complete(s, [], s'.allocations.Keys) && StartsAt(s, [], p) && s.allocations.Keys == {p}
    requires forall a :: a in s'.allocations ==> a in s.allocations && s'.allocations[a] == s.allocations[a]
    ensures s'.allocations == s.allocations
  {
    hide StartsAt, WordInto;
  }

  lemma PausedHolding(s: Snapshot, pauses: seq<Pause>, s': Snapshot)
    requires Paused(s, pauses, s') && OneRange(s)
    ensures OneRange(s') && s'.registered == s.registered && s'.released == s.released
    ensures forall a :: a in s'.allocations ==> a in s.allocations && s'.allocations[a] == s.allocations[a]
  {
    hide Paused;
    PausesSurvive(s, pauses, s');
  }

  lemma RangeWithdrawn(s: Snapshot)
    requires OneRange(s)
    ensures WithoutFirst(s.rootRanges, Normalized(16, 24)) == []
  {
    var ranges := s.rootRanges;
    OneRemoved(ranges, RootRange(16, 24));
    assert |multiset(WithoutFirst(ranges, RootRange(16, 24)))| == 0;
  }

  // A block that is gone was finalized and freed, if it was not given back.
  lemma GoneIsFinished(s: Snapshot, s': Snapshot, a: Address)
    requires ValidState(s) && a in s.allocations && ValidState(s') && s'.allocations == map[] && !s'.collecting
    requires s'.registered == s.registered && s'.released == s.released
    requires s.allocations[a].header.destructor.Some?
    ensures Finalized(s.allocations[a].header) !in s.log && Freed(s.allocations[a].header) !in s.log
    ensures Finalized(s.allocations[a].header) in s'.log && Freed(s.allocations[a].header) in s'.log
  {
    var h := s.allocations[a].header;
    ValidParts(s);
    ValidParts(s');
    assert HasBlock(s.allocations, h);
    hide ValidState;
  }

  method CollectRooted(manager: GC_Manager, ghost p: Address)
    requires manager.Valid() && Holding(manager.State(), p) && manager.rootRanges == []
    requires 16 in manager.memory && manager.memory[16] == p
    modifies manager, manager.Headers()
    ensures manager.Valid() && manager.allocations == old(manager.allocations) && OneRange(manager.State())
    ensures manager.Headers() == old(manager.Headers()) && !manager.collecting
  {
    var begin: Address, end: Address := 16, 24;
    var status;
    ghost var report, pauses := NO_REPORT, [];
    hide *;
    ghost var s := manager.State();
    manager.Fields();
    StateHolding(s, p);
    SixteenToTwentyFour();
    pauses := manager.RegisterRootRange(begin, end, []);
    ghost var s1 := manager.State();
    NoPausesMeans(pauses);
    NothingPaused(WithRanges(s, s.rootRanges + [Normalized(begin, end)]), pauses, s1);
    RangedHolding(s, p, [] + [Normalized(begin, end)]);
    StateHolding(s1, p);
    manager.Fields();
    status, report := manager.Collect([], true, NoFailure);
    CollectedHolding(s1, manager.State(), report, p);
    manager.Fields();
  }

  lemma StateHolding(s: Snapshot, p: Address)
    requires Holding(s, p)
    ensures !s.collecting
  {
  }

  lemma SixteenToTwentyFour()
    ensures [] + [Normalized(16, 24)] == [RootRange(16, 24)]
  {
  }

  method CollectUnrooted(manager: GC_Manager)
    requires manager.Valid() && OneRange(manager.State()) && !manager.collecting
    requires forall a :: a in manager.allocations ==> !manager.allocations[a].constructing
    modifies manager, manager.Headers()
    ensures manager.Valid() && manager.allocations == map[] && !manager.collecting
    ensures manager.registered == old(manager.registered) && manager.released == old(manager.released)
  {
    var begin: Address, end: Address := 16, 24;
    var status;
    ghost var mid, pauses, report;
    hide *;
    ghost var s := manager.State();
    manager.Fields();
    mid, pauses := manager.UnregisterRootRange(begin, end, []);
    PausedHolding(s, pauses, mid);
    RangeWithdrawn(mid);
    RangesOnly(mid, WithoutFirst(mid.rootRanges, Normalized(begin, end)));
    ghost var s1 := manager.State();
    manager.Fields();
    status, report := manager.Collect([], true, NoFailure);
    NothingRooted(s1, manager.State(), report);
    CollectedRest(s1, manager.State(), [], report);
    manager.Fields();
  }

  // A block that a registered range addresses stays; after the range is withdrawn it is finalized
  // and freed.
  method RootedWhileRegistered() returns (manager: GC_Manager, p: Address, ghost rooted: Snapshot)
    ensures fresh(manager) && manager.Valid() && rooted.allocations.Keys == {p} && manager.allocations == map[]
    ensures
      var h := rooted.allocations[p].header;
      && Finalized(h) !in rooted.log && Freed(h) !in rooted.log
      && Finalized(h) in manager.log && Freed(h) in manager.log
  {
    hide *;
    var status;
    manager := new GC_Manager();
    manager.Fields();
    NewIsBlank(manager.State());
    status, p := Allocate(manager);
    RootWritten(manager.State(), p);
    HoldingMeans(manager.State(), p);
    manager.Fields();
    manager.StoreWord(16, p);
    manager.Fields();
    CollectRooted(manager, p);
    rooted := manager.State();
    manager.Fields();
    CollectUnrooted(manager);
    manager.Fields();
    GoneIsFinished(rooted, manager.State(), p);
  }

  lemma HoldingMeans(s: Snapshot, p: Address)
    requires Holding(s, p)
    ensures s.allocations.Keys == {p} && !s.allocations[p].constructing && !s.collecting
    ensures s.allocations[p].header.destructor == Some([])
    ensures AfterAct(s, Store(16, p)).allocations == s.allocations
  {
  }

  lemma NewIsBlank(s: Snapshot)
    requires s.allocations == map[] && s.weak.handles == {} && s.weak.guarded == {} && s.rootRanges == []
    ensures Blank(s) && HeadersOf(s.allocations) == {}
  {
  }
}
