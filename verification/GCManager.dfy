/**
The collector's heap: the allocation map, root ranges, weak registry, counters and
statistics, and the operations that update them in place.

Each critical section here runs with the world stopped or under the manager's mutex (see
StopTheWorld).  What a park inside a call lets happen is a parameter: the words that the
collections of other threads scan.  Line numbers in comments are those of
src/GCManager.cpp.
 */
module GCManager {
  import opened Wrappers
  import opened Words
  import opened Bits
  import opened ChunkHeaders
  import opened Blocks
  import opened Reachability
  import opened RootScanner
  import opened FinalizationOrder
  import opened WeakRegistry
  import opened Accounting
  import opened Lifecycle
  import opened Layout
  import opened Marking
  import opened Sweeping
  import opened HeapState
  import opened Mutation
  import opened HandleState

  // How a call ends: normally, or by one of the two exceptions of the source.
  datatype Status = Done | BadAlloc | LogicError

  // The internal allocation of a collection that fails, if any.
  datatype Failure = NoFailure | ReserveWorklist | ScanRoots | ReserveUnreachable | OrderUnreachable

  // What surrounds a call that allocates: the system allocator, the words a scan of this
  // thread's stack and registers visits, whether a collection it starts runs out of memory,
  // and the collections of other threads wherever the call may park.
  datatype Environment = Environment(
    allocator: OperatorNew, stack: seq<Word>, failure: Failure,
    parkedFirst: Parked, parkedThen: Parked, parkedLast: Parked)

  class GC_Manager {
    var allocations: Allocations
    var weakRefs: seq<WeakRefEntry>
    var rootRanges: seq<RootRange>
    var managedBytes: Word
    var reservedBytes: Word
    var collectionThreshold: Word
    var collecting: bool
    var stats: GCStats
    // The program's memory and the weak handles that exist in it.
    var memory: Memory
    var weakHandles: set<Address>
    var busyHandles: set<Address>
    // The count words of arrays under construction.
    var guardedWords: set<Address>
    // Exact history, for the specification only.
    ghost var registered: set<ChunkHeader>
    ghost var released: set<ChunkHeader>
    ghost var pending: set<ChunkHeader>
    ghost var log: seq<Event>
    ghost var ledger: Ledger

    // --- Abstraction and invariant ---

    ghost function Weak(): WeakState
      reads this`weakRefs, this`memory, this`weakHandles, this`busyHandles, this`guardedWords
    {
      WeakState(Targets(weakRefs), memory, weakHandles, busyHandles, guardedWords)
    }

    ghost function State(): Snapshot
      reads this
    {
      Snapshot(allocations, rootRanges, Weak(), managedBytes, reservedBytes, collectionThreshold, collecting, stats,
               registered, released, pending, log, ledger)
    }

    ghost predicate Valid()
      reads this
    {
      DistinctStorage(weakRefs) && ValidState(State())
    }

    ghost function Headers(): set<ChunkHeader>
      reads this`allocations
    {
      HeadersOf(allocations)
    }

    // The definitions above, for proofs that hide them.
    lemma Fields()
      ensures Valid() <==> DistinctStorage(weakRefs) && ValidState(State())
      ensures State() == Snapshot(allocations, rootRanges, Weak(), managedBytes, reservedBytes, collectionThreshold,
                                  collecting, stats, registered, released, pending, log, ledger)
      ensures Weak() == WeakState(Targets(weakRefs), memory, weakHandles, busyHandles, guardedWords)
      ensures Headers() == HeadersOf(allocations)
    {
    }

    // The mark flags are set on exactly these blocks.
    ghost predicate MarksAre(marked: set<Address>)
      reads this`allocations, Headers()
    {
      marked <= allocations.Keys && forall a :: a in allocations ==> (allocations[a].header.marked <==> a in marked)
    }

    constructor ()
      ensures Valid() && allocations == map[] && weakRefs == [] && rootRanges == [] && !collecting
      ensures managedBytes == 0 && reservedBytes == 0 && memory == map[] && weakHandles == {} && guardedWords == {}
      ensures registered == {} && log == [] && stats == EMPTY_STATS && collectionThreshold == 10485760
    {
      allocations, weakRefs, rootRanges := map[], [], [];
      managedBytes, reservedBytes, collectionThreshold := 0, 0, 10485760;
      collecting, stats := false, EMPTY_STATS;
      memory, weakHandles, busyHandles, guardedWords := map[], {}, {}, {};
      registered, released, pending, log := {}, {}, {}, [];
      EmptyIsConsistent();
      ghost var blank := BlankLedger(0);
      ledger := blank;
    }

    // --- Root ranges ---

    // register_root_range: the range is published before this thread parks, so collections
    // during the call already scan it.
    method RegisterRootRange(begin: Address, end: Address, parked: Parked) returns (ghost pauses: seq<Pause>)
      requires Valid()
      modifies this, Headers()
      ensures Valid() && collecting == old(collecting) && Headers() <= old(Headers())
      ensures begin == 0 || end == 0 || begin == end ==> pauses == [] && State() == old(State())
      ensures begin != 0 && end != 0 && begin != end ==>
                Paused(WithRanges(old(State()), old(rootRanges) + [Normalized(begin, end)]), pauses, State())
      ensures begin != 0 && end != 0 && begin != end ==> AsParked(pauses, parked, old(collecting))
    {
      hide *;
      pauses := [];
      if begin == 0 || end == 0 || begin == end {
        return;
      }
      SetRanges(rootRanges + [Normalized(begin, end)]);
      pauses := Cooperate(parked);
    }

    // unregister_root_range: after parking, the first equal range goes, if there is one.
    method UnregisterRootRange(begin: Address, end: Address, parked: Parked)
      returns (ghost mid: Snapshot, ghost pauses: seq<Pause>)
      requires Valid()
      modifies this, Headers()
      ensures Valid() && collecting == old(collecting) && Headers() <= old(Headers())
      ensures Paused(old(State()), pauses, mid)
      ensures begin == 0 || end == 0 || begin == end ==> State() == old(State())
      ensures begin != 0 && end != 0 && begin != end ==>
                AsParked(pauses, parked, old(collecting)) &&
                State() == WithRanges(mid, WithoutFirst(mid.rootRanges, Normalized(begin, end)))
    {
      hide *;
      mid, pauses := State(), [];
      NoPauses(mid);
      if begin == 0 || end == 0 || begin == end {
        return;
      }
      pauses := Cooperate(parked);
      mid := State();
      Fields();
      var rest := EraseRange(rootRanges, Normalized(begin, end));
      SetRanges(rest);
    }

    method SetRanges(ranges: seq<RootRange>)
      requires Valid()
      modifies this`rootRanges
      ensures Valid() && State() == WithRanges(old(State()), ranges) && Headers() == old(Headers())
    {
      hide WellFormed, HeadersFit, DistinctStorage, Consistent, Balanced, Lives, Targets;
      rootRanges := ranges;
    }

    // std::find_if and erase.
    method EraseRange(ranges: seq<RootRange>, range: RootRange) returns (rest: seq<RootRange>)
      ensures rest == WithoutFirst(ranges, range)
      ensures range !in ranges ==> rest == ranges
      ensures range in ranges ==>
                exists i :: 0 <= i < |ranges| && ranges[i] == range && range !in ranges[..i] &&
                  rest == ranges[..i] + ranges[i + 1..]
    {
      var i := 0;
      while i < |ranges| && ranges[i] != range
        invariant 0 <= i <= |ranges| && range !in ranges[..i]
        invariant WithoutFirst(ranges, range) == ranges[..i] + WithoutFirst(ranges[i..], range)
      {
        i := i + 1;
      }
      rest := if i < |ranges| then ranges[..i] + ranges[i + 1..] else ranges;
    }

    // --- Lookup ---

    // is_live.
    method IsLive(payload: Address, parked: Parked) returns (live: bool, ghost pauses: seq<Pause>)
      requires Valid()
      modifies this, Headers()
      ensures Valid() && collecting == old(collecting) && Headers() <= old(Headers())
      ensures Paused(old(State()), pauses, State())
      ensures live <==> Live(allocations, payload)
      ensures payload != 0 ==> AsParked(pauses, parked, old(collecting))
    {
      hide *;
      pauses := [];
      NoPauses(State());
      if payload == 0 {
        NullIsNotLive(payload);
        return false, pauses;
      }
      pauses := Cooperate(parked);
      Fields();
      ValidIsMarkable(State());
      Fields();
      var found := Find(allocations, payload);
      LiveOwner(allocations, found, payload);
      live := found.Some?;
    }

    lemma NullIsNotLive(payload: Address)
      requires Valid() && payload == 0
      ensures !Live(allocations, payload)
    {
    }

    // --- Marking ---

    method ClearMarks()
      requires WellFormed(allocations)
      modifies Headers()
      ensures MarksAre({})
    {
      hide *;
      ghost var headers := Headers();
      var records := Iterate(allocations);
      ListedHeaders(records, headers);
      var i := 0;
      while i < |records|
        invariant 0 <= i <= |records|
        invariant forall j :: 0 <= j < i ==> !records[j].header.marked
      {
        records[i].header.SetMarked(false);
        i := i + 1;
      }
      NoneMarked(records);
    }

    lemma ListedHeaders(records: seq<BlockRecord>, headers: set<ChunkHeader>)
      requires InOrder(records, allocations) && headers == Headers()
      ensures forall i :: 0 <= i < |records| ==> records[i].header in headers
    {
      hide Ordered;
    }

    lemma NoneMarked(records: seq<BlockRecord>)
      requires InOrder(records, allocations) && forall j :: 0 <= j < |records| ==> !records[j].header.marked
      ensures MarksAre({})
    {
      EveryBlockListed(allocations, records);
      hide Ordered, InOrder;
    }

    // A candidate that addresses an unmarked block marks it and pushes it.
    method MarkCandidate(candidate: Word, worklist0: seq<Address>, ghost marked0: set<Address>)
      returns (worklist: seq<Address>, ghost marked: set<Address>)
      requires WellFormed(allocations) && Markable(allocations)
      requires MarksAre(marked0) && Work(worklist0, marked0)
      modifies Headers()
      ensures MarksAre(marked) && Work(worklist, marked)
      ensures marked == marked0 + Addressed(allocations, [candidate])
      ensures Pushed(worklist0, marked0, worklist, marked)
      ensures |worklist| <= |allocations|
    {
      hide WellFormed, Markable, Work, Pushed, Addressed, Owns, Live, HeadersOf, Contains;
      worklist, marked := worklist0, marked0;
      var found := Find(allocations, candidate);
      AddressedByOne(allocations, candidate, found);
      PushNothing(worklist0, marked0);
      if found.Some? {
        OwnsFound(allocations, found.value, candidate);
        var isNew := MarkIfUnmarked(found.value, marked0);
        if isNew {
          PushOne(worklist0, marked0, found.value);
          worklist, marked := worklist + [found.value], marked + {found.value};
        }
      }
      WorkFits(worklist, marked, allocations);
    }

    // Whether the header is intact and was not marked before; it is marked now.
    method MarkIfUnmarked(a: Address, ghost marked0: set<Address>) returns (isNew: bool)
      requires Markable(allocations) && MarksAre(marked0) && a in allocations
      modifies Headers()
      ensures isNew <==> a !in marked0
      ensures MarksAre(marked0 + {a}) && marked0 + {a} <= allocations.Keys
    {
      var header := allocations[a].header;
      assert header in Headers();
      isNew := header.magicNumber == CHUNK_MAGIC_NUMBER && !header.IsMarked();
      if isNew {
        header.SetMarked(true);
      } else {
        assert marked0 + {a} == marked0;
      }
    }

    lemma WorkFits(worklist: seq<Address>, marked: set<Address>, heap: Allocations)
      requires Work(worklist, marked) && MarksAre(marked) && heap == allocations
      ensures |worklist| <= |heap|
    {
      DistinctKeys(worklist, heap);
    }

    method MarkWords(words: seq<Word>, worklist0: seq<Address>, ghost marked0: set<Address>)
      returns (worklist: seq<Address>, ghost marked: set<Address>)
      requires WellFormed(allocations) && Markable(allocations)
      requires MarksAre(marked0) && Work(worklist0, marked0)
      modifies Headers()
      ensures MarksAre(marked) && Work(worklist, marked)
      ensures marked == marked0 + Addressed(allocations, words)
      ensures Pushed(worklist0, marked0, worklist, marked)
    {
      worklist, marked := worklist0, marked0;
      var i := 0;
      while i < |words|
        invariant 0 <= i <= |words|
        invariant MarksAre(marked) && Work(worklist, marked)
        invariant marked == marked0 + Addressed(allocations, words[..i])
        invariant Pushed(worklist0, marked0, worklist, marked)
      {
        ghost var worklist1, marked1 := worklist, marked;
        worklist, marked := MarkCandidate(words[i], worklist, marked);
        PushedTwice(worklist0, marked0, worklist1, marked1, worklist, marked);
        AddressedMore(allocations, words, i);
        i := i + 1;
      }
      assert words[..i] == words;
    }

    // scan_payload_locked: `cur` stays below 2^63, so the loop guard does not wrap.
    method ScanPayload(a: Address, worklist0: seq<Address>, ghost marked0: set<Address>)
      returns (worklist: seq<Address>, ghost marked: set<Address>)
      requires WellFormed(allocations) && Markable(allocations)
      requires MarksAre(marked0) && Work(worklist0, marked0) && a in allocations
      modifies Headers()
      ensures MarksAre(marked) && Work(worklist, marked)
      ensures marked == marked0 + Addressed(allocations, PayloadWordsOf(memory, allocations[a]))
      ensures Pushed(worklist0, marked0, worklist, marked)
    {
      worklist, marked := worklist0, marked0;
      var block := allocations[a];
      ghost var words := PayloadWordsOf(memory, block);
      hide Markable, MarksAre, Work, Pushed, Addressed;
      var cur: Word := block.payloadBegin;
      ghost var k := 0;
      while cur + WORD_SIZE <= block.payloadEnd
        invariant 0 <= k <= |words| && cur == block.payloadBegin + WORD_SIZE * k
        invariant MarksAre(marked) && Work(worklist, marked)
        invariant marked == marked0 + Addressed(allocations, words[..k])
        invariant Pushed(worklist0, marked0, worklist, marked)
        decreases block.payloadEnd - cur
      {
        ghost var worklist1, marked1 := worklist, marked;
        assert words[k] == Load(memory, cur);
        worklist, marked := MarkCandidate(Load(memory, cur), worklist, marked);
        PushedTwice(worklist0, marked0, worklist1, marked1, worklist, marked);
        AddressedMore(allocations, words, k);
        cur, k := cur + WORD_SIZE, k + 1;
      }
      assert words[..k] == words;
    }

    // One round of the drain: the last block is popped and scanned.
    method ScanLast(worklist1: seq<Address>, ghost marked1: set<Address>, ghost roots: seq<Word>)
      returns (worklist: seq<Address>, ghost marked: set<Address>)
      requires WellFormed(allocations) && Markable(allocations) && worklist1 != []
      requires MarksAre(marked1) && Draining(allocations, memory, roots, worklist1, marked1)
      modifies Headers()
      ensures MarksAre(marked) && Draining(allocations, memory, roots, worklist, marked)
      ensures |worklist| <= |allocations|
      ensures |allocations.Keys - marked| < |allocations.Keys - marked1| ||
              (marked == marked1 && |worklist| < |worklist1|)
    {
      var a := worklist1[|worklist1| - 1];
      assert a in worklist1 && a in marked1;
      hide Draining, Popped, PointsTo;
      ghost var heap, mem := allocations, memory;
      worklist, marked := ScanPayload(a, worklist1[..|worklist1| - 1], marked1);
      assert Popped(heap, mem, worklist1, marked1, worklist, marked);
      DrainStep(heap, mem, roots, worklist1, marked1, worklist, marked);
      DrainShrinks(heap, mem, worklist1, marked1, worklist, marked);
    }

    method DrainMarkWorklist(worklist0: seq<Address>, ghost marked0: set<Address>, ghost roots: seq<Word>)
      requires WellFormed(allocations) && Markable(allocations)
      requires MarksAre(marked0) && Draining(allocations, memory, roots, worklist0, marked0)
      requires |worklist0| <= |allocations|
      modifies Headers()
      ensures MarksAre(Reached(allocations, memory, roots))
    {
      hide *;
      var worklist := worklist0;
      ghost var marked := marked0;
      while worklist != []
        invariant MarksAre(marked) && Draining(allocations, memory, roots, worklist, marked)
        invariant |worklist| <= |allocations|
        decreases |allocations.Keys - marked|, |worklist|
      {
        worklist, marked := ScanLast(worklist, marked, roots);
      }
      DrainDone(allocations, memory, roots, marked);
    }

    // 473-475: blocks under construction are roots.
    method MarkConstructing() returns (worklist: seq<Address>, ghost marked: set<Address>)
      requires WellFormed(allocations) && Markable(allocations) && MarksAre({})
      modifies Headers()
      ensures MarksAre(marked) && Work(worklist, marked)
      ensures marked == Constructing(allocations) && Pushed([], {}, worklist, marked)
    {
      worklist, marked := [], {};
      var records := Iterate(allocations);
      assert MarkedConstructing(allocations, records, 0, worklist, marked);
      var i := 0;
      hide *;
      while i < |records|
        invariant 0 <= i <= |records|
        invariant MarksAre(marked) && MarkedConstructing(allocations, records, i, worklist, marked)
      {
        ghost var worklist0, marked0 := worklist, marked;
        MarkedConstructingSkips(allocations, records, i, worklist, marked);
        if records[i].constructing {
          worklist, marked := MarkCandidate(records[i].payloadBegin, worklist, marked);
          MarkedConstructingMarks(allocations, records, i, worklist0, marked0, worklist, marked);
        }
        i := i + 1;
      }
      MarkedConstructingAll(allocations, records, worklist, marked);
    }

    // scan_registered_roots_locked.
    method MarkRanges(worklist0: seq<Address>, ghost marked0: set<Address>)
      returns (worklist: seq<Address>, ghost marked: set<Address>)
      requires WellFormed(allocations) && Markable(allocations)
      requires MarksAre(marked0) && Work(worklist0, marked0)
      modifies Headers()
      ensures MarksAre(marked) && Work(worklist, marked)
      ensures marked == marked0 + Addressed(allocations, RangeWords(rootRanges, memory))
      ensures Pushed(worklist0, marked0, worklist, marked)
    {
      worklist, marked := worklist0, marked0;
      hide WellFormed, Markable, MarksAre, Work;
      ghost var mem := memory;
      var i := 0;
      while i < |rootRanges|
        invariant 0 <= i <= |rootRanges|
        invariant MarksAre(marked) && Work(worklist, marked)
        invariant marked == marked0 + Addressed(allocations, RangeWords(rootRanges[..i], memory))
        invariant Pushed(worklist0, marked0, worklist, marked)
      {
        ghost var worklist1, marked1 := worklist, marked;
        var visited := ScanWords(rootRanges[i].begin, rootRanges[i].end);
        worklist, marked := MarkWords(LoadAll(memory, visited), worklist, marked);
        PushedTwice(worklist0, marked0, worklist1, marked1, worklist, marked);
        assert rootRanges[..i + 1][..i] == rootRanges[..i];
        AddressedJoin(allocations, RangeWords(rootRanges[..i], memory), LoadAll(memory, visited));
        i := i + 1;
      }
      assert rootRanges[..i] == rootRanges;
    }

    // Everything 473-478 marks: constructing blocks, the words of stacks and registers, and
    // the registered ranges.
    method MarkRoots(stack: seq<Word>) returns (worklist: seq<Address>, ghost marked: set<Address>)
      requires WellFormed(allocations) && Markable(allocations) && MarksAre({})
      modifies Headers()
      ensures MarksAre(marked) && |worklist| <= |allocations|
      ensures Draining(allocations, memory, stack + RangeWords(rootRanges, memory), worklist, marked)
    {
      ghost var marked0, worklist0;
      worklist, marked := MarkConstructing();
      marked0, worklist0 := marked, worklist;
      worklist, marked := MarkWords(stack, worklist, marked);
      PushedTwice([], {}, worklist0, marked0, worklist, marked);
      marked0, worklist0 := marked, worklist;
      worklist, marked := MarkRanges(worklist, marked);
      PushedTwice([], {}, worklist0, marked0, worklist, marked);
      AddressedJoin(allocations, stack, RangeWords(rootRanges, memory));
      InitialDraining(allocations, memory, stack + RangeWords(rootRanges, memory), worklist, marked);
      DistinctKeys(worklist, allocations);
    }

    // --- Sweeping ---

    // Entries whose target lies in [pb, pe) are dropped and their handles zeroed.
    method InvalidateWeakRefs(pb: Address, pe: Address)
      requires DistinctStorage(weakRefs)
      modifies this`weakRefs, this`memory
      ensures DistinctStorage(weakRefs) && Weak() == Invalidate(old(Weak()), pb, pe)
    {
      hide *;
      Fields();
      var kept: seq<WeakRefEntry> := [];
      ghost var mem, entries := memory, weakRefs;
      InvalidateNone(entries, mem, pb, pe);
      var i := 0;
      while i < |weakRefs|
        invariant 0 <= i <= |weakRefs| && weakRefs == entries
        invariant kept == Remaining(entries[..i], pb, pe)
        invariant memory == Zeroed(mem, Hit(entries[..i], pb, pe))
      {
        InvalidateStep(entries, i, mem, pb, pe);
        if TargetIn(weakRefs[i].target, pb, pe) {
          memory := memory[weakRefs[i].storage := 0];
        } else {
          kept := kept + [weakRefs[i]];
        }
        i := i + 1;
      }
      assert entries[..i] == entries;
      RemainingTargets(entries, pb, pe);
      InvalidatedWeak(old(Weak()), entries, pb, pe);
      weakRefs := kept;
      Fields();
    }

    // 984-990: the unmarked records, in order.
    method Unmarked(ghost marked: set<Address>) returns (unreachable: seq<BlockRecord>)
      requires WellFormed(allocations) && MarksAre(marked)
      ensures InOrder(unreachable, Restrict(allocations, allocations.Keys - marked))
    {
      unreachable := [];
      var records := Iterate(allocations);
      ghost var heap, found: Allocations := allocations, map[];
      NothingListed(heap, marked, records);
      hide Ordered, WellFormed, Listed, InOrder;
      var i := 0;
      while i < |records|
        invariant 0 <= i <= |records|
        invariant Listed(heap, marked, records, i, unreachable, found)
      {
        OneMoreListed(heap, marked, records, i, unreachable, found);
        if !records[i].header.IsMarked() {
          unreachable, found := unreachable + [records[i]], found[records[i].payloadBegin := records[i]];
        }
        i := i + 1;
      }
      AllListed(heap, marked, records, unreachable, found);
    }

    // Weak handles into the block are zeroed, the counters go down, the record is erased.
    method DetachBlock(a: Address)
      requires a in allocations && DistinctStorage(weakRefs)
      requires managedBytes as nat == Total(PayloadBytes, allocations)
      requires reservedBytes as nat == Total(ReservedBytes, allocations)
      modifies this`allocations, this`weakRefs, this`memory, this`managedBytes, this`reservedBytes
      ensures allocations == old(allocations) - {a}
      ensures DistinctStorage(weakRefs)
      ensures Weak() == Invalidate(old(Weak()), a, old(allocations[a]).payloadEnd)
      ensures managedBytes as nat == Total(PayloadBytes, allocations)
      ensures reservedBytes as nat == Total(ReservedBytes, allocations)
      ensures managedBytes + old(allocations[a]).header.size == old(managedBytes)
      ensures reservedBytes + ReservedBytes(old(allocations[a])) == old(reservedBytes)
    {
      var block := allocations[a];
      TotalErase(PayloadBytes, allocations, a);
      TotalErase(ReservedBytes, allocations, a);
      managedBytes := managedBytes - block.header.size;
      reservedBytes := reservedBytes - (block.header.payloadOffset + block.header.size);
      InvalidateWeakRefs(a, block.payloadEnd);
      allocations := allocations - {a};
    }

    // What holds after i rounds of the sweep of `heap`, whose weak state was `weak`.
    ghost predicate Sweeping(
        heap: Allocations, weak: WeakState, headers: set<ChunkHeader>, records: seq<BlockRecord>, i: nat,
        marked: set<Address>, gone: set<Address>)
      requires i <= |records| && forall j :: 0 <= j < |records| ==> records[j].header in headers
      reads this, headers
    {
      && allocations == heap - gone && Swept(heap, marked, records, i, gone)
      && DistinctStorage(weakRefs) && Weak() == Expire(weak, heap, gone)
      && managedBytes as nat == Total(PayloadBytes, allocations)
      && reservedBytes as nat == Total(ReservedBytes, allocations)
      && ClearedUpTo(headers, records, i, marked)
    }

    method SweepOne(
        ghost heap: Allocations, ghost weak: WeakState, ghost headers: set<ChunkHeader>, records: seq<BlockRecord>,
        i: nat, ghost marked: set<Address>, ghost gone0: set<Address>)
      returns (ghost gone: set<Address>)
      requires WellFormed(heap) && InOrder(records, heap) && i < |records|
      requires forall j :: 0 <= j < |records| ==> records[j].header in headers
      requires forall j, k :: 0 <= j < k < |records| ==> records[j].header != records[k].header
      requires Sweeping(heap, weak, headers, records, i, marked, gone0)
      modifies this`allocations, this`weakRefs, this`memory, this`managedBytes, this`reservedBytes, records[i].header
      ensures Sweeping(heap, weak, headers, records, i + 1, marked, gone)
    {
      hide WellFormed, Expire, Total, Invalidate, InOrder, Swept, DistinctStorage, ClearedUpTo, Targets;
      gone := gone0;
      var block := records[i];
      OneMoreSwept(heap, marked, records, i, gone);
      NextMark(headers, records, i, marked);
      ExpireOneMore(weak, heap, gone, block.payloadBegin);
      if block.header.IsMarked() {
        ClearMark(headers, records, i, marked);
      } else {
        DetachBlock(block.payloadBegin);
        gone := gone + {block.payloadBegin};
      }
    }

    // 994-1007: marks are cleared, unmarked blocks are detached.
    lemma StartSweep(
        heap: Allocations, weak: WeakState, headers: set<ChunkHeader>, records: seq<BlockRecord>, marked: set<Address>)
      requires heap == allocations && weak == Weak() && headers == HeadersOf(heap) && InOrder(records, heap)
      requires forall i :: 0 <= i < |records| ==>
                 records[i].payloadBegin in heap && heap[records[i].payloadBegin] == records[i] &&
                 records[i].header in headers
      requires DistinctStorage(weakRefs) && MarksAre(marked)
      requires managedBytes as nat == Total(PayloadBytes, heap) && reservedBytes as nat == Total(ReservedBytes, heap)
      ensures Sweeping(heap, weak, headers, records, 0, marked, {})
    {
      hide InOrder, Expire, Total, DistinctStorage, Targets, HeadersOf, MarksAre, Swept, ClearedUpTo;
      ExpireNothing(weak, heap);
      NothingSwept(heap, marked, records);
      NothingCleared(headers, records, marked);
    }

    method IterateForSweep(ghost marked: set<Address>) returns (records: seq<BlockRecord>)
      requires WellFormed(allocations) && Markable(allocations)
      requires DistinctStorage(weakRefs) && MarksAre(marked)
      requires managedBytes as nat == Total(PayloadBytes, allocations)
      requires reservedBytes as nat == Total(ReservedBytes, allocations)
      ensures InOrder(records, allocations)
      ensures forall i :: 0 <= i < |records| ==> records[i].header in Headers()
      ensures forall j, k :: 0 <= j < k < |records| ==> records[j].header != records[k].header
      ensures Sweeping(allocations, Weak(), Headers(), records, 0, marked, {})
    {
      hide WellFormed, Markable, InOrder, Expire, Total, DistinctStorage, Targets, HeadersOf, Swept, ClearedUpTo;
      records := Iterate(allocations);
      HeadersListed(allocations, records);
      StartSweep(allocations, Weak(), Headers(), records, marked);
    }

    method DetachUnmarked(ghost marked: set<Address>)
      requires WellFormed(allocations) && Markable(allocations)
      requires DistinctStorage(weakRefs) && MarksAre(marked)
      requires managedBytes as nat == Total(PayloadBytes, allocations)
      requires reservedBytes as nat == Total(ReservedBytes, allocations)
      modifies this`allocations, this`weakRefs, this`memory, this`managedBytes, this`reservedBytes, Headers()
      ensures allocations == old(allocations) - (old(allocations).Keys - marked)
      ensures MarksAre({})
      ensures DistinctStorage(weakRefs)
      ensures Weak() == Expire(old(Weak()), old(allocations), old(allocations).Keys - marked)
      ensures managedBytes as nat == Total(PayloadBytes, allocations)
      ensures reservedBytes as nat == Total(ReservedBytes, allocations)
    {
      hide *;
      ghost var heap, weak, headers := allocations, Weak(), Headers();
      var records := IterateForSweep(marked);
      ghost var gone: set<Address> := {};
      var i := 0;
      while i < |records|
        invariant 0 <= i <= |records|
        invariant Sweeping(heap, weak, headers, records, i, marked, gone)
      {
        gone := SweepOne(heap, weak, headers, records, i, marked, gone);
        i := i + 1;
      }
      EndSweep(heap, weak, headers, records, marked, gone);
    }

    // The headers of the records in finalization order.
    method OrderForFinalization(records: seq<BlockRecord>)
      returns (batch: seq<ChunkHeader>, ghost g: Graph, ghost out: seq<nat>)
      requires Ordered(records)
      ensures OrderedBy(records, memory, batch, g, out)
    {
      var order;
      order, g, out := OrderBlocks(records, memory);
      OrderIsPermutation(g, out);
      hide *;
      batch := [];
      var i := 0;
      while i < |order|
        invariant 0 <= i <= |order| && |batch| == i && forall v :: v in order ==> v < |records|
        invariant forall j :: 0 <= j < i ==> order[j] < |records| && batch[j] == records[order[j]].header
      {
        assert order[i] in order;
        batch := batch + [records[order[i]].header];
        i := i + 1;
      }
      MakeOrderedBy(records, memory, batch, g, out, order);
    }

    // 484-486: the sum cannot wrap, because the blocks were all accounted for.
    method BytesFreed(batch: seq<ChunkHeader>, ghost mem: Memory, ghost dead: Allocations, ghost report: Report)
      returns (bytes: Word)
      requires InOrder(report.records, dead) && OrderedBy(report.records, mem, batch, report.g, report.out)
      requires Total(PayloadBytes, dead) <= WORD_MAX
      ensures bytes as nat == Total(PayloadBytes, dead)
    {
      bytes := 0;
      ghost var left := dead;
      StartPaying(report.records, mem, batch, report.g, report.out, dead);
      var i := 0;
      hide *;
      while i < |batch|
        invariant 0 <= i <= |batch| && Unpaid(report, batch, i, left)
        invariant bytes + Total(PayloadBytes, left) == Total(PayloadBytes, dead)
      {
        ghost var a := PayOne(report, batch, i, left);
        left := left - {a};
        bytes := bytes + batch[i].size;
        i := i + 1;
      }
      AllPaid(report, batch, left);
    }

    // --- Finalization ---

    // The loop of unregister_weak_ref: the entry is overwritten by the last one.
    method DropEntry(storage: Address)
      requires DistinctStorage(weakRefs)
      modifies this`weakRefs
      ensures DistinctStorage(weakRefs) && Targets(weakRefs) == Targets(old(weakRefs)) - {storage}
    {
      var i := 0;
      while i < |weakRefs|
        invariant 0 <= i <= |weakRefs| && weakRefs == old(weakRefs)
        invariant forall j :: 0 <= j < i ==> weakRefs[j].storage != storage
      {
        if weakRefs[i].storage == storage {
          SwapPopRemoves(weakRefs, i);
          weakRefs := SwapPop(weakRefs, i);
          return;
        }
        i := i + 1;
      }
      assert storage !in Targets(weakRefs);
    }

    // A destructor call, with the mutex free.
    method RunFinalizer(acts: seq<Act>)
      requires Valid() && collecting
      modifies this, Headers()
      decreases 1, 1
      ensures Valid() && State() == AfterActs(old(State()), acts)
      ensures old(MarksAre({})) ==> MarksAre({})
    {
      hide *;
      ghost var before := State();
      RunNoActs(before, acts);
      var i := 0;
      while i < |acts|
        invariant 0 <= i <= |acts| && Valid() && State() == AfterActs(before, acts[..i])
        invariant collecting && Headers() == old(Headers())
        invariant old(MarksAre({})) ==> MarksAre({})
      {
        RunOneAct(acts[i]);
        OneMoreAct(before, acts, i);
        SameHeap(before, acts[..i + 1]);
        i := i + 1;
      }
      assert acts[..i] == acts;
    }

    lemma SameHeap(before: Snapshot, acts: seq<Act>)
      requires State() == AfterActs(before, acts)
      ensures collecting == before.collecting && Headers() == HeadersOf(before.allocations)
    {
    }

    method RunOneAct(act: Act)
      requires Valid() && collecting
      modifies this, Headers()
      decreases 1, 0
      ensures Valid() && State() == AfterAct(old(State()), act) && collecting && Headers() == old(Headers())
      ensures old(MarksAre({})) ==> MarksAre({})
    {
      hide *;
      ghost var before := State();
      Fields();
      match act {
        case Recollect => Reenter(act);
        case Reshutdown => Reenter(act);
        case Store(address, value) => StoreWord(address, value);
        case DropWeak(storage) => DestroyHandle(storage);
        case DropRange(begin, end) => DropRootRange(begin, end);
      }
      SameHeapAfter(before, act);
    }

    lemma SameHeapAfter(before: Snapshot, act: Act)
      requires State() == AfterAct(before, act)
      ensures collecting == before.collecting && Headers() == HeadersOf(before.allocations)
    {
    }

    // Re-entering the collector does nothing.
    method Reenter(act: Act)
      requires Valid() && collecting && (act.Recollect? || act.Reshutdown?)
      modifies this, Headers()
      decreases 0, 1
      ensures Valid() && State() == AfterAct(old(State()), act)
      ensures old(MarksAre({})) ==> MarksAre({})
    {
      hide ValidState, Targets, MarksAre, ShutDown, Collected, Constructing;
      ghost var report;
      var status;
      if act.Recollect? {
        status, report := Collect([], true, NoFailure);
      } else {
        status, report := Shutdown(NoFailure);
      }
    }

    // unregister_root_range from a finalizer: the collecting thread does not park.
    method DropRootRange(begin: Address, end: Address)
      requires Valid()
      modifies this`rootRanges
      ensures Valid() && State() == AfterAct(old(State()), DropRange(begin, end))
      ensures old(MarksAre({})) ==> MarksAre({})
    {
      hide ValidState, Targets, DistinctStorage;
      ActKeepsValid(State(), DropRange(begin, end));
      if begin == 0 || end == 0 || begin == end {
        return;
      }
      var rest := EraseRange(rootRanges, Normalized(begin, end));
      rootRanges := rest;
    }

    method StoreWord(address: Address, value: Word)
      requires Valid()
      modifies this`memory
      ensures Valid() && State() == AfterAct(old(State()), Act.Store(address, value))
      ensures old(MarksAre({})) ==> MarksAre({})
    {
      hide ValidState, Targets, DistinctStorage;
      ActKeepsValid(State(), Act.Store(address, value));
      if address !in weakHandles && address !in guardedWords {
        memory := memory[address := value];
      }
    }

    // ~gc_weak_ptr, for a handle no operation is working on.
    method DestroyHandle(storage: Address)
      requires Valid()
      modifies this`weakRefs, this`weakHandles
      ensures Valid() && State() == AfterAct(old(State()), DropWeak(storage))
      ensures old(MarksAre({})) ==> MarksAre({})
    {
      hide ValidState, Targets, DistinctStorage;
      ActKeepsValid(State(), DropWeak(storage));
      if storage in weakHandles && storage !in busyHandles {
        DropIfRegistered(State(), storage);
        ForgetHandle(storage);
      }
    }

    method ForgetHandle(storage: Address)
      requires DistinctStorage(weakRefs)
      requires Load(memory, storage) == 0 ==> Targets(weakRefs) - {storage} == Targets(weakRefs)
      modifies this`weakRefs, this`weakHandles
      ensures DistinctStorage(weakRefs) && Targets(weakRefs) == Targets(old(weakRefs)) - {storage}
      ensures weakHandles == old(weakHandles) - {storage}
    {
      hide Targets, DistinctStorage;
      if Load(memory, storage) != 0 {
        DropEntry(storage);
      }
      weakHandles := weakHandles - {storage};
    }

    method FinalizeOne(h: ChunkHeader)
      requires Valid() && collecting && h in pending && Finalized(h) !in log
      modifies this, Headers()
      decreases 1, 2
      ensures Valid() && State() == AfterFinalizer(old(State()), h)
      ensures old(MarksAre({})) ==> MarksAre({})
    {
      hide ValidState, Targets, MarksAre, RunActs, DistinctStorage, HeadersOf;
      LogKeepsValid(State(), h);
      if h.destructor.Some? {
        log := log + [Finalized(h)];
        RunFinalizer(h.destructor.value);
      }
    }

    // 1029-1038: the destructors of the whole batch run before any memory is freed.
    method FinalizeAll(batch: seq<ChunkHeader>)
      requires Valid() && collecting && Detached(batch, pending, log)
      modifies this, Headers()
      decreases 2, 0
      ensures Valid() && State() == AfterFinalizers(old(State()), batch)
      ensures old(MarksAre({})) ==> MarksAre({})
    {
      hide *;
      ghost var before := State();
      Fields();
      FinalizeNone(before, batch);
      var i := 0;
      while i < |batch|
        invariant 0 <= i <= |batch| && Valid() && State() == AfterFinalizers(before, batch[..i])
        invariant old(MarksAre({})) ==> MarksAre({})
      {
        NextFinalizer(before, batch, i);
        FinalizeOne(batch[i]);
        OneMoreFinalizer(before, batch, i);
        i := i + 1;
      }
      assert batch[..i] == batch;
    }

    lemma NextFinalizer(before: Snapshot, batch: seq<ChunkHeader>, i: nat)
      requires i < |batch| && Detached(batch, before.pending, before.log) && before.collecting
      requires State() == AfterFinalizers(before, batch[..i])
      ensures collecting && batch[i] in pending && Finalized(batch[i]) !in log
      ensures Headers() == HeadersOf(before.allocations)
    {
      NextNotFinalized(before, batch, i);
    }

    // 1039-1041: free_block_memory for the whole batch.
    method FreeAll(batch: seq<ChunkHeader>)
      requires Valid() && collecting
      requires (forall i, j :: 0 <= i < j < |batch| ==> batch[i] != batch[j]) && forall h :: h in batch ==> h in pending
      requires AllFinalized(batch, log)
      modifies this`pending, this`log
      ensures Valid() && State() == AfterFrees(old(State()), batch)
    {
      hide ValidState, Targets, AfterFrees, AllFinalized;
      FreeNone(State(), batch);
      var i := 0;
      while i < |batch|
        invariant 0 <= i <= |batch| && Valid() && State() == AfterFrees(old(State()), batch[..i])
      {
        OneMoreFree(old(State()), batch, i);
        pending, log := pending - {batch[i]}, log + [Freed(batch[i])];
        i := i + 1;
      }
      assert batch[..i] == batch;
    }

    method DestroyBlocks(batch: seq<ChunkHeader>)
      requires Valid() && collecting && Detached(batch, pending, log)
      modifies this, Headers()
      decreases 2, 1
      ensures Valid() && State() == AfterDestroy(old(State()), batch)
      ensures old(MarksAre({})) ==> MarksAre({})
    {
      hide ValidState, Targets, MarksAre, RunFinalizers, Finalizations, Frees;
      FinalizeAll(batch);
      BatchFinalized(old(State()), batch);
      FreeAll(batch);
      AllFreed(old(State()), batch);
    }

    // --- Collection ---

    // 480-495: sweep, and the statistics of the collection.  Every internal allocation
    // that may fail comes before the first block is detached.
    method Reclaim(ghost marked: set<Address>, failure: Failure)
      returns (status: Status, batch: seq<ChunkHeader>, ghost report: Report)
      requires Valid() && collecting && pending == {} && MarksAre(marked)
      modifies this, Headers()
      ensures Valid()
      ensures failure.ReserveUnreachable? || failure.OrderUnreachable? ==> status == BadAlloc && State() == old(State())
      ensures !failure.ReserveUnreachable? && !failure.OrderUnreachable? ==>
                && status == Done && MarksAre({}) && batch == report.batch
                && Reclaimed(old(State()), State(), marked, report) && Detached(batch, pending, log)
    {
      hide ValidState, WellFormed, Markable, DistinctStorage, InOrder, Restrict, Reclaimed, Detached, Targets,
           HeadersOf;
      batch, report := [], NO_REPORT;
      if failure.ReserveUnreachable? {
        return BadAlloc, batch, report;
      }
      ValidIsMarkable(State());
      var unreachable := Unmarked(marked);
      if failure.OrderUnreachable? {
        return BadAlloc, batch, report;
      }
      batch, report := SweepAndCount(marked, unreachable);
      status := Done;
    }

    method SweepAndCount(ghost marked: set<Address>, unreachable: seq<BlockRecord>)
      returns (batch: seq<ChunkHeader>, ghost report: Report)
      requires Valid() && collecting && pending == {} && MarksAre(marked)
      requires InOrder(unreachable, Restrict(allocations, allocations.Keys - marked))
      modifies this, Headers()
      ensures Valid() && MarksAre({}) && batch == report.batch
      ensures Reclaimed(old(State()), State(), marked, report) && Detached(batch, pending, log)
    {
      hide ValidState, WellFormed, Markable, InOrder, OrderedBy, Ordered, Restrict, Targets, DistinctStorage, SweptAll,
           Reclaimed, Detached, HeadersOf;
      ghost var s := State();
      ListIsOrdered(unreachable, Restrict(allocations, allocations.Keys - marked));
      ghost var g, out;
      batch, g, out := OrderForFinalization(unreachable);
      report := Report(unreachable, g, out, batch);
      SweepAll(marked);
      CountReclaimed(s, marked, batch, report);
    }

    method SweepAll(ghost marked: set<Address>)
      requires Valid() && MarksAre(marked)
      modifies this, Headers()
      ensures SweptAll(old(State()), State(), marked) && MarksAre({}) && DistinctStorage(weakRefs)
    {
      ValidIsMarkable(State());
      hide MarksAre, DistinctStorage, Targets, Expire, Total, WellFormed, HeadersFit, Markable, Consistent, Lives;
      DetachUnmarked(marked);
    }

    // 482-492: the bytes freed, and the statistics.
    method CountReclaimed(
        ghost s: Snapshot, ghost marked: set<Address>, batch: seq<ChunkHeader>, ghost report: Report)
      requires ValidState(s) && s.collecting && s.pending == {} && DistinctStorage(weakRefs)
      requires SweptAll(s, State(), marked) && batch == report.batch
      requires InOrder(report.records, Restrict(s.allocations, s.allocations.Keys - marked))
      requires OrderedBy(report.records, s.weak.memory, batch, report.g, report.out)
      modifies this`stats, this`ledger, this`pending
      ensures Valid() && Reclaimed(s, State(), marked, report) && Detached(batch, pending, log)
      ensures old(MarksAre({})) ==> MarksAre({})
    {
      hide ValidState, SweptAll, DistinctStorage, InOrder, OrderedBy, Restrict, Reclaimed, Detached, Total, Recorded,
           State;
      ghost var s1 := State();
      SweptBytes(s, marked);
      var bytes := BytesFreed(batch, s.weak.memory, Restrict(s.allocations, s.allocations.Keys - marked), report);
      RecordCollection(bytes, |batch|, HeadersOf(s.allocations));
      FinishSweep(s, s1, State(), marked, report, bytes);
      Fields();
    }

    lemma SweptBytes(s: Snapshot, marked: set<Address>)
      requires ValidState(s) && SweptAll(s, State(), marked)
      ensures s.managedBytes as nat ==
                managedBytes + Total(PayloadBytes, Restrict(s.allocations, s.allocations.Keys - marked))
      ensures Total(PayloadBytes, Restrict(s.allocations, s.allocations.Keys - marked)) <= WORD_MAX
    {
      hide ValidState, SweptAll, Total, Restrict, PayloadBytes;
      SweptTotals(s, State(), marked);
    }

    // 489-492: the counters of a collection, and the headers that wait for it to end.
    method RecordCollection(bytes: Word, blocks: nat, ghost headers: set<ChunkHeader>)
      modifies this`stats, this`ledger, this`pending
      ensures State() == Recorded(old(State()), bytes, blocks, headers)
      ensures pending == State().pending && log == State().log
      ensures old(MarksAre({})) ==> MarksAre({})
    {
      hide Targets, StatsAfter, LedgerAfter;
      stats := StatsAfter(stats, bytes, blocks);
      ledger := LedgerAfter(ledger, bytes, managedBytes, |allocations|);
      pending := headers - HeadersOf(allocations);
    }

    // collect(), for the thread that holds the stopped world.  `stack` is every word the
    // scan of stacks, registers and globals visits.
    method Collect(stack: seq<Word>, registeredThread: bool, failure: Failure)
      returns (status: Status, ghost report: Report)
      requires Valid()
      modifies this, Headers()
      decreases if collecting then 0 else 3, 0
      ensures Valid()
      ensures old(collecting) ==> status == Done && State() == old(State()) && (old(MarksAre({})) ==> MarksAre({}))
      ensures !old(collecting) && !registeredThread ==> status == LogicError && State() == old(State())
      ensures !old(collecting) && registeredThread && failure != NoFailure ==>
                status == BadAlloc && State() == old(State())
      ensures !old(collecting) && registeredThread && failure == NoFailure ==>
                status == Done && MarksAre({}) && Collected(old(State()), State(), stack, report)
    {
      report := NO_REPORT;
      if collecting {
        return Done, report;
      }
      if !registeredThread {
        return LogicError, report;
      }
      hide *;
      status, report := CollectStopped(stack, failure);
    }

    // 462-504: mark, sweep, finalize, release.
    method CollectStopped(stack: seq<Word>, failure: Failure) returns (status: Status, ghost report: Report)
      requires Valid() && !collecting
      modifies this, Headers()
      decreases 2, 3
      ensures Valid()
      ensures failure != NoFailure ==> status == BadAlloc && State() == old(State())
      ensures failure == NoFailure ==> status == Done && MarksAre({}) && Collected(old(State()), State(), stack, report)
    {
      hide ValidState, Targets, MarksAre, Reclaimed, Collected, DistinctStorage, HeadersOf, Detached, WellFormed;
      ghost var s := State();
      RaiseFlag(s);
      collecting := true;
      ghost var kept;
      var batch;
      status, batch, report, kept := MarkAndReclaim(stack, failure);
      if status != Done {
        LowerFlag(State());
        collecting := false;
        return;
      }
      ReclaimedKeepsFlag(s.(collecting := true), State(), kept, report);
      FinishCollect(s, stack, kept, batch, report);
    }

    method FinishCollect(
        ghost s: Snapshot, ghost stack: seq<Word>, ghost kept: set<Address>, batch: seq<ChunkHeader>,
        ghost report: Report)
      requires Valid() && collecting && !s.collecting && WellFormed(s.allocations) && batch == report.batch
      requires kept == Reached(s.allocations, s.weak.memory, stack + RangeWords(s.rootRanges, s.weak.memory))
      requires Reclaimed(s.(collecting := true), State(), kept, report) && Detached(batch, pending, log) && MarksAre({})
      modifies this, Headers()
      decreases 2, 2
      ensures Valid() && MarksAre({}) && Collected(s, State(), stack, report)
    {
      ghost var mid := State();
      hide *;
      DestroyBlocks(batch);
      LowerCollecting(mid, batch);
      FinishCollection(s, mid, State(), stack, kept, report);
    }

    // The flag part of release_stop_the_world.
    method LowerCollecting(ghost mid: Snapshot, ghost batch: seq<ChunkHeader>)
      requires Valid() && State() == AfterDestroy(mid, batch)
      modifies this`collecting
      ensures Valid() && State() == AfterDestroy(mid, batch).(collecting := false)
      ensures old(MarksAre({})) ==> MarksAre({})
    {
      hide ValidState, Targets, DistinctStorage;
      LowerFlag(State());
      collecting := false;
    }

    // 469-495: the part under the mutex.
    method MarkAndReclaim(stack: seq<Word>, failure: Failure)
      returns (status: Status, batch: seq<ChunkHeader>, ghost report: Report, ghost kept: set<Address>)
      requires Valid() && collecting && pending == {}
      modifies this, Headers()
      ensures Valid()
      ensures failure != NoFailure ==> status == BadAlloc && State() == old(State())
      ensures failure == NoFailure ==>
                && status == Done && MarksAre({}) && batch == report.batch && WellFormed(old(allocations))
                && kept == Reached(old(allocations), old(memory), stack + RangeWords(old(rootRanges), old(memory)))
                && Reclaimed(old(State()), State(), kept, report) && Detached(batch, pending, log)
    {
      batch, report, kept := [], NO_REPORT, {};
      hide ValidState, Targets, Markable, Reclaimed, WellFormed, MarksAre, DistinctStorage, HeadersOf, Detached;
      ValidIsMarkable(State());
      ClearMarks();
      if failure.ReserveWorklist? {
        return BadAlloc, batch, report, kept;
      }
      ghost var marked;
      var worklist;
      worklist, marked := MarkRoots(stack);
      if failure.ScanRoots? {
        return BadAlloc, batch, report, kept;
      }
      ghost var roots := stack + RangeWords(rootRanges, memory);
      DrainMarkWorklist(worklist, marked, roots);
      kept := Reached(allocations, memory, roots);
      status, batch, report := Reclaim(kept, failure);
    }

    method Shutdown(failure: Failure) returns (status: Status, ghost report: Report)
      requires Valid()
      modifies this, Headers()
      decreases if collecting then 0 else 3, 0
      ensures Valid() && (old(MarksAre({})) ==> MarksAre({}))
      ensures old(collecting) ==> status == Done && State() == old(State())
      ensures !old(collecting) && Constructing(old(allocations)) != {} ==>
                status == LogicError && State() == old(State())
      ensures !old(collecting) && Constructing(old(allocations)) == {} && failure != NoFailure ==>
                status == BadAlloc && State() == old(State())
      ensures !old(collecting) && Constructing(old(allocations)) == {} && failure == NoFailure ==>
                status == Done && ShutDown(old(State()), State(), report)
    {
      report := NO_REPORT;
      if collecting {
        return Done, report;
      }
      ghost var s := State();
      RaiseFlag(s);
      ValidIsMarkable(s);
      hide ValidState, Targets, ShutDown, DetachedAll;
      var busy := AnyConstructing();
      if busy {
        return LogicError, report;
      }
      if failure != NoFailure {
        return BadAlloc, report;
      }
      collecting := true;
      var batch;
      batch, report := DetachAll();
      ghost var mid := State();
      DetachedAllKeepsFlag(s.(collecting := true), mid, report);
      DestroyBlocks(batch);
      LowerCollecting(mid, batch);
      FinishShutdown(s, mid, State(), report);
      status := Done;
    }

    method AnyConstructing() returns (any: bool)
      requires WellFormed(allocations)
      ensures any <==> Constructing(allocations) != {}
    {
      hide Ordered, WellFormed;
      var records := Iterate(allocations);
      EveryBlockListed(allocations, records);
      any := false;
      var i := 0;
      while i < |records|
        invariant 0 <= i <= |records|
        invariant forall j :: 0 <= j < i ==> !records[j].constructing
      {
        if records[i].constructing {
          assert records[i].payloadBegin in Constructing(allocations);
          return true;
        }
        i := i + 1;
      }
    }

    // 530-537: everything is detached, every weak handle zeroed, the statistics reset.
    method DetachAll() returns (batch: seq<ChunkHeader>, ghost report: Report)
      requires Valid() && collecting && pending == {}
      modifies this
      ensures Valid() && batch == report.batch && Detached(batch, pending, log)
      ensures DetachedAll(old(State()), State(), report)
    {
      ghost var s := State();
      hide ValidState, InOrder, OrderedBy, Ordered, Detached, WellFormed, Markable, Targets, DistinctStorage, HeadersOf,
           DetachedAll, Restrict, CollectedFrom;
      ValidIsMarkable(s);
      var records := Iterate(allocations);
      ListIsOrdered(records, allocations);
      ghost var g, out;
      batch, g, out := OrderForFinalization(records);
      report := Report(records, g, out, batch);
      CollectedAll(s, report);
      WholeBatchIsDetached(s, report);
      ClearHeap(HeadersOf(s.allocations));
      FinishDetachAll(s, State(), report);
    }

    // 1022-1024 and 531-537: empty heap, null handles, fresh statistics.
    method ClearHeap(ghost headers: set<ChunkHeader>)
      requires DistinctStorage(weakRefs)
      modifies this`allocations, this`managedBytes, this`reservedBytes, this`weakRefs, this`memory, this`stats,
        this`pending, this`ledger
      ensures DistinctStorage(weakRefs) && IsBlank(ledger) && Balanced(map[], 0, 0, EMPTY_STATS, ledger)
      ensures State() == Cleared(old(State()), headers, ledger)
      ensures pending == headers && log == old(log)
    {
      hide Targets, Forget, Balanced, IsBlank, DistinctStorage;
      ResetCounters(headers);
      ZeroHandles();
      StartLedger();
    }

    method ResetCounters(ghost headers: set<ChunkHeader>)
      modifies this`allocations, this`managedBytes, this`reservedBytes, this`stats, this`pending
      ensures State() == Emptied(old(State()), headers)
    {
      hide *;
      ghost var s := State();
      Fields();
      allocations, managedBytes, reservedBytes := map[], 0, 0;
      stats := EMPTY_STATS;
      pending := headers;
      Fields();
      EmptiedFields(s, headers);
    }

    ghost method StartLedger()
      modifies this`ledger
      ensures IsBlank(ledger) && Balanced(map[], 0, 0, EMPTY_STATS, ledger)
    {
      ledger := BlankLedger(0);
    }

    // 531-536: every registered handle is zeroed.
    method ZeroHandles()
      requires DistinctStorage(weakRefs)
      modifies this`weakRefs, this`memory
      ensures weakRefs == [] && DistinctStorage(weakRefs)
      ensures Weak() == Forget(old(Weak()), Targets(old(weakRefs)).Keys)
    {
      ghost var mem := memory;
      ZeroNone(mem, weakRefs);
      var i := 0;
      while i < |weakRefs|
        invariant 0 <= i <= |weakRefs| && weakRefs == old(weakRefs)
        invariant memory == Zeroed(mem, StoragesOf(weakRefs[..i]))
      {
        ZeroMore(mem, weakRefs, i);
        memory := memory[weakRefs[i].storage := 0];
        i := i + 1;
      }
      assert weakRefs[..i] == weakRefs;
      StoragesAreKeys(weakRefs);
      weakRefs := [];
    }

    // --- Mutators ---

    // cooperate_with_stop_the_world_locked: while this thread is parked, other threads run
    // whole collections, whose scans of stacks and registers visit the words of `parked`.
    // The collector itself, in a finalizer, does not park.
    method Cooperate(parked: Parked) returns (ghost pauses: seq<Pause>)
      requires Valid()
      modifies this, Headers()
      ensures Valid() && collecting == old(collecting) && Paused(old(State()), pauses, State())
      ensures Headers() <= old(Headers())
      ensures AsParked(pauses, parked, old(collecting)) && (old(collecting) ==> State() == old(State()))
    {
      pauses := [];
      hide *;
      ghost var s := State();
      NoPauses(s);
      ParkedThrough(pauses, parked);
      if collecting {
        return;
      }
      var i := 0;
      while i < |parked|
        invariant 0 <= i <= |parked| && Valid() && !collecting
        invariant Paused(s, pauses, State()) && Headers() <= old(Headers())
        invariant |pauses| == i && forall k :: 0 <= k < i ==> pauses[k].stack == parked[k]
      {
        ghost var pause;
        pause := CollectElsewhere(parked[i]);
        OneMorePause(s, pauses, pause.before, State(), parked[i], pause.report);
        pauses := pauses + [Pause(pause.before, parked[i], pause.report, State())];
        i := i + 1;
      }
      ParkedThrough(pauses, parked);
    }

    method CollectElsewhere(stack: seq<Word>) returns (ghost pause: Pause)
      requires Valid() && !collecting
      modifies this, Headers()
      ensures Valid() && !collecting && Headers() <= old(Headers())
      ensures pause.before == old(State()) && pause.after == State() && pause.stack == stack
      ensures ValidState(pause.before) && Collected(pause.before, State(), stack, pause.report)
    {
      hide ValidState, Collected, MarksAre, Targets, HeadersOf;
      ghost var s := State();
      ghost var report;
      var status;
      status, report := Collect(stack, true, NoFailure);
      ValidIsMarkable(s);
      CollectedFields(s, stack, report);
      pause := Pause(s, stack, report, State());
    }

    lemma CollectedFields(s: Snapshot, stack: seq<Word>, report: Report)
      requires WellFormed(s.allocations) && Collected(s, State(), stack, report)
      ensures collecting == s.collecting && Headers() <= HeadersOf(s.allocations)
    {
      CollectedParts(s, State(), stack, report);
    }

    // 350-355: operator new, a collection if that fails, and operator new again.  `asked` is
    // the state in which it gave its last answer.
    method AcquireRegion(
        total: Word, alignment: Word, allocator: OperatorNew, stack: seq<Word>, failure: Failure, parked: Parked)
      returns (status: Status, raw: Address, ghost pauses: seq<Pause>, ghost asked: Snapshot)
      requires Valid() && !collecting && Honest(allocator)
      modifies this, Headers()
      ensures Valid() && !collecting && Paused(old(State()), pauses, State()) && Headers() <= old(Headers())
      ensures
        var first := allocator(Occupied(old(allocations), old(weakHandles)), total, alignment);
        if first.Some? then status == Done && State() == old(State()) && pauses == []
        else if failure != NoFailure then status == BadAlloc && asked == old(State())
        else
          && pauses != [] && pauses[|pauses| - 1].stack == stack && pauses[|pauses| - 1].after == State()
          && asked == State()
          && (status == Done <==> allocator(Occupied(allocations, weakHandles), total, alignment).Some?)
      ensures status == Done ==> Fresh(raw, Occupied(allocations, weakHandles), total, alignment)
      ensures status != Done ==>
                && status == BadAlloc
                && allocator(Occupied(asked.allocations, asked.weak.handles), total, alignment).None?
    {
      hide *;
      status, pauses, asked := Done, [], State();
      NoPauses(State());
      Fields();
      var answer := allocator(Occupied(allocations, weakHandles), total, alignment);
      if answer.Some? {
        HonestAnswer(allocator, Occupied(allocations, weakHandles), total, alignment);
        return Done, answer.value, pauses, asked;
      }
      status, pauses := CollectAfterCooperating(stack, failure, parked);
      if status != Done {
        return BadAlloc, 0, pauses, asked;
      }
      Fields();
      answer, asked := allocator(Occupied(allocations, weakHandles), total, alignment), State();
      if answer.None? {
        return BadAlloc, 0, pauses, asked;
      }
      HonestAnswer(allocator, Occupied(allocations, weakHandles), total, alignment);
      raw := answer.value;
    }

    // collect(), from the registered thread that calls it: it parks for other collections first.
    method CollectAfterCooperating(stack: seq<Word>, failure: Failure, parked: Parked)
      returns (status: Status, ghost pauses: seq<Pause>)
      requires Valid() && !collecting
      modifies this, Headers()
      ensures Valid() && !collecting && Paused(old(State()), pauses, State()) && Headers() <= old(Headers())
      ensures status == if failure == NoFailure then Done else BadAlloc
      ensures failure == NoFailure ==>
                pauses != [] && pauses[|pauses| - 1].stack == stack && pauses[|pauses| - 1].after == State()
    {
      hide *;
      pauses := Cooperate(parked);
      if failure != NoFailure {
        FailedCollection(stack, failure);
        return BadAlloc, pauses;
      }
      ghost var pause;
      pause := CollectElsewhere(stack);
      OneMorePause(old(State()), pauses, pause.before, State(), stack, pause.report);
      pauses := pauses + [Pause(pause.before, stack, pause.report, State())];
      status := Done;
    }

    method FailedCollection(stack: seq<Word>, failure: Failure)
      requires Valid() && !collecting && failure != NoFailure
      modifies this, Headers()
      ensures Valid() && !collecting && State() == old(State()) && Headers() == old(Headers())
    {
      hide ValidState, Collected, MarksAre, Targets, HeadersOf;
      ghost var report;
      var status;
      status, report := Collect(stack, true, failure);
    }

    // memset and register_block_locked.
    method RegisterBlock(h: ChunkHeader, p: Address, constructing: bool)
      requires Valid() && Placed(State(), h, p)
      requires managedBytes + h.size <= WORD_MAX && reservedBytes + (h.payloadOffset + h.size) <= WORD_MAX
      modifies this
      ensures Valid() && State() == RegisteredAt(old(State()), h, p, constructing) && collecting == old(collecting)
      ensures Headers() <= old(Headers()) + {h} && LeavesRest(old(State()), State(), p, h.size)
    {
      hide ValidState, Targets, DistinctStorage, Counted, ZeroRange, HeadersOf, Occupied;
      ghost var s := State();
      RegisteredIsValid(s, h, p, constructing);
      RegistrationLeavesRest(s, h, p, constructing);
      memory := ZeroRange(memory, p, p + h.size);
      allocations := allocations[p := BlockRecord(h, p, p + h.size, constructing)];
      registered := registered + {h};
      OneMoreHeader(s.allocations, p, allocations[p]);
      CountBlock(h);
    }

    // 827-832: the counters of a new block.
    method CountBlock(h: ChunkHeader)
      requires managedBytes + h.size <= WORD_MAX && reservedBytes + (h.payloadOffset + h.size) <= WORD_MAX
      modifies this`managedBytes, this`reservedBytes, this`stats, this`ledger
      ensures State() == Counted(old(State()), h)
    {
      hide Targets, StatsWith, LedgerWith, State, Counted, Valid;
      ghost var s := State();
      Fields();
      managedBytes := managedBytes + h.size;
      reservedBytes := reservedBytes + (h.payloadOffset + h.size);
      stats := StatsWith(stats, h.size, managedBytes, |allocations|);
      ledger := LedgerWith(ledger, h.size, managedBytes, |allocations|);
      Fields();
      CountedFields(s, State(), h);
    }

    // malloc_internal, by a thread whose registration is `registeredThread`.  When it fails,
    // the heap is as the collections during the call left it.
    method MallocInternal(
        payloadSize: Word, payloadAlignment: Word, destructor: Option<seq<Act>>, constructing: bool,
        registeredThread: bool, env: Environment)
      returns (status: Status, payload: Address, ghost mid: Snapshot, ghost pauses: seq<Pause>,
               ghost made: set<ChunkHeader>, ghost asked: Snapshot)
      requires Valid() && !collecting && Honest(env.allocator)
      modifies this, Headers()
      ensures Valid() && !collecting && ValidState(mid) && Paused(old(State()), pauses, mid)
      ensures fresh(made) && Headers() <= old(Headers()) + made
      ensures status != Done ==> State() == mid
      ensures status == Done ==>
                && registeredThread && payload in allocations && fresh(allocations[payload].header)
                && Allocated(mid, State(), payload, payloadSize, payloadAlignment, destructor, constructing)
                && LeavesRest(mid, State(), payload, payloadSize)
      ensures payloadSize == 0 || !HasSingleBit(payloadAlignment) ==> status == BadAlloc && State() == old(State())
      ensures payloadSize > 0 && HasSingleBit(payloadAlignment) && !registeredThread ==> status == LogicError
      ensures registeredThread && status != Done ==>
                && status == BadAlloc && Refused(asked, mid, payloadSize, payloadAlignment, env.allocator)
                && Passed(old(State()), pauses, asked, mid)
    {
      hide *;
      payload, pauses, mid, made, asked := 0, [], State(), {}, State();
      NoPauses(mid);
      AskedWithin(mid, [], mid, mid);
      Fields();
      if payloadSize == 0 || !HasSingleBit(payloadAlignment) {
        NoLayout(mid, mid, payloadSize, payloadAlignment, env.allocator);
        return BadAlloc, payload, mid, pauses, made, asked;
      }
      pauses := Cooperate(env.parkedFirst);
      mid, asked := State(), State();
      Fields();
      AskedWithin(old(State()), pauses, mid, mid);
      if !registeredThread {
        return LogicError, payload, mid, pauses, made, asked;
      }
      var layout := LayoutOf(payloadSize, payloadAlignment);
      if layout.None? {
        NoLayout(mid, mid, payloadSize, payloadAlignment, env.allocator);
        return BadAlloc, payload, mid, pauses, made, asked;
      }
      ghost var s, first := mid, pauses;
      status, payload, mid, pauses, made, asked :=
        AllocateAt(layout.value, payloadSize, payloadAlignment, destructor, constructing, env);
      PausesCompose(old(State()), first, s, pauses, mid);
      PassedLater(old(State()), first, s, pauses, asked, mid);
      if status == Done {
        AllocationLeavesRest(mid, State(), payload, payloadSize, payloadAlignment, destructor, constructing);
      }
      pauses := first + pauses;
    }

    // 347-383: from operator new to registration.
    method AllocateAt(
        layout: BlockLayout, payloadSize: Word, ghost payloadAlignment: Word, destructor: Option<seq<Act>>,
        constructing: bool, env: Environment)
      returns (status: Status, payload: Address, ghost mid: Snapshot, ghost pauses: seq<Pause>,
               ghost made: set<ChunkHeader>, ghost asked: Snapshot)
      requires Valid() && !collecting && Honest(env.allocator)
      requires LayoutOf(payloadSize, payloadAlignment) == Some(layout)
      modifies this, Headers()
      ensures Valid() && !collecting && ValidState(mid) && Paused(old(State()), pauses, mid)
      ensures fresh(made) && Headers() <= old(Headers()) + made
      ensures status != Done ==> State() == mid
      ensures status == Done ==>
                && payload in allocations && fresh(allocations[payload].header)
                && Allocated(mid, State(), payload, payloadSize, payloadAlignment, destructor, constructing)
      ensures Passed(old(State()), pauses, asked, mid)
      ensures status != Done ==>
                status == BadAlloc && Refused(asked, mid, payloadSize, payloadAlignment, env.allocator)
    {
      hide *;
      made := {};
      var raw;
      NoPauses(State());
      status, raw, pauses, asked :=
        AcquireRegion(layout.total, layout.alignment, env.allocator, env.stack, env.failure, env.parkedThen);
      mid := State();
      Fields();
      if status != Done {
        AllocatorRefused(asked, mid, payloadSize, payloadAlignment, env.allocator, layout);
        AskedWithin(old(State()), pauses, asked, mid);
        return status, 0, mid, pauses, made, asked;
      }
      LayoutBounds(payloadSize, payloadAlignment, layout, raw, Occupied(allocations, weakHandles));
      var header := new ChunkHeader(payloadSize, destructor, layout.offset, layout.alignment);
      ghost var s, first := State(), pauses;
      assert header !in registered;
      Fields();
      pauses := Cooperate(env.parkedLast);
      mid := State();
      Fields();
      StillPlaced(s, pauses, mid, header, raw, payloadSize, payloadAlignment, layout);
      PausesCompose(old(State()), first, s, pauses, mid);
      PassedBetween(old(State()), first, s, pauses, mid);
      asked, pauses := s, first + pauses;
      Fields();
      if AddWouldOverflow(managedBytes, payloadSize) || AddWouldOverflow(reservedBytes, layout.total) {
        WouldOverflow(asked, mid, payloadSize, payloadAlignment, env.allocator, layout);
        return BadAlloc, 0, mid, pauses, made, asked;
      }
      NoOverflow(managedBytes, payloadSize);
      NoOverflow(reservedBytes, layout.total);
      payload := raw + layout.offset;
      RegisterBlock(header, payload, constructing);
      made := {header};
      NewBlock(mid, State(), header, payload, payloadSize, payloadAlignment, destructor, constructing, layout);
      Fields();
    }

    // finish_construction.
    method FinishConstruction(payload: Address, parked: Parked)
      returns (status: Status, ghost mid: Snapshot, ghost pauses: seq<Pause>)
      requires Valid()
      modifies this, Headers()
      ensures Valid() && collecting == old(collecting) && Paused(old(State()), pauses, mid)
      ensures Headers() <= old(Headers()) && ValidState(mid)
      ensures AsParked(pauses, parked, old(collecting))
      ensures status == if payload in mid.allocations then Done else LogicError
      ensures State() == if payload in mid.allocations then Constructed(mid, payload) else mid
    {
      hide Valid, State, Headers, Paused, AsParked, MarksAre, ValidState, Constructed;
      pauses := Cooperate(parked);
      mid := State();
      Fields();
      if payload !in allocations {
        return LogicError, mid, pauses;
      }
      Publish(payload);
      status := Done;
    }

    method Publish(payload: Address)
      requires Valid() && payload in allocations
      modifies this`allocations
      ensures Valid() && collecting == old(collecting) && Headers() <= old(Headers())
      ensures payload in old(State()).allocations && State() == Constructed(old(State()), payload)
    {
      hide ValidState, Targets, DistinctStorage, HeadersOf;
      ConstructedIsValid(State(), payload);
      OneMoreHeader(allocations, payload, allocations[payload].(constructing := false));
      HeaderListed(allocations, payload);
      allocations := allocations[payload := allocations[payload].(constructing := false)];
    }

    // release_unconstructed.
    method ReleaseUnconstructed(payload: Address, registeredThread: bool, parked: Parked)
      returns (status: Status, ghost mid: Snapshot, ghost pauses: seq<Pause>)
      requires Valid() && !collecting
      modifies this, Headers()
      ensures Valid() && !collecting && Paused(old(State()), pauses, mid) && Headers() <= old(Headers())
      ensures payload != 0 ==> AsParked(pauses, parked, false)
      ensures payload == 0 ==> status == Done && State() == old(State())
      ensures payload != 0 && !registeredThread ==> status == LogicError && State() == mid
      ensures payload != 0 && registeredThread ==> status == Done
      ensures payload != 0 && registeredThread && payload !in mid.allocations ==> State() == mid
      ensures payload != 0 && registeredThread && payload in mid.allocations ==>
                ValidState(mid) && BytesHeld(mid, payload) && State() == Released(mid, payload)
    {
      hide Valid, State, Headers, Paused, AsParked, MarksAre, ValidState, Released, BytesHeld;
      status, pauses, mid := Done, [], State();
      NoPauses(mid);
      if payload == 0 {
        return;
      }
      pauses := Cooperate(parked);
      mid := State();
      Fields();
      if !registeredThread {
        return LogicError, mid, pauses;
      }
      if payload in allocations {
        RemoveBlock(payload);
      }
    }

    // 410-415 and 420: the record is erased, and the memory freed.
    method RemoveBlock(payload: Address)
      requires Valid() && !collecting && payload in allocations
      modifies this
      ensures Valid() && !collecting && Headers() <= old(Headers())
      ensures ValidState(old(State())) && BytesHeld(old(State()), payload)
      ensures State() == Released(old(State()), payload)
    {
      hide *;
      ghost var s := State();
      BeforeRelease(payload);
      Fields();
      FewerHeaders(allocations, payload);
      ghost var b := allocations[payload];
      DetachBlock(payload);
      LogRelease(b.header);
      FinishRelease(s, payload);
      Fields();
    }

    lemma BeforeRelease(payload: Address)
      requires Valid() && !collecting && payload in allocations
      ensures DistinctStorage(weakRefs) && ValidState(State()) && BytesHeld(State(), payload)
      ensures ValidState(Released(State(), payload))
      ensures managedBytes as nat == Total(PayloadBytes, allocations)
      ensures reservedBytes as nat == Total(ReservedBytes, allocations)
    {
      hide Targets, DistinctStorage, HeadersOf, Total, Balanced, WellFormed, HeadersFit, Consistent, Lives, BytesHeld,
           Released;
      BytesCovered(State(), payload);
      BalancedTotals(State());
      ReleasedIsValid(State(), payload);
    }

    ghost method LogRelease(h: ChunkHeader)
      modifies this`released, this`log, this`ledger
      ensures released == old(released) + {h} && log == old(log) + [Freed(h)]
      ensures ledger == LedgerWithout(old(ledger), h.size, managedBytes, |allocations|)
    {
      released, log := released + {h}, log + [Freed(h)];
      ledger := LedgerWithout(ledger, h.size, managedBytes, |allocations|);
    }

    lemma FinishRelease(s: Snapshot, payload: Address)
      requires BytesHeld(s, payload)
      requires allocations == s.allocations - {payload}
      requires Weak() == Invalidate(s.weak, payload, s.allocations[payload].payloadEnd)
      requires managedBytes + s.allocations[payload].header.size == s.managedBytes
      requires reservedBytes + ReservedBytes(s.allocations[payload]) == s.reservedBytes
      requires released == s.released + {s.allocations[payload].header}
      requires log == s.log + [Freed(s.allocations[payload].header)]
      requires ledger == LedgerWithout(s.ledger, s.allocations[payload].header.size, managedBytes, |allocations|)
      requires rootRanges == s.rootRanges && collectionThreshold == s.threshold && collecting == s.collecting
      requires stats == s.stats && registered == s.registered && pending == s.pending
      ensures State() == Released(s, payload)
    {
      hide LedgerWithout, Invalidate, Targets;
    }

    // collect_if_needed.
    method CollectIfNeeded(
        incomingBytes: Word, registeredThread: bool, stack: seq<Word>, failure: Failure,
        parkedFirst: Parked, parkedThen: Parked)
      returns (status: Status, ghost mid: Snapshot, ghost pauses: seq<Pause>, ghost more: seq<Pause>)
      requires Valid()
      modifies this, Headers()
      ensures Valid() && collecting == old(collecting) && Headers() <= old(Headers())
      ensures Paused(old(State()), pauses, mid) && Paused(mid, more, State())
      ensures AsParked(pauses, parkedFirst, old(collecting))
      ensures !registeredThread ==> status == LogicError && State() == mid
      ensures registeredThread && (old(collecting) || mid.managedBytes + incomingBytes < mid.threshold) ==>
                status == Done && State() == mid
      ensures registeredThread && !old(collecting) && mid.managedBytes + incomingBytes >= mid.threshold ==>
                status == (if failure == NoFailure then Done else BadAlloc) &&
                (failure == NoFailure ==>
                   more != [] && more[|more| - 1].stack == stack && more[|more| - 1].after == State())
    {
      hide *;
      pauses := Cooperate(parkedFirst);
      mid, more, status := State(), [], Done;
      NoPauses(mid);
      Fields();
      if !registeredThread {
        return LogicError, mid, pauses, more;
      }
      ProjectedBytes(managedBytes, incomingBytes, collectionThreshold);
      if !collecting && SaturatingAdd(managedBytes, incomingBytes) >= collectionThreshold {
        status, more := CollectAfterCooperating(stack, failure, parkedThen);
      }
    }

    // stats(): the counters, with what the heap holds.
    method Stats(parked: Parked)
      returns (counters: GCStats, liveBytes: Word, liveBlocks: nat, reserved: Word, waste: Word,
               rangeCount: nat, weakRefCount: nat, ghost pauses: seq<Pause>)
      requires Valid()
      modifies this, Headers()
      ensures Valid() && collecting == old(collecting) && Headers() <= old(Headers())
      ensures Paused(old(State()), pauses, State())
      ensures AsParked(pauses, parked, old(collecting))
      ensures counters == stats && rangeCount == |rootRanges| && weakRefCount == |weakRefs|
      ensures liveBytes as nat == Total(PayloadBytes, allocations) && liveBlocks == |allocations|
      ensures reserved as nat == Total(ReservedBytes, allocations) && reserved == liveBytes + waste
    {
      hide *;
      pauses := Cooperate(parked);
      counters, rangeCount, weakRefCount := stats, |rootRanges|, |weakRefs|;
      liveBytes, liveBlocks, reserved, waste := LiveStats();
    }

    // The part of stats() that is computed from the heap: bytes, blocks, reserved bytes, and
    // the waste that the fragmentation ratio divides, a subtraction that cannot underflow.
    method LiveStats() returns (liveBytes: Word, liveBlocks: nat, reserved: Word, waste: Word)
      requires Valid()
      ensures liveBytes as nat == Total(PayloadBytes, allocations) && liveBlocks == |allocations|
      ensures reserved as nat == Total(ReservedBytes, allocations) && reserved == liveBytes + waste
    {
      ValidParts(State());
      hide ValidState, Targets, DistinctStorage, WellFormed, HeadersFit, Consistent, Lives;
      ReservedCoversManaged(allocations);
      return managedBytes, |allocations|, reservedBytes, reservedBytes - managedBytes;
    }

    // --- Weak references ---

    // register_weak_ref.  The handle is in the hands of the calling operation, which has
    // stored the code of the target in it.
    method RegisterWeakRef(target: Address, storage: Address, parked: Parked)
      returns (ghost mid: Snapshot, ghost pauses: seq<Pause>)
      requires Valid()
      requires storage != 0 ==> Unlisted(State().weak, storage) && Load(memory, storage) == EncodeWeak(target)
      modifies this, Headers()
      ensures Valid() && collecting == old(collecting) && Paused(old(State()), pauses, mid)
      ensures Headers() <= old(Headers())
      ensures AsParked(pauses, parked, old(collecting))
      ensures ValidState(mid)
      ensures State() == if storage == 0 then mid else AfterRegister(mid, target, storage)
    {
      hide Valid, State, Headers, Paused, AsParked, MarksAre, ValidState, AfterRegister, Unlisted;
      ghost var s := State();
      Fields();
      pauses := Cooperate(parked);
      mid := State();
      Fields();
      if storage == 0 {
        return;
      }
      StillUnlisted(s, pauses, mid, storage);
      Fields();
      ListTarget(target, storage);
    }

    method ListTarget(target: Address, storage: Address)
      requires Valid() && Unlisted(State().weak, storage) && Load(memory, storage) == EncodeWeak(target)
      modifies this`weakRefs, this`memory
      ensures Valid() && State() == AfterRegister(old(State()), target, storage)
      ensures Headers() == old(Headers())
    {
      hide ValidState, Targets, DistinctStorage, Live, HeadersOf, Owns, WellFormed, Unlisted, EncodeWeak, HeadersFit,
           Consistent, Balanced, Lives;
      ghost var s := State();
      RegisterIsValid(s, target, storage);
      ValidParts(s);
      Fields();
      UnlistedTargets(s.weak, storage);
      var block := Find(allocations, target);
      LiveOwner(allocations, block, target);
      if block.None? {
        memory := memory[storage := 0];
      } else {
        PushAdds(weakRefs, WeakRefEntry(target, storage));
        weakRefs := weakRefs + [WeakRefEntry(target, storage)];
      }
    }

    // read_weak_ref: the registered target, with no check that it is live.
    method ReadWeakRef(storage: Address, parked: Parked)
      returns (target: Address, ghost pauses: seq<Pause>)
      requires Valid()
      modifies this, Headers()
      ensures Valid() && collecting == old(collecting) && Paused(old(State()), pauses, State())
      ensures Headers() <= old(Headers())
      ensures AsParked(pauses, parked, old(collecting))
      ensures target == if storage in Targets(weakRefs) then Targets(weakRefs)[storage] else 0
      ensures target != 0 ==> Live(allocations, target)
    {
      hide Valid, State, Headers, Paused, AsParked, MarksAre, ValidState;
      pauses := Cooperate(parked);
      target := LookUpTarget(storage);
    }

    method LookUpTarget(storage: Address) returns (target: Address)
      requires Valid()
      ensures target == if storage in Targets(weakRefs) then Targets(weakRefs)[storage] else 0
      ensures target != 0 ==> Live(allocations, target)
    {
      TargetsLive(State());
      hide ValidState, Live;
      var i := FindEntry(storage);
      if i < |weakRefs| {
        return weakRefs[i].target;
      }
      return 0;
    }

    // The first entry for a handle, or the end of the list.
    method FindEntry(storage: Address) returns (i: nat)
      requires DistinctStorage(weakRefs)
      ensures i <= |weakRefs|
      ensures i < |weakRefs| ==>
                weakRefs[i].storage == storage && storage in Targets(weakRefs) &&
                Targets(weakRefs)[storage] == weakRefs[i].target
      ensures i == |weakRefs| ==> storage !in Targets(weakRefs)
    {
      i := 0;
      while i < |weakRefs| && weakRefs[i].storage != storage
        invariant i <= |weakRefs|
        invariant forall j :: 0 <= j < i ==> weakRefs[j].storage != storage
      {
        i := i + 1;
      }
      assert i < |weakRefs| ==> weakRefs[i] in weakRefs;
    }

    // unregister_weak_ref.
    method UnregisterWeakRef(storage: Address, parked: Parked)
      returns (ghost mid: Snapshot, ghost pauses: seq<Pause>)
      requires Valid() && storage in busyHandles && storage in weakHandles
      modifies this, Headers()
      ensures Valid() && collecting == old(collecting) && Paused(old(State()), pauses, mid)
      ensures Headers() <= old(Headers())
      ensures AsParked(pauses, parked, old(collecting))
      ensures ValidState(mid) && State() == AfterUnregister(mid, storage)
    {
      hide Valid, State, Headers, Paused, AsParked, MarksAre, ValidState, AfterUnregister;
      ghost var s := State();
      Fields();
      pauses := Cooperate(parked);
      mid := State();
      StillBusy(s, pauses, mid, storage);
      Fields();
      Unlist(storage);
    }

    method Unlist(storage: Address)
      requires Valid() && storage in busyHandles
      modifies this`weakRefs
      ensures Valid() && State() == AfterUnregister(old(State()), storage) && Headers() == old(Headers())
    {
      hide ValidState, Targets, DistinctStorage, HeadersOf;
      UnregisterIsValid(State(), storage);
      DropEntry(storage);
    }

    // copy_weak_ref.
    method CopyWeakRef(from: Address, to: Address, parked: Parked)
      returns (ghost mid: Snapshot, ghost pauses: seq<Pause>)
      requires Valid() && Unlisted(State().weak, to)
      modifies this, Headers()
      ensures Valid() && collecting == old(collecting) && Paused(old(State()), pauses, mid)
      ensures Headers() <= old(Headers())
      ensures AsParked(pauses, parked, old(collecting))
      ensures ValidState(mid) && State() == AfterCopy(mid, from, to)
    {
      hide Valid, State, Headers, Paused, AsParked, MarksAre, ValidState, AfterCopy, Unlisted;
      ghost var s := State();
      pauses := Cooperate(parked);
      mid := State();
      StillUnlisted(s, pauses, mid, to);
      Fields();
      CopyEntry(from, to);
    }

    method CopyEntry(from: Address, to: Address)
      requires Valid() && Unlisted(State().weak, to)
      modifies this`weakRefs, this`memory
      ensures Valid() && State() == AfterCopy(old(State()), from, to) && Headers() == old(Headers())
    {
      hide ValidState, Targets, DistinctStorage, HeadersOf;
      CopyIsValid(State(), from, to);
      var i := FindEntry(from);
      if i < |weakRefs| {
        var e := WeakRefEntry(weakRefs[i].target, to);
        PushAdds(weakRefs, e);
        weakRefs := weakRefs + [e];
        memory := memory[to := Load(memory, from)];
      } else {
        memory := memory[to := 0];
      }
    }

    // update_weak_ref: the entry follows its handle to a new place.
    method UpdateWeakRef(from: Address, to: Address, parked: Parked)
      returns (ghost mid: Snapshot, ghost pauses: seq<Pause>)
      requires Valid() && Unlisted(State().weak, to) && from != to
      modifies this, Headers()
      ensures Valid() && collecting == old(collecting) && Paused(old(State()), pauses, mid)
      ensures Headers() <= old(Headers())
      ensures AsParked(pauses, parked, old(collecting))
      ensures ValidState(mid) && State() == AfterUpdate(mid, from, to)
    {
      hide Valid, State, Headers, Paused, AsParked, MarksAre, ValidState, AfterUpdate, Unlisted;
      ghost var s := State();
      pauses := Cooperate(parked);
      mid := State();
      StillUnlisted(s, pauses, mid, to);
      Fields();
      MoveEntry(from, to);
    }

    method MoveEntry(from: Address, to: Address)
      requires Valid() && Unlisted(State().weak, to) && from != to
      modifies this`weakRefs, this`memory
      ensures Valid() && State() == AfterUpdate(old(State()), from, to) && Headers() == old(Headers())
    {
      hide ValidState, Targets, DistinctStorage, HeadersOf;
      UpdateIsValid(State(), from, to);
      var i := FindEntry(from);
      if i < |weakRefs| {
        MoveStorage(weakRefs, i, to);
        memory := memory[to := Load(memory, from)][from := 0];
        weakRefs := weakRefs[i := weakRefs[i].(storage := to)];
      } else {
        memory := memory[to := 0];
      }
    }

    // --- Handles in use, and the writes of their owners ---

    method TakeHandles(hs: set<Address>)
      requires Valid()
      modifies this`busyHandles
      ensures Valid() && State() == Taken(old(State()), hs) && Headers() == old(Headers())
    {
      hide ValidState, Targets, DistinctStorage, HeadersOf;
      TakenIsValid(State(), hs);
      busyHandles := busyHandles + hs;
    }

    method LetGoHandles(hs: set<Address>)
      requires Valid() && forall h :: h in hs ==> Settled(State().weak, h)
      modifies this`busyHandles
      ensures Valid() && State() == LetGo(old(State()), hs) && Headers() == old(Headers())
    {
      hide ValidState, Targets, DistinctStorage, HeadersOf, Settled;
      LetGoIsValid(State(), hs);
      busyHandles := busyHandles - hs;
    }

    method CreateHandle(h: Address)
      requires Valid() && h != 0 && h !in weakHandles && h !in guardedWords
      modifies this`busyHandles, this`weakHandles, this`memory
      ensures Valid() && State() == Created(old(State()), h) && Headers() == old(Headers())
    {
      hide ValidState, Targets, DistinctStorage, HeadersOf;
      CreatedIsValid(State(), h);
      weakHandles, busyHandles, memory := weakHandles + {h}, busyHandles + {h}, memory[h := 0];
    }

    method SetHandleWord(h: Address, word: Word)
      requires Valid() && Unlisted(State().weak, h)
      modifies this`memory
      ensures Valid() && State() == WithWord(old(State()), h, word) && Headers() == old(Headers())
    {
      hide ValidState, Targets, DistinctStorage, HeadersOf;
      WithWordIsValid(State(), h, word);
      memory := memory[h := word];
    }

    method RemoveHandle(h: Address)
      requires Valid() && h !in State().weak.targets
      modifies this`busyHandles, this`weakHandles
      ensures Valid() && State() == Destroyed(old(State()), h) && Headers() == old(Headers())
    {
      hide ValidState, Targets, DistinctStorage, HeadersOf;
      DestroyedIsValid(State(), h);
      weakHandles, busyHandles := weakHandles - {h}, busyHandles - {h};
    }

    // --- Counts of arrays under construction ---

    // *prefix = word.
    method GuardWord(p: Address, word: Word)
      requires Valid() && p !in weakHandles
      modifies this`guardedWords, this`memory
      ensures Valid() && State() == Guarded(old(State()), p, word) && Headers() == old(Headers())
    {
      hide ValidState, Targets, DistinctStorage, HeadersOf;
      GuardedIsValid(State(), p, word);
      guardedWords, memory := guardedWords + {p}, memory[p := word];
    }

    method UnguardWord(p: Address)
      requires Valid()
      modifies this`guardedWords
      ensures Valid() && State() == Unguarded(old(State()), p) && Headers() == old(Headers())
    {
      hide ValidState, Targets, DistinctStorage, HeadersOf;
      UnguardedIsValid(State(), p);
      guardedWords := guardedWords - {p};
    }

    // At every operation boundary: a handle word is nonzero exactly if one entry names its
    // storage, it decodes to that entry's target, and the target lies in a live block.
    lemma WeakInvariant(h: Address)
      requires Valid() && h in weakHandles && h !in busyHandles
      ensures Load(memory, h) != 0 <==> exists i :: 0 <= i < |weakRefs| && weakRefs[i].storage == h
      ensures forall i, j :: 0 <= i < j < |weakRefs| && weakRefs[i].storage == h ==> weakRefs[j].storage != h
      ensures forall i :: 0 <= i < |weakRefs| && weakRefs[i].storage == h ==>
                DecodeWeak(Load(memory, h)) == weakRefs[i].target && Live(allocations, weakRefs[i].target)
    {
      hide ValidState, WellFormed, HeadersFit, Balanced, Lives, DecodeWeak, Live, Consistent;
      ValidParts(State());
      TargetsLive(State());
      NonzeroIffRegistered(State().weak, allocations, h);
      forall i | 0 <= i < |weakRefs| && weakRefs[i].storage == h
        ensures h in Targets(weakRefs) && Targets(weakRefs)[h] == weakRefs[i].target
      {
        assert weakRefs[i] in weakRefs;
      }
      if h in Targets(weakRefs) {
        var e :| e in weakRefs && e.storage == h;
        var i :| 0 <= i < |weakRefs| && weakRefs[i] == e;
        assert weakRefs[i].storage == h;
      }
    }

    // Every allocation ever registered is in exactly one place: on the heap, in the batch of a
    // collection that is running, finished, or given back.  If it is finished and has a
    // destructor, that ran exactly once; if it is on the heap or given back, it never ran.
    lemma LifeInvariant(h: ChunkHeader) returns (place: Place)
      requires Valid() && h in registered
      ensures At(allocations, released, pending, log, h, place)
      ensures forall other: Place :: At(allocations, released, pending, log, h, other) ==> other == place
      ensures place.InBatch? ==> collecting
      ensures place.Finished? && h.destructor.Some? ==> Count(log, Finalized(h)) == 1
      ensures place.InHeap? || place.GivenBack? ==> Count(log, Finalized(h)) == 0
      ensures Count(log, Freed(h)) == if place.Finished? || place.GivenBack? then 1 else 0
    {
      hide Valid, Lives, Count;
      StateParts();
      place := ExactlyOnePlace(allocations, registered, released, pending, log, h);
      FinalizedExactlyOnce(allocations, registered, released, pending, log, h, place);
    }

    lemma StateParts()
      requires Valid()
      ensures Lives(allocations, registered, released, pending, log) && (!collecting ==> pending == {})
    {
      hide Lives, WellFormed, HeadersFit, Consistent, Balanced;
    }

    lemma EndSweep(
        heap: Allocations, weak: WeakState, headers: set<ChunkHeader>, records: seq<BlockRecord>,
        marked: set<Address>, gone: set<Address>)
      requires forall j :: 0 <= j < |records| ==> records[j].header in headers
      requires InOrder(records, heap) && Sweeping(heap, weak, headers, records, |records|, marked, gone)
      ensures allocations == heap - (heap.Keys - marked) && MarksAre({}) && DistinctStorage(weakRefs)
      ensures Weak() == Expire(weak, heap, heap.Keys - marked)
      ensures managedBytes as nat == Total(PayloadBytes, allocations)
      ensures reservedBytes as nat == Total(ReservedBytes, allocations)
    {
      AllSwept(heap, marked, records, gone);
      AllCleared(headers, records, heap, marked);
    }

    // Marks are cleared on the first i records and untouched on the others.
    ghost predicate ClearedUpTo(headers: set<ChunkHeader>, records: seq<BlockRecord>, i: nat, marked: set<Address>)
      requires i <= |records| && forall j :: 0 <= j < |records| ==> records[j].header in headers
      reads headers
    {
      && (forall j :: 0 <= j < i ==> !records[j].header.marked)
      && (forall j :: i <= j < |records| ==> (records[j].header.marked <==> records[j].payloadBegin in marked))
    }

    lemma NothingCleared(headers: set<ChunkHeader>, records: seq<BlockRecord>, marked: set<Address>)
      requires forall j :: 0 <= j < |records| ==>
                 records[j].header in headers && records[j].payloadBegin in allocations &&
                 allocations[records[j].payloadBegin] == records[j]
      requires MarksAre(marked)
      ensures ClearedUpTo(headers, records, 0, marked)
    {
    }

    lemma NextMark(headers: set<ChunkHeader>, records: seq<BlockRecord>, i: nat, marked: set<Address>)
      requires i < |records| && forall j :: 0 <= j < |records| ==> records[j].header in headers
      requires ClearedUpTo(headers, records, i, marked)
      ensures records[i].header.marked <==> records[i].payloadBegin in marked
      ensures !records[i].header.marked ==> ClearedUpTo(headers, records, i + 1, marked)
    {
    }

    lemma AllCleared(headers: set<ChunkHeader>, records: seq<BlockRecord>, heap: Allocations, marked: set<Address>)
      requires forall j :: 0 <= j < |records| ==> records[j].header in headers
      requires ClearedUpTo(headers, records, |records|, marked) && InOrder(records, heap)
      requires forall a :: a in allocations ==> a in heap && allocations[a] == heap[a]
      ensures MarksAre({})
    {
      EveryBlockListed(heap, records);
    }

    method ClearMark(ghost headers: set<ChunkHeader>, records: seq<BlockRecord>, i: nat, ghost marked: set<Address>)
      requires forall j :: 0 <= j < |records| ==> records[j].header in headers
      requires i < |records| && ClearedUpTo(headers, records, i, marked)
      requires forall j, k :: 0 <= j < k < |records| ==> records[j].header != records[k].header
      modifies records[i].header
      ensures ClearedUpTo(headers, records, i + 1, marked)
    {
      records[i].header.SetMarked(false);
    }
  }
}
