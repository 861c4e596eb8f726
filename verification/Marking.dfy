/**
Marking, without the mark flags: which blocks words address, what the worklist holds, and
why the drain ends with exactly the reachable blocks.
 */
module Marking {
  import opened Wrappers
  import opened Words
  import opened ChunkHeaders
  import opened Blocks
  import opened Reachability
  import opened RootScanner

  datatype RootRange = RootRange(begin: Address, end: Address)

  // A range from its endpoints in either order.
  function Normalized(begin: Address, end: Address): RootRange {
    if begin < end then RootRange(begin, end) else RootRange(end, begin)
  }

  // unregister_root_range: null and empty ranges are ignored.
  function WithoutRange(ranges: seq<RootRange>, begin: Address, end: Address): seq<RootRange> {
    if begin == 0 || end == 0 || begin == end then ranges else WithoutFirst(ranges, Normalized(begin, end))
  }

  function WithoutFirst(ranges: seq<RootRange>, range: RootRange): seq<RootRange> {
    if ranges == [] then []
    else if ranges[0] == range then ranges[1..]
    else [ranges[0]] + WithoutFirst(ranges[1..], range)
  }

  // Every word of the registered ranges that a scan visits, range by range.
  ghost function RangeWords(ranges: seq<RootRange>, mem: Memory): seq<Word>
    decreases |ranges|
  {
    if ranges == [] then []
    else
      var last := ranges[|ranges| - 1];
      RangeWords(ranges[..|ranges| - 1], mem) + LoadAll(mem, Visited(last.begin, last.end))
  }

  function LoadAll(mem: Memory, addresses: seq<Address>): seq<Word> {
    seq(|addresses|, i requires 0 <= i < |addresses| => Load(mem, addresses[i]))
  }

  // The blocks that a list of words addresses.
  ghost function Addressed(allocations: Allocations, words: seq<Word>): set<Address> {
    set v | v in allocations && exists w :: w in words && Contains(allocations[v], w)
  }

  function PayloadWordsOf(mem: Memory, b: BlockRecord): seq<Word>
    requires b.payloadEnd <= PAYLOAD_LIMIT
  {
    seq(PayloadWords(b), k requires 0 <= k < PayloadWords(b) => PayloadWord(mem, b, k))
  }

  // Every block has its own header, with the magic number in place.
  ghost predicate Markable(allocations: Allocations) {
    && (forall a :: a in allocations ==> allocations[a].header.magicNumber == CHUNK_MAGIC_NUMBER)
    && (forall a, b ::
          a in allocations && b in allocations && allocations[a].header == allocations[b].header ==> a == b)
  }

  // The worklist holds marked blocks, none of them twice.
  ghost predicate Work(worklist: seq<Address>, marked: set<Address>) {
    && (forall i, j :: 0 <= i < j < |worklist| ==> worklist[i] != worklist[j])
    && (forall v :: v in worklist ==> v in marked)
  }

  // What was newly marked was pushed, and nothing was popped.
  ghost predicate Pushed(worklist0: seq<Address>, marked0: set<Address>, worklist: seq<Address>, marked: set<Address>) {
    && worklist0 <= worklist
    && forall v :: v in worklist[|worklist0|..] <==> v in marked && v !in marked0
  }

  lemma PushNothing(worklist: seq<Address>, marked: set<Address>)
    ensures Pushed(worklist, marked, worklist, marked)
  {
    assert worklist[|worklist|..] == [];
  }

  lemma OwnsFound(allocations: Allocations, b: Address, a: Address)
    requires Owns(allocations, b, a)
    ensures b in allocations
  {
  }

  lemma PushOne(worklist: seq<Address>, marked: set<Address>, v: Address)
    requires Work(worklist, marked) && v !in marked
    ensures Work(worklist + [v], marked + {v}) && Pushed(worklist, marked, worklist + [v], marked + {v})
  {
  }

  lemma PushedTwice(
      worklist0: seq<Address>, marked0: set<Address>, worklist1: seq<Address>, marked1: set<Address>,
      worklist2: seq<Address>, marked2: set<Address>)
    requires Pushed(worklist0, marked0, worklist1, marked1) && Pushed(worklist1, marked1, worklist2, marked2)
    requires marked0 <= marked1 <= marked2
    ensures Pushed(worklist0, marked0, worklist2, marked2)
  {
    var n, m := |worklist0|, |worklist1|;
    assert worklist2[n..] == worklist1[n..] + worklist2[m..];
  }

  lemma AddressedByOne(allocations: Allocations, a: Word, found: Option<Address>)
    requires WellFormed(allocations)
    requires found.Some? ==> Owns(allocations, found.value, a)
    requires found.None? ==> !Live(allocations, a)
    ensures Addressed(allocations, [a]) == if found.Some? then {found.value} else {}
  {
    forall v | v in Addressed(allocations, [a])
      ensures found == Some(v)
    {
      assert Owns(allocations, v, a);
      if found.Some? {
        UniqueBlock(allocations, a, v, found.value);
      }
    }
    if found.Some? {
      assert a in [a];
    }
  }

  lemma AddressedMore(allocations: Allocations, words: seq<Word>, i: nat)
    requires i < |words|
    ensures Addressed(allocations, words[..i + 1]) ==
              Addressed(allocations, words[..i]) + Addressed(allocations, [words[i]])
  {
    assert words[..i + 1] == words[..i] + [words[i]];
    assert words[i] in [words[i]];
  }

  lemma AddressedJoin(allocations: Allocations, a: seq<Word>, b: seq<Word>)
    ensures Addressed(allocations, a + b) == Addressed(allocations, a) + Addressed(allocations, b)
  {
  }

  lemma OwnsItself(allocations: Allocations, a: Address)
    requires WellFormed(allocations) && a in allocations
    ensures Addressed(allocations, [a]) == {a}
  {
    AddressedByOne(allocations, a, Some(a)) by {
      assert Owns(allocations, a, a);
    }
  }

  // The blocks a payload addresses are its successors.
  lemma PayloadAddresses(allocations: Allocations, mem: Memory, u: Address, v: Address)
    requires WellFormed(allocations) && u in allocations
    ensures v in Addressed(allocations, PayloadWordsOf(mem, allocations[u])) <==> PointsTo(allocations, mem, u, v)
  {
    var words := PayloadWordsOf(mem, allocations[u]);
    if v in Addressed(allocations, words) {
      var w :| w in words && Contains(allocations[v], w);
      var k :| 0 <= k < |words| && words[k] == w;
      assert Contains(allocations[v], PayloadWord(mem, allocations[u], k));
    }
    if PointsTo(allocations, mem, u, v) {
      var k: nat :| k < PayloadWords(allocations[u]) && Contains(allocations[v], PayloadWord(mem, allocations[u], k));
      assert words[k] in words;
    }
  }

  // The words of an aligned payload are those that a scan of it visits.
  lemma PayloadWordsVisited(mem: Memory, b: BlockRecord)
    requires 0 < b.payloadBegin < b.payloadEnd <= PAYLOAD_LIMIT && b.payloadBegin % WORD_SIZE == 0
    ensures PayloadWordsOf(mem, b) == LoadAll(mem, Visited(b.payloadBegin, b.payloadEnd))
  {
    PayloadScanIsRangeScan(b);
    hide Visited;
  }

  function Constructing(allocations: Allocations): set<Address> {
    set a | a in allocations && allocations[a].constructing
  }

  // The constructing blocks among the first i records are marked and pushed.
  ghost predicate MarkedConstructing(
      heap: Allocations, records: seq<BlockRecord>, i: nat, worklist: seq<Address>, marked: set<Address>)
    requires i <= |records|
  {
    && Work(worklist, marked) && Pushed([], {}, worklist, marked)
    && marked <= Constructing(heap)
    && forall j :: 0 <= j < i && records[j].constructing ==> records[j].payloadBegin in marked
  }

  lemma MarkedConstructingSkips(
      heap: Allocations, records: seq<BlockRecord>, i: nat, worklist: seq<Address>, marked: set<Address>)
    requires i < |records| && MarkedConstructing(heap, records, i, worklist, marked)
    ensures Work(worklist, marked)
    ensures !records[i].constructing ==> MarkedConstructing(heap, records, i + 1, worklist, marked)
  {
  }

  lemma MarkedConstructingMarks(
      heap: Allocations, records: seq<BlockRecord>, i: nat, worklist0: seq<Address>, marked0: set<Address>,
      worklist: seq<Address>, marked: set<Address>)
    requires WellFormed(heap) && InOrder(records, heap) && i < |records| && records[i].constructing
    requires MarkedConstructing(heap, records, i, worklist0, marked0)
    requires Work(worklist, marked) && Pushed(worklist0, marked0, worklist, marked)
    requires marked == marked0 + Addressed(heap, [records[i].payloadBegin])
    ensures MarkedConstructing(heap, records, i + 1, worklist, marked)
  {
    PushedTwice([], {}, worklist0, marked0, worklist, marked);
    OwnsItself(heap, records[i].payloadBegin);
  }

  lemma MarkedConstructingAll(
      heap: Allocations, records: seq<BlockRecord>, worklist: seq<Address>, marked: set<Address>)
    requires InOrder(records, heap) && MarkedConstructing(heap, records, |records|, worklist, marked)
    ensures marked == Constructing(heap) && Work(worklist, marked) && Pushed([], {}, worklist, marked)
  {
    EveryBlockListed(heap, records);
  }

  lemma EveryBlockListed(heap: Allocations, records: seq<BlockRecord>)
    requires InOrder(records, heap)
    ensures forall a :: a in heap ==>
              exists i :: 0 <= i < |records| && records[i].payloadBegin == a && records[i] == heap[a]
  {
  }

  // Once the roots are marked, the drain can start.
  lemma InitialDraining(
      allocations: Allocations, mem: Memory, roots: seq<Word>, worklist: seq<Address>, marked: set<Address>)
    requires WellFormed(allocations) && Work(worklist, marked) && Pushed([], {}, worklist, marked)
    requires marked == Constructing(allocations) + Addressed(allocations, roots)
    ensures Draining(allocations, mem, roots, worklist, marked)
  {
    assert worklist[0..] == worklist;
    forall v | v in marked
      ensures v in allocations && Reachable(allocations, mem, roots, v)
    {
      assert IsRoot(allocations, roots, v);
      RootIsReachable(allocations, mem, roots, v);
    }
  }

  // Marking invariant of the drain: everything marked is reachable, every root is marked,
  // and only blocks on the worklist may have unmarked successors.
  ghost predicate Draining(
      allocations: Allocations, mem: Memory, roots: seq<Word>, worklist: seq<Address>, marked: set<Address>)
    requires WellFormed(allocations)
  {
    && Work(worklist, marked)
    && (forall v :: v in marked ==> v in allocations && Reachable(allocations, mem, roots, v))
    && (forall v :: IsRoot(allocations, roots, v) ==> v in marked)
    && (forall u, v :: u in marked && u !in worklist && PointsTo(allocations, mem, u, v) ==> v in marked)
  }

  // What scanning the block popped last does to marks and worklist.
  ghost predicate Popped(
      allocations: Allocations, mem: Memory, worklist1: seq<Address>, marked1: set<Address>,
      worklist: seq<Address>, marked: set<Address>)
    requires WellFormed(allocations) && worklist1 != [] && worklist1[|worklist1| - 1] in allocations
  {
    var n := |worklist1| - 1;
    && Work(worklist, marked) && Pushed(worklist1[..n], marked1, worklist, marked)
    && marked == marked1 + Addressed(allocations, PayloadWordsOf(mem, allocations[worklist1[n]]))
  }

  lemma DrainStep(
      allocations: Allocations, mem: Memory, roots: seq<Word>, worklist1: seq<Address>, marked1: set<Address>,
      worklist: seq<Address>, marked: set<Address>)
    requires WellFormed(allocations) && Draining(allocations, mem, roots, worklist1, marked1)
    requires worklist1 != [] && worklist1[|worklist1| - 1] in allocations
    requires Popped(allocations, mem, worklist1, marked1, worklist, marked)
    ensures Draining(allocations, mem, roots, worklist, marked)
  {
    var n := |worklist1| - 1;
    var a := worklist1[n];
    assert a in worklist1;
    forall v
      ensures v in Addressed(allocations, PayloadWordsOf(mem, allocations[a])) <==> PointsTo(allocations, mem, a, v)
    {
      PayloadAddresses(allocations, mem, a, v);
    }
    forall v | v in marked
      ensures v in allocations && Reachable(allocations, mem, roots, v)
    {
      if v !in marked1 {
        SuccessorIsReachable(allocations, mem, roots, a, v);
      }
    }
    forall u, v | u in marked && u !in worklist && PointsTo(allocations, mem, u, v)
      ensures v in marked
    {
      if u != a {
        PushedStays(worklist1, marked1, worklist, marked, u);
      }
    }
  }

  lemma PushedStays(
      worklist1: seq<Address>, marked1: set<Address>, worklist: seq<Address>, marked: set<Address>, u: Address)
    requires worklist1 != [] && Pushed(worklist1[..|worklist1| - 1], marked1, worklist, marked)
    requires u in marked && u !in worklist && u != worklist1[|worklist1| - 1]
    ensures u in marked1 && u !in worklist1
  {
    var n := |worklist1| - 1;
    assert worklist == worklist1[..n] + worklist[n..];
    assert worklist1 == worklist1[..n] + [worklist1[n]];
  }

  // The step either marks more blocks or leaves a shorter worklist.
  lemma DrainShrinks(
      allocations: Allocations, mem: Memory, worklist1: seq<Address>, marked1: set<Address>,
      worklist: seq<Address>, marked: set<Address>)
    requires WellFormed(allocations) && worklist1 != [] && worklist1[|worklist1| - 1] in allocations
    requires Popped(allocations, mem, worklist1, marked1, worklist, marked) && marked <= allocations.Keys
    ensures |worklist| <= |allocations|
    ensures |allocations.Keys - marked| < |allocations.Keys - marked1| ||
            (marked == marked1 && |worklist| < |worklist1|)
  {
    var n := |worklist1| - 1;
    DistinctKeys(worklist, allocations);
    assert n < |worklist| ==> worklist[n] in worklist[n..];
    if marked != marked1 {
      var v :| v in marked && v !in marked1;
      assert v in allocations.Keys - marked1;
      SmallerSet(allocations.Keys - marked, allocations.Keys - marked1);
    }
  }

  lemma SmallerSet(a: set<Address>, b: set<Address>)
    requires a < b
    ensures |a| < |b|
  {
    assert b == a + (b - a);
    assert b - a != {};
  }

  lemma DrainDone(allocations: Allocations, mem: Memory, roots: seq<Word>, marked: set<Address>)
    requires WellFormed(allocations) && Draining(allocations, mem, roots, [], marked)
    ensures marked == Reached(allocations, mem, roots)
  {
    ClosedIsReached(allocations, mem, roots, marked);
  }
}
