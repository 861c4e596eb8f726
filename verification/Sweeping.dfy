/**
The sweep, without the mark flags: the list of unreachable records, the blocks detached so
far, the weak entries dropped with them, and the bytes they free.
 */
module Sweeping {
  import opened Wrappers
  import opened Words
  import opened ChunkHeaders
  import opened Blocks
  import opened Reachability
  import opened FinalizationOrder
  import opened WeakRegistry
  import opened Accounting
  import opened Lifecycle
  import opened Marking

  // `batch` lists the headers of `records` in their finalization order.
  ghost predicate OrderedBy(records: seq<BlockRecord>, mem: Memory, batch: seq<ChunkHeader>, g: Graph, out: seq<nat>)
  {
    && Ordered(records) && Represents(g, records, mem) && Greedy(g, out) && Exhausted(g, out)
    && var order := out + Residue(|records|, out);
       |batch| == |order| &&
       forall i :: 0 <= i < |order| ==> order[i] < |records| && batch[i] == records[order[i]].header
  }

  // What a collection found unreachable, and the order it finalizes it in.
  datatype Report = Report(records: seq<BlockRecord>, g: Graph, out: seq<nat>, batch: seq<ChunkHeader>)

  const NO_REPORT := Report([], [], [], [])

  // The collection of `heap` that keeps exactly the blocks of `kept`.
  ghost predicate CollectedFrom(
      heap: Allocations, kept: set<Address>, mem: Memory, report: Report, allocations: Allocations)
  {
    && allocations == heap - (heap.Keys - kept)
    && InOrder(report.records, Restrict(heap, heap.Keys - kept))
    && OrderedBy(report.records, mem, report.batch, report.g, report.out)
  }

  // The batch lists exactly the detached headers, each once, none of them finalized.
  ghost predicate Detached(batch: seq<ChunkHeader>, pending: set<ChunkHeader>, log: seq<Event>) {
    && (forall i, j :: 0 <= i < j < |batch| ==> batch[i] != batch[j])
    && (forall h :: h in batch ==> h in pending) && (forall h :: h in pending ==> h in batch)
    && (forall h :: h in batch ==> Finalized(h) !in log)
  }

  lemma MakeOrderedBy(
      records: seq<BlockRecord>, mem: Memory, batch: seq<ChunkHeader>, g: Graph, out: seq<nat>, order: seq<nat>)
    requires Ordered(records) && Represents(g, records, mem) && Greedy(g, out) && Exhausted(g, out)
    requires order == out + Residue(|records|, out) && |batch| == |order|
    requires forall j :: 0 <= j < |order| ==> order[j] < |records| && batch[j] == records[order[j]].header
    ensures OrderedBy(records, mem, batch, g, out)
  {
  }

  function OrderOf(report: Report): seq<nat> {
    report.out + Residue(|report.records|, report.out)
  }

  // The blocks whose bytes have not been added up yet are those from position i on.
  ghost predicate Unpaid(report: Report, batch: seq<ChunkHeader>, i: nat, left: Allocations) {
    var order := OrderOf(report);
    && i <= |batch| && |batch| == |order| && NoDuplicates(order) && |left| == |batch| - i
    && (forall j, k :: 0 <= j < k < |report.records| ==>
          report.records[j].payloadBegin != report.records[k].payloadBegin)
    && (forall j :: 0 <= j < |order| ==> order[j] < |report.records| && batch[j] == report.records[order[j]].header)
    && (forall j :: i <= j < |order| ==>
          report.records[order[j]].payloadBegin in left &&
          left[report.records[order[j]].payloadBegin] == report.records[order[j]])
  }

  lemma StartPaying(
      records: seq<BlockRecord>, mem: Memory, batch: seq<ChunkHeader>, g: Graph, out: seq<nat>, dead: Allocations)
    requires InOrder(records, dead) && OrderedBy(records, mem, batch, g, out)
    ensures forall any :: Unpaid(Report(records, g, out, any), batch, 0, dead)
  {
    OrderIsPermutation(g, out);
    forall j, k | 0 <= j < k < |records|
      ensures records[j].payloadBegin != records[k].payloadBegin
    {
      LaterBegin(records, j);
    }
  }

  lemma PayOne(report: Report, batch: seq<ChunkHeader>, i: nat, left: Allocations) returns (a: Address)
    requires i < |batch| && Unpaid(report, batch, i, left)
    ensures a in left && Total(PayloadBytes, left) == batch[i].size + Total(PayloadBytes, left - {a})
    ensures Unpaid(report, batch, i + 1, left - {a})
  {
    var order := OrderOf(report);
    a := report.records[order[i]].payloadBegin;
    TotalErase(PayloadBytes, left, a);
    KeysAfterErase(left, a);
    forall j | i < j < |order|
      ensures report.records[order[j]].payloadBegin != a
    {
      assert order[i] != order[j];
    }
  }

  lemma AllPaid(report: Report, batch: seq<ChunkHeader>, left: Allocations)
    requires Unpaid(report, batch, |batch|, left)
    ensures Total(PayloadBytes, left) == 0
  {
    assert |left.Keys| == |left|;
    assert left == map[];
  }

  lemma LaterBegin(records: seq<BlockRecord>, i: nat)
    requires Ordered(records) && i < |records|
    ensures 0 < records[i].payloadBegin < records[i].payloadEnd <= PAYLOAD_LIMIT
    ensures forall j :: i < j < |records| ==> records[i].payloadEnd <= records[j].payloadBegin
  {
  }

  lemma ListIsOrdered(records: seq<BlockRecord>, heap: Allocations)
    requires InOrder(records, heap)
    ensures Ordered(records)
  {
  }

  lemma HeadersListed(heap: Allocations, records: seq<BlockRecord>)
    requires InOrder(records, heap) && Markable(heap)
    ensures forall i :: 0 <= i < |records| ==>
              records[i].payloadBegin in heap && heap[records[i].payloadBegin] == records[i] &&
              records[i].header in HeadersOf(heap)
    ensures forall j, k :: 0 <= j < k < |records| ==> records[j].header != records[k].header
  {
    forall j, k | 0 <= j < k < |records|
      ensures records[j].header != records[k].header
    {
      LaterBegin(records, j);
    }
  }

  lemma AppendOrdered(records: seq<BlockRecord>, r: BlockRecord)
    requires Ordered(records) && 0 < r.payloadBegin < r.payloadEnd <= PAYLOAD_LIMIT
    requires forall k :: 0 <= k < |records| ==> records[k].payloadEnd <= r.payloadBegin
    ensures Ordered(records + [r])
    ensures forall k :: 0 <= k < |records| ==> records[k].payloadBegin != r.payloadBegin
  {
  }

  lemma AppendInOrder(records: seq<BlockRecord>, found: Allocations, r: BlockRecord)
    requires InOrder(records, found) && 0 < r.payloadBegin < r.payloadEnd <= PAYLOAD_LIMIT
    requires forall k :: 0 <= k < |records| ==> records[k].payloadEnd <= r.payloadBegin
    ensures InOrder(records + [r], found[r.payloadBegin := r])
  {
    AppendOrdered(records, r);
    hide Ordered;
    var longer, more := records + [r], found[r.payloadBegin := r];
    forall a | a in more
      ensures exists i :: 0 <= i < |longer| && longer[i].payloadBegin == a
    {
      if a == r.payloadBegin {
        assert longer[|records|].payloadBegin == a;
      } else {
        var i :| 0 <= i < |records| && records[i].payloadBegin == a;
        assert longer[i].payloadBegin == a;
      }
    }
    assert r.payloadBegin !in found;
    assert |more| == |found| + 1;
  }

  // The first i records have been visited; the unmarked ones among them are `found`.
  ghost predicate Listed(
      heap: Allocations, marked: set<Address>, records: seq<BlockRecord>, i: nat,
      unreachable: seq<BlockRecord>, found: Allocations)
    requires i <= |records|
  {
    && InOrder(unreachable, found)
    && (forall k, j :: 0 <= k < |unreachable| && i <= j < |records| ==>
          unreachable[k].payloadEnd <= records[j].payloadBegin)
    && (forall a :: a in found ==> a in heap && a !in marked && found[a] == heap[a])
    && (forall j :: 0 <= j < i && records[j].payloadBegin !in marked ==> records[j].payloadBegin in found)
  }

  lemma NothingListed(heap: Allocations, marked: set<Address>, records: seq<BlockRecord>)
    ensures Listed(heap, marked, records, 0, [], map[])
  {
  }

  lemma OneMoreListed(
      heap: Allocations, marked: set<Address>, records: seq<BlockRecord>, i: nat,
      unreachable: seq<BlockRecord>, found: Allocations)
    requires InOrder(records, heap) && i < |records| && Listed(heap, marked, records, i, unreachable, found)
    ensures records[i].payloadBegin in heap && heap[records[i].payloadBegin] == records[i]
    ensures
      if records[i].payloadBegin in marked then Listed(heap, marked, records, i + 1, unreachable, found)
      else
        Listed(heap, marked, records, i + 1, unreachable + [records[i]], found[records[i].payloadBegin := records[i]])
  {
    LaterBegin(records, i);
    if records[i].payloadBegin !in marked {
      TakeRecord(heap, marked, records, i, unreachable, found);
    }
  }

  lemma TakeRecord(
      heap: Allocations, marked: set<Address>, records: seq<BlockRecord>, i: nat,
      unreachable: seq<BlockRecord>, found: Allocations)
    requires i < |records| && Listed(heap, marked, records, i, unreachable, found)
    requires records[i].payloadBegin in heap && heap[records[i].payloadBegin] == records[i]
    requires records[i].payloadBegin !in marked
    requires 0 < records[i].payloadBegin < records[i].payloadEnd <= PAYLOAD_LIMIT
    requires forall j :: i < j < |records| ==> records[i].payloadEnd <= records[j].payloadBegin
    ensures Listed(heap, marked, records, i + 1, unreachable + [records[i]],
                   found[records[i].payloadBegin := records[i]])
  {
    AppendInOrder(unreachable, found, records[i]);
    hide InOrder;
  }

  lemma AllListed(
      heap: Allocations, marked: set<Address>, records: seq<BlockRecord>,
      unreachable: seq<BlockRecord>, found: Allocations)
    requires InOrder(records, heap) && Listed(heap, marked, records, |records|, unreachable, found)
    ensures InOrder(unreachable, Restrict(heap, heap.Keys - marked))
  {
    AllFound(heap, marked, records, unreachable, found);
    hide InOrder, Restrict;
  }

  lemma AllFound(
      heap: Allocations, marked: set<Address>, records: seq<BlockRecord>,
      unreachable: seq<BlockRecord>, found: Allocations)
    requires InOrder(records, heap) && Listed(heap, marked, records, |records|, unreachable, found)
    ensures found == Restrict(heap, heap.Keys - marked)
  {
    hide Ordered;
    forall a | a in heap && a !in marked
      ensures a in found
    {
      var i :| 0 <= i < |records| && records[i].payloadBegin == a;
    }
  }

  // The first i records have been visited; the unmarked ones among them are `gone`.
  ghost predicate Swept(heap: Allocations, marked: set<Address>, records: seq<BlockRecord>, i: nat, gone: set<Address>)
    requires i <= |records|
  {
    && gone <= heap.Keys - marked
    && (forall j :: 0 <= j < i && records[j].payloadBegin !in marked ==> records[j].payloadBegin in gone)
    && (forall j :: i <= j < |records| ==> records[j].payloadBegin !in gone)
  }

  lemma NothingSwept(heap: Allocations, marked: set<Address>, records: seq<BlockRecord>)
    ensures Swept(heap, marked, records, 0, {}) && heap - {} == heap
  {
  }

  lemma OneMoreSwept(heap: Allocations, marked: set<Address>, records: seq<BlockRecord>, i: nat, gone: set<Address>)
    requires InOrder(records, heap) && i < |records| && Swept(heap, marked, records, i, gone)
    ensures records[i].payloadBegin in heap - gone && heap[records[i].payloadBegin] == records[i]
    ensures
      if records[i].payloadBegin in marked then Swept(heap, marked, records, i + 1, gone)
      else Swept(heap, marked, records, i + 1, gone + {records[i].payloadBegin})
    ensures heap - gone - {records[i].payloadBegin} == heap - (gone + {records[i].payloadBegin})
  {
    LaterBegin(records, i);
    hide Ordered;
  }

  lemma AllSwept(heap: Allocations, marked: set<Address>, records: seq<BlockRecord>, gone: set<Address>)
    requires InOrder(records, heap) && Swept(heap, marked, records, |records|, gone)
    ensures gone == heap.Keys - marked
  {
  }

  lemma ExpireNothing(w: WeakState, allocations: Allocations)
    ensures Expire(w, allocations, {}) == w
  {
    assert IntoAny(w.targets, allocations, {}) == {};
  }

  // The storage words of the entries that are removed.
  function Hit(entries: seq<WeakRefEntry>, pb: Address, pe: Address): set<Address> {
    set e | e in entries && TargetIn(e.target, pb, pe) :: e.storage
  }

  function StoragesOf(entries: seq<WeakRefEntry>): set<Address> {
    set e | e in entries :: e.storage
  }

  lemma InvalidateNone(entries: seq<WeakRefEntry>, mem: Memory, pb: Address, pe: Address)
    ensures Remaining(entries[..0], pb, pe) == [] && Zeroed(mem, Hit(entries[..0], pb, pe)) == mem
  {
    assert entries[..0] == [];
  }

  // What the loop over the entries leaves is the abstract invalidation.
  lemma InvalidatedWeak(w: WeakState, entries: seq<WeakRefEntry>, pb: Address, pe: Address)
    requires DistinctStorage(entries) && w.targets == Targets(entries)
    ensures
      Invalidate(w, pb, pe) ==
      w.(targets := Targets(entries) - Into(Targets(entries), pb, pe), memory := Zeroed(w.memory, Hit(entries, pb, pe)))
  {
    HitExact(entries, pb, pe);
  }

  lemma InvalidateStep(entries: seq<WeakRefEntry>, i: nat, mem: Memory, pb: Address, pe: Address)
    requires i < |entries|
    ensures
      var e := entries[i];
      var kept, zeroed := Remaining(entries[..i], pb, pe), Zeroed(mem, Hit(entries[..i], pb, pe));
      if TargetIn(e.target, pb, pe) then
        Remaining(entries[..i + 1], pb, pe) == kept &&
        Zeroed(mem, Hit(entries[..i + 1], pb, pe)) == zeroed[e.storage := 0]
      else
        Remaining(entries[..i + 1], pb, pe) == kept + [e] && Zeroed(mem, Hit(entries[..i + 1], pb, pe)) == zeroed
  {
    var e := entries[i];
    assert entries[..i + 1] == entries[..i] + [e];
    if TargetIn(e.target, pb, pe) {
      assert Hit(entries[..i + 1], pb, pe) == Hit(entries[..i], pb, pe) + {e.storage};
    } else {
      assert Hit(entries[..i + 1], pb, pe) == Hit(entries[..i], pb, pe);
    }
  }

  lemma HitExact(entries: seq<WeakRefEntry>, pb: Address, pe: Address)
    requires DistinctStorage(entries)
    ensures Hit(entries, pb, pe) == Into(Targets(entries), pb, pe)
  {
  }

  lemma ZeroNone(mem: Memory, entries: seq<WeakRefEntry>)
    ensures Zeroed(mem, StoragesOf(entries[..0])) == mem
  {
    assert entries[..0] == [];
  }

  lemma ZeroMore(mem: Memory, entries: seq<WeakRefEntry>, i: nat)
    requires i < |entries|
    ensures Zeroed(mem, StoragesOf(entries[..i + 1])) == Zeroed(mem, StoragesOf(entries[..i]))[entries[i].storage := 0]
  {
    assert entries[..i + 1] == entries[..i] + [entries[i]];
    assert StoragesOf(entries[..i + 1]) == StoragesOf(entries[..i]) + {entries[i].storage};
  }

  lemma StoragesAreKeys(entries: seq<WeakRefEntry>)
    requires DistinctStorage(entries)
    ensures StoragesOf(entries) == Targets(entries).Keys && Targets(entries) - Targets(entries).Keys == Targets([])
  {
  }
}
