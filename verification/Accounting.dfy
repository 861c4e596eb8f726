// Byte totals over the allocation map.
module Accounting {
  import opened Words
  import opened Blocks
  import opened Reachability

  function PayloadBytes(b: BlockRecord): nat {
    b.header.size
  }

  // block_allocation_size.
  function ReservedBytes(b: BlockRecord): nat {
    b.header.payloadOffset + b.header.size
  }

  ghost function Total(bytes: BlockRecord -> nat, allocations: Allocations): nat
    decreases |allocations|
  {
    if allocations == map[] then 0
    else
      var a := Least(allocations.Keys);
      assert |allocations - {a}| < |allocations| by { KeysAfterErase(allocations, a); }
      bytes(allocations[a]) + Total(bytes, allocations - {a})
  }

  lemma KeysAfterErase(allocations: Allocations, a: Address)
    requires a in allocations
    ensures |allocations - {a}| == |allocations| - 1
  {
    assert (allocations - {a}).Keys == allocations.Keys - {a};
    assert |(allocations - {a}).Keys| == |allocations - {a}|;
    assert |allocations.Keys| == |allocations|;
  }

  lemma {:induction false} TotalErase(bytes: BlockRecord -> nat, allocations: Allocations, a: Address)
    requires a in allocations
    ensures Total(bytes, allocations) == bytes(allocations[a]) + Total(bytes, allocations - {a})
    decreases |allocations|
  {
    var first := Least(allocations.Keys);
    if first != a {
      KeysAfterErase(allocations, first);
      TotalErase(bytes, allocations - {first}, a);
      KeysAfterErase(allocations, a);
      TotalErase(bytes, allocations - {a}, first);
      assert allocations - {first} - {a} == allocations - {a} - {first};
    }
  }

  lemma TotalInsert(bytes: BlockRecord -> nat, allocations: Allocations, a: Address, b: BlockRecord)
    requires a !in allocations
    ensures Total(bytes, allocations[a := b]) == bytes(b) + Total(bytes, allocations)
  {
    TotalErase(bytes, allocations[a := b], a);
    assert allocations[a := b] - {a} == allocations;
  }

  lemma TotalAtLeast(bytes: BlockRecord -> nat, allocations: Allocations, a: Address)
    requires a in allocations
    ensures Total(bytes, allocations) >= bytes(allocations[a])
  {
    TotalErase(bytes, allocations, a);
  }

  lemma {:induction false} ReservedCoversManaged(allocations: Allocations)
    ensures Total(ReservedBytes, allocations) >= Total(PayloadBytes, allocations)
    decreases |allocations|
  {
    if allocations != map[] {
      var a := Least(allocations.Keys);
      KeysAfterErase(allocations, a);
      ReservedCoversManaged(allocations - {a});
    }
  }

  // Splitting the map splits the total.
  lemma {:induction false} TotalSplit(bytes: BlockRecord -> nat, allocations: Allocations, dead: set<Address>)
    requires dead <= allocations.Keys
    ensures Total(bytes, allocations) == Total(bytes, allocations - dead) + Total(bytes, Restrict(allocations, dead))
    decreases |dead|
  {
    if dead == {} {
      assert allocations - dead == allocations && Restrict(allocations, dead) == map[];
    } else {
      var a :| a in dead;
      var fewer := dead - {a};
      TotalSplit(bytes, allocations, fewer);
      assert allocations - fewer - {a} == allocations - dead;
      TotalErase(bytes, allocations - fewer, a);
      assert Restrict(allocations, dead) - {a} == Restrict(allocations, fewer);
      TotalErase(bytes, Restrict(allocations, dead), a);
    }
  }

  // --- The counters the statistics report, without their 64-bit limits ---

  // `history` holds live bytes and live blocks after every change since the last shutdown.
  datatype Ledger = Ledger(
    collections: nat, allocations: nat, allocatedBytes: nat, reclaimedBytes: nat, releasedBytes: nat,
    history: seq<(nat, nat)>)

  // The ledger after a shutdown has detached everything.
  ghost predicate IsBlank(ledger: Ledger) {
    && ledger.collections == 0 && ledger.allocations == 0
    && ledger.allocatedBytes == 0 && ledger.reclaimedBytes == 0 && ledger.releasedBytes == 0
    && |ledger.history| == 1 && ledger.history[0] == (0, 0)
  }

  function PeakBytes(history: seq<(nat, nat)>): nat
    decreases |history|
  {
    if history == [] then 0
    else
      var rest, last := PeakBytes(history[..|history| - 1]), history[|history| - 1].0;
      if rest < last then last else rest
  }

  function PeakBlocks(history: seq<(nat, nat)>): nat
    decreases |history|
  {
    if history == [] then 0
    else
      var rest, last := PeakBlocks(history[..|history| - 1]), history[|history| - 1].1;
      if rest < last then last else rest
  }

  // The peaks are the maxima of the history.
  lemma {:induction false} PeaksAreMaxima(history: seq<(nat, nat)>)
    requires history != []
    ensures forall i :: 0 <= i < |history| ==> history[i].0 <= PeakBytes(history) && history[i].1 <= PeakBlocks(history)
    ensures exists i :: 0 <= i < |history| && history[i].0 == PeakBytes(history)
    ensures exists i :: 0 <= i < |history| && history[i].1 == PeakBlocks(history)
    decreases |history|
  {
    var n := |history| - 1;
    if n > 0 {
      PeaksAreMaxima(history[..n]);
      var i :| 0 <= i < n && history[..n][i].0 == PeakBytes(history[..n]);
      var j :| 0 <= j < n && history[..n][j].1 == PeakBlocks(history[..n]);
      assert history[i].0 == PeakBytes(history[..n]) && history[j].1 == PeakBlocks(history[..n]);
      assert history[n].0 == PeakBytes(history) || history[i].0 == PeakBytes(history);
      assert history[n].1 == PeakBlocks(history) || history[j].1 == PeakBlocks(history);
      forall k | 0 <= k < |history|
        ensures history[k].0 <= PeakBytes(history) && history[k].1 <= PeakBlocks(history)
      {
        if k < n {
          assert history[..n][k] == history[k];
        }
      }
    } else {
      assert history[..0] == [];
      assert history[0].0 == PeakBytes(history) && history[0].1 == PeakBlocks(history);
    }
  }

  datatype GCStats = GCStats(
    totalCollections: Word, bytesReclaimedLast: Word, blocksReclaimedLast: nat, bytesReclaimedTotal: Word,
    totalAllocations: Word, bytesAllocatedTotal: Word, peakLiveBytes: Word, peakLiveBlocks: nat)

  const EMPTY_STATS := GCStats(0, 0, 0, 0, 0, 0, 0, 0)

  function Saturated(n: nat): nat {
    if n <= WORD_MAX then n else WORD_MAX
  }

  ghost predicate Balanced(
      allocations: Allocations, managed: Word, reserved: Word, stats: GCStats, ledger: Ledger)
  {
    && managed as nat == Total(PayloadBytes, allocations)
    && reserved as nat == Total(ReservedBytes, allocations)
    && ledger.allocatedBytes == managed + ledger.reclaimedBytes + ledger.releasedBytes
    && stats.totalCollections as nat == ledger.collections % WORD_LIMIT
    && stats.totalAllocations as nat == Saturated(ledger.allocations)
    && stats.bytesAllocatedTotal as nat == Saturated(ledger.allocatedBytes)
    && stats.bytesReclaimedTotal as nat == ledger.reclaimedBytes % WORD_LIMIT
    && ledger.history != [] && ledger.history[|ledger.history| - 1] == (managed as nat, |allocations|)
    && stats.peakLiveBytes as nat == PeakBytes(ledger.history)
    && stats.peakLiveBlocks == PeakBlocks(ledger.history)
  }

  lemma BlankLedger(zero: nat) returns (ledger: Ledger)
    requires zero == 0
    ensures IsBlank(ledger) && Balanced(map[], 0, 0, EMPTY_STATS, ledger)
  {
    var history := [(zero, zero)];
    ledger := Ledger(0, 0, 0, 0, 0, history);
    assert history[..|history| - 1] == [];
  }

  // Until the allocation total saturates, what was allocated is what is live, what
  // collections reclaimed and what was released unconstructed.
  lemma Conservation(
      allocations: Allocations, managed: Word, reserved: Word, stats: GCStats, ledger: Ledger)
    requires Balanced(allocations, managed, reserved, stats, ledger)
    ensures reserved >= managed
    ensures ledger.allocatedBytes <= WORD_MAX ==>
              stats.bytesAllocatedTotal as nat == managed + stats.bytesReclaimedTotal + ledger.releasedBytes
    ensures stats.bytesAllocatedTotal < WORD_MAX ==> ledger.allocatedBytes <= WORD_MAX
    ensures managed <= stats.peakLiveBytes && |allocations| <= stats.peakLiveBlocks
  {
    ReservedCoversManaged(allocations);
    PeaksAreMaxima(ledger.history);
  }
}
