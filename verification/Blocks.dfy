/**
Block records and the ordered map that holds them.  A lookup takes the predecessor of an
address in the map, as std::map::upper_bound followed by a step back does.
 */
module Blocks {
  import opened Wrappers
  import opened Words
  import opened ChunkHeaders

  datatype BlockRecord = BlockRecord(
    header: ChunkHeader, payloadBegin: Address, payloadEnd: Address, constructing: bool)

  // allocations_, keyed by the first payload address.
  type Allocations = map<Address, BlockRecord>

  predicate Contains(b: BlockRecord, a: Address) {
    b.payloadBegin <= a < b.payloadEnd
  }

  // --- The ordered map ---

  predicate Ascending(keys: seq<Address>) {
    forall i, j :: 0 <= i < j < |keys| ==> keys[i] < keys[j]
  }

  predicate IsLeast(least: Address, keys: set<Address>) {
    least in keys && forall k :: k in keys ==> least <= k
  }

  function Least(keys: set<Address>): (least: Address)
    requires keys != {}
    ensures IsLeast(least, keys)
  {
    LeastExists(keys);
    var least :| IsLeast(least, keys);
    least
  }

  lemma {:induction false} LeastExists(keys: set<Address>)
    requires keys != {}
    ensures exists least :: IsLeast(least, keys)
    decreases |keys|
  {
    var k :| k in keys;
    var rest := keys - {k};
    assert forall j :: j in keys ==> j == k || j in rest;
    if rest == {} {
      assert IsLeast(k, keys);
    } else {
      LeastExists(rest);
      var least :| IsLeast(least, rest);
      assert IsLeast(if k < least then k else least, keys);
    }
  }

  // The keys of a std::map in iteration order.
  function KeysInOrder(keys: set<Address>): (s: seq<Address>)
    ensures |s| == |keys| && Ascending(s)
    ensures forall k :: k in s <==> k in keys
    decreases |keys|
  {
    if keys == {} then []
    else
      var least := Least(keys);
      [least] + KeysInOrder(keys - {least})
  }

  // The records of a std::map in iteration order.
  function Records(allocations: Allocations): (records: seq<BlockRecord>)
    ensures |records| == |allocations|
  {
    var keys := KeysInOrder(allocations.Keys);
    seq(|keys|, i requires 0 <= i < |keys| => allocations[keys[i]])
  }

  // Every record sits under its own key, payloads are nonempty, lie in the lower half of
  // the address space, and do not overlap.
  ghost predicate WellFormed(allocations: Allocations) {
    && (forall a :: a in allocations ==>
          allocations[a].payloadBegin == a && 0 < a < allocations[a].payloadEnd <= PAYLOAD_LIMIT)
    && (forall a, b :: a in allocations && b in allocations && a < b ==> allocations[a].payloadEnd <= b)
  }

  // The same for a list of records in iteration order.
  ghost predicate Ordered(records: seq<BlockRecord>) {
    && (forall i :: 0 <= i < |records| ==> 0 < records[i].payloadBegin < records[i].payloadEnd <= PAYLOAD_LIMIT)
    && (forall i, j :: 0 <= i < j < |records| ==> records[i].payloadEnd <= records[j].payloadBegin)
  }

  lemma RecordsOrdered(allocations: Allocations)
    requires WellFormed(allocations)
    ensures Ordered(Records(allocations))
    ensures forall r :: r in Records(allocations) <==>
              r.payloadBegin in allocations && allocations[r.payloadBegin] == r
  {
    var keys, records := KeysInOrder(allocations.Keys), Records(allocations);
    forall i, j | 0 <= i < j < |records|
      ensures records[i].payloadEnd <= records[j].payloadBegin
    {
      assert keys[i] in allocations && keys[j] in allocations && keys[i] < keys[j];
    }
    forall i | 0 <= i < |records|
      ensures 0 < records[i].payloadBegin < records[i].payloadEnd <= PAYLOAD_LIMIT
      ensures records[i].payloadBegin in allocations && allocations[records[i].payloadBegin] == records[i]
    {
      assert keys[i] in allocations;
    }
    forall r: BlockRecord | r.payloadBegin in allocations && allocations[r.payloadBegin] == r
      ensures r in records
    {
      var i :| 0 <= i < |keys| && keys[i] == r.payloadBegin;
      assert records[i] == r;
    }
  }

  // The records of the map, each once, in ascending address.
  ghost predicate InOrder(records: seq<BlockRecord>, allocations: Allocations) {
    && Ordered(records) && |records| == |allocations|
    && (forall i :: 0 <= i < |records| ==>
          records[i].payloadBegin in allocations && allocations[records[i].payloadBegin] == records[i])
    && (forall a :: a in allocations ==> exists i :: 0 <= i < |records| && records[i].payloadBegin == a)
  }

  method Iterate(allocations: Allocations) returns (records: seq<BlockRecord>)
    requires WellFormed(allocations)
    ensures InOrder(records, allocations)
  {
    records := Records(allocations);
    RecordsInOrder(allocations);
  }

  lemma RecordsInOrder(allocations: Allocations)
    requires WellFormed(allocations)
    ensures InOrder(Records(allocations), allocations)
  {
    var records, keys := Records(allocations), KeysInOrder(allocations.Keys);
    RecordsOrdered(allocations);
    hide Ordered, KeysInOrder, Ascending;
    forall i | 0 <= i < |records|
      ensures records[i].payloadBegin in allocations && allocations[records[i].payloadBegin] == records[i]
    {
      assert records[i] == allocations[keys[i]] && keys[i] in keys;
    }
    forall a | a in allocations
      ensures exists i :: 0 <= i < |records| && records[i].payloadBegin == a
    {
      var i :| 0 <= i < |keys| && keys[i] == a;
      assert records[i].payloadBegin == a;
    }
  }

  lemma {:induction false} DistinctKeys(keys: seq<Address>, allocations: Allocations)
    requires forall i, j :: 0 <= i < j < |keys| ==> keys[i] != keys[j]
    requires forall a :: a in keys ==> a in allocations
    ensures |keys| <= |allocations|
    decreases |keys|
  {
    if keys != [] {
      var n := |keys| - 1;
      var a := keys[n];
      var rest := allocations - {a};
      assert rest.Keys == allocations.Keys - {a};
      assert |rest| == |rest.Keys| && |allocations| == |allocations.Keys|;
      DistinctKeys(keys[..n], rest);
    }
  }

  // --- Lookup ---

  // The meaning of a lookup, by linear search: some block of the map contains the address.
  ghost predicate Owns(allocations: Allocations, b: Address, a: Address) {
    b in allocations && Contains(allocations[b], a)
  }

  ghost predicate Live(allocations: Allocations, a: Address) {
    exists b :: Owns(allocations, b, a)
  }

  lemma UniqueBlock(allocations: Allocations, a: Address, b: Address, c: Address)
    requires WellFormed(allocations) && Owns(allocations, b, a) && Owns(allocations, c, a)
    ensures b == c
  {
  }

  // The position of the first record that begins above the address.
  function UpperBound(records: seq<BlockRecord>, a: Address): (i: nat)
    ensures i <= |records|
    ensures forall k :: 0 <= k < i ==> records[k].payloadBegin <= a
    ensures i < |records| ==> a < records[i].payloadBegin
  {
    if records == [] || a < records[0].payloadBegin then 0
    else 1 + UpperBound(records[1..], a)
  }

  // find_block_locked over records in order: the predecessor, if it contains the address.
  function FindIndex(records: seq<BlockRecord>, a: Address): Option<nat> {
    var i := UpperBound(records, a);
    if i == 0 then None
    else if Contains(records[i - 1], a) then Some(i - 1)
    else None
  }

  // Predecessor lookup is linear search: it finds the one record that contains the address.
  lemma FindIndexExact(records: seq<BlockRecord>, a: Address, i: nat)
    requires Ordered(records) && i < |records|
    ensures FindIndex(records, a) == Some(i) <==> Contains(records[i], a)
  {
    var u := UpperBound(records, a);
    assert i + 1 < u ==> records[i].payloadEnd <= records[u - 1].payloadBegin;
  }

  lemma FindIndexNone(records: seq<BlockRecord>, a: Address)
    requires Ordered(records)
    ensures FindIndex(records, a).None? <==> forall i :: 0 <= i < |records| ==> !Contains(records[i], a)
    ensures FindIndex(records, a).Some? ==> FindIndex(records, a).value < |records|
  {
    if i :| 0 <= i < |records| && Contains(records[i], a) {
      FindIndexExact(records, a, i);
    }
  }

  function FindBlock(allocations: Allocations, a: Address): Option<Address> {
    var records := Records(allocations);
    match FindIndex(records, a)
    case None => None
    case Some(i) => if i < |records| then Some(records[i].payloadBegin) else None
  }

  lemma FindBlockExact(allocations: Allocations, a: Address, b: Address)
    requires WellFormed(allocations)
    ensures FindBlock(allocations, a) == Some(b) <==> Owns(allocations, b, a)
  {
    if Owns(allocations, b, a) {
      OwnerIsFound(allocations, a, b);
    }
    if FindBlock(allocations, a) == Some(b) {
      FoundIsOwner(allocations, a, b);
    }
  }

  lemma OwnerIsFound(allocations: Allocations, a: Address, b: Address)
    requires WellFormed(allocations) && Owns(allocations, b, a)
    ensures FindBlock(allocations, a) == Some(b)
  {
    RecordsInOrder(allocations);
    var records := Records(allocations);
    hide Records;
    var i :| 0 <= i < |records| && records[i].payloadBegin == b;
    FindIndexExact(records, a, i);
  }

  lemma FoundIsOwner(allocations: Allocations, a: Address, b: Address)
    requires WellFormed(allocations) && FindBlock(allocations, a) == Some(b)
    ensures Owns(allocations, b, a)
  {
    RecordsInOrder(allocations);
    var records := Records(allocations);
    hide Records;
    FindIndexNone(records, a);
    FindIndexExact(records, a, FindIndex(records, a).value);
  }

  lemma FindBlockLive(allocations: Allocations, a: Address)
    requires WellFormed(allocations)
    ensures FindBlock(allocations, a).Some? <==> Live(allocations, a)
    ensures FindBlock(allocations, a).Some? ==> Owns(allocations, FindBlock(allocations, a).value, a)
  {
    match FindBlock(allocations, a)
    case Some(b) => FindBlockExact(allocations, a, b);
    case None =>
      if b :| Owns(allocations, b, a) {
        FindBlockExact(allocations, a, b);
      }
  }

  // find_block_locked.
  method Find(allocations: Allocations, a: Address) returns (found: Option<Address>)
    requires WellFormed(allocations)
    ensures found.Some? ==> Owns(allocations, found.value, a)
    ensures found.None? ==> !Live(allocations, a)
  {
    found := FindBlock(allocations, a);
    FindBlockLive(allocations, a);
  }

  // The lookup used for ordering sees only the blocks being finalized; it answers what the
  // full lookup answers, cut down to those blocks.
  lemma SubMapLookup(allocations: Allocations, sub: Allocations, a: Address)
    requires WellFormed(allocations)
    requires forall b :: b in sub ==> b in allocations && sub[b] == allocations[b]
    ensures WellFormed(sub)
    ensures FindBlock(sub, a) ==
              if FindBlock(allocations, a).Some? && FindBlock(allocations, a).value in sub
              then FindBlock(allocations, a) else None
  {
    match FindBlock(sub, a)
    case Some(b) =>
      FindBlockExact(sub, a, b);
      FindBlockExact(allocations, a, b);
    case None =>
      if FindBlock(allocations, a).Some? {
        var b := FindBlock(allocations, a).value;
        FindBlockExact(allocations, a, b);
        if b in sub {
          FindBlockExact(sub, a, b);
        }
      }
  }

  // --- Payload words ---

  // How many complete words the loop `cur + word_size <= payload_end` visits.
  function PayloadWords(b: BlockRecord): nat {
    if b.payloadBegin <= b.payloadEnd then (b.payloadEnd - b.payloadBegin) / WORD_SIZE else 0
  }

  function PayloadWord(mem: Memory, b: BlockRecord, k: nat): Word
    requires b.payloadEnd <= PAYLOAD_LIMIT && k < PayloadWords(b)
  {
    Load(mem, b.payloadBegin + WORD_SIZE * k)
  }
}
