/**
The weak registry, seen as a finite map from the storage word of a handle to its target,
together with the words the handles hold.  The manager keeps it as an unsorted list.
 */
module WeakRegistry {
  import opened Wrappers
  import opened Words
  import opened ChunkHeaders
  import opened Blocks
  import opened Reachability

  // --- The encoding ---

  // uintptr_t{0} - w.
  function Negate(w: Word): Word {
    (WORD_LIMIT - w) % WORD_LIMIT
  }

  function EncodeWeak(p: Address): Word {
    if p == 0 then 0 else Negate(p)
  }

  function DecodeWeak(encoded: Word): Address {
    if encoded == 0 then 0 else Negate(encoded)
  }

  // The encoding is a bijection on words that fixes only null at zero.
  lemma EncodingRoundTrips(w: Word)
    ensures DecodeWeak(EncodeWeak(w)) == w && EncodeWeak(DecodeWeak(w)) == w
    ensures EncodeWeak(w) == 0 <==> w == 0
    ensures DecodeWeak(w) == 0 <==> w == 0
  {
  }

  // The code of an address inside a payload is an address inside no payload.
  lemma EncodedIsNoPayloadAddress(allocations: Allocations, target: Address, b: Address)
    requires WellFormed(allocations) && Live(allocations, target) && b in allocations
    ensures target != 0 && EncodeWeak(target) >= PAYLOAD_LIMIT && !Contains(allocations[b], EncodeWeak(target))
  {
    var owner :| Owns(allocations, owner, target);
  }

  // --- The registry ---

  datatype WeakRefEntry = WeakRefEntry(target: Address, storage: Address)

  ghost predicate DistinctStorage(entries: seq<WeakRefEntry>) {
    forall i, j :: 0 <= i < j < |entries| ==> entries[i].storage != entries[j].storage
  }

  // The list as a map from storage to target.
  ghost function Targets(entries: seq<WeakRefEntry>): (targets: map<Address, Address>)
    ensures DistinctStorage(entries) ==> forall s :: s in targets <==> exists e :: e in entries && e.storage == s
    ensures DistinctStorage(entries) ==>
              forall e :: e in entries ==> e.storage in targets && targets[e.storage] == e.target
  {
    if DistinctStorage(entries) then map e | e in entries :: e.storage := e.target else map[]
  }

  // What the registry means, with the program's memory and the handles that exist.  The
  // busy ones are in the middle of an operation of the thread that owns them.  The guarded
  // words are the counts in front of arrays under construction; like handles, they are
  // private to the library.
  datatype WeakState = WeakState(
    targets: map<Address, Address>, memory: Memory, handles: set<Address>, busy: set<Address>, guarded: set<Address>)

  // A handle word is nonzero exactly if the registry names its storage; then it is the
  // code of the registered target, and the target lies in a live block.  Only a busy handle
  // may hold a word that is not registered yet.
  ghost predicate Consistent(w: WeakState, allocations: Allocations) {
    && 0 !in w.handles && w.guarded !! w.handles
    && (forall s :: s in w.targets ==>
          s in w.handles && Live(allocations, w.targets[s]) &&
          Load(w.memory, s) == EncodeWeak(w.targets[s]))
    && (forall s :: s in w.handles && s !in w.targets && s !in w.busy ==> Load(w.memory, s) == 0)
  }

  lemma NonzeroIffRegistered(w: WeakState, allocations: Allocations, s: Address)
    requires WellFormed(allocations) && Consistent(w, allocations) && s in w.handles && s !in w.busy
    ensures Load(w.memory, s) != 0 <==> s in w.targets
    ensures s in w.targets ==> DecodeWeak(Load(w.memory, s)) == w.targets[s]
  {
    if s in w.targets {
      var target := w.targets[s];
      var owner :| Owns(allocations, owner, target);
      hide EncodeWeak, DecodeWeak, WellFormed;
      EncodedIsNoPayloadAddress(allocations, target, owner);
      EncodingRoundTrips(target);
    }
  }

  // --- Invalidation ---

  predicate TargetIn(target: Address, pb: Address, pe: Address) {
    pb <= target < pe
  }

  function Zeroed(mem: Memory, storages: set<Address>): Memory {
    mem + map s | s in storages :: 0
  }

  // The handles at `storages` are zeroed and their entries dropped.
  function Forget(w: WeakState, storages: set<Address>): WeakState {
    w.(targets := w.targets - storages, memory := Zeroed(w.memory, storages))
  }

  lemma ForgetTwice(w: WeakState, a: set<Address>, b: set<Address>)
    ensures Forget(Forget(w, a), b) == Forget(w, a + b)
  {
    assert Zeroed(Zeroed(w.memory, a), b) == Zeroed(w.memory, a + b);
  }

  // invalidate_weak_refs_for_block_locked: the handles into [pb, pe).
  function Into(targets: map<Address, Address>, pb: Address, pe: Address): set<Address> {
    set s | s in targets && TargetIn(targets[s], pb, pe)
  }

  function Invalidate(w: WeakState, pb: Address, pe: Address): WeakState {
    Forget(w, Into(w.targets, pb, pe))
  }

  // The handles into the blocks of `dead`.
  ghost function IntoAny(targets: map<Address, Address>, allocations: Allocations, dead: set<Address>): set<Address> {
    set s | s in targets && FindsIn(allocations, targets[s], dead)
  }

  // Invalidation for every block of `dead`.
  ghost function Expire(w: WeakState, allocations: Allocations, dead: set<Address>): WeakState {
    Forget(w, IntoAny(w.targets, allocations, dead))
  }

  ghost predicate FindsIn(allocations: Allocations, target: Address, dead: set<Address>) {
    exists b :: b in dead && Owns(allocations, b, target)
  }

  lemma ExpireKeepsLive(w: WeakState, allocations: Allocations, dead: set<Address>, s: Address)
    requires WellFormed(allocations) && s in w.targets && Live(allocations, w.targets[s])
    requires !FindsIn(allocations, w.targets[s], dead)
    ensures Live(allocations - dead, w.targets[s])
  {
    var b :| Owns(allocations, b, w.targets[s]);
    assert Owns(allocations - dead, b, w.targets[s]);
  }

  lemma TargetsAreHigh(w: WeakState, allocations: Allocations)
    requires WellFormed(allocations) && Consistent(w, allocations)
    ensures forall s :: s in w.targets ==> EncodeWeak(w.targets[s]) >= PAYLOAD_LIMIT
  {
    forall s | s in w.targets
      ensures EncodeWeak(w.targets[s]) >= PAYLOAD_LIMIT
    {
      var b :| Owns(allocations, b, w.targets[s]);
      EncodedIsNoPayloadAddress(allocations, w.targets[s], b);
    }
  }

  lemma ExpireLoad(w: WeakState, allocations: Allocations, dead: set<Address>, a: Address)
    ensures Load(Expire(w, allocations, dead).memory, a) ==
              if a in w.targets && FindsIn(allocations, w.targets[a], dead) then 0 else Load(w.memory, a)
  {
  }

  lemma ExpireConsistent(w: WeakState, allocations: Allocations, dead: set<Address>)
    requires WellFormed(allocations) && Consistent(w, allocations)
    ensures WellFormed(allocations - dead) && Consistent(Expire(w, allocations, dead), allocations - dead)
  {
    var w' := Expire(w, allocations, dead);
    forall s | s in w'.targets
      ensures Live(allocations - dead, w'.targets[s]) && Load(w'.memory, s) == EncodeWeak(w'.targets[s])
    {
      ExpireKeepsLive(w, allocations, dead, s);
      ExpireLoad(w, allocations, dead, s);
    }
    forall s | s in w'.handles && s !in w'.targets && s !in w'.busy
      ensures Load(w'.memory, s) == 0
    {
      ExpireLoad(w, allocations, dead, s);
    }
  }

  lemma ExpireZeroesHighWords(w: WeakState, allocations: Allocations, dead: set<Address>)
    requires WellFormed(allocations) && Consistent(w, allocations)
    ensures HighWordsZeroed(w.memory, Expire(w, allocations, dead).memory)
  {
    TargetsAreHigh(w, allocations);
    forall a: Address
      ensures
        var after := Load(Expire(w, allocations, dead).memory, a);
        after == Load(w.memory, a) || (after == 0 && Load(w.memory, a) >= PAYLOAD_LIMIT)
    {
      ExpireLoad(w, allocations, dead, a);
    }
  }

  lemma FindsInOneMore(allocations: Allocations, dead: set<Address>, b: Address, target: Address)
    requires WellFormed(allocations) && b in allocations
    ensures FindsIn(allocations, target, dead + {b}) <==>
              FindsIn(allocations, target, dead) || TargetIn(target, b, allocations[b].payloadEnd)
  {
    assert TargetIn(target, b, allocations[b].payloadEnd) <==> Owns(allocations, b, target);
    if FindsIn(allocations, target, dead + {b}) {
      var c :| c in dead + {b} && Owns(allocations, c, target);
      assert c == b || c in dead;
    }
  }

  // Invalidating one more block extends the set of expired blocks by it.
  lemma ExpireOneMore(w: WeakState, allocations: Allocations, dead: set<Address>, b: Address)
    requires WellFormed(allocations) && b in allocations
    ensures Invalidate(Expire(w, allocations, dead), b, allocations[b].payloadEnd) ==
              Expire(w, allocations, dead + {b})
  {
    var gone := IntoAny(w.targets, allocations, dead);
    var hit := Into(w.targets - gone, b, allocations[b].payloadEnd);
    forall s | s in w.targets
      ensures s in gone + hit <==> FindsIn(allocations, w.targets[s], dead + {b})
    {
      FindsInOneMore(allocations, dead, b, w.targets[s]);
    }
    assert gone + hit == IntoAny(w.targets, allocations, dead + {b});
    ForgetTwice(w, gone, hit);
  }

  // --- What finalizers do ---

  function RunAct(w: WeakState, act: Act): WeakState {
    match act
    case Store(address, value) =>
      if address in w.handles || address in w.guarded then w else w.(memory := w.memory[address := value])
    case DropWeak(storage) =>
      if storage in w.handles && storage !in w.busy then
        w.(targets := w.targets - {storage}, handles := w.handles - {storage})
      else w
    case _ => w
  }

  function RunActs(w: WeakState, acts: seq<Act>): WeakState
    decreases |acts|
  {
    if acts == [] then w else RunAct(RunActs(w, acts[..|acts| - 1]), acts[|acts| - 1])
  }

  lemma RunActConsistent(w: WeakState, act: Act, allocations: Allocations)
    requires Consistent(w, allocations)
    ensures Consistent(RunAct(w, act), allocations)
  {
  }

  lemma {:induction false} RunActsConsistent(w: WeakState, acts: seq<Act>, allocations: Allocations)
    requires Consistent(w, allocations)
    ensures Consistent(RunActs(w, acts), allocations)
    decreases |acts|
  {
    if acts != [] {
      RunActsConsistent(w, acts[..|acts| - 1], allocations);
      RunActConsistent(RunActs(w, acts[..|acts| - 1]), acts[|acts| - 1], allocations);
    }
  }

  // The finalizers of a batch, in order.
  function RunFinalizers(w: WeakState, batch: seq<ChunkHeader>): WeakState
    decreases |batch|
  {
    if batch == [] then w
    else
      var before := RunFinalizers(w, batch[..|batch| - 1]);
      var last := batch[|batch| - 1].destructor;
      if last.Some? then RunActs(before, last.value) else before
  }

  lemma {:induction false} RunFinalizersConsistent(w: WeakState, batch: seq<ChunkHeader>, allocations: Allocations)
    requires Consistent(w, allocations)
    ensures Consistent(RunFinalizers(w, batch), allocations)
    decreases |batch|
  {
    if batch != [] {
      RunFinalizersConsistent(w, batch[..|batch| - 1], allocations);
      var last := batch[|batch| - 1].destructor;
      if last.Some? {
        RunActsConsistent(RunFinalizers(w, batch[..|batch| - 1]), last.value, allocations);
      }
    }
  }

  // Finalizers leave busy handles as they are.
  ghost predicate SameHandle(w: WeakState, w': WeakState, s: Address) {
    && s in w.handles && s in w'.handles
    && (s in w'.targets <==> s in w.targets)
    && (s in w.targets ==> w'.targets[s] == w.targets[s])
    && Load(w'.memory, s) == Load(w.memory, s)
  }

  lemma {:induction false} RunActsSparesBusy(w: WeakState, acts: seq<Act>, s: Address)
    requires s in w.busy && s in w.handles
    ensures SameHandle(w, RunActs(w, acts), s) && RunActs(w, acts).busy == w.busy
    decreases |acts|
  {
    if acts != [] {
      RunActsSparesBusy(w, acts[..|acts| - 1], s);
    }
  }

  lemma {:induction false} RunFinalizersSparesBusy(w: WeakState, batch: seq<ChunkHeader>, s: Address)
    requires s in w.busy && s in w.handles
    ensures SameHandle(w, RunFinalizers(w, batch), s) && RunFinalizers(w, batch).busy == w.busy
    decreases |batch|
  {
    if batch != [] {
      var before := RunFinalizers(w, batch[..|batch| - 1]);
      RunFinalizersSparesBusy(w, batch[..|batch| - 1], s);
      var last := batch[|batch| - 1].destructor;
      if last.Some? {
        RunActsSparesBusy(before, last.value, s);
      }
    }
  }

  // --- The registry as a list ---

  // What is left of the list after std::remove_if.
  function Remaining(entries: seq<WeakRefEntry>, pb: Address, pe: Address): seq<WeakRefEntry>
    decreases |entries|
  {
    if entries == [] then []
    else
      var n := |entries| - 1;
      if TargetIn(entries[n].target, pb, pe) then Remaining(entries[..n], pb, pe)
      else Remaining(entries[..n], pb, pe) + [entries[n]]
  }

  lemma {:induction false} RemainingExact(entries: seq<WeakRefEntry>, pb: Address, pe: Address)
    requires DistinctStorage(entries)
    ensures DistinctStorage(Remaining(entries, pb, pe))
    ensures forall e :: e in Remaining(entries, pb, pe) <==> e in entries && !TargetIn(e.target, pb, pe)
    decreases |entries|
  {
    if entries != [] {
      var n := |entries| - 1;
      RemainingExact(entries[..n], pb, pe);
      assert entries == entries[..n] + [entries[n]];
      var rest := Remaining(entries[..n], pb, pe);
      forall i | 0 <= i < |rest|
        ensures rest[i].storage != entries[n].storage
      {
        assert rest[i] in rest;
      }
    }
  }

  lemma RemainingTargets(entries: seq<WeakRefEntry>, pb: Address, pe: Address)
    requires DistinctStorage(entries)
    ensures DistinctStorage(Remaining(entries, pb, pe))
    ensures Targets(Remaining(entries, pb, pe)) == Targets(entries) - Into(Targets(entries), pb, pe)
  {
    RemainingExact(entries, pb, pe);
    var rest := Remaining(entries, pb, pe);
    forall s | s in Targets(entries) - Into(Targets(entries), pb, pe)
      ensures s in Targets(rest)
    {
      var e :| e in entries && e.storage == s;
      assert e in rest;
    }
  }

  // Swap with the last entry and pop.
  function SwapPop(entries: seq<WeakRefEntry>, i: nat): seq<WeakRefEntry>
    requires i < |entries|
  {
    entries[i := entries[|entries| - 1]][..|entries| - 1]
  }

  lemma SwapPopRemoves(entries: seq<WeakRefEntry>, i: nat)
    requires DistinctStorage(entries) && i < |entries|
    ensures DistinctStorage(SwapPop(entries, i))
    ensures Targets(SwapPop(entries, i)) == Targets(entries) - {entries[i].storage}
  {
    SwapPopExact(entries, i);
  }

  lemma SwapPopExact(entries: seq<WeakRefEntry>, i: nat)
    requires DistinctStorage(entries) && i < |entries|
    ensures DistinctStorage(SwapPop(entries, i))
    ensures forall e :: e in SwapPop(entries, i) <==> e in entries && e.storage != entries[i].storage
  {
    var rest, n := SwapPop(entries, i), |entries| - 1;
    forall e
      ensures e in rest <==> e in entries && e.storage != entries[i].storage
    {
      if e in entries && e.storage != entries[i].storage {
        var k :| 0 <= k < |entries| && entries[k] == e;
        assert rest[if k == n then i else k] == e;
      }
    }
  }

  lemma PushAdds(entries: seq<WeakRefEntry>, e: WeakRefEntry)
    requires DistinctStorage(entries) && e.storage !in Targets(entries)
    ensures DistinctStorage(entries + [e])
    ensures Targets(entries + [e]) == Targets(entries)[e.storage := e.target]
  {
    forall i | 0 <= i < |entries|
      ensures entries[i].storage != e.storage
    {
      assert entries[i] in entries;
    }
  }

  lemma MoveStorage(entries: seq<WeakRefEntry>, i: nat, storage: Address)
    requires DistinctStorage(entries) && i < |entries| && storage !in Targets(entries)
    ensures DistinctStorage(entries[i := entries[i].(storage := storage)])
    ensures Targets(entries[i := entries[i].(storage := storage)]) ==
              (Targets(entries) - {entries[i].storage})[storage := entries[i].target]
  {
    var moved := entries[i := entries[i].(storage := storage)];
    forall k | 0 <= k < |entries|
      ensures entries[k].storage != storage
    {
      assert entries[k] in entries;
    }
    forall e
      ensures e in moved <==> e == entries[i].(storage := storage) || (e in entries && e.storage != entries[i].storage)
    {
      if e == entries[i].(storage := storage) {
        assert moved[i] == e;
      } else if e in entries && e.storage != entries[i].storage {
        var k :| 0 <= k < |entries| && entries[k] == e;
        assert moved[k] == e;
      }
    }
  }

  // --- Weak handles do not retain ---

  // Zeroing the words of any weak handles, in payloads and in scanned roots, leaves the set
  // of reached blocks as it is.
  lemma WeakHandlesNeverRetain(
      w: WeakState, allocations: Allocations, roots: seq<Word>, zeroed: set<Address>, roots': seq<Word>)
    requires WellFormed(allocations) && Consistent(w, allocations) && zeroed <= w.targets.Keys
    requires |roots'| == |roots|
    requires forall i :: 0 <= i < |roots| ==>
               roots'[i] == roots[i] ||
               (roots'[i] == 0 && exists s :: s in w.targets && roots[i] == EncodeWeak(w.targets[s]))
    ensures Reached(allocations, Zeroed(w.memory, zeroed), roots') ==
              Reached(allocations, w.memory, roots)
  {
    TargetsAreHigh(w, allocations);
    var all := allocations.Keys;
    assert Restrict(allocations, all) == allocations;
    ReachedAgain(allocations, w.memory, roots, Zeroed(w.memory, zeroed), roots', all);
  }
}
