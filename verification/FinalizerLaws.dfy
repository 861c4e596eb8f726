/**
What the finalizers of a batch leave, as one list of acts: the last write to each word counts,
handles and root ranges go that were given up, and nothing else changes.
 */
module FinalizerLaws {
  import opened Wrappers
  import opened Words
  import opened ChunkHeaders
  import opened WeakRegistry
  import opened Marking
  import opened HeapState

  // The acts are those of the destructors in batch order: the cuts separate them.
  ghost predicate ActsOf(batch: seq<ChunkHeader>, acts: seq<Act>, cuts: seq<nat>) {
    && |cuts| == |batch| + 1 && cuts[0] == 0 && cuts[|batch|] == |acts|
    && forall i, j :: 0 <= i && j == i + 1 && j <= |batch| ==>
         cuts[i] <= cuts[j] <= |acts| &&
         acts[cuts[i]..cuts[j]] == if batch[i].destructor.Some? then batch[i].destructor.value else []
  }

  lemma {:induction false} ActsInSequence(w: WeakState, ranges: seq<RootRange>, a: seq<Act>, b: seq<Act>)
    ensures RunActs(w, a + b) == RunActs(RunActs(w, a), b)
    ensures RangesAfterActs(ranges, a + b) == RangesAfterActs(RangesAfterActs(ranges, a), b)
    decreases |b|
  {
    if b == [] {
      assert a + b == a;
    } else {
      var n := |b| - 1;
      assert (a + b)[..|a + b| - 1] == a + b[..n];
      ActsInSequence(w, ranges, a, b[..n]);
    }
  }

  lemma {:induction false} FinalizersAreActs(w: WeakState, ranges: seq<RootRange>, batch: seq<ChunkHeader>)
    returns (acts: seq<Act>, cuts: seq<nat>)
    ensures ActsOf(batch, acts, cuts)
    ensures RunFinalizers(w, batch) == RunActs(w, acts)
    ensures RangesAfterBatch(ranges, batch) == RangesAfterActs(ranges, acts)
    decreases |batch|
  {
    if batch == [] {
      acts, cuts := [], [0];
    } else {
      var n := |batch| - 1;
      var before, cutsBefore := FinalizersAreActs(w, ranges, batch[..n]);
      var last := if batch[n].destructor.Some? then batch[n].destructor.value else [];
      ActsInSequence(w, ranges, before, last);
      acts, cuts := before + last, cutsBefore + [|before + last|];
      assert before + [] == before;
      OneMoreCut(batch, before, cutsBefore, acts, cuts);
    }
  }

  lemma OneMoreCut(
      batch: seq<ChunkHeader>, before: seq<Act>, cutsBefore: seq<nat>, acts: seq<Act>, cuts: seq<nat>)
    requires batch != [] && ActsOf(batch[..|batch| - 1], before, cutsBefore)
    requires
      var last := batch[|batch| - 1].destructor;
      acts == before + (if last.Some? then last.value else []) && cuts == cutsBefore + [|acts|]
    ensures ActsOf(batch, acts, cuts)
  {
    var n := |batch| - 1;
    forall i, j | 0 <= i && j == i + 1 && j <= |batch|
      ensures cuts[i] <= cuts[j] <= |acts|
      ensures acts[cuts[i]..cuts[j]] == if batch[i].destructor.Some? then batch[i].destructor.value else []
    {
      if i < n {
        assert batch[..n][i] == batch[i] && cuts[i] == cutsBefore[i] && cuts[j] == cutsBefore[j];
        assert acts[cuts[i]..cuts[j]] == before[cutsBefore[i]..cutsBefore[j]];
      }
    }
  }

  // --- Handles ---

  // A handle goes exactly if some act destroys it while no operation works on it, and its
  // entry goes with it.
  lemma {:induction false} HandlesAfter(w: WeakState, acts: seq<Act>)
    requires forall h :: h in w.targets ==> h in w.handles
    ensures
      var w' := RunActs(w, acts);
      && w'.busy == w.busy && w'.guarded == w.guarded
      && (forall h :: h in w'.handles <==> h in w.handles && (h in w.busy || DropWeak(h) !in acts))
      && (forall h :: h in w'.targets <==> h in w.targets && h in w'.handles)
      && (forall h :: h in w'.targets ==> w'.targets[h] == w.targets[h])
    decreases |acts|
  {
    if acts != [] {
      var n := |acts| - 1;
      HandlesAfter(w, acts[..n]);
      assert acts == acts[..n] + [acts[n]];
    }
  }

  // --- Words ---

  // The i-th act writes the word at a, and no later one does.
  ghost predicate LastWrite(acts: seq<Act>, i: int, a: Address, value: Word) {
    0 <= i < |acts| && acts[i] == Store(a, value) &&
    forall j, v :: i < j < |acts| ==> acts[j] != Store(a, v)
  }

  ghost predicate Unwritten(acts: seq<Act>, a: Address) {
    forall v :: Store(a, v) !in acts
  }

  // A word that is neither a handle nor a count holds what was written to it last.
  lemma {:induction false} WordAfter(w: WeakState, acts: seq<Act>, a: Address)
    requires a !in w.handles && a !in w.guarded
    ensures forall i, v :: LastWrite(acts, i, a, v) ==> Load(RunActs(w, acts).memory, a) == v
    ensures Unwritten(acts, a) ==> Load(RunActs(w, acts).memory, a) == Load(w.memory, a)
    ensures a !in RunActs(w, acts).handles && RunActs(w, acts).guarded == w.guarded
    decreases |acts|
  {
    if acts != [] {
      var n := |acts| - 1;
      WordAfter(w, acts[..n], a);
      assert acts == acts[..n] + [acts[n]];
      forall i, v | LastWrite(acts, i, a, v)
        ensures Load(RunActs(w, acts).memory, a) == v
      {
        if i < n {
          assert LastWrite(acts[..n], i, a, v);
          assert acts[n] != Store(a, v);
        }
      }
    }
  }

  // The word of a handle that stays, or of a count, is not written.
  lemma {:induction false} PrivateWordAfter(w: WeakState, acts: seq<Act>, a: Address)
    requires a in RunActs(w, acts).handles || a in w.guarded
    ensures Load(RunActs(w, acts).memory, a) == Load(w.memory, a)
    ensures a in RunActs(w, acts).handles ==> a in w.handles
    ensures RunActs(w, acts).guarded == w.guarded
    decreases |acts|
  {
    if acts != [] {
      PrivateWordAfter(w, acts[..|acts| - 1], a);
    }
  }

  // --- Root ranges ---

  // The act unregisters r.
  predicate Drops(act: Act, r: RootRange) {
    act.DropRange? && act.begin != 0 && act.end != 0 && r.begin < r.end &&
    ((act.begin == r.begin && act.end == r.end) || (act.begin == r.end && act.end == r.begin))
  }

  // Each such act removes one equal range, as long as there is one.
  lemma {:induction false} RangesAfter(ranges: seq<RootRange>, acts: seq<Act>, r: RootRange)
    ensures
      var dropped, had := |set i | 0 <= i < |acts| && Drops(acts[i], r)|, multiset(ranges)[r];
      multiset(RangesAfterActs(ranges, acts))[r] == if dropped <= had then had - dropped else 0
    decreases |acts|
  {
    var drops := set i | 0 <= i < |acts| && Drops(acts[i], r);
    if acts == [] {
      assert drops == {};
    } else {
      var n := |acts| - 1;
      RangesAfter(ranges, acts[..n], r);
      DropsCounted(acts, r);
      OneActDrops(RangesAfterActs(ranges, acts[..n]), acts[n], r);
    }
  }

  lemma DropsCounted(acts: seq<Act>, r: RootRange)
    requires acts != []
    ensures
      var n := |acts| - 1;
      |set i | 0 <= i < |acts| && Drops(acts[i], r)| ==
      |set i | 0 <= i < |acts[..n]| && Drops(acts[..n][i], r)| + if Drops(acts[n], r) then 1 else 0
  {
    var n := |acts| - 1;
    var fewer := set i | 0 <= i < |acts[..n]| && Drops(acts[..n][i], r);
    var all := set i | 0 <= i < |acts| && Drops(acts[i], r);
    assert all == if Drops(acts[n], r) then fewer + {n} else fewer;
  }

  lemma OneActDrops(ranges: seq<RootRange>, act: Act, r: RootRange)
    ensures
      var had := multiset(ranges)[r];
      multiset(RangesAfterAct(ranges, act))[r] == if Drops(act, r) && had > 0 then had - 1 else had
  {
    if act.DropRange? && act.begin != 0 && act.end != 0 && act.begin != act.end {
      OneRemoved(ranges, Normalized(act.begin, act.end));
    }
    hide WithoutFirst;
  }

  // One equal range goes, if there is one.
  lemma {:induction false} OneRemoved(ranges: seq<RootRange>, r: RootRange)
    ensures multiset(WithoutFirst(ranges, r)) == multiset(ranges) - multiset{r}
    decreases |ranges|
  {
    if ranges != [] {
      assert ranges == [ranges[0]] + ranges[1..];
      OneRemoved(ranges[1..], r);
    }
  }

  // It is the first one, and the others stay in order.
  lemma {:induction false} FirstRemoved(ranges: seq<RootRange>, r: RootRange) returns (i: nat)
    ensures if r in ranges then i < |ranges| && ranges[i] == r && r !in ranges[..i] else i == |ranges|
    ensures WithoutFirst(ranges, r) == ranges[..i] + if i < |ranges| then ranges[i + 1..] else []
    decreases |ranges|
  {
    if ranges == [] {
      i := 0;
    } else if ranges[0] == r {
      i := 0;
      assert ranges[0 + 1..] == ranges[1..] && ranges[..0] == [];
    } else {
      i := FirstRemoved(ranges[1..], r);
      assert ranges == [ranges[0]] + ranges[1..];
      assert ranges[..i + 1] == [ranges[0]] + ranges[1..][..i];
      if i < |ranges[1..]| {
        assert ranges[i + 1 + 1..] == ranges[1..][i + 1..];
      }
      i := i + 1;
    }
  }
}
