/**
What has become of a construction when it is over, at any depth: published and complete, or given
back without a trace.
 */
module ConstructionLaws {
  import opened Wrappers
  import opened Words
  import opened ChunkHeaders
  import opened Blocks
  import opened WeakRegistry
  import opened Lifecycle
  import opened Layout
  import opened HeapState
  import opened Mutation
  import opened HandleState
  import opened Construction
  import opened Pinning
  import opened GcNew

  // The block at p was finished, or released and never finalized.
  ghost predicate Ended(s: Snapshot, p: Address, h: ChunkHeader, threw: bool) {
    if threw then p !in s.allocations && h in s.released && Freed(h) in s.log && Finalized(h) !in s.log
    else p in s.allocations && s.allocations[p].header == h && !s.allocations[p].constructing
  }

  lemma ConcludedEnds(mid: Snapshot, h: ChunkHeader, p: Address, threw: bool)
    requires MayConclude(mid, p, threw) && Pinned(mid, h, p)
    ensures Ended(Conclusion(mid, p, threw), p, h, threw)
    ensures !threw ==> Conclusion(mid, p, threw).weak == mid.weak
  {
    Outcomes(mid, h, p, threw);
    hide Conclusion, MayConclude, Pinned;
  }

  // An object whose constructor returned is on the heap, unpinned, with the size and destructor
  // asked for; one whose constructor threw is gone.
  lemma ObjectOutcome(spec: ObjectSpec, m: Making, threw: bool)
    requires ObjectMade(spec, m, threw) && CountsPinned(m.before)
    ensures m.NotMade? ==> threw
    ensures m.Made? ==>
              m.payload in m.born.allocations &&
              var h := m.born.allocations[m.payload].header;
              && h.size == spec.size && h.destructor == Some(spec.destructor) && Ended(m.after, m.payload, h, threw)
  {
    hide Paused, KeepsPinned, CountsPinned, Allocated, Ran, MayConclude, Conclusion, ValidState, Pinned, Ended;
    if m.Made? {
      PausesKeep(m.before, m.pauses, m.start);
      KeepsCounts(m.before, m.start);
      AllocationKeeps(m.start, m.born, m.payload, spec.size, spec.alignment, Some(spec.destructor));
      var h := m.born.allocations[m.payload].header;
      RunKeeps(spec.body, m.runs[0]);
      KeepsOne(m.born, m.left, h, m.payload);
      PausesKeep(m.done, m.more, m.mid);
      KeepsOne(m.done, m.mid, h, m.payload);
      ConcludedEnds(m.mid, h, m.payload, threw);
    }
  }

  // An array without elements changes nothing.  One whose constructors all returned is on the heap,
  // with its count in front; one whose constructor threw is gone.
  lemma ArrayOutcome(spec: ArraySpec, m: Making, threw: bool)
    requires ArrayMade(spec, m, threw) && CountsPinned(m.before)
    ensures spec.count == 0 ==> !threw && m.after == m.before
    ensures m.NotMade? && spec.count > 0 ==> threw
    ensures m.Made? ==>
              m.payload in m.born.allocations &&
              var h := m.born.allocations[m.payload].header;
              && h.destructor == Some(FinalizerOf(spec, spec.count)) && Ended(m.after, m.payload, h, threw)
              && (!threw ==> Load(m.after.weak.memory, m.payload) == spec.count)
  {
    hide Paused, KeepsPinned, CountsPinned, ElementsRan, ElementsEnded, ArrayBegun, ArrayConcluded, Pinned, Ended,
         FinalizerOf;
    if m.Made? {
      BegunKeeps(spec, m);
      BegunDestructor(spec, m);
      var h := m.born.allocations[m.payload].header;
      DonePinned(spec, m, threw, h);
      ConcludedArray(spec, m, threw, h);
    }
  }

  lemma BegunDestructor(spec: ArraySpec, m: Making)
    requires ArrayBegun(spec, m)
    ensures spec.count > 0 && m.payload in m.born.allocations
    ensures m.born.allocations[m.payload].header.destructor == Some(FinalizerOf(spec, spec.count))
  {
    hide Paused, PlaceOf, FinalizerOf, ValidState;
  }

  // The block is still pinned when constructors and destructors are done, and the count is there.
  lemma DonePinned(spec: ArraySpec, m: Making, threw: bool, h: ChunkHeader)
    requires m.Made? && ArrayMade(spec, m, threw) && Pinned(m.born, h, m.payload) && CountsPinned(m.born)
    ensures Pinned(m.done, h, m.payload)
    ensures !threw ==> m.payload in m.done.weak.guarded && Load(m.done.weak.memory, m.payload) == spec.count
  {
    hide KeepsPinned, KeepsOthers, CountsPinned, ElementsRan, ElementsEnded, ArrayBegun, ArrayConcluded, Guarded,
         Pinned;
    var n := Completed(spec, m, threw);
    LastState(spec, n, m.runs, m.payload, m.born, m.left, threw);
    ElementsKeep(spec, n, |m.runs|, m.runs, m.payload, m.born, m.left, threw, h);
    if threw {
      EndedState(spec, n, m.endings, m.left, m.done);
      EndingsKeep(spec, n, n, m.endings, m.left, m.done);
      KeepsOne(m.left, m.done, h, m.payload);
    } else {
      GuardKeepsPin(Between(m.born, m.runs, |m.runs|), h, m.payload, n);
    }
  }

  lemma ConcludedArray(spec: ArraySpec, m: Making, threw: bool, h: ChunkHeader)
    requires m.Made? && ArrayConcluded(m, threw) && Pinned(m.done, h, m.payload)
    requires !threw ==> m.payload in m.done.weak.guarded && Load(m.done.weak.memory, m.payload) == spec.count
    ensures Ended(m.after, m.payload, h, threw)
    ensures !threw ==> Load(m.after.weak.memory, m.payload) == spec.count
  {
    hide Paused, KeepsPinned, MayConclude, Conclusion, Pinned, Unguarded;
    PausesKeep(m.done, m.more, m.mid);
    KeepsOne(m.done, m.mid, h, m.payload);
    ConcludedEnds(m.mid, h, m.payload, threw);
    UnguardedParts(Conclusion(m.mid, m.payload, threw), m.payload);
  }

  // So it is with the constructions inside a constructor; and an attempt does what it tries, and
  // lets no exception out.
  lemma NestedOutcome(step: Step, g: Stage)
    requires Performed(step, g) && CountsPinned(g.before)
    ensures step.Attempt? ==> !g.threw && (Performed(step.tried, g) || Performed(step.tried, g.(threw := true)))
    ensures (step.Build? || step.BuildArray?) && !g.threw && (step.BuildArray? ==> step.many.count > 0) ==>
              && g.making.Some? && g.making.value.Made? && g.making.value.payload in g.after.allocations
              && !g.after.allocations[g.making.value.payload].constructing
    ensures (step.Build? || step.BuildArray?) && g.threw && g.making.Some? && g.making.value.Made? ==>
              g.making.value.payload !in g.after.allocations
  {
    hide PlainPerformed, ObjectMade, ArrayMade, CountsPinned;
    match step
    case Attempt(tried) =>
      var threw :| Performed(tried, g.(threw := threw));
      assert threw || g.(threw := threw) == g;
    case Build(one) => ObjectOutcome(one, g.making.value, g.threw);
    case BuildArray(many) => ArrayOutcome(many, g.making.value, g.threw);
    case _ =>
  }
}
