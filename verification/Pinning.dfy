/**
What a construction leaves alone, however deeply it nests: older pinned blocks, and the counts
of arrays under construction.
 */
module Pinning {
  import opened Wrappers
  import opened Words
  import opened Bits
  import opened ChunkHeaders
  import opened Blocks
  import opened WeakRegistry
  import opened Accounting
  import opened Lifecycle
  import opened Layout
  import opened Marking
  import opened HeapState
  import opened Mutation
  import opened HandleState
  import opened Construction

  // --- A block under construction ---

  // The block at p belongs to h and is pinned.
  ghost predicate Pinned(s: Snapshot, h: ChunkHeader, p: Address) {
    p in s.allocations && s.allocations[p].header == h && s.allocations[p].constructing
  }

  // The guarded counts lie at the start of pinned blocks.
  ghost predicate CountsPinned(s: Snapshot) {
    forall g :: g in s.weak.guarded ==> g in s.allocations && s.allocations[g].constructing
  }

  // Whatever runs while blocks are under construction, pinned blocks keep their records and
  // guarded counts their values.
  ghost predicate KeepsPinned(s: Snapshot, s': Snapshot) {
    && (forall a :: a in s.allocations && s.allocations[a].constructing ==>
          a in s'.allocations && s'.allocations[a] == s.allocations[a])
    && s'.weak.guarded == s.weak.guarded
    && (forall g :: g in s.weak.guarded ==> Load(s'.weak.memory, g) == Load(s.weak.memory, g))
  }

  // The same for all blocks but the one at p.
  ghost predicate KeepsOthers(s: Snapshot, s': Snapshot, p: Address) {
    && (forall a :: a in s.allocations && s.allocations[a].constructing && a != p ==>
          a in s'.allocations && s'.allocations[a] == s.allocations[a])
    && (forall g :: g != p ==> (g in s'.weak.guarded <==> g in s.weak.guarded))
    && (forall g :: g in s.weak.guarded && g != p ==> Load(s'.weak.memory, g) == Load(s.weak.memory, g))
  }

  lemma KeepsItself(s: Snapshot)
    ensures KeepsPinned(s, s)
  {
  }

  lemma KeepsTwice(s: Snapshot, s1: Snapshot, s2: Snapshot)
    requires KeepsPinned(s, s1) && KeepsPinned(s1, s2)
    ensures KeepsPinned(s, s2)
  {
  }

  lemma OthersItself(s: Snapshot, p: Address)
    ensures KeepsOthers(s, s, p)
  {
  }

  lemma OthersTwice(s: Snapshot, s1: Snapshot, s2: Snapshot, p: Address)
    requires KeepsOthers(s, s1, p) && KeepsOthers(s1, s2, p)
    ensures KeepsOthers(s, s2, p)
  {
  }

  lemma KeepsMeansOthers(s: Snapshot, s': Snapshot, p: Address)
    requires KeepsPinned(s, s')
    ensures KeepsOthers(s, s', p)
  {
  }

  lemma KeepsCounts(s: Snapshot, s': Snapshot)
    requires CountsPinned(s) && KeepsPinned(s, s')
    ensures CountsPinned(s')
  {
  }

  lemma KeepsOne(s: Snapshot, s': Snapshot, h: ChunkHeader, p: Address)
    requires KeepsPinned(s, s') && Pinned(s, h, p)
    ensures Pinned(s', h, p)
    ensures p in s.weak.guarded ==> p in s'.weak.guarded && Load(s'.weak.memory, p) == Load(s.weak.memory, p)
  {
  }

  // A construction from allocation to publication or rollback leaves all older pinned
  // blocks alone: `mid` is the state just before its block appears at p.
  lemma WholeConstruction(s: Snapshot, mid: Snapshot, s': Snapshot, p: Address)
    requires KeepsPinned(s, mid) && KeepsOthers(mid, s', p) && CountsPinned(mid)
    requires p !in mid.allocations && p !in s'.weak.guarded
    ensures KeepsPinned(s, s') && CountsPinned(s')
  {
    assert p !in mid.weak.guarded;
    assert s'.weak.guarded == mid.weak.guarded;
  }

  // --- What keeps pinned blocks ---

  // However long a constructor runs, collections leave its block in place.
  lemma PausesKeep(s: Snapshot, pauses: seq<Pause>, s': Snapshot)
    requires Paused(s, pauses, s')
    ensures KeepsPinned(s, s')
  {
    hide Paused;
    PausesSurvive(s, pauses, s');
  }

  lemma AllocationKeeps(
      s: Snapshot, s': Snapshot, p: Address, size: Word, alignment: Word, destructor: Option<seq<Act>>)
    requires Allocated(s, s', p, size, alignment, destructor, true) && ValidState(s) && CountsPinned(s)
    ensures KeepsPinned(s, s') && CountsPinned(s') && p !in s.allocations && p in s'.allocations
    ensures forall a: Address :: p <= a < p + size ==> Load(s'.weak.memory, a) == 0
    ensures Pinned(s', s'.allocations[p].header, p) && p !in s'.weak.handles && p !in s'.weak.guarded
    ensures s'.allocations[p].header.size == size && s'.allocations[p].header.destructor == destructor
    ensures alignment > 0 && p % alignment == 0 && 0 < p && p + size <= PAYLOAD_LIMIT
  {
    var h := s'.allocations[p].header;
    AllocatedAligned(s, s', p, size, alignment, destructor);
    AllocatedAs(s, s', p, size, alignment, destructor);
    hide *;
    ValidParts(s);
    PlacedApart(s, h, p);
    RegisteredFits(s, h, p, true);
    RegisteredParts(s, h, p, true);
    FreshBlockKeeps(s, s', h, p);
  }

  lemma AllocatedAs(
      s: Snapshot, s': Snapshot, p: Address, size: Word, alignment: Word, destructor: Option<seq<Act>>)
    requires Allocated(s, s', p, size, alignment, destructor, true)
    ensures
      var h := s'.allocations[p].header;
      && p in s'.allocations && h.size == size && h.destructor == destructor && p % alignment == 0
      && Placed(s, h, p) && 0 < p && p + size <= PAYLOAD_LIMIT
      && s.managedBytes + h.size <= WORD_MAX && s.reservedBytes + (h.payloadOffset + h.size) <= WORD_MAX
      && s' == RegisteredAt(s, h, p, true)
  {
    hide LayoutOf, Counted, ZeroRange, Occupied;
    AllocatedAligned(s, s', p, size, alignment, destructor);
  }

  lemma FreshBlockKeeps(s: Snapshot, s': Snapshot, h: ChunkHeader, p: Address)
    requires WellFormed(s.allocations) && CountsPinned(s) && 0 < h.size && p !in s.allocations && 0 < p
    requires p + h.size <= PAYLOAD_LIMIT && HEADER_SIZE <= h.payloadOffset <= p
    requires forall a :: a in s.allocations ==>
               p + h.size <= a - s.allocations[a].header.payloadOffset ||
               s.allocations[a].payloadEnd <= p - h.payloadOffset
    requires forall w :: w in s.weak.handles ==> !(p <= w < p + h.size)
    requires s'.allocations == s.allocations[p := BlockRecord(h, p, p + h.size, true)]
    requires s'.weak == s.weak.(memory := ZeroRange(s.weak.memory, p, p + h.size))
    ensures KeepsPinned(s, s') && CountsPinned(s')
    ensures Pinned(s', h, p) && p !in s'.weak.handles && p !in s'.weak.guarded
  {
    forall g | g in s.weak.guarded
      ensures Load(s'.weak.memory, g) == Load(s.weak.memory, g)
    {
      assert g in s.allocations && g < s.allocations[g].payloadEnd;
    }
  }

  lemma AllocatedAligned(
      s: Snapshot, s': Snapshot, p: Address, size: Word, alignment: Word, destructor: Option<seq<Act>>)
    requires Allocated(s, s', p, size, alignment, destructor, true)
    ensures alignment > 0
  {
    hide RegisteredAt, Placed;
  }

  lemma AddingKeeps(s: Snapshot, ranges: seq<RootRange>, pauses: seq<Pause>, s': Snapshot)
    requires Paused(WithRanges(s, ranges), pauses, s')
    ensures KeepsPinned(s, s')
  {
    hide Paused, KeepsPinned;
    RangesKeep(s, ranges);
    PausesKeep(WithRanges(s, ranges), pauses, s');
    KeepsTwice(s, WithRanges(s, ranges), s');
  }

  lemma WriteKeeps(s: Snapshot, address: Address, value: Word)
    ensures KeepsPinned(s, AfterAct(s, Act.Store(address, value)))
  {
  }

  lemma RangesKeep(s: Snapshot, ranges: seq<RootRange>)
    ensures KeepsPinned(s, WithRanges(s, ranges))
  {
  }

  lemma CountKeepsOthers(s: Snapshot, p: Address, word: Word)
    ensures KeepsOthers(s, Guarded(s, p, word), p) && KeepsOthers(s, Unguarded(s, p), p)
  {
  }

  lemma PublishKeepsOthers(s: Snapshot, p: Address)
    requires p in s.allocations
    ensures KeepsOthers(s, Constructed(s, p), p)
  {
  }

  lemma ReleaseKeepsOthers(s: Snapshot, p: Address)
    requires ValidState(s) && BytesHeld(s, p)
    ensures KeepsOthers(s, Released(s, p), p)
  {
    hide *;
    ReleasedAs(s, p);
    ValidParts(s);
    InvalidateSparesCounts(s.weak, s.allocations, p, s.allocations[p].payloadEnd);
    WithoutBlockKeepsOthers(s, Released(s, p), p);
  }

  lemma ReleasedAs(s: Snapshot, p: Address)
    requires BytesHeld(s, p)
    ensures p in s.allocations && Released(s, p).allocations == s.allocations - {p}
    ensures Released(s, p).weak == Invalidate(s.weak, p, s.allocations[p].payloadEnd)
    ensures Released(s, p).released == s.released + {s.allocations[p].header}
    ensures Released(s, p).log == s.log + [Freed(s.allocations[p].header)]
  {
    hide LedgerWithout, Invalidate;
  }

  lemma WithoutBlockKeepsOthers(s: Snapshot, s': Snapshot, p: Address)
    requires s'.allocations == s.allocations - {p} && s'.weak.guarded == s.weak.guarded
    requires forall g :: g in s.weak.guarded ==> Load(s'.weak.memory, g) == Load(s.weak.memory, g)
    ensures KeepsOthers(s, s', p)
  {
  }

  lemma InvalidateSparesCounts(w: WeakState, allocations: Allocations, pb: Address, pe: Address)
    requires Consistent(w, allocations)
    ensures Invalidate(w, pb, pe).guarded == w.guarded
    ensures forall g :: g in w.guarded ==> Load(Invalidate(w, pb, pe).memory, g) == Load(w.memory, g)
  {
  }

  // Handles that the constructor makes or destroys.
  lemma NewHandleKeeps(s: Snapshot, h: Address, word: Word)
    requires h !in s.weak.guarded
    ensures KeepsPinned(s, WithWord(Created(s, h), h, word))
  {
  }

  lemma InitializedKeeps(s: Snapshot, p: Address, h: Address)
    requires h !in s.weak.guarded
    ensures KeepsPinned(s, LetGo(Initialized(s, p, h), {h}))
  {
  }

  lemma GoneHandleKeeps(s: Snapshot, h: Address)
    ensures KeepsPinned(s, Taken(s, {h})) && KeepsPinned(s, Destroyed(s, h))
    ensures KeepsPinned(s, Destroyed(AfterUnregister(s, h), h))
  {
  }

  lemma PointingKeeps(s: Snapshot, h: Address, target: Address, pauses: seq<Pause>, mid: Snapshot)
    requires h !in s.weak.guarded && Paused(WithWord(Created(s, h), h, EncodeWeak(target)), pauses, mid)
    ensures KeepsPinned(s, LetGo(Initialized(mid, target, h), {h}))
  {
    hide Paused, EncodeWeak, KeepsPinned;
    var written := WithWord(Created(s, h), h, EncodeWeak(target));
    NewHandleKeeps(s, h, EncodeWeak(target));
    PausesKeep(written, pauses, mid);
    KeepsTwice(s, written, mid);
    SameCounts(s, mid);
    InitializedKeeps(mid, target, h);
    KeepsTwice(s, mid, LetGo(Initialized(mid, target, h), {h}));
  }

  lemma SameCounts(s: Snapshot, s': Snapshot)
    requires KeepsPinned(s, s')
    ensures s'.weak.guarded == s.weak.guarded
  {
  }

  lemma DroppingKeeps(s: Snapshot, h: Address, pauses: seq<Pause>, mid: Snapshot)
    requires Paused(Taken(s, {h}), pauses, mid)
    ensures KeepsPinned(s, Destroyed(mid, h)) && KeepsPinned(s, Destroyed(AfterUnregister(mid, h), h))
  {
    hide Paused, KeepsPinned;
    GoneHandleKeeps(s, h);
    PausesKeep(Taken(s, {h}), pauses, mid);
    KeepsTwice(s, Taken(s, {h}), mid);
    GoneHandleKeeps(mid, h);
    KeepsTwice(s, mid, Destroyed(mid, h));
    KeepsTwice(s, mid, Destroyed(AfterUnregister(mid, h), h));
  }

  // --- The end of a construction ---

  // A block given back before its construction ended is freed, and never finalized.
  lemma ReleasedNotFinalized(s: Snapshot, p: Address)
    requires ValidState(s) && BytesHeld(s, p)
    ensures
      var h, s' := s.allocations[p].header, Released(s, p);
      p !in s'.allocations && h in s'.released && Freed(h) in s'.log && Finalized(h) !in s'.log
  {
    hide *;
    ReleasedAs(s, p);
    LiveNotFinalized(s, p);
    assert (s.log + [Freed(s.allocations[p].header)])[|s.log|] == Freed(s.allocations[p].header);
  }

  lemma PinnedBlock(s: Snapshot, h: ChunkHeader, p: Address)
    requires Pinned(s, h, p)
    ensures p in s.allocations && s.allocations[p].header == h
    ensures Constructed(s, p).allocations == s.allocations[p := s.allocations[p].(constructing := false)]
    ensures Constructed(s, p).weak == s.weak
  {
  }

  lemma GuardKeepsPin(s: Snapshot, h: ChunkHeader, p: Address, word: Word)
    requires Pinned(s, h, p)
    ensures Pinned(Guarded(s, p, word), h, p)
    ensures p in Guarded(s, p, word).weak.guarded && Load(Guarded(s, p, word).weak.memory, p) == word
    ensures CountsPinned(s) ==> CountsPinned(Guarded(s, p, word))
  {
  }

  // --- Whole programs ---

  lemma PlainKeeps(step: Step, g: Stage)
    requires PlainPerformed(step, g)
    ensures KeepsPinned(g.before, g.after)
  {
    hide Paused, KeepsPinned, EncodeWeak;
    KeepsItself(g.before);
    match step {
      case Park(_) => PausesKeep(g.before, g.pauses, g.after);
      case CollectNow(_, _, _) => PausesKeep(g.before, g.pauses, g.after);
      case Write(address, value) => WriteKeeps(g.before, address, value);
      case AddRange(begin, end, _) =>
        if !EmptyRange(begin, end) {
          AddingKeeps(g.before, g.before.rootRanges + [Normalized(begin, end)], g.pauses, g.after);
        }
      case RemoveRange(begin, end, _) =>
        if !EmptyRange(begin, end) {
          PausesKeep(g.before, g.pauses, g.mid);
          RangesKeep(g.mid, WithoutFirst(g.mid.rootRanges, Normalized(begin, end)));
          KeepsTwice(g.before, g.mid, g.after);
        }
      case PointWeakly(h, target, _) =>
        if FreeForHandle(g.before.weak, h) {
          PointingKeeps(g.before, h, target, g.pauses, g.mid);
        }
      case DropHandle(h, _) =>
        if h in g.before.weak.handles && h !in g.before.weak.busy {
          DroppingKeeps(g.before, h, g.pauses, g.mid);
        }
      case _ =>
    }
  }

  // Every step of a constructor keeps pinned blocks and counts, whatever it constructs.
  lemma {:induction false} StepKeeps(step: Step, g: Stage)
    requires Performed(step, g) && CountsPinned(g.before)
    ensures KeepsPinned(g.before, g.after)
    decreases step, 0
  {
    hide PlainPerformed, KeepsPinned, CountsPinned, ObjectMade, ArrayMade;
    match step {
      case Attempt(tried) =>
        var threw :| Performed(tried, g.(threw := threw));
        StepKeeps(tried, g.(threw := threw));
      case Build(one) => ObjectKeeps(one, g.making.value, g.threw);
      case BuildArray(many) => ArrayKeeps(many, g.making.value, g.threw);
      case _ => PlainKeeps(step, g);
    }
  }

  lemma {:induction false} StagesKeep(body: Body, s: Snapshot, stages: seq<Stage>, s': Snapshot)
    requires |stages| <= |body.steps| && Follows(s, stages, s') && CountsPinned(s)
    requires forall i :: 0 <= i < |stages| ==> Performed(body.steps[i], stages[i])
    ensures KeepsPinned(s, s')
    decreases body, |stages|
  {
    hide Performed, KeepsPinned, CountsPinned;
    if stages == [] {
      KeepsItself(s);
    } else {
      var n := |stages| - 1;
      StagesKeep(body, s, stages[..n], stages[n].before);
      KeepsCounts(s, stages[n].before);
      StepKeeps(body.steps[n], stages[n]);
      KeepsTwice(s, stages[n].before, s');
    }
  }

  lemma {:induction false} RunKeeps(body: Body, run: Execution)
    requires Ran(body, run) && CountsPinned(run.before)
    ensures KeepsPinned(run.before, run.after)
    decreases body, |run.stages| + 1
  {
    hide Performed, Follows, KeepsPinned, CountsPinned;
    StagesKeep(body, run.before, run.stages, run.after);
  }

  lemma {:induction false} ActsKeep(
      acts: seq<Act>, setting: Setting, s: Snapshot, stages: seq<Stage>, s': Snapshot)
    requires |stages| <= |acts| && Follows(s, stages, s')
    requires forall i :: 0 <= i < |stages| ==> PlainPerformed(StepOf(acts[i], setting), stages[i])
    ensures KeepsPinned(s, s')
    decreases |stages|
  {
    hide PlainPerformed, KeepsPinned, StepOf;
    if stages == [] {
      KeepsItself(s);
    } else {
      var n := |stages| - 1;
      ActsKeep(acts, setting, s, stages[..n], stages[n].before);
      PlainKeeps(StepOf(acts[n], setting), stages[n]);
      KeepsTwice(s, stages[n].before, s');
    }
  }

  lemma ActedKeeps(acts: seq<Act>, setting: Setting, run: Execution)
    requires Acted(acts, setting, run)
    ensures KeepsPinned(run.before, run.after)
  {
    hide PlainPerformed, Follows, KeepsPinned;
    ActsKeep(acts, setting, run.before, run.stages, run.after);
  }

  // A construction of any depth leaves older pinned blocks and counts alone.
  lemma {:induction false} ObjectKeeps(spec: ObjectSpec, m: Making, threw: bool)
    requires ObjectMade(spec, m, threw) && CountsPinned(m.before)
    ensures KeepsPinned(m.before, m.after) && CountsPinned(m.after)
    decreases spec, 0
  {
    hide Paused, KeepsPinned, KeepsOthers, CountsPinned, Allocated, Ran, MayConclude, Conclusion, ValidState;
    PausesKeep(m.before, m.pauses, if m.Made? then m.start else m.after);
    KeepsCounts(m.before, if m.Made? then m.start else m.after);
    if m.Made? {
      var size, alignment, destructor := spec.size, spec.alignment, Some(spec.destructor);
      AllocationKeeps(m.start, m.born, m.payload, size, alignment, destructor);
      RunKeeps(spec.body, m.runs[0]);
      SameCounts(m.born, m.done);
      KeepsMeansOthers(m.born, m.done, m.payload);
      PausesKeep(m.done, m.more, m.mid);
      SameCounts(m.done, m.mid);
      ConclusionKeepsOthers(m.mid, m.payload, threw);
      EndKeeps(m, threw, m.after);
    }
  }

  // The end of a construction, from the state in which its constructors and destructors are
  // done.
  lemma EndKeeps(m: Making, threw: bool, concluded: Snapshot)
    requires m.Made? && KeepsPinned(m.before, m.start) && CountsPinned(m.start) && m.payload !in m.start.allocations
    requires KeepsPinned(m.start, m.born) && KeepsOthers(m.born, m.done, m.payload)
    requires Paused(m.done, m.more, m.mid) && MayConclude(m.mid, m.payload, threw)
    requires concluded == Conclusion(m.mid, m.payload, threw)
    requires m.after == concluded || m.after == Unguarded(concluded, m.payload)
    requires m.payload !in m.after.weak.guarded
    ensures KeepsPinned(m.before, m.after) && CountsPinned(m.after)
  {
    hide *;
    var p := m.payload;
    PausesKeep(m.done, m.more, m.mid);
    SameCounts(m.done, m.mid);
    KeepsMeansOthers(m.start, m.born, p);
    KeepsMeansOthers(m.done, m.mid, p);
    OthersTwice(m.start, m.born, m.done, p);
    OthersTwice(m.start, m.done, m.mid, p);
    ConclusionKeepsOthers(m.mid, p, threw);
    OthersTwice(m.start, m.mid, concluded, p);
    CountKeepsOthers(concluded, p, 0);
    if m.after != concluded {
      OthersTwice(m.start, concluded, m.after, p);
    }
    WholeConstruction(m.before, m.start, m.after, p);
  }

  lemma ConclusionKeepsOthers(mid: Snapshot, p: Address, threw: bool)
    requires MayConclude(mid, p, threw)
    ensures KeepsOthers(mid, Conclusion(mid, p, threw), p)
    ensures Conclusion(mid, p, threw).weak.guarded == mid.weak.guarded
  {
    hide ValidState, Released, Constructed, KeepsOthers, Invalidate, BytesHeld, Consistent;
    if threw {
      ReleaseKeepsOthers(mid, p);
      ReleasedAs(mid, p);
      ValidParts(mid);
      InvalidateSparesCounts(mid.weak, mid.allocations, p, mid.allocations[p].payloadEnd);
    } else {
      PublishKeepsOthers(mid, p);
      PinnedSame(mid, p);
    }
  }

  lemma PinnedSame(mid: Snapshot, p: Address)
    requires p in mid.allocations
    ensures Constructed(mid, p).weak == mid.weak
  {
  }

  // An array under construction: while constructors run, its block stays pinned.
  lemma {:induction false} ElementsKeep(
      spec: ArraySpec, n: Word, k: nat, runs: seq<Execution>, p: Address, s: Snapshot, s': Snapshot, threw: bool,
      h: ChunkHeader)
    requires ElementsRan(spec, n, runs, p, s, s', threw) && k <= |runs| && Pinned(s, h, p) && CountsPinned(s)
    ensures
      var t := Between(s, runs, k);
      KeepsOthers(s, t, p) && Pinned(t, h, p) && CountsPinned(t)
    decreases spec, 2, k
  {
    hide Ran, KeepsPinned, KeepsOthers, CountsPinned, Pinned, Guarded;
    if k == 0 {
      OthersItself(s, p);
    } else {
      ElementsKeep(spec, n, k - 1, runs, p, s, s', threw, h);
      var t := Between(s, runs, k - 1);
      GuardKeepsPin(t, h, p, k - 1);
      CountKeepsOthers(t, p, k - 1);
      RunKeeps(spec.elements[k - 1], runs[k - 1]);
      KeepsCounts(runs[k - 1].before, runs[k - 1].after);
      KeepsOne(runs[k - 1].before, runs[k - 1].after, h, p);
      KeepsMeansOthers(runs[k - 1].before, runs[k - 1].after, p);
      OthersTwice(s, t, runs[k - 1].before, p);
      OthersTwice(s, runs[k - 1].before, runs[k - 1].after, p);
    }
  }

  lemma {:induction false} EndingsKeep(
      spec: ArraySpec, n: nat, k: nat, endings: seq<Execution>, s: Snapshot, s': Snapshot)
    requires ElementsEnded(spec, n, endings, s, s') && k <= n
    ensures KeepsPinned(s, Between(s, endings, k))
    decreases k
  {
    hide *;
    EndedState(spec, n, endings, s, s');
    if k == 0 {
      FirstBetween(s, endings);
      KeepsItself(s);
    } else {
      EndingsKeep(spec, n, k - 1, endings, s, s');
      EndingAt(spec, n, endings, s, s', k - 1);
      BetweenRuns(s, endings, k);
      ActedKeeps(DestructorOf(spec, n - k), spec.setting, endings[k - 1]);
      KeepsTwice(s, endings[k - 1].before, endings[k - 1].after);
    }
  }

  lemma FirstBetween(s: Snapshot, runs: seq<Execution>)
    ensures Between(s, runs, 0) == s
  {
  }

  lemma BetweenRuns(s: Snapshot, runs: seq<Execution>, i: nat)
    requires 0 < i <= |runs|
    ensures Between(s, runs, i) == runs[i - 1].after
  {
  }

  lemma EndingAt(spec: ArraySpec, n: nat, endings: seq<Execution>, s: Snapshot, s': Snapshot, i: nat)
    requires ElementsEnded(spec, n, endings, s, s') && i < n
    ensures |endings| == n && endings[i].before == Between(s, endings, i)
    ensures Acted(DestructorOf(spec, n - 1 - i), spec.setting, endings[i])
  {
    hide Acted;
  }

  lemma {:induction false} ArrayKeeps(spec: ArraySpec, m: Making, threw: bool)
    requires ArrayMade(spec, m, threw) && CountsPinned(m.before)
    ensures KeepsPinned(m.before, m.after) && CountsPinned(m.after)
    decreases spec, 3
  {
    hide Paused, KeepsPinned, KeepsOthers, CountsPinned, ElementsRan, ElementsEnded, ArrayBegun, ArrayConcluded;
    if m.NotMade? {
      PausesKeep(m.before, m.pauses, m.after);
      KeepsCounts(m.before, m.after);
    } else {
      ArrayFilled(spec, m, threw);
      ArrayEnd(m, threw);
    }
  }

  lemma {:induction false} ArrayFilled(spec: ArraySpec, m: Making, threw: bool)
    requires m.Made? && ArrayMade(spec, m, threw) && CountsPinned(m.before)
    ensures KeepsPinned(m.before, m.start) && CountsPinned(m.start) && m.payload !in m.start.allocations
    ensures KeepsPinned(m.start, m.born) && KeepsOthers(m.born, m.done, m.payload)
    decreases spec, 2, |m.runs| + 1
  {
    hide KeepsPinned, KeepsOthers, CountsPinned, ElementsRan, ElementsEnded, ArrayBegun, ArrayConcluded, Guarded;
    BegunKeeps(spec, m);
    var p, n, h := m.payload, Completed(spec, m, threw), m.born.allocations[m.payload].header;
    LastState(spec, n, m.runs, p, m.born, m.left, threw);
    ElementsKeep(spec, n, |m.runs|, m.runs, p, m.born, m.left, threw, h);
    var t := Between(m.born, m.runs, |m.runs|);
    if threw {
      EndedState(spec, n, m.endings, m.left, m.done);
      EndingsKeep(spec, n, n, m.endings, m.left, m.done);
      KeepsMeansOthers(m.left, m.done, p);
      OthersTwice(m.born, m.left, m.done, p);
    } else {
      CountKeepsOthers(t, p, n);
      OthersTwice(m.born, t, m.left, p);
    }
  }

  lemma BegunKeeps(spec: ArraySpec, m: Making)
    requires ArrayBegun(spec, m) && CountsPinned(m.before)
    ensures KeepsPinned(m.before, m.start) && CountsPinned(m.start) && m.payload !in m.start.allocations
    ensures KeepsPinned(m.start, m.born) && CountsPinned(m.born)
    ensures m.payload in m.born.allocations && Pinned(m.born, m.born.allocations[m.payload].header, m.payload)
  {
    hide Paused, KeepsPinned, CountsPinned, Allocated, ValidState, PlaceOf, FinalizerOf, Pinned;
    var layout := PlaceOf(spec, m.payload).value.layout;
    PausesKeep(m.before, m.pauses, m.start);
    KeepsCounts(m.before, m.start);
    AllocationKeeps(m.start, m.born, m.payload, layout.payloadSize, layout.alignment,
                    Some(FinalizerOf(spec, spec.count)));
  }

  lemma LastState(
      spec: ArraySpec, n: Word, runs: seq<Execution>, p: Address, s: Snapshot, s': Snapshot, threw: bool)
    requires ElementsRan(spec, n, runs, p, s, s', threw)
    ensures s' == if threw then Between(s, runs, |runs|) else Guarded(Between(s, runs, |runs|), p, n)
  {
    hide Ran, Guarded;
  }

  lemma EndedState(spec: ArraySpec, n: nat, endings: seq<Execution>, s: Snapshot, s': Snapshot)
    requires ElementsEnded(spec, n, endings, s, s')
    ensures n == |endings| && s' == Between(s, endings, n)
  {
    hide Acted;
  }

  lemma ArrayEnd(m: Making, threw: bool)
    requires m.Made? && KeepsPinned(m.before, m.start) && CountsPinned(m.start) && m.payload !in m.start.allocations
    requires KeepsPinned(m.start, m.born) && KeepsOthers(m.born, m.done, m.payload)
    requires ArrayConcluded(m, threw)
    ensures KeepsPinned(m.before, m.after) && CountsPinned(m.after)
  {
    hide Paused, KeepsPinned, KeepsOthers, CountsPinned, MayConclude, Conclusion;
    var concluded := Conclusion(m.mid, m.payload, threw);
    EndKeeps(m, threw, concluded);
  }
}
