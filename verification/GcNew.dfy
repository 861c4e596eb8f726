/**
gc_new and construct_array (include/gc/gc_new.hpp): construction in place, with the block
pinned meanwhile, and cleanup when a constructor throws.  The constructors are programs of
Construction, so they may construct objects and arrays in turn.  Line numbers in comments
are those of gc_new.hpp.
 */
module GcNew {
  import opened Wrappers
  import opened Words
  import opened Bits
  import opened ChunkHeaders
  import opened Blocks
  import opened WeakRegistry
  import opened Accounting
  import opened Lifecycle
  import opened Layout
  import opened Marking
  import opened HeapState
  import opened Mutation
  import opened HandleState
  import opened GCManager
  import opened WeakPtr
  import opened Construction
  import opened Pinning
  import opened ProgramLaws

  // How an allocation ends: with an object, with an exception of the collector, or with the
  // exception a constructor let out.
  datatype Outcome = Ready | Failed(status: Status) | Threw

  // --- The two ends of a construction ---

  // collect_if_needed and malloc_internal: the new block is pinned.  The pauses lead to
  // `start`, where it appears, or where the allocation is given up.
  method AllocatePinned(
      manager: GC_Manager, allocator: OperatorNew, size: Word, alignment: Word, destructor: seq<Act>,
      registeredThread: bool, setting: Setting)
    returns (status: Status, payload: Address, ghost header: Option<ChunkHeader>, ghost made: set<ChunkHeader>,
             ghost pauses: seq<Pause>, ghost start: Snapshot, ghost asked: Snapshot)
    requires manager.Valid() && !manager.collecting && Honest(allocator) && CountsPinned(manager.State())
    modifies manager, manager.Headers()
    ensures manager.Valid() && !manager.collecting
    ensures fresh(made) && manager.Headers() <= old(manager.Headers()) + made
    ensures Paused(old(manager.State()), pauses, start) && ValidState(start) && CountsPinned(start)
    ensures status == Done <==> header.Some?
    ensures status != Done ==>
              && manager.State() == start
              && AllocationFails(old(manager.State()), pauses, asked, start, size, alignment, allocator, setting,
                                 registeredThread, status)
    ensures status == Done ==>
              && registeredThread && Allocated(start, manager.State(), payload, size, alignment, Some(destructor), true)
              && fresh(header.value) && Pinned(manager.State(), header.value, payload)
  {
    hide *;
    payload, header, made := 0, None, {};
    ghost var s := manager.State();
    ghost var more;
    status, asked, pauses, more := manager.CollectIfNeeded(
      size, registeredThread, setting.stack, setting.failure, setting.parkedFirst, setting.parkedThen);
    start := manager.State();
    PausesCompose(s, pauses, asked, more, start);
    PassedBetween(s, pauses, asked, more, start);
    pauses := pauses + more;
    manager.Fields();
    PausesKeep(s, pauses, start);
    KeepsCounts(s, start);
    if status != Done {
      CollectionFails(s, pauses, asked, start, size, alignment, allocator, setting, registeredThread, status);
      return;
    }
    var env := Environment(allocator, setting.stack, setting.allocationFailure, setting.parkedAlloc,
                           setting.parkedRetry, setting.parkedRegister);
    ghost var s1, earlier := start, pauses;
    status, payload, start, pauses, made, asked :=
      manager.MallocInternal(size, alignment, Some(destructor), true, registeredThread, env);
    PausesCompose(s, earlier, s1, pauses, start);
    PausesKeep(s1, pauses, start);
    KeepsCounts(s1, start);
    if status == Done {
      pauses := earlier + pauses;
      AllocationKeeps(start, manager.State(), payload, size, alignment, Some(destructor));
      manager.Fields();
      header := Some(manager.allocations[payload].header);
    } else {
      PassedLater(s, earlier, s1, pauses, asked, start);
      pauses := earlier + pauses;
      AllocationRefused(s, pauses, asked, start, size, alignment, allocator, setting, status);
    }
  }

  lemma CollectionFails(
      s: Snapshot, pauses: seq<Pause>, asked: Snapshot, s': Snapshot, size: Word, alignment: Word,
      allocator: OperatorNew, setting: Setting, registeredThread: bool, status: Status)
    requires Paused(s, pauses, s') && Passed(s, pauses, asked, s')
    requires if !registeredThread then status == LogicError
             else status == BadAlloc && setting.failure != NoFailure && asked.managedBytes + size >= asked.threshold
    ensures AllocationFails(s, pauses, asked, s', size, alignment, allocator, setting, registeredThread, status)
  {
    hide Paused, Passed, Refused;
  }

  lemma AllocationRefused(
      s: Snapshot, pauses: seq<Pause>, asked: Snapshot, s': Snapshot, size: Word, alignment: Word,
      allocator: OperatorNew, setting: Setting, status: Status)
    requires Paused(s, pauses, s') && Passed(s, pauses, asked, s') && status == BadAlloc
    requires Refused(asked, s', size, alignment, allocator)
    ensures AllocationFails(s, pauses, asked, s', size, alignment, allocator, setting, true, status)
  {
    hide Paused, Passed, Refused;
  }

  // finish_construction, or release_unconstructed after a constructor threw.
  method EndConstruction(
      manager: GC_Manager, payload: Address, ghost header: ChunkHeader, threw: bool, registeredThread: bool,
      parked: Parked)
    returns (ghost more: seq<Pause>, ghost mid: Snapshot)
    requires manager.Valid() && !manager.collecting && Pinned(manager.State(), header, payload) && payload != 0
    requires registeredThread
    modifies manager, manager.Headers()
    ensures manager.Valid() && !manager.collecting && manager.Headers() <= old(manager.Headers())
    ensures Paused(old(manager.State()), more, mid) && MayConclude(mid, payload, threw)
    ensures Pinned(mid, header, payload) && manager.State() == Conclusion(mid, payload, threw)
  {
    hide *;
    ghost var s := manager.State();
    manager.Fields();
    var status;
    if threw {
      status, mid, more := manager.ReleaseUnconstructed(payload, registeredThread, parked);
    } else {
      status, mid, more := manager.FinishConstruction(payload, parked);
    }
    PausesKeep(s, more, mid);
    KeepsOne(s, mid, header, payload);
    PinnedBlock(mid, header, payload);
    ConclusionIs(mid, payload, threw);
  }

  lemma ConclusionIs(mid: Snapshot, p: Address, threw: bool)
    requires ValidState(mid) && p in mid.allocations && (threw ==> BytesHeld(mid, p))
    ensures MayConclude(mid, p, threw)
    ensures Conclusion(mid, p, threw) == if threw then Released(mid, p) else Constructed(mid, p)
  {
    hide ValidState, BytesHeld, Released, Constructed;
  }

  // What becomes of the block.
  lemma Outcomes(mid: Snapshot, h: ChunkHeader, p: Address, threw: bool)
    requires MayConclude(mid, p, threw) && Pinned(mid, h, p)
    ensures
      var s' := Conclusion(mid, p, threw);
      if threw then p !in s'.allocations && h in s'.released && Freed(h) in s'.log && Finalized(h) !in s'.log
      else
        && p in s'.allocations && s'.allocations[p].header == h && !s'.allocations[p].constructing
        && s'.weak == mid.weak
  {
    hide ValidState, Released, BytesHeld;
    if threw {
      ReleasedNotFinalized(mid, p);
    }
  }

  // --- Running constructors ---

  // One step of a constructor.
  method RunStep(manager: GC_Manager, allocator: OperatorNew, registeredThread: bool, step: Step)
    returns (threw: bool, ghost stage: Stage, ghost made: set<ChunkHeader>)
    requires manager.Valid() && !manager.collecting && Honest(allocator) && CountsPinned(manager.State())
    modifies manager, manager.Headers()
    decreases step, 0
    ensures manager.Valid() && !manager.collecting && Performed(step, stage)
    ensures stage.before == old(manager.State()) && stage.after == manager.State() && stage.threw == threw
    ensures fresh(made) && manager.Headers() <= old(manager.Headers()) + made
  {
    hide *;
    threw, made := false, {};
    ghost var s := manager.State();
    match step {
      case Build(spec) =>
        var outcome, payload;
        ghost var header, making;
        outcome, payload, header, made, making := New(manager, allocator, registeredThread, spec);
        threw := !outcome.Ready?;
        stage := Stage(s, [], s, manager.State(), threw, Some(making));
        BuildPerformed(spec, stage);
      case BuildArray(spec) =>
        var outcome, elements, trace, built, payload;
        ghost var header, making;
        outcome, elements, trace, built, payload, header, made, making :=
          ConstructArray(manager, allocator, registeredThread, spec);
        threw := !outcome.Ready?;
        stage := Stage(s, [], s, manager.State(), threw, Some(making));
        BuildArrayPerformed(spec, stage);
      case Attempt(tried) =>
        var caught;
        caught, stage, made := RunStep(manager, allocator, registeredThread, tried);
        stage := AttemptPerformed(tried, stage);
      case _ =>
        threw, stage := RunPlainStep(manager, registeredThread, step);
        PlainIsPerformed(step, stage);
    }
  }

  lemma BuildPerformed(one: ObjectSpec, g: Stage)
    requires g.making.Some? && g.making.value.before == g.before && g.making.value.after == g.after
    requires ObjectMade(one, g.making.value, g.threw)
    ensures Performed(Build(one), g)
  {
    hide ObjectMade, ArrayMade;
  }

  lemma BuildArrayPerformed(many: ArraySpec, g: Stage)
    requires g.making.Some? && g.making.value.before == g.before && g.making.value.after == g.after
    requires ArrayMade(many, g.making.value, g.threw)
    ensures Performed(BuildArray(many), g)
  {
    hide ObjectMade, ArrayMade;
  }

  lemma PlainIsPerformed(step: Step, g: Stage)
    requires PlainPerformed(step, g) && !step.Build? && !step.BuildArray? && !step.Attempt?
    ensures Performed(step, g)
  {
    hide PlainPerformed;
  }

  lemma AttemptPerformed(tried: Step, g: Stage) returns (stage: Stage)
    requires Performed(tried, g)
    ensures stage == g.(threw := false) && Performed(Attempt(tried), stage)
  {
    hide PlainPerformed, ObjectMade, ArrayMade;
    stage := g.(threw := false);
    assert g == stage.(threw := g.threw);
    assert Performed(tried, stage.(threw := g.threw));
  }

  // The steps that construct nothing.
  method RunPlainStep(manager: GC_Manager, registeredThread: bool, step: Step)
    returns (threw: bool, ghost stage: Stage)
    requires manager.Valid() && !manager.collecting && !step.Build? && !step.BuildArray? && !step.Attempt?
    modifies manager, manager.Headers()
    ensures manager.Valid() && !manager.collecting && PlainPerformed(step, stage)
    ensures stage.before == old(manager.State()) && stage.after == manager.State() && stage.threw == threw
    ensures manager.Headers() <= old(manager.Headers())
  {
    hide *;
    threw := false;
    ghost var s := manager.State();
    ghost var mid, pauses := s, [];
    manager.Fields();
    match step {
      case Park(parked) =>
        pauses := manager.Cooperate(parked);
        ParkPerformed(step, s, pauses, manager.State());
      case CollectNow(stack, failure, parked) =>
        threw, pauses := CollectOnce(manager, registeredThread, stack, failure, parked);
        CollectPerformed(step, s, pauses, manager.State(), threw);
      case Write(address, value) =>
        manager.StoreWord(address, value);
        WritePerformed(step, s, manager.State());
      case AddRange(begin, end, parked) =>
        pauses := manager.RegisterRootRange(begin, end, parked);
        AddPerformed(step, s, pauses, manager.State());
      case RemoveRange(begin, end, parked) =>
        mid, pauses := manager.UnregisterRootRange(begin, end, parked);
        RemovePerformed(step, s, pauses, mid, manager.State());
      case PointWeakly(storage, target, parked) =>
        mid, pauses := MakeHandle(manager, storage, target, parked);
        PointPerformed(step, s, pauses, mid, manager.State());
      case DropHandle(storage, parked) =>
        mid, pauses := DestroyHandle(manager, storage, parked);
        DropPerformed(step, s, pauses, mid, manager.State());
      case _ =>
    }
    stage := Stage(s, pauses, mid, manager.State(), threw, None);
  }

  lemma ParkPerformed(step: Step, s: Snapshot, pauses: seq<Pause>, s': Snapshot)
    requires step.Park? && Paused(s, pauses, s')
    ensures PlainPerformed(step, Stage(s, pauses, s, s', false, None))
  {
    hide Paused;
  }

  lemma CollectPerformed(step: Step, s: Snapshot, pauses: seq<Pause>, s': Snapshot, threw: bool)
    requires step.CollectNow? && Paused(s, pauses, s')
    requires !threw ==> pauses != [] && pauses[|pauses| - 1].stack == step.stack
    ensures PlainPerformed(step, Stage(s, pauses, s, s', threw, None))
  {
    hide Paused;
  }

  lemma WritePerformed(step: Step, s: Snapshot, s': Snapshot)
    requires step.Write? && s' == AfterAct(s, Act.Store(step.address, step.value))
    ensures PlainPerformed(step, Stage(s, [], s, s', false, None))
  {
    hide AfterAct;
  }

  lemma AddPerformed(step: Step, s: Snapshot, pauses: seq<Pause>, s': Snapshot)
    requires step.AddRange?
    requires step.begin == 0 || step.end == 0 || step.begin == step.end ==> s' == s
    requires step.begin != 0 && step.end != 0 && step.begin != step.end ==>
               Paused(WithRanges(s, s.rootRanges + [Normalized(step.begin, step.end)]), pauses, s')
    ensures PlainPerformed(step, Stage(s, pauses, s, s', false, None))
  {
    hide Paused, WithRanges, Normalized;
  }

  lemma RemovePerformed(step: Step, s: Snapshot, pauses: seq<Pause>, mid: Snapshot, s': Snapshot)
    requires step.RemoveRange? && Paused(s, pauses, mid)
    requires step.begin == 0 || step.end == 0 || step.begin == step.end ==> s' == s
    requires step.begin != 0 && step.end != 0 && step.begin != step.end ==>
               s' == WithRanges(mid, WithoutFirst(mid.rootRanges, Normalized(step.begin, step.end)))
    ensures PlainPerformed(step, Stage(s, pauses, mid, s', false, None))
  {
    hide Paused, WithRanges, Normalized, WithoutFirst;
  }

  lemma PointPerformed(step: Step, s: Snapshot, pauses: seq<Pause>, mid: Snapshot, s': Snapshot)
    requires step.PointWeakly?
    requires if !FreeForHandle(s.weak, step.storage) then s' == s
             else
               && Paused(WithWord(Created(s, step.storage), step.storage, EncodeWeak(step.target)), pauses, mid)
               && s' == LetGo(Initialized(mid, step.target, step.storage), {step.storage})
    ensures PlainPerformed(step, Stage(s, pauses, mid, s', false, None))
  {
    hide Paused, WithWord, Created, EncodeWeak, LetGo, Initialized, FreeForHandle;
  }

  lemma DropPerformed(step: Step, s: Snapshot, pauses: seq<Pause>, mid: Snapshot, s': Snapshot)
    requires step.DropHandle?
    requires if step.storage !in s.weak.handles || step.storage in s.weak.busy then s' == s
             else
               && Paused(Taken(s, {step.storage}), pauses, mid)
               && s' == if Load(s.weak.memory, step.storage) == 0 then Destroyed(mid, step.storage)
                        else Destroyed(AfterUnregister(mid, step.storage), step.storage)
    ensures PlainPerformed(step, Stage(s, pauses, mid, s', false, None))
  {
    hide Paused, Taken, Destroyed, AfterUnregister;
  }

  // collect.
  method CollectOnce(manager: GC_Manager, registeredThread: bool, stack: seq<Word>, failure: Failure, parked: Parked)
    returns (threw: bool, ghost pauses: seq<Pause>)
    requires manager.Valid() && !manager.collecting
    modifies manager, manager.Headers()
    ensures manager.Valid() && !manager.collecting && Paused(old(manager.State()), pauses, manager.State())
    ensures threw <==> !registeredThread || failure != NoFailure
    ensures !threw ==> pauses != [] && pauses[|pauses| - 1].stack == stack
    ensures manager.Headers() <= old(manager.Headers())
  {
    hide *;
    if registeredThread {
      var status;
      status, pauses := manager.CollectAfterCooperating(stack, failure, parked);
      threw := status != Done;
    } else {
      pauses := manager.Cooperate(parked);
      threw := true;
    }
  }

  // A weak handle at a place that is neither a handle nor a guarded count.
  method MakeHandle(manager: GC_Manager, storage: Address, target: Address, parked: Parked)
    returns (ghost mid: Snapshot, ghost pauses: seq<Pause>)
    requires manager.Valid() && !manager.collecting
    modifies manager, manager.Headers()
    ensures manager.Valid() && !manager.collecting && manager.Headers() <= old(manager.Headers())
    ensures if !FreeForHandle(old(manager.State()).weak, storage) then manager.State() == old(manager.State())
            else
              && Paused(WithWord(Created(old(manager.State()), storage), storage, EncodeWeak(target)), pauses, mid)
              && manager.State() == LetGo(Initialized(mid, target, storage), {storage})
  {
    hide *;
    mid, pauses := manager.State(), [];
    manager.Fields();
    FreePlace(mid.weak, storage);
    if storage != 0 && storage !in manager.weakHandles && storage !in manager.guardedWords {
      var handle := new GcWeakPtr(manager, storage);
      mid, pauses := handle.Construct(target, parked);
    }
  }

  lemma FreePlace(w: WeakState, h: Address)
    ensures FreeForHandle(w, h) <==> h != 0 && h !in w.handles && h !in w.guarded
  {
  }

  method DestroyHandle(manager: GC_Manager, storage: Address, parked: Parked)
    returns (ghost mid: Snapshot, ghost pauses: seq<Pause>)
    requires manager.Valid() && !manager.collecting
    modifies manager, manager.Headers()
    ensures manager.Valid() && !manager.collecting && manager.Headers() <= old(manager.Headers())
    ensures if storage !in old(manager.State()).weak.handles || storage in old(manager.State()).weak.busy
            then manager.State() == old(manager.State())
            else
              && Paused(Taken(old(manager.State()), {storage}), pauses, mid)
              && manager.State() == if Load(old(manager.State()).weak.memory, storage) == 0 then Destroyed(mid, storage)
                                    else Destroyed(AfterUnregister(mid, storage), storage)
  {
    hide *;
    mid, pauses := manager.State(), [];
    manager.Fields();
    if storage in manager.weakHandles && storage !in manager.busyHandles {
      var handle := new GcWeakPtr(manager, storage);
      mid, pauses := handle.Destroy(parked);
    }
  }

  // A constructor: its steps in order, up to the first exception.
  method RunBody(manager: GC_Manager, allocator: OperatorNew, registeredThread: bool, body: Body)
    returns (threw: bool, ghost run: Execution, ghost made: set<ChunkHeader>)
    requires manager.Valid() && !manager.collecting && Honest(allocator) && CountsPinned(manager.State())
    modifies manager, manager.Headers()
    decreases body, 0
    ensures manager.Valid() && !manager.collecting
    ensures fresh(made) && manager.Headers() <= old(manager.Headers()) + made
    ensures Ran(body, run) && run.threw == threw
    ensures run.before == old(manager.State()) && run.after == manager.State()
  {
    hide *;
    made := {};
    ghost var s, stages := manager.State(), [];
    RanNothing(body, s);
    var i := 0;
    while i < |body.steps|
      invariant 0 <= i <= |body.steps| && manager.Valid() && !manager.collecting
      invariant CountsPinned(manager.State()) && RanSoFar(body, i, s, stages, manager.State())
      invariant fresh(made) && manager.Headers() <= old(manager.Headers()) + made
    {
      ghost var stage, more;
      threw, stage, more := RunStep(manager, allocator, registeredThread, body.steps[i]);
      made := made + more;
      StepKeeps(body.steps[i], stage);
      KeepsCounts(stage.before, stage.after);
      RanFurther(body, i, s, stages, stage);
      stages := stages + [stage];
      if threw {
        return true, Execution(s, stages, manager.State(), true), made;
      }
      i := i + 1;
    }
    RanToEnd(body, s, stages, manager.State());
    threw, run := body.throws, Execution(s, stages, manager.State(), body.throws);
  }

  // A constructor that did n steps, none of which threw.
  ghost predicate RanSoFar(body: Body, n: nat, s: Snapshot, stages: seq<Stage>, s': Snapshot) {
    && n == |stages| <= |body.steps| && Follows(s, stages, s')
    && forall i :: 0 <= i < n ==> Performed(body.steps[i], stages[i]) && !stages[i].threw
  }

  lemma RanNothing(body: Body, s: Snapshot)
    ensures RanSoFar(body, 0, s, [], s)
  {
  }

  lemma RanFurther(body: Body, n: nat, s: Snapshot, stages: seq<Stage>, g: Stage)
    requires RanSoFar(body, n, s, stages, g.before) && n < |body.steps| && Performed(body.steps[n], g)
    ensures if g.threw then Ran(body, Execution(s, stages + [g], g.after, true))
            else RanSoFar(body, n + 1, s, stages + [g], g.after)
  {
    hide Performed, Follows;
    FollowsFurther(s, stages, g);
  }

  lemma FollowsFurther(s: Snapshot, stages: seq<Stage>, g: Stage)
    requires Follows(s, stages, g.before)
    ensures Follows(s, stages + [g], g.after)
  {
    assert (stages + [g])[..|stages|] == stages;
  }

  lemma RanToEnd(body: Body, s: Snapshot, stages: seq<Stage>, s': Snapshot)
    requires RanSoFar(body, |body.steps|, s, stages, s')
    ensures Ran(body, Execution(s, stages, s', body.throws))
  {
    hide Performed, Follows;
  }

  // A destructor: its acts in order.
  method RunDestructor(manager: GC_Manager, registeredThread: bool, acts: seq<Act>, setting: Setting)
    returns (ghost run: Execution)
    requires manager.Valid() && !manager.collecting
    modifies manager, manager.Headers()
    ensures manager.Valid() && !manager.collecting && manager.Headers() <= old(manager.Headers())
    ensures Acted(acts, setting, run) && run.before == old(manager.State()) && run.after == manager.State()
  {
    hide *;
    ghost var s, stages := manager.State(), [];
    ActedNothing(acts, setting, s);
    var i := 0;
    while i < |acts|
      invariant 0 <= i <= |acts| && manager.Valid() && !manager.collecting
      invariant manager.Headers() <= old(manager.Headers())
      invariant ActedSoFar(acts, setting, i, s, stages, manager.State())
    {
      var caught;
      ghost var stage;
      PlainStep(acts[i], setting);
      caught, stage := RunPlainStep(manager, registeredThread, StepOf(acts[i], setting));
      ActedFurther(acts, setting, i, s, stages, stage);
      stages := stages + [stage];
      i := i + 1;
    }
    run := Execution(s, stages, manager.State(), false);
    ActedToEnd(acts, setting, s, stages, manager.State());
  }

  ghost predicate ActedSoFar(
      acts: seq<Act>, setting: Setting, n: nat, s: Snapshot, stages: seq<Stage>, s': Snapshot)
  {
    && n == |stages| <= |acts| && Follows(s, stages, s')
    && forall i :: 0 <= i < n ==> PlainPerformed(StepOf(acts[i], setting), stages[i])
  }

  lemma PlainStep(act: Act, setting: Setting)
    ensures !StepOf(act, setting).Build? && !StepOf(act, setting).BuildArray? && !StepOf(act, setting).Attempt?
  {
  }

  lemma ActedNothing(acts: seq<Act>, setting: Setting, s: Snapshot)
    ensures ActedSoFar(acts, setting, 0, s, [], s)
  {
  }

  lemma ActedFurther(acts: seq<Act>, setting: Setting, n: nat, s: Snapshot, stages: seq<Stage>, g: Stage)
    requires ActedSoFar(acts, setting, n, s, stages, g.before) && n < |acts|
    requires PlainPerformed(StepOf(acts[n], setting), g)
    ensures ActedSoFar(acts, setting, n + 1, s, stages + [g], g.after)
  {
    hide PlainPerformed, Follows, StepOf;
    FollowsFurther(s, stages, g);
  }

  lemma ActedToEnd(acts: seq<Act>, setting: Setting, s: Snapshot, stages: seq<Stage>, s': Snapshot)
    requires ActedSoFar(acts, setting, |acts|, s, stages, s')
    ensures Acted(acts, setting, Execution(s, stages, s', false))
  {
    hide PlainPerformed, Follows, StepOf;
  }

  // --- gc_new ---

  method New(manager: GC_Manager, allocator: OperatorNew, registeredThread: bool, spec: ObjectSpec)
    returns (outcome: Outcome, payload: Address, ghost header: Option<ChunkHeader>, ghost made: set<ChunkHeader>,
             ghost making: Making)
    requires manager.Valid() && !manager.collecting && Honest(allocator) && CountsPinned(manager.State())
    modifies manager, manager.Headers()
    decreases spec, 1
    ensures manager.Valid() && !manager.collecting
    ensures fresh(made) && manager.Headers() <= old(manager.Headers()) + made
    ensures ObjectMade(spec, making, !outcome.Ready?)
    ensures making.before == old(manager.State()) && making.after == manager.State()
    ensures KeepsPinned(old(manager.State()), manager.State())
    ensures (outcome.Failed? <==> header.None?) && (outcome.Failed? <==> making.NotMade?)
    ensures outcome.Failed? ==>
              AllocationFails(old(manager.State()), making.pauses, making.asked, manager.State(), spec.size,
                              spec.alignment, allocator, spec.setting, registeredThread, outcome.status)
    ensures header.Some? ==>
              && registeredThread && fresh(header.value) && making.payload == payload
              && Pinned(making.born, header.value, payload) && Pinned(making.mid, header.value, payload)
              && LeavesRest(making.start, making.born, payload, spec.size)
    ensures outcome.Ready? ==>
              && payload in manager.allocations && manager.allocations[payload].header == header.value
              && !manager.allocations[payload].constructing
    ensures outcome.Threw? ==>
              && payload !in manager.allocations && header.value in manager.State().released
              && Freed(header.value) in manager.log && Finalized(header.value) !in manager.log
  {
    hide *;
    ghost var s := manager.State();
    var status;
    ghost var pauses, start, asked, more, mid, run, inner;
    status, payload, header, made, pauses, start, asked := AllocatePinned(
      manager, allocator, spec.size, spec.alignment, spec.destructor, registeredThread, spec.setting);
    if status != Done {
      making := NotMade(s, pauses, asked, manager.State());
      ObjectNotMade(spec, making);
      ObjectKeeps(spec, making, true);
      return Failed(status), payload, header, made, making;
    }
    ghost var born := manager.State();
    AllocationKeeps(start, born, payload, spec.size, spec.alignment, Some(spec.destructor));
    AllocationLeavesRest(start, born, payload, spec.size, spec.alignment, Some(spec.destructor), true);
    var threw;
    threw, run, inner := RunBody(manager, allocator, registeredThread, spec.body);
    made := made + inner;
    ghost var left := manager.State();
    RunKeeps(spec.body, run);
    KeepsOne(born, left, header.value, payload);
    more, mid := EndConstruction(manager, payload, header.value, threw, registeredThread, spec.setting.parkedLast);
    Outcomes(mid, header.value, payload, threw);
    making := Made(s, pauses, start, payload, born, [run], left, [], left, more, mid, manager.State());
    ObjectIsMade(spec, making, threw);
    ObjectKeeps(spec, making, threw);
    manager.Fields();
    outcome := if threw then Threw else Ready;
  }

  lemma ObjectNotMade(spec: ObjectSpec, m: Making)
    requires m.NotMade? && Paused(m.before, m.pauses, m.after)
    ensures ObjectMade(spec, m, true)
  {
    hide Paused;
  }

  lemma ObjectIsMade(spec: ObjectSpec, m: Making, threw: bool)
    requires m.Made? && Paused(m.before, m.pauses, m.start) && ValidState(m.start)
    requires Allocated(m.start, m.born, m.payload, spec.size, spec.alignment, Some(spec.destructor), true)
    requires |m.runs| == 1 && Ran(spec.body, m.runs[0]) && m.runs[0].threw == threw
    requires m.runs[0].before == m.born && m.runs[0].after == m.left && m.endings == [] && m.done == m.left
    requires Paused(m.done, m.more, m.mid) && MayConclude(m.mid, m.payload, threw)
    requires m.after == Conclusion(m.mid, m.payload, threw)
    ensures ObjectMade(spec, m, threw)
  {
    hide Paused, ValidState, Allocated, Ran, MayConclude, Conclusion;
  }

  // --- Arrays ---

  // What happens to the elements of an array, in order: a constructor is entered while the
  // prefix shows some count, or a destructor is entered.
  datatype ElementEvent = Entered(index: nat, address: nat, prefix: nat) | Ended(index: nat, address: nat)

  function AddressOf(a: ArrayPlace, i: nat): nat {
    ElementAddress(a.payload, a.layout, a.elementSize, i)
  }

  // The constructors of the first n elements, each entered with its own index in the prefix.
  function Entries(a: ArrayPlace, n: nat): seq<ElementEvent> {
    seq(n, i requires 0 <= i < n => Entered(i, AddressOf(a, i), i))
  }

  // The destructors of elements n - 1 down to 0.
  function Endings(a: ArrayPlace, n: nat): seq<ElementEvent>
    decreases n
  {
    if n == 0 then [] else [Ended(n - 1, AddressOf(a, n - 1))] + Endings(a, n - 1)
  }

  // Destruction visits what construction visited, each element once, in the opposite order.
  lemma {:induction false} EndingsReverseEntries(a: ArrayPlace, n: nat)
    ensures |Endings(a, n)| == n
    ensures forall i :: 0 <= i < n ==>
              Endings(a, n)[i] == Ended(Entries(a, n)[n - 1 - i].index, Entries(a, n)[n - 1 - i].address)
    decreases n
  {
    if n > 0 {
      EndingsReverseEntries(a, n - 1);
      forall i | 0 <= i < n
        ensures Endings(a, n)[i] == Ended(n - 1 - i, AddressOf(a, n - 1 - i))
      {
        if i > 0 {
          assert Endings(a, n)[i] == Endings(a, n - 1)[i - 1];
          assert Entries(a, n - 1)[n - 1 - i].index == n - 1 - i;
        }
      }
    }
  }

  // Both, event by event, with the addresses of the elements.
  lemma TraceExactly(a: ArrayPlace, n: nat, i: nat)
    requires i < n
    ensures |Entries(a, n)| == n && |Endings(a, n)| == n && Entries(a, n)[i].Entered? && Endings(a, n)[i].Ended?
    ensures Entries(a, n)[i].index == i == Entries(a, n)[i].prefix && Endings(a, n)[i].index == n - 1 - i
    ensures Entries(a, n)[i].address == a.payload + a.layout.prefix + i * a.elementSize
    ensures Endings(a, n)[i].address == a.payload + a.layout.prefix + (n - 1 - i) * a.elementSize
  {
    EndingsReverseEntries(a, n);
  }

  lemma NoEntries(a: ArrayPlace)
    ensures Entries(a, 0) == []
  {
  }

  lemma OneMoreEntry(a: ArrayPlace, n: nat)
    ensures Entries(a, n + 1) == Entries(a, n) + [Entered(n, AddressOf(a, n), n)]
  {
  }

  // An array under construction, with its count in the guarded prefix.
  ghost predicate Filling(s: Snapshot, header: ChunkHeader, p: Address, count: nat) {
    Pinned(s, header, p) && CountsPinned(s) && p in s.weak.guarded && Load(s.weak.memory, p) == count
  }

  lemma FillingCount(s: Snapshot, header: ChunkHeader, p: Address, count: nat)
    ensures Filling(s, header, p, count) <==>
              Pinned(s, header, p) && CountsPinned(s) && p in s.weak.guarded && Load(s.weak.memory, p) == count
  {
  }

  lemma FillingKept(s: Snapshot, s': Snapshot, header: ChunkHeader, p: Address, count: nat)
    requires Filling(s, header, p, count) && KeepsPinned(s, s')
    ensures Filling(s', header, p, count)
  {
  }

  // *prefix = constructed + 1.
  method CountUp(manager: GC_Manager, p: Address, count: Word, ghost header: ChunkHeader)
    requires manager.Valid() && Pinned(manager.State(), header, p) && CountsPinned(manager.State())
    requires p in manager.guardedWords || p !in manager.weakHandles
    modifies manager`guardedWords, manager`memory
    ensures manager.Valid() && Filling(manager.State(), header, p, count) && manager.Headers() == old(manager.Headers())
    ensures manager.State() == Guarded(old(manager.State()), p, count)
  {
    hide *;
    ghost var s := manager.State();
    manager.Fields();
    if p in manager.guardedWords {
      GuardedIsNoHandle(s, p);
    }
    GuardKeepsPin(s, header, p, count);
    manager.GuardWord(p, count);
    FillingCount(manager.State(), header, p, count);
  }

  // 137-144: elements are constructed in order while the prefix is kept current.
  method BuildElements(
      manager: GC_Manager, allocator: OperatorNew, registeredThread: bool, a: ArrayPlace, spec: ArraySpec,
      ghost header: ChunkHeader, ghost born: Snapshot)
    returns (built: Word, trace: seq<ElementEvent>, ghost made: set<ChunkHeader>, ghost runs: seq<Execution>)
    requires manager.Valid() && !manager.collecting && Honest(allocator)
    requires manager.State() == Guarded(born, a.payload, 0) && Filling(manager.State(), header, a.payload, 0)
    modifies manager, manager.Headers()
    decreases spec, 0
    ensures manager.Valid() && !manager.collecting && Filling(manager.State(), header, a.payload, built)
    ensures fresh(made) && manager.Headers() <= old(manager.Headers()) + made
    ensures built <= spec.count && ElementsRan(spec, built, runs, a.payload, born, manager.State(), built < spec.count)
    ensures trace == Entries(a, if built < spec.count then built + 1 else built)
  {
    hide *;
    trace, built, made, runs := [], 0, {}, [];
    NoEntries(a);
    NoneRan(spec, a.payload, born);
    while built < spec.count
      invariant built <= spec.count && trace == Entries(a, built)
      invariant ElementsRan(spec, built, runs, a.payload, born, manager.State(), false)
      invariant manager.Valid() && !manager.collecting && Filling(manager.State(), header, a.payload, built)
      invariant fresh(made) && manager.Headers() <= old(manager.Headers()) + made
    {
      ghost var s1 := manager.State();
      manager.Fields();
      FillingCount(s1, header, a.payload, built);
      trace := trace + [Entered(built, AddressOf(a, built), Load(manager.memory, a.payload))];
      OneMoreEntry(a, built);
      if built < |spec.elements| {
        var threw;
        ghost var run, more;
        threw, run, more := RunBody(manager, allocator, registeredThread, spec.elements[built]);
        made := made + more;
        RunKeeps(spec.elements[built], run);
        FillingKept(s1, manager.State(), header, a.payload, built);
        OneMoreRun(spec, built, runs, a.payload, born, run);
        runs := runs + [run];
        if threw {
          return;
        }
      } else {
        NoMoreRuns(spec, built, runs, a.payload, born, s1);
      }
      FillingCount(manager.State(), header, a.payload, built);
      manager.Fields();
      CountUp(manager, a.payload, built + 1, header);
      built := built + 1;
    }
  }

  lemma NoneRan(spec: ArraySpec, p: Address, s: Snapshot)
    ensures ElementsRan(spec, 0, [], p, s, Guarded(s, p, 0), false)
  {
    hide Guarded;
  }

  lemma OneMoreRun(
      spec: ArraySpec, n: Word, runs: seq<Execution>, p: Address, s: Snapshot, run: Execution)
    requires ElementsRan(spec, n, runs, p, s, run.before, false) && n < |spec.elements| && n < spec.count
    requires Ran(spec.elements[n], run)
    ensures if run.threw then ElementsRan(spec, n, runs + [run], p, s, run.after, true)
            else ElementsRan(spec, n + 1, runs + [run], p, s, Guarded(run.after, p, n + 1), false)
  {
    hide Ran, Guarded, Between;
    var longer := runs + [run];
    assert |runs| == n;
    LastBetween(s, runs, run);
    forall i | 0 <= i < |longer|
      ensures Between(s, longer, i) == Between(s, runs, i)
    {
      SameBetween(s, runs, run, i);
    }
  }

  lemma NoMoreRuns(spec: ArraySpec, n: Word, runs: seq<Execution>, p: Address, s: Snapshot, s1: Snapshot)
    requires ElementsRan(spec, n, runs, p, s, s1, false) && n >= |spec.elements| && n < spec.count
    ensures ElementsRan(spec, n + 1, runs, p, s, Guarded(s1, p, n + 1), false)
  {
    hide Ran;
    GuardTwice(Between(s, runs, |runs|), p, n, n + 1);
    hide Guarded;
  }

  lemma GuardTwice(s: Snapshot, p: Address, a: Word, b: Word)
    ensures Guarded(Guarded(s, p, a), p, b) == Guarded(s, p, b)
  {
    assert s.weak.guarded + {p} + {p} == s.weak.guarded + {p};
    assert s.weak.memory[p := a][p := b] == s.weak.memory[p := b];
  }

  // ArrayDestructor::destroy, once it has read the count.
  method DestroyElements(manager: GC_Manager, registeredThread: bool, a: ArrayPlace, spec: ArraySpec, count: Word)
    returns (trace: seq<ElementEvent>, ghost endings: seq<Execution>)
    requires manager.Valid() && !manager.collecting
    modifies manager, manager.Headers()
    ensures manager.Valid() && !manager.collecting && manager.Headers() <= old(manager.Headers())
    ensures trace == Endings(a, count)
    ensures ElementsEnded(spec, count, endings, old(manager.State()), manager.State())
  {
    hide *;
    trace, endings := [], [];
    ghost var s := manager.State();
    NoneEnded(spec, count, s);
    AllEndings(a, count);
    var i: nat := count;
    while i > 0
      invariant i <= count && trace + Endings(a, i) == Endings(a, count)
      invariant manager.Valid() && !manager.collecting && manager.Headers() <= old(manager.Headers())
      invariant |endings| == count - i && ElementsEnding(spec, count, endings, s, manager.State())
    {
      OneEnding(a, i);
      trace := trace + [Ended(i - 1, AddressOf(a, i - 1))];
      ghost var run;
      run := RunDestructor(manager, registeredThread, DestructorOf(spec, i - 1), spec.setting);
      OneMoreEnding(spec, count, endings, s, run);
      endings := endings + [run];
      i := i - 1;
    }
    AllEnded(spec, count, endings, s, manager.State());
    NoEndings(a);
  }

  lemma NoneEnded(spec: ArraySpec, n: nat, s: Snapshot)
    ensures ElementsEnding(spec, n, [], s, s)
  {
  }

  lemma OneMoreEnding(spec: ArraySpec, n: nat, endings: seq<Execution>, s: Snapshot, run: Execution)
    requires ElementsEnding(spec, n, endings, s, run.before) && |endings| < n
    requires Acted(DestructorOf(spec, n - 1 - |endings|), spec.setting, run)
    ensures ElementsEnding(spec, n, endings + [run], s, run.after)
  {
    hide Acted, Between;
    var longer := endings + [run];
    LastBetween(s, endings, run);
    forall i | 0 <= i < |longer|
      ensures Between(s, longer, i) == Between(s, endings, i)
    {
      SameBetween(s, endings, run, i);
    }
  }

  lemma SameBetween(s: Snapshot, runs: seq<Execution>, run: Execution, i: nat)
    requires i <= |runs|
    ensures Between(s, runs + [run], i) == Between(s, runs, i)
  {
  }

  lemma LastBetween(s: Snapshot, runs: seq<Execution>, run: Execution)
    ensures Between(s, runs + [run], |runs + [run]|) == run.after
  {
  }

  lemma AllEnded(spec: ArraySpec, n: nat, endings: seq<Execution>, s: Snapshot, s': Snapshot)
    requires ElementsEnding(spec, n, endings, s, s') && |endings| == n
    ensures ElementsEnded(spec, n, endings, s, s')
  {
    hide ElementsEnding;
  }

  lemma AllEndings(a: ArrayPlace, n: nat)
    ensures [] + Endings(a, n) == Endings(a, n)
  {
  }

  lemma OneEnding(a: ArrayPlace, n: nat)
    requires n > 0
    ensures Endings(a, n) == [Ended(n - 1, AddressOf(a, n - 1))] + Endings(a, n - 1)
  {
  }

  lemma NoEndings(a: ArrayPlace)
    ensures Endings(a, 0) == []
  {
  }

  // construct_array.  `built` counts the completed elements.
  method ConstructArray(manager: GC_Manager, allocator: OperatorNew, registeredThread: bool, spec: ArraySpec)
    returns (outcome: Outcome, elements: Address, trace: seq<ElementEvent>, built: Word, payload: Address,
             ghost header: Option<ChunkHeader>, ghost made: set<ChunkHeader>, ghost making: Making)
    requires manager.Valid() && !manager.collecting && Honest(allocator) && CountsPinned(manager.State())
    modifies manager, manager.Headers()
    decreases spec, 2
    ensures manager.Valid() && !manager.collecting
    ensures fresh(made) && manager.Headers() <= old(manager.Headers()) + made
    ensures ArrayMade(spec, making, !outcome.Ready?)
    ensures making.before == old(manager.State()) && making.after == manager.State()
    ensures KeepsPinned(old(manager.State()), manager.State())
    ensures header.None? <==> making.NotMade?
    ensures header.None? <==> spec.count == 0 || outcome.Failed?
    ensures spec.count == 0 ==>
              outcome.Ready? && elements == 0 && trace == [] && manager.State() == old(manager.State())
    ensures spec.count > 0 && PlaceOf(spec, payload).None? ==>
              outcome == Failed(BadAlloc) && manager.State() == old(manager.State())
    ensures outcome.Failed? ==> trace == []
    ensures outcome.Failed? && PlaceOf(spec, payload).Some? ==>
              var layout := PlaceOf(spec, payload).value.layout;
              AllocationFails(old(manager.State()), making.pauses, making.asked, manager.State(), layout.payloadSize,
                              layout.alignment, allocator, spec.setting, registeredThread, outcome.status)
    ensures header.Some? ==>
              && PlaceOf(spec, payload).Some? && registeredThread && fresh(header.value) && making.payload == payload
              && Pinned(making.born, header.value, payload) && Pinned(making.mid, header.value, payload)
              && LeavesRest(making.start, making.born, payload, PlaceOf(spec, payload).value.layout.payloadSize)
    ensures header.Some? && outcome.Ready? ==>
              var a := PlaceOf(spec, payload).value;
              && built == spec.count && trace == Entries(a, built) && elements == AddressOf(a, 0)
              && Load(manager.memory, payload) == built && header.value.destructor == Some(FinalizerOf(spec, built))
              && (exists cuts :: LastFirst(FinalizerOf(spec, built), cuts, spec.destructors, built))
              && payload in manager.allocations && manager.allocations[payload].header == header.value
              && !manager.allocations[payload].constructing
    ensures outcome.Threw? ==>
              var a := PlaceOf(spec, payload).value;
              && built < spec.count && |making.runs| == built + 1
              && trace == Entries(a, built + 1) + Endings(a, built)
              && payload !in manager.allocations && header.value in manager.State().released
              && Freed(header.value) in manager.log && Finalized(header.value) !in manager.log
  {
    hide *;
    outcome, elements, trace, built, payload, header, made := Ready, 0, [], 0, 0, None, {};
    ghost var s := manager.State();
    NoPauses(s);
    making := NotMade(s, [], s, s);
    ArrayNotMade(spec, making);
    ArrayKeeps(spec, making, spec.count > 0);
    if spec.count == 0 {
      return;
    }
    var place := PlaceOf(spec, 0);
    if place.None? {
      PlaceAnywhere(spec, 0, payload);
      outcome := Failed(BadAlloc);
      return;
    }
    var layout := place.value.layout;
    var status;
    ghost var pauses, start, asked;
    status, payload, header, made, pauses, start, asked := AllocatePinned(
      manager, allocator, layout.payloadSize, layout.alignment, FinalizerOf(spec, spec.count), registeredThread,
      spec.setting);
    PlaceAnywhere(spec, 0, payload);
    if status != Done {
      making := NotMade(s, pauses, asked, manager.State());
      ArrayNotMade(spec, making);
      ArrayKeeps(spec, making, true);
      outcome := Failed(status);
      return;
    }
    var a := PlaceOf(spec, payload).value;
    ghost var born, more := manager.State(), {};
    making := Made(s, pauses, start, payload, born, [], born, [], born, [], born, born);
    ArrayIsBegun(spec, making, layout);
    AllocationKeeps(start, born, payload, layout.payloadSize, layout.alignment, Some(FinalizerOf(spec, spec.count)));
    AllocationLeavesRest(start, born, payload, layout.payloadSize, layout.alignment,
                         Some(FinalizerOf(spec, spec.count)), true);
    outcome, trace, built, more, making :=
      FillArray(manager, allocator, registeredThread, a, spec, header.value, making);
    made := made + more;
    ArrayKeeps(spec, making, outcome.Threw?);
    ghost var cuts := FinalizerPieces(spec, built);
    FirstElement(spec, payload);
    BlockOf(born, header.value, payload);
    elements := if outcome.Ready? then AddressOf(a, 0) else 0;
  }

  lemma BlockOf(s: Snapshot, h: ChunkHeader, p: Address)
    requires Pinned(s, h, p)
    ensures p in s.allocations && s.allocations[p].header == h
  {
  }

  lemma ArrayNotMade(spec: ArraySpec, m: Making)
    requires m.NotMade? && Paused(m.before, m.pauses, m.after) && (spec.count == 0 ==> m.after == m.before)
    ensures ArrayMade(spec, m, spec.count > 0)
  {
    hide Paused;
  }

  lemma ArrayIsBegun(spec: ArraySpec, m: Making, layout: ArrayLayout)
    requires m.Made? && spec.count > 0 && PlaceOf(spec, m.payload).Some?
    requires PlaceOf(spec, m.payload).value.layout == layout
    requires Paused(m.before, m.pauses, m.start) && ValidState(m.start)
    requires Allocated(m.start, m.born, m.payload, layout.payloadSize, layout.alignment,
                       Some(FinalizerOf(spec, spec.count)), true)
    ensures ArrayBegun(spec, m)
  {
    hide PlaceOf, Paused, ValidState, Allocated, FinalizerOf;
  }

  lemma PlaceAnywhere(spec: ArraySpec, p: Address, q: Address)
    ensures PlaceOf(spec, p).Some? <==> PlaceOf(spec, q).Some?
    ensures PlaceOf(spec, p).Some? ==>
              && PlaceOf(spec, q).value.layout == PlaceOf(spec, p).value.layout && PlaceOf(spec, q).value.payload == q
  {
    hide ArrayLayoutOf;
  }

  lemma FirstElement(spec: ArraySpec, payload: Address)
    requires PlaceOf(spec, payload).Some?
    requires payload + PlaceOf(spec, payload).value.layout.payloadSize <= PAYLOAD_LIMIT
    ensures AddressOf(PlaceOf(spec, payload).value, 0) < WORD_LIMIT
  {
    hide ElementsOffset;
  }

  // 132-155, once the block is there.
  method FillArray(
      manager: GC_Manager, allocator: OperatorNew, registeredThread: bool, a: ArrayPlace, spec: ArraySpec,
      ghost header: ChunkHeader, ghost begun: Making)
    returns (outcome: Outcome, trace: seq<ElementEvent>, built: Word, ghost made: set<ChunkHeader>,
             ghost making: Making)
    requires manager.Valid() && !manager.collecting && Honest(allocator)
    requires Pinned(manager.State(), header, a.payload) && a.payload != 0 && registeredThread
    requires ArrayBegun(spec, begun) && begun.born == manager.State() && begun.payload == a.payload
    requires CountsPinned(begun.start)
    modifies manager, manager.Headers()
    decreases spec, 1
    ensures manager.Valid() && !manager.collecting
    ensures fresh(made) && manager.Headers() <= old(manager.Headers()) + made
    ensures !outcome.Failed? && ArrayMade(spec, making, outcome.Threw?)
    ensures making.Made? && making.before == begun.before && making.after == manager.State()
    ensures making.payload == a.payload && making.born == begun.born && making.start == begun.start
    ensures Pinned(making.mid, header, a.payload)
    ensures outcome.Ready? ==>
              && built == spec.count && trace == Entries(a, built) && Load(manager.memory, a.payload) == built
              && a.payload in manager.allocations && manager.allocations[a.payload].header == header
              && !manager.allocations[a.payload].constructing
    ensures outcome.Threw? ==>
              && built < spec.count && |making.runs| == built + 1
              && trace == Entries(a, built + 1) + Endings(a, built)
              && a.payload !in manager.allocations && header in manager.State().released
              && Freed(header) in manager.log && Finalized(header) !in manager.log
  {
    hide *;
    var p := a.payload;
    ghost var born := manager.State();
    BegunBlock(spec, begun);
    manager.Fields();
    CountUp(manager, p, 0, header);
    ghost var runs, endings, more, mid;
    built, trace, made, runs := BuildElements(manager, allocator, registeredThread, a, spec, header, born);
    ghost var left := manager.State();
    FillingCount(left, header, p, built);
    manager.Fields();
    outcome, endings := Ready, [];
    if built < spec.count {
      var ended;
      ended, endings := DestroyElements(manager, registeredThread, a, spec, Load(manager.memory, p));
      trace, outcome := trace + ended, Threw;
      EndedState(spec, built, endings, left, manager.State());
      EndingsKeep(spec, built, built, endings, left, manager.State());
      FillingKept(left, manager.State(), header, p, built);
    }
    ghost var done := manager.State();
    FillingCount(done, header, p, built);
    more, mid := EndConstruction(manager, p, header, outcome.Threw?, registeredThread, spec.setting.parkedLast);
    PausesKeep(done, more, mid);
    KeepsOne(done, mid, header, p);
    Outcomes(mid, header, p, outcome.Threw?);
    ghost var concluded := manager.State();
    manager.Fields();
    manager.UnguardWord(p);
    UnguardedParts(concluded, p);
    manager.Fields();
    making := begun.(runs := runs, left := left, endings := endings, done := done, more := more, mid := mid,
                     after := manager.State());
    ArrayIsMade(spec, begun, making, built, outcome.Threw?);
  }

  lemma BegunBlock(spec: ArraySpec, m: Making)
    requires ArrayBegun(spec, m) && CountsPinned(m.start)
    ensures m.Made? && KeepsPinned(m.start, m.born) && CountsPinned(m.born) && m.payload !in m.born.weak.handles
  {
    hide Paused, KeepsPinned, CountsPinned, Allocated, ValidState, PlaceOf, FinalizerOf, Pinned;
    var layout := PlaceOf(spec, m.payload).value.layout;
    AllocationKeeps(m.start, m.born, m.payload, layout.payloadSize, layout.alignment,
                    Some(FinalizerOf(spec, spec.count)));
  }

  lemma ArrayIsMade(spec: ArraySpec, begun: Making, m: Making, built: Word, threw: bool)
    requires ArrayBegun(spec, begun) && begun.Made? && m.Made?
    requires m.before == begun.before && m.pauses == begun.pauses && m.start == begun.start
    requires m.payload == begun.payload && m.born == begun.born
    requires built <= spec.count && (threw <==> built < spec.count)
    requires ElementsRan(spec, built, m.runs, m.payload, m.born, m.left, threw)
    requires if threw then ElementsEnded(spec, built, m.endings, m.left, m.done)
             else m.endings == [] && m.done == m.left
    requires Paused(m.done, m.more, m.mid) && MayConclude(m.mid, m.payload, threw)
    requires m.after == Unguarded(Conclusion(m.mid, m.payload, threw), m.payload)
    ensures ArrayMade(spec, m, threw) && (threw ==> |m.runs| == built + 1)
  {
    hide *;
    RunsCounted(spec, built, m.runs, m.payload, m.born, m.left, threw);
    BegunSame(spec, begun, m);
    ArrayPartsMade(spec, m, built, threw);
  }

  lemma ArrayPartsMade(spec: ArraySpec, m: Making, built: Word, threw: bool)
    requires m.Made? && ArrayBegun(spec, m) && built <= spec.count && (threw <==> built < spec.count)
    requires ElementsRan(spec, built, m.runs, m.payload, m.born, m.left, threw) && (threw ==> |m.runs| == built + 1)
    requires if threw then ElementsEnded(spec, built, m.endings, m.left, m.done)
             else m.endings == [] && m.done == m.left
    requires Paused(m.done, m.more, m.mid) && MayConclude(m.mid, m.payload, threw)
    requires m.after == Unguarded(Conclusion(m.mid, m.payload, threw), m.payload)
    ensures ArrayMade(spec, m, threw)
  {
    hide ArrayBegun, Paused, ElementsRan, ElementsEnded, MayConclude, Conclusion, Unguarded;
    assert Completed(spec, m, threw) == built;
  }

  lemma BegunSame(spec: ArraySpec, begun: Making, m: Making)
    requires ArrayBegun(spec, begun) && begun.Made? && m.Made?
    requires m.before == begun.before && m.pauses == begun.pauses && m.start == begun.start
    requires m.payload == begun.payload && m.born == begun.born
    ensures ArrayBegun(spec, m)
  {
    hide Paused, ValidState, Allocated, PlaceOf, FinalizerOf;
  }

  lemma RunsCounted(
      spec: ArraySpec, n: Word, runs: seq<Execution>, p: Address, s: Snapshot, s': Snapshot, threw: bool)
    requires ElementsRan(spec, n, runs, p, s, s', threw)
    ensures threw ==> |runs| == n + 1
  {
    hide Ran, Guarded;
  }

  lemma UnguardedParts(s: Snapshot, p: Address)
    ensures Unguarded(s, p).weak.memory == s.weak.memory && Unguarded(s, p).log == s.log
    ensures Unguarded(s, p).allocations == s.allocations && Unguarded(s, p).released == s.released
  {
  }
}
