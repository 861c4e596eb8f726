/**
The rooting invariant: a block that was promised to survive is pinned or held by a root
object, published or about to be, at every step.
Line numbers in comments are those of src/GCManager.cpp.
 */
module StopTheWorldRooting {
  import opened Wrappers
  import opened StopTheWorld
  import opened StopTheWorldControl

  // --- The rooting invariant ---

  // gc_root has stored its pointer but its range is not registered yet.  Its thread is
  // registered and not at a park, so no other thread's pause wait can return.
  predicate Loose(s: State, slot: Slot) {
    slot.owner in s.threads && slot.owner in s.table &&
    var pc := s.threads[slot.owner].pc;
    (pc.Locking? || pc.Entered?) && pc.op.PublishRange? && pc.op.slot == slot
  }

  predicate PromiseKept(s: State, b: Block, home: Home) {
    b in s.allocations &&
    match home
    case Pin => b in s.constructing
    case InSlot(slot) =>
      slot.owner == b.owner && slot in s.contents && s.contents[slot] == b && (slot in s.ranges || Loose(s, slot))
  }

  ghost predicate OwnUnpromised(s: State, slot: Slot) {
    forall b :: b in s.promised && b.owner == slot.owner ==> s.promised[b] != InSlot(slot)
  }

  // What a pending call relies on about its own thread's blocks and slots.
  ghost predicate PendingOp(s: State, t: Tid, pc: Pc, op: Op) {
    match op
    case UnregisterThread => forall b :: b in s.constructing ==> b.owner != t
    case Allocate(b) => b.owner == t && b !in s.allocations
    case FinishConstruction(b, root) =>
      b.owner == t && b in s.constructing &&
      (root.Some? ==> root.value.owner == t && OwnUnpromised(s, root.value))
    case ReleaseUnconstructed(b) => b.owner == t && b in s.constructing
    case PublishRange(slot, from) =>
      slot.owner == t && (!pc.Locking? && !pc.Entered? ==> slot in s.ranges) &&
      (from.Some? ==>
         from.value.owner == t && from.value != slot && from.value in s.contents &&
         slot in s.contents && s.contents[slot] == s.contents[from.value])
    case UnregisterRange(slot) => slot.owner == t
    case _ => true
  }

  ghost predicate Pending(s: State, t: Tid)
    requires t in s.threads
  {
    var pc := s.threads[t].pc;
    (HasOp(pc) ==> PendingOp(s, t, pc, pc.op)) &&
    (pc.ClearSource? ==>
       pc.source.owner == t && pc.target.owner == t && pc.target in s.ranges && pc.source != pc.target &&
       pc.source in s.contents && pc.target in s.contents && s.contents[pc.source] == s.contents[pc.target])
  }

  ghost predicate OwnRooting(s: State, t: Tid)
    requires t in s.threads
  {
    && (forall b :: b in s.constructing && b.owner == t ==> b in s.allocations && t in s.table)
    && (forall b :: b in s.promised && b.owner == t ==> PromiseKept(s, b, s.promised[b]))
    && Pending(s, t)
  }

  ghost predicate Rooting(s: State) {
    && (forall b :: b in s.constructing || b in s.promised ==> b.owner in s.threads)
    && forall t :: t in s.threads ==> OwnRooting(s, t)
  }

  // Blocks and slots of every thread but t are as they were.
  ghost predicate OwnOnly(s: State, s': State, t: Tid) {
    && t in s.threads && s'.threads.Keys == s.threads.Keys
    && (forall b: Block :: b.owner != t ==> (b in s'.constructing <==> b in s.constructing))
    && (forall b: Block :: b.owner != t ==> (b in s'.allocations <==> b in s.allocations))
    && (forall b: Block :: b.owner != t ==> (b in s'.promised <==> b in s.promised))
    && (forall b: Block :: b.owner != t && b in s.promised && b in s'.promised ==> s'.promised[b] == s.promised[b])
    && (forall slot: Slot :: slot.owner != t ==> (slot in s'.ranges <==> slot in s.ranges))
    && (forall slot: Slot :: slot.owner != t ==> (slot in s'.contents <==> slot in s.contents))
    && (forall slot: Slot :: slot.owner != t && slot in s.contents && slot in s'.contents ==>
          s'.contents[slot] == s.contents[slot])
    && (forall u :: u != t ==> (u in s'.table <==> u in s.table))
  }

  lemma RootingOf(s: State, t: Tid)
    requires Rooting(s) && t in s.threads
    ensures OwnRooting(s, t)
  {
  }

  lemma OtherRooting(s: State, s': State, t: Tid, u: Tid)
    requires OwnOnly(s, s', t) && u in s.threads && u in s'.threads && u != t && OwnRooting(s, u)
    requires s'.threads[u] == s.threads[u] || s'.threads[u] == Thread(Awaken(s.threads[u].pc), s.threads[u].outer)
    ensures OwnRooting(s', u)
  {
    forall b | b in s'.promised && b.owner == u
      ensures PromiseKept(s', b, s'.promised[b])
    {
      assert PromiseKept(s, b, s.promised[b]);
    }
    OtherPending(s, s', t, u);
  }

  lemma OtherPending(s: State, s': State, t: Tid, u: Tid)
    requires OwnOnly(s, s', t) && u in s.threads && u in s'.threads && u != t && Pending(s, u)
    requires s'.threads[u] == s.threads[u] || s'.threads[u] == Thread(Awaken(s.threads[u].pc), s.threads[u].outer)
    ensures Pending(s', u)
  {
  }

  lemma OwnStepRooting(s: State, s': State, t: Tid)
    requires Rooting(s) && OwnOnly(s, s', t) && OwnRooting(s', t)
    requires forall u :: u in s'.threads && u != t ==>
               s'.threads[u] == s.threads[u] ||
               s'.threads[u] == Thread(Awaken(s.threads[u].pc), s.threads[u].outer)
    ensures Rooting(s')
  {
    forall u | u in s'.threads && u != t
      ensures OwnRooting(s', u)
    {
      assert OwnRooting(s, u);
      OtherRooting(s, s', t, u);
    }
    forall b | b in s'.constructing || b in s'.promised
      ensures b.owner in s'.threads
    {
    }
  }

  lemma RemoveFirstKeepsOthers(ranges: seq<Slot>, slot: Slot, other: Slot)
    requires other != slot
    ensures other in RemoveFirst(ranges, slot) <==> other in ranges
  {
  }

  lemma BeginRooting(s: State, t: Tid, op: Op)
    requires Rooting(s) && t in s.threads && s.threads[t].pc.User? && MayBegin(s, t, op)
    ensures Rooting(BeginStep(s, t, op))
  {
    if op.PublishRange? && op.from.Some? {
      BeginMoveRooting(s, t, op.slot, op.from.value);
    } else {
      BeginOtherRooting(s, t, op);
    }
  }

  lemma BeginMoveRooting(s: State, t: Tid, slot: Slot, source: Slot)
    requires Rooting(s) && t in s.threads && s.threads[t].pc.User? && slot.owner == t
    requires source.owner == t && source != slot && source in s.contents && Unpromised(s, slot)
    ensures Rooting(BeginStep(s, t, PublishRange(slot, Some(source))))
  {
    var s' := BeginStep(s, t, PublishRange(slot, Some(source)));
    assert s' == Goto(s, t, Locking(PublishRange(slot, Some(source)))).(
                   contents := s.contents[slot := s.contents[source]]);
    assert OwnRooting(s, t) && s'.threads[t].pc == Locking(PublishRange(slot, Some(source)));
    forall b | b in s'.promised && b.owner == t
      ensures PromiseKept(s', b, s'.promised[b])
    {
      assert PromiseKept(s, b, s.promised[b]);
    }
    OwnStepRooting(s, s', t);
  }

  lemma BeginOtherRooting(s: State, t: Tid, op: Op)
    requires Rooting(s) && t in s.threads && s.threads[t].pc.User? && MayBegin(s, t, op)
    requires op.PublishRange? ==> op.from.None?
    ensures Rooting(BeginStep(s, t, op))
  {
    var s' := Goto(s, t, Locking(op));
    assert s' == BeginStep(s, t, op);
    assert OwnRooting(s, t) && s'.threads[t].pc == Locking(op);
    assert PendingOp(s', t, Locking(op), op);
    forall b | b in s'.promised && b.owner == t
      ensures PromiseKept(s', b, s'.promised[b])
    {
      assert PromiseKept(s, b, s.promised[b]);
    }
    OwnStepRooting(s, s', t);
  }

  // Inside cooperate and the pause wait, nothing that rooting speaks of moves except
  // the program point.
  lemma QuietRooting(s: State, s': State, t: Tid)
    requires Rooting(s) && t in s.threads && t in s'.threads
    requires s'.threads.Keys == s.threads.Keys && s'.table.Keys == s.table.Keys
    requires s'.allocations == s.allocations && s'.constructing == s.constructing && s'.promised == s.promised
    requires s'.ranges == s.ranges && s'.contents == s.contents
    requires forall u :: u in s'.threads && u != t ==>
               s'.threads[u] == s.threads[u] ||
               s'.threads[u] == Thread(Awaken(s.threads[u].pc), s.threads[u].outer)
    requires
      var pc, pc' := s.threads[t].pc, s'.threads[t].pc;
      || (pc'.User? && !pc.Locking? && !(pc.Entered? && pc.op.PublishRange?))
      || (pc'.ReleaseNotify? && pc.Entered? && pc.op.Release?)
      || (HasOp(pc) && HasOp(pc') && pc.op == pc'.op &&
          (pc.Locking? ==> pc'.Locking? || pc'.Entered?) && (pc.Entered? && pc.op.PublishRange? ==> pc'.Entered?))
    ensures Rooting(s')
  {
    assert OwnRooting(s, t);
    forall b | b in s'.promised && b.owner == t
      ensures PromiseKept(s', b, s'.promised[b])
    {
      assert PromiseKept(s, b, s.promised[b]);
    }
    OwnStepRooting(s, s', t);
  }

  // 167: the range is appended before the thread can park.
  lemma PublishRooting(s: State, t: Tid)
    requires Rooting(s) && t in s.threads && s.threads[t].pc.Entered? && s.threads[t].pc.op.PublishRange?
    ensures Rooting(AdvanceStep(s, t))
  {
    var s', op := AdvanceStep(s, t), s.threads[t].pc.op;
    assert OwnRooting(s, t) && s'.threads[t].pc == Cooperate(op);
    assert s'.ranges == s.ranges + [op.slot];
    forall b | b in s'.promised && b.owner == t
      ensures PromiseKept(s', b, s'.promised[b])
    {
      assert PromiseKept(s, b, s.promised[b]);
    }
    OwnStepRooting(s, s', t);
  }

  lemma ClearSourceOthers(s: State, t: Tid, source: Slot, target: Slot)
    requires Rooting(s) && t in s.threads && source.owner == t
    ensures OwnOnly(s, ClearSourceStep(s, t, source, target), t)
  {
    var s' := ClearSourceStep(s, t, source, target);
    forall b: Block | b.owner != t && b in s.promised
      ensures s'.promised[b] == s.promised[b]
    {
      assert OwnRooting(s, b.owner);
      assert PromiseKept(s, b, s.promised[b]);
    }
  }

  lemma ClearSourceRooting(s: State, t: Tid, source: Slot, target: Slot)
    requires Rooting(s) && t in s.threads && s.threads[t].pc == ClearSource(source, target)
    ensures Rooting(ClearSourceStep(s, t, source, target))
  {
    var s' := ClearSourceStep(s, t, source, target);
    assert OwnRooting(s, t) && s'.threads[t].pc == User;
    forall b | b in s'.promised && b.owner == t
      ensures PromiseKept(s', b, s'.promised[b])
    {
      assert PromiseKept(s, b, s.promised[b]);
    }
    assert OwnRooting(s', t);
    ClearSourceOthers(s, t, source, target);
    OwnStepRooting(s, s', t);
  }

  lemma ForgetRooting(s: State, t: Tid, slot: Slot, s': State)
    requires Rooting(s) && t in s.threads && slot.owner == t && s'.threads.Keys == s.threads.Keys
    requires s'.promised == DropPromises(s.promised, slot)
    ensures forall b: Block :: b.owner != t ==> (b in s'.promised <==> b in s.promised)
    ensures forall b: Block :: b.owner != t && b in s.promised ==> s'.promised[b] == s.promised[b]
  {
    forall b: Block | b.owner != t && b in s.promised
      ensures s.promised[b] != InSlot(slot)
    {
      assert OwnRooting(s, b.owner);
      assert PromiseKept(s, b, s.promised[b]);
    }
  }

  lemma UnregisterRangeRooting(s: State, t: Tid, slot: Slot)
    requires Rooting(s) && t in s.threads && s.threads[t].pc.Body? && slot.owner == t
    ensures Rooting(UnregisterRangeStep(s, t, slot))
  {
    var s' := UnregisterRangeStep(s, t, slot);
    assert OwnRooting(s, t) && s'.threads[t].pc == User;
    forall other | other != slot
      ensures other in s'.ranges <==> other in s.ranges
    {
      RemoveFirstKeepsOthers(s.ranges, slot, other);
    }
    ForgetRooting(s, t, slot, s');
    forall b | b in s'.promised && b.owner == t
      ensures PromiseKept(s', b, s'.promised[b])
    {
      assert PromiseKept(s, b, s.promised[b]);
    }
    OwnStepRooting(s, s', t);
  }

  lemma AssignRootRooting(s: State, t: Tid, slot: Slot, content: Option<Block>, s': State)
    requires Rooting(s) && Next(s, t, AssignRoot(slot, content), s')
    ensures Rooting(s')
  {
    assert OwnRooting(s, t) && s'.threads == s.threads;
    ForgetRooting(s, t, slot, s');
    forall b | b in s'.promised && b.owner == t
      ensures PromiseKept(s', b, s'.promised[b])
    {
      assert PromiseKept(s, b, s.promised[b]);
    }
    OwnStepRooting(s, s', t);
  }

  lemma AllocateRooting(s: State, t: Tid, b: Block)
    requires Rooting(s) && t in s.threads && s.threads[t].pc.Body? && b.owner == t
    ensures Rooting(AllocateStep(s, t, b))
  {
    if t in s.table {
      AllocatedRooting(s, t, b, AllocateStep(s, t, b));
    } else {
      QuietRooting(s, AllocateStep(s, t, b), t);
    }
  }

  lemma AllocatedRooting(s: State, t: Tid, b: Block, s': State)
    requires Rooting(s) && t in s.threads && s.threads[t].pc.Body? && b.owner == t && t in s.table
    requires s' == Unlock(Goto(s, t, User)).(allocations := s.allocations + {b},
                                             constructing := s.constructing + {b}, promised := s.promised[b := Pin])
    ensures Rooting(s')
  {
    hide Rooting, OwnRooting, OwnOnly;
    RootingOf(s, t);
    AllocateOwn(s, t, b, s');
    AllocateOnly(s, t, b, s');
    OwnStepRooting(s, s', t);
  }

  lemma AllocateOnly(s: State, t: Tid, b: Block, s': State)
    requires t in s.threads && b.owner == t
    requires s' == Unlock(Goto(s, t, User)).(allocations := s.allocations + {b},
                                             constructing := s.constructing + {b}, promised := s.promised[b := Pin])
    ensures OwnOnly(s, s', t)
  {
  }

  lemma AllocateOwn(s: State, t: Tid, b: Block, s': State)
    requires t in s.threads && OwnRooting(s, t) && s.threads[t].pc.Body? && b.owner == t && t in s.table
    requires s' == Unlock(Goto(s, t, User)).(allocations := s.allocations + {b},
        constructing := s.constructing + {b}, promised := s.promised[b := Pin])
    ensures OwnRooting(s', t)
  {
    assert s'.threads[t].pc == User && !HasOp(User);
    forall other | other in s'.promised && other.owner == t
      ensures PromiseKept(s', other, s'.promised[other])
    {
      assert other in s.promised ==> PromiseKept(s, other, s.promised[other]);
    }
  }

  lemma FinishConstructionOwn(s: State, t: Tid, b: Block, root: Option<Slot>)
    requires t in s.threads && OwnRooting(s, t) && s.threads[t].pc.Body? && b.owner == t && b in s.constructing
    requires root.Some? ==> root.value.owner == t && OwnUnpromised(s, root.value)
    ensures OwnRooting(FinishConstructionStep(s, t, b, root), t)
  {
    var s' := FinishConstructionStep(s, t, b, root);
    assert root.Some? ==> s'.threads[t].pc == Locking(PublishRange(root.value, None));
    forall other | other in s'.promised && other.owner == t
      ensures PromiseKept(s', other, s'.promised[other])
    {
      assert other in s.promised ==> PromiseKept(s, other, s.promised[other]);
    }
    assert Pending(s', t);
  }

  lemma FinishConstructionRooting(s: State, t: Tid, b: Block, root: Option<Slot>)
    requires Rooting(s) && t in s.threads && s.threads[t].pc.Body? && b.owner == t && b in s.constructing
    requires root.Some? ==> root.value.owner == t && OwnUnpromised(s, root.value)
    ensures Rooting(FinishConstructionStep(s, t, b, root))
  {
    hide Rooting, OwnRooting, OwnOnly, OwnUnpromised;
    RootingOf(s, t);
    FinishConstructionOwn(s, t, b, root);
    FinishConstructionOnly(s, t, b, root);
    OwnStepRooting(s, FinishConstructionStep(s, t, b, root), t);
  }

  lemma FinishConstructionOnly(s: State, t: Tid, b: Block, root: Option<Slot>)
    requires t in s.threads && b.owner == t && (root.Some? ==> root.value.owner == t)
    ensures OwnOnly(s, FinishConstructionStep(s, t, b, root), t)
  {
  }

  lemma ReleaseUnconstructedRooting(s: State, t: Tid, b: Block)
    requires Rooting(s) && t in s.threads && s.threads[t].pc.Body? && b.owner == t && b in s.constructing
    ensures Rooting(ReleaseUnconstructedStep(s, t, b))
  {
    var s' := ReleaseUnconstructedStep(s, t, b);
    assert OwnRooting(s, t) && s'.threads[t].pc == User;
    forall other | other in s'.promised && other.owner == t
      ensures PromiseKept(s', other, s'.promised[other])
    {
      assert PromiseKept(s, other, s.promised[other]);
    }
    OwnStepRooting(s, s', t);
  }

  lemma RegistrationRooting(s: State, t: Tid, s': State)
    requires Rooting(s) && t in s.threads && s.threads[t].pc.Body?
    requires s' == Unlock(Goto(s, t, User)).(table := s'.table)
    requires s'.table.Keys == s.table.Keys + {t} ||
             (s.threads[t].pc.op.UnregisterThread? && s'.table.Keys == s.table.Keys - {t})
    ensures Rooting(s')
  {
    RegistrationOwn(s, t, s');
    RegistrationOwnRooting(s, t, s');
    hide Rooting, OwnRooting, OwnOnly;
    OwnStepRooting(s, s', t);
  }

  lemma RegistrationOwn(s: State, t: Tid, s': State)
    requires Rooting(s) && t in s.threads && s.threads[t].pc.Body?
    requires s' == Unlock(Goto(s, t, User)).(table := s'.table)
    requires s'.table.Keys == s.table.Keys + {t} ||
             (s.threads[t].pc.op.UnregisterThread? && s'.table.Keys == s.table.Keys - {t})
    ensures OwnOnly(s, s', t)
  {
  }

  lemma RegistrationOwnRooting(s: State, t: Tid, s': State)
    requires Rooting(s) && t in s.threads && s.threads[t].pc.Body?
    requires s' == Unlock(Goto(s, t, User)).(table := s'.table)
    requires s'.table.Keys == s.table.Keys + {t} ||
             (s.threads[t].pc.op.UnregisterThread? && s'.table.Keys == s.table.Keys - {t})
    ensures OwnRooting(s', t)
  {
    assert OwnRooting(s, t) && s'.threads[t].pc == User;
    forall b | b in s'.promised && b.owner == t
      ensures PromiseKept(s', b, s'.promised[b])
    {
      assert PromiseKept(s, b, s.promised[b]);
    }
  }

  lemma PublishedRooting(s: State, t: Tid, slot: Slot, source: Slot)
    requires Rooting(s) && t in s.threads && s.threads[t].pc == Body(PublishRange(slot, Some(source)))
    ensures Rooting(Unlock(Goto(s, t, ClearSource(source, slot))))
  {
    var s' := Unlock(Goto(s, t, ClearSource(source, slot)));
    assert OwnRooting(s, t) && s'.threads[t].pc == ClearSource(source, slot);
    forall b | b in s'.promised && b.owner == t
      ensures PromiseKept(s', b, s'.promised[b])
    {
      assert PromiseKept(s, b, s.promised[b]);
    }
    OwnStepRooting(s, s', t);
  }

  lemma BodyRooting(s: State, t: Tid, op: Op)
    requires Rooting(s) && t in s.threads && s.threads[t].pc == Body(op)
    ensures Rooting(BodyStep(s, t, op))
  {
    assert OwnRooting(s, t) && PendingOp(s, t, Body(op), op);
    match op
    case RegisterThread(_) => RegistrationRooting(s, t, BodyStep(s, t, op));
    case UnregisterThread => RegistrationRooting(s, t, BodyStep(s, t, op));
    case PublishRange(slot, Some(source)) => PublishedRooting(s, t, slot, source);
    case UnregisterRange(slot) => UnregisterRangeRooting(s, t, slot);
    case Allocate(b) => AllocateRooting(s, t, b);
    case FinishConstruction(b, root) => FinishConstructionRooting(s, t, b, root);
    case ReleaseUnconstructed(b) => ReleaseUnconstructedRooting(s, t, b);
    case _ => QuietBodyRooting(s, t, op);
  }

  lemma QuietBodyRooting(s: State, t: Tid, op: Op)
    requires Rooting(s) && t in s.threads && s.threads[t].pc == Body(op)
    requires
      op.Safepoint? || op.UpdateWeak? || op.Collect? || op.Shutdown? || op.Snapshot? || op.Release? ||
      (op.PublishRange? && op.from.None?)
    ensures Rooting(BodyStep(s, t, op))
  {
    hide Rooting;
    if Stops(s, t, op) {
      assert BodyStep(s, t, op) == StopStep(s, t, op);
      QuietRooting(s, StopStep(s, t, op), t);
    } else {
      QuietUnlock(s, t, op);
    }
  }

  lemma QuietUnlock(s: State, t: Tid, op: Op)
    requires Rooting(s) && t in s.threads && s.threads[t].pc == Body(op) && !Stops(s, t, op)
    requires
      op.Safepoint? || op.UpdateWeak? || op.Collect? || op.Shutdown? || op.Snapshot? || op.Release? ||
      (op.PublishRange? && op.from.None?)
    ensures Rooting(BodyStep(s, t, op))
  {
    hide Rooting;
    var s' := Unlock(Goto(s, t, User)).(weak := if op.UpdateWeak? then op.entries else s.weak);
    assert BodyStep(s, t, op) == s';
    hide BodyStep;
    QuietRooting(s, s', t);
  }

  // The steps of cooperate and of the pause wait change nothing but a program point and
  // the mutex.
  lemma WaitShape(s: State, t: Tid, pc: Pc)
    requires t in s.threads && HasOp(pc)
    requires !pc.Entered? && !pc.ParkNotify? && !pc.ParkCheck? && !pc.Body? && !pc.World?
    ensures
      var s' := WaitStep(s, t, pc);
      && t in s'.threads && s' == Goto(s, t, s'.threads[t].pc).(mutex := s'.mutex)
      && HasOp(s'.threads[t].pc) && s'.threads[t].pc.op == pc.op && (pc.Locking? ==> s'.threads[t].pc.Entered?)
  {
  }

  lemma WaitRooting(s: State, t: Tid, pc: Pc)
    requires Rooting(s) && t in s.threads && pc == s.threads[t].pc && HasOp(pc)
    requires !pc.Entered? && !pc.ParkNotify? && !pc.ParkCheck? && !pc.Body? && !pc.World?
    ensures Rooting(WaitStep(s, t, pc))
  {
    var s' := WaitStep(s, t, pc);
    WaitShape(s, t, pc);
    GotoRooting(s, s', t, s'.threads[t].pc);
  }

  lemma GotoRooting(s: State, s': State, t: Tid, pc': Pc)
    requires Rooting(s) && t in s.threads && s' == Goto(s, t, pc').(mutex := s'.mutex)
    requires
      var pc := s.threads[t].pc;
      HasOp(pc) && HasOp(pc') && pc'.op == pc.op && (pc.Locking? ==> pc'.Entered?) &&
      !(pc.Entered? && pc.op.PublishRange?)
    ensures Rooting(s')
  {
    QuietRooting(s, s', t);
  }

  lemma UnparkRooting(s: State, t: Tid, op: Op)
    requires Rooting(s) && t in s.threads && s.threads[t].pc == ParkCheck(op)
    ensures Rooting(UnparkStep(s, t, op))
  {
    var s' := UnparkStep(s, t, op);
    assert s' == Goto(s, t, Body(op)).(table := s'.table) && s'.table.Keys == s.table.Keys;
    QuietRooting(s, s', t);
  }

  lemma ParkCheckRooting(s: State, t: Tid, op: Op)
    requires Rooting(s) && t in s.threads && s.threads[t].pc == ParkCheck(op)
    ensures Rooting(AdvanceStep(s, t))
  {
    if s.stopRequested {
      GotoRooting(s, Unlock(Goto(s, t, Parked(op, true))), t, Parked(op, true));
    } else {
      UnparkRooting(s, t, op);
    }
  }

  lemma NotifyRooting(s: State, t: Tid)
    requires Rooting(s) && t in s.threads && (s.threads[t].pc.ParkNotify? || s.threads[t].pc.ReleaseNotify?)
    ensures Rooting(AdvanceStep(s, t))
  {
    hide Rooting;
    var pc := s.threads[t].pc;
    if pc.ReleaseNotify? {
      assert AdvanceStep(s, t) == Unlock(Goto(NotifyAll(s), t, User));
      NotifiedRooting(s, t, User, Unlock(Goto(NotifyAll(s), t, User)));
    } else {
      assert AdvanceStep(s, t) == Goto(NotifyAll(s), t, ParkCheck(pc.op));
      NotifiedRooting(s, t, ParkCheck(pc.op), Goto(NotifyAll(s), t, ParkCheck(pc.op)));
    }
  }

  lemma NotifiedRooting(s: State, t: Tid, pc: Pc, s': State)
    requires Rooting(s) && t in s.threads && s' == Goto(NotifyAll(s), t, pc).(mutex := s'.mutex)
    requires if s.threads[t].pc.ReleaseNotify? then pc == User
             else s.threads[t].pc.ParkNotify? && pc == ParkCheck(s.threads[t].pc.op)
    ensures Rooting(s')
  {
    hide Rooting;
    QuietRooting(s, s', t);
  }

  lemma EnterRooting(s: State, t: Tid, op: Op)
    requires Rooting(s) && t in s.threads && s.threads[t].pc == Entered(op) && !op.PublishRange?
    ensures Rooting(AdvanceStep(s, t))
  {
    var s' := AdvanceStep(s, t);
    if op.Release? {
      assert s' == s.(threads := s.threads[t := Thread(ReleaseNotify, false)],
                      collector := None, stopRequested := false, collecting := false);
      QuietRooting(s, s', t);
    } else {
      GotoRooting(s, s', t, Cooperate(op));
    }
  }

  lemma AdvanceRooting(s: State, t: Tid)
    requires Rooting(s) && t in s.threads && CanAdvance(s, t)
    ensures Rooting(AdvanceStep(s, t))
  {
    var pc := s.threads[t].pc;
    match pc
    case Body(op) => BodyRooting(s, t, op);
    case ClearSource(source, target) => ClearSourceRooting(s, t, source, target);
    case Entered(op) => if op.PublishRange? { PublishRooting(s, t); } else { EnterRooting(s, t, op); }
    case ParkNotify(_) => NotifyRooting(s, t);
    case ReleaseNotify => NotifyRooting(s, t);
    case ParkCheck(op) => ParkCheckRooting(s, t, op);
    case _ => WaitRooting(s, t, pc);
  }

  // While a world is stopped, no block is loose: the thread that would be publishing it
  // is registered and not at a park.
  lemma NothingLoose(s: State, c: Tid, slot: Slot)
    requires Control(s) && c in s.threads && s.threads[c].pc.World?
    ensures !Loose(s, slot)
  {
    assert ThreadControl(s, c);
    if slot.owner in s.threads {
      assert ThreadControl(s, slot.owner);
    }
  }

  lemma SweptPromise(s: State, t: Tid, kept: set<Block>, b: Block)
    requires Control(s) && t in s.threads && s.threads[t].pc.World? && KeepsRoots(s, kept)
    requires b in s.promised && PromiseKept(s, b, s.promised[b])
    ensures b in kept
  {
    if s.promised[b].InSlot? {
      NothingLoose(s, t, s.promised[b].slot);
      assert HeldInRange(s, b);
    }
  }

  lemma CollectRooting(s: State, t: Tid, op: Op, kept: set<Block>, keptWeak: set<nat>)
    requires Control(s) && Rooting(s) && t in s.threads && s.threads[t].pc == World(op)
    requires op.Collect? && KeepsRoots(s, kept)
    ensures Rooting(FinishWorldStep(s, t, op, kept, keptWeak))
  {
    var s' := FinishWorldStep(s, t, op, kept, keptWeak);
    forall u | u in s'.threads
      ensures OwnRooting(s', u)
    {
      assert OwnRooting(s, u);
      forall b | b in s'.promised && b.owner == u
        ensures PromiseKept(s', b, s'.promised[b])
      {
        assert PromiseKept(s, b, s.promised[b]);
        SweptPromise(s, t, kept, b);
        if s.promised[b].InSlot? {
          NothingLoose(s, t, s.promised[b].slot);
        }
      }
      assert Pending(s', u);
    }
  }

  // A shutdown that finds nothing under construction destroys every object, rooted or
  // not, so every promise ends.
  lemma ShutdownRooting(s: State, t: Tid, s': State)
    requires Rooting(s) && t in s.threads && s.threads[t].pc.World? && s.constructing == {}
    requires s' == s.(mutex := None, threads := s.threads[t := Thread(User, true)],
                      allocations := {}, weak := {}, promised := map[])
    ensures Rooting(s')
  {
    forall u | u in s'.threads
      ensures OwnRooting(s', u)
    {
      assert OwnRooting(s, u);
      assert Pending(s', u);
    }
  }

  lemma FinishWorldRooting(s: State, t: Tid, op: Op, kept: set<Block>, keptWeak: set<nat>)
    requires Control(s) && Rooting(s) && t in s.threads && s.threads[t].pc == World(op)
    requires op.Collect? ==> KeepsRoots(s, kept)
    ensures Rooting(FinishWorldStep(s, t, op, kept, keptWeak))
  {
    var s' := FinishWorldStep(s, t, op, kept, keptWeak);
    if op.Collect? {
      CollectRooting(s, t, op, kept, keptWeak);
    } else if op.Shutdown? && s.constructing == {} {
      ShutdownRooting(s, t, s');
    } else {
      QuietRooting(s, s', t);
    }
  }

  lemma RootingNext(s: State, t: Tid, a: Action, s': State)
    requires Control(s) && Rooting(s) && Next(s, t, a, s')
    ensures Rooting(s')
  {
    hide Rooting, Control, BeginStep, AdvanceStep, FinishWorldStep, MayBegin, CanAdvance, KeepsRoots;
    match a
    case Begin(op) => BeginRooting(s, t, op);
    case Advance => AdvanceRooting(s, t);
    case Park(marker) => QuietRooting(s, s', t);
    case SpuriousWake => QuietRooting(s, s', t);
    case FinishWorld(kept, keptWeak) =>
      FinishWorldRooting(s, t, s.threads[t].pc.op, kept, keptWeak);
    case AssignRoot(slot, content) => AssignRootRooting(s, t, slot, content, s');
  }
}
