/**
The control invariant of the stop-the-world protocol: mutex, flags, thread table and
program points agree, and every step keeps it.
Line numbers in comments are those of src/GCManager.cpp.
 */
module StopTheWorldControl {
  import opened Wrappers
  import opened StopTheWorld

  // --- The control invariant ---

  ghost predicate NoLostWakeup(s: State, t: Tid)
    requires t in s.threads
  {
    match s.threads[t].pc
    case Parked(_, true) => s.stopRequested || NotifyPending(s)
    case Blocked(_, true) => !MayProceed(s, t) || NotifyPending(s)
    case Pausing(_, true) => !AllPaused(s, t) || NotifyPending(s)
    case _ => true
  }

  predicate HasOp(pc: Pc) {
    !pc.User? && !pc.ReleaseNotify? && !pc.ClearSource?
  }

  ghost predicate ThreadControl(s: State, t: Tid)
    requires t in s.threads
  {
    var pc, outer := s.threads[t].pc, s.threads[t].outer;
    && (HoldsMutex(pc) <==> s.mutex == Some(t))
    && (Stopping(pc) || outer <==> s.collector == Some(t))
    && !(Stopping(pc) && outer)
    && (Cooperating(pc) ==> !outer)
    && (AtPark(pc) <==> t in s.table && s.table[t].paused)
    && (t in s.table ==> s.table[t].stackBottom != 0 && (s.table[t].paused <==> s.table[t].stackTop != 0))
    && (pc.Body? ==> MayProceed(s, t))
    && (pc.Spilling? || pc.Relocked? ==> t in s.table)
    && (pc.Blocked? || pc.BlockedCheck? ==> t !in s.table)
    && (HasOp(pc) && pc.op.Release? ==> outer && (pc.Locking? || pc.Entered?))
    && (HasOp(pc) && pc.op.RegisterThread? ==> pc.op.stackBottom != 0)
    && (Stopping(pc) ==> pc.op.Collect? || pc.op.Shutdown? || pc.op.Snapshot?)
    && (pc.World? || outer ==> AllPaused(s, t))
    && NoLostWakeup(s, t)
  }

  ghost predicate Control(s: State) {
    && s.collecting == s.stopRequested == s.collector.Some?
    && (s.collector.Some? ==> s.collector.value in s.threads)
    && (s.mutex.Some? ==> s.mutex.value in s.threads)
    && s.table.Keys <= s.threads.Keys
    && forall t :: t in s.threads ==> ThreadControl(s, t)
  }

  lemma ControlInit(s: State)
    requires Init(s)
    ensures Control(s)
  {
  }

  // A thread other than the one that moved.
  lemma OtherControl(s: State, s': State, u: Tid)
    requires u in s.threads && u in s'.threads && s'.threads[u] == s.threads[u] && ThreadControl(s, u)
    requires s'.mutex == Some(u) <==> s.mutex == Some(u)
    requires s'.collector == Some(u) <==> s.collector == Some(u)
    requires u in s'.table <==> u in s.table
    requires u in s.table ==> s'.table[u] == s.table[u]
    requires s.threads[u].pc.Body? ==> MayProceed(s', u)
    requires s.threads[u].pc.World? || s.threads[u].outer ==> AllPaused(s', u)
    requires NoLostWakeup(s', u)
    ensures ThreadControl(s', u)
  {
  }

  // Flags and thread table are untouched, and only t's program point, and possibly
  // its ownership of the mutex, changed.
  ghost predicate Moves(s: State, s': State, t: Tid) {
    && t in s.threads && t in s'.threads
    && s'.threads == s.threads[t := s'.threads[t]]
    && s'.collecting == s.collecting && s'.collector == s.collector
    && s'.stopRequested == s.stopRequested && s'.table == s.table
    && (s'.mutex == s.mutex || (s.mutex == None && s'.mutex == Some(t)) || (s.mutex == Some(t) && s'.mutex == None))
    && !s.threads[t].pc.ParkNotify? && !s.threads[t].pc.ReleaseNotify?
  }

  lemma MoveControl(s: State, s': State, t: Tid)
    requires Control(s) && Moves(s, s', t) && ThreadControl(s', t)
    ensures Control(s')
  {
    forall u | u in s'.threads && u != t
      ensures ThreadControl(s', u)
    {
      assert ThreadControl(s, u);
      assert NotifyPending(s) ==> NotifyPending(s');
      OtherControl(s, s', u);
    }
  }

  lemma BeginControl(s: State, t: Tid, op: Op)
    requires Control(s) && t in s.threads && s.threads[t].pc.User? && MayBegin(s, t, op)
    ensures Control(BeginStep(s, t, op))
  {
    BeginSelf(s, t, op);
    hide ThreadControl;
    MoveControl(s, BeginStep(s, t, op), t);
  }

  lemma BeginSelf(s: State, t: Tid, op: Op)
    requires Control(s) && t in s.threads && s.threads[t].pc.User? && MayBegin(s, t, op)
    ensures ThreadControl(BeginStep(s, t, op), t)
  {
    assert ThreadControl(s, t);
    assert BeginStep(s, t, op).threads[t] == Thread(Locking(op), s.threads[t].outer);
  }

  // Lock acquisitions.
  lemma AcquireControl(s: State, t: Tid)
    requires Control(s) && t in s.threads && CanAdvance(s, t)
    requires
      var pc := s.threads[t].pc;
      pc.Locking? || pc.Blocked? || pc.Spilling? || pc.Parked? || pc.Pausing?
    ensures Control(AdvanceStep(s, t))
  {
    var s' := AdvanceStep(s, t);
    assert ThreadControl(s, t);
    MoveControl(s, s', t);
  }

  // 728-730: the flags fall together.
  lemma ReleaseControl(s: State, t: Tid)
    requires Control(s) && t in s.threads && s.threads[t].pc.Entered? && s.threads[t].pc.op.Release?
    ensures Control(AdvanceStep(s, t))
  {
    var s' := AdvanceStep(s, t);
    assert ThreadControl(s, t);
    assert s'.threads[t] == Thread(ReleaseNotify, false) && s'.collector == None;
    forall u | u in s'.threads && u != t
      ensures ThreadControl(s', u)
    {
      assert ThreadControl(s, u);
      assert NotifyPending(s');
      OtherControl(s, s', u);
    }
  }

  lemma EnterControl(s: State, t: Tid)
    requires Control(s) && t in s.threads && s.threads[t].pc.Entered? && !s.threads[t].pc.op.Release?
    ensures Control(AdvanceStep(s, t))
  {
    var s', op := AdvanceStep(s, t), s.threads[t].pc.op;
    assert ThreadControl(s, t);
    assert s'.threads[t] == Thread(Cooperate(op), s.threads[t].outer) && s'.mutex == s.mutex;
    MoveControl(s, s', t);
  }

  lemma CooperateControl(s: State, t: Tid)
    requires Control(s) && t in s.threads && s.threads[t].pc.Cooperate?
    ensures Control(AdvanceStep(s, t))
  {
    assert ThreadControl(s, t);
    MoveControl(s, AdvanceStep(s, t), t);
  }

  lemma BlockedCheckControl(s: State, t: Tid)
    requires Control(s) && t in s.threads && s.threads[t].pc.BlockedCheck?
    ensures Control(AdvanceStep(s, t))
  {
    assert ThreadControl(s, t);
    MoveControl(s, AdvanceStep(s, t), t);
  }

  lemma RelockedControl(s: State, t: Tid)
    requires Control(s) && t in s.threads && s.threads[t].pc.Relocked? && CanAdvance(s, t)
    ensures Control(AdvanceStep(s, t))
  {
    assert ThreadControl(s, t);
    MoveControl(s, AdvanceStep(s, t), t);
  }

  // 695-699: the thread publishes its stack and sets its paused flag.
  lemma ParkControl(s: State, t: Tid, marker: nat, s': State)
    requires Control(s) && Next(s, t, Park(marker), s')
    ensures Control(s')
  {
    assert ThreadControl(s, t);
    forall u | u in s'.threads && u != t
      ensures ThreadControl(s', u)
    {
      assert ThreadControl(s, u);
      assert NotifyPending(s');
      OtherControl(s, s', u);
    }
  }

  lemma AwakenControl(s: State, s': State, u: Tid)
    requires u in s.threads && ThreadControl(s, u) && u in s'.threads
    requires s'.threads[u] == Thread(Awaken(s.threads[u].pc), s.threads[u].outer)
    requires s'.table == s.table && s'.collector == s.collector && s'.stopRequested == s.stopRequested
    requires s'.mutex == Some(u) <==> s.mutex == Some(u)
    ensures ThreadControl(s', u)
  {
    var pc := s.threads[u].pc;
    if !pc.Blocked? && !pc.Parked? && !pc.Pausing? {
      assert s'.threads[u] == s.threads[u];
      OtherControl(s, s', u);
    }
  }

  // notify_all wakes every sleeper; the notifier itself moves on to `pc`.
  lemma NotifyAllControl(s: State, t: Tid, pc: Pc, s': State)
    requires Control(s) && t in s.threads && (s.threads[t].pc.ParkNotify? || s.threads[t].pc.ReleaseNotify?)
    requires s' == Goto(NotifyAll(s), t, pc).(mutex := s'.mutex)
    requires s'.mutex == s.mutex || s'.mutex == None
    requires ThreadControl(s', t)
    ensures Control(s')
  {
    assert ThreadControl(s, t);
    forall u | u in s'.threads && u != t
      ensures ThreadControl(s', u)
    {
      assert ThreadControl(s, u);
      AwakenControl(s, s', u);
    }
  }

  lemma ParkNotifyControl(s: State, t: Tid)
    requires Control(s) && t in s.threads && s.threads[t].pc.ParkNotify?
    ensures Control(AdvanceStep(s, t))
  {
    var s', op := AdvanceStep(s, t), s.threads[t].pc.op;
    assert ThreadControl(s, t);
    assert s' == Goto(NotifyAll(s), t, ParkCheck(op));
    assert s'.threads[t] == Thread(ParkCheck(op), s.threads[t].outer);
    NotifyAllControl(s, t, ParkCheck(op), s');
  }

  lemma ReleaseNotifyControl(s: State, t: Tid)
    requires Control(s) && t in s.threads && s.threads[t].pc.ReleaseNotify?
    ensures Control(AdvanceStep(s, t))
  {
    var s' := AdvanceStep(s, t);
    assert ThreadControl(s, t);
    assert s' == Unlock(Goto(NotifyAll(s), t, User));
    assert s'.threads[t] == Thread(User, s.threads[t].outer);
    NotifyAllControl(s, t, User, s');
  }

  lemma ParkCheckControl(s: State, t: Tid)
    requires Control(s) && t in s.threads && s.threads[t].pc.ParkCheck?
    ensures Control(AdvanceStep(s, t))
  {
    assert ThreadControl(s, t);
    if s.stopRequested {
      MoveControl(s, AdvanceStep(s, t), t);
    } else {
      UnparkControl(s, t);
    }
  }

  // 704-706: the stop is over, and the thread takes its paused flag back.
  lemma UnparkControl(s: State, t: Tid)
    requires Control(s) && t in s.threads && s.threads[t].pc.ParkCheck? && !s.stopRequested
    ensures Control(AdvanceStep(s, t))
  {
    forall u | u in s.threads && u != t
      ensures ThreadControl(AdvanceStep(s, t), u)
    {
      UnparkOther(s, t, u);
    }
    assert ThreadControl(s, t);
  }

  lemma UnparkOther(s: State, t: Tid, u: Tid)
    requires Control(s) && t in s.threads && s.threads[t].pc.ParkCheck? && !s.stopRequested
    requires u in s.threads && u != t
    ensures ThreadControl(AdvanceStep(s, t), u)
  {
    assert ThreadControl(s, u) && ThreadControl(s, t);
    OtherControl(s, AdvanceStep(s, t), u);
  }

  lemma PauseCheckControl(s: State, t: Tid)
    requires Control(s) && t in s.threads && s.threads[t].pc.PauseCheck?
    ensures Control(AdvanceStep(s, t))
  {
    assert ThreadControl(s, t);
    MoveControl(s, AdvanceStep(s, t), t);
  }

  lemma ClearSourceControl(s: State, t: Tid)
    requires Control(s) && t in s.threads && s.threads[t].pc.ClearSource?
    ensures Control(AdvanceStep(s, t))
  {
    assert ThreadControl(s, t);
    MoveControl(s, AdvanceStep(s, t), t);
  }

  // collect, shutdown and the snapshots raise the three flags together.
  lemma StopControl(s: State, t: Tid)
    requires Control(s) && t in s.threads && s.threads[t].pc.Body? && !s.collecting
    requires
      var op := s.threads[t].pc.op;
      op.Shutdown? || op.Snapshot? || (op.Collect? && t in s.table)
    ensures Control(BodyStep(s, t, s.threads[t].pc.op))
  {
    forall u | u in s.threads && u != t
      ensures ThreadControl(BodyStep(s, t, s.threads[t].pc.op), u)
    {
      StopOther(s, t, u);
    }
    StopSelf(s, t);
    hide ThreadControl;
  }

  lemma StopSelf(s: State, t: Tid)
    requires Control(s) && t in s.threads && s.threads[t].pc.Body? && !s.collecting
    requires
      var op := s.threads[t].pc.op;
      op.Shutdown? || op.Snapshot? || (op.Collect? && t in s.table)
    ensures
      var s' := BodyStep(s, t, s.threads[t].pc.op);
      t in s'.threads && ThreadControl(s', t)
  {
    assert ThreadControl(s, t);
  }

  lemma StopOther(s: State, t: Tid, u: Tid)
    requires Control(s) && t in s.threads && s.threads[t].pc.Body? && !s.collecting
    requires
      var op := s.threads[t].pc.op;
      op.Shutdown? || op.Snapshot? || (op.Collect? && t in s.table)
    requires u in s.threads && u != t
    ensures ThreadControl(BodyStep(s, t, s.threads[t].pc.op), u)
  {
    assert ThreadControl(s, u) && ThreadControl(s, t);
    OtherControl(s, BodyStep(s, t, s.threads[t].pc.op), u);
  }

  // Registration changes the thread table, and only for the calling thread.
  lemma RegistrationControl(s: State, t: Tid)
    requires Control(s) && t in s.threads && s.threads[t].pc.Body?
    requires s.threads[t].pc.op.RegisterThread? || s.threads[t].pc.op.UnregisterThread?
    ensures Control(BodyStep(s, t, s.threads[t].pc.op))
  {
    forall u | u in s.threads && u != t
      ensures ThreadControl(BodyStep(s, t, s.threads[t].pc.op), u)
    {
      RegistrationOther(s, t, u);
    }
    RegistrationSelf(s, t);
    hide ThreadControl;
  }

  lemma RegistrationSelf(s: State, t: Tid)
    requires Control(s) && t in s.threads && s.threads[t].pc.Body?
    requires s.threads[t].pc.op.RegisterThread? || s.threads[t].pc.op.UnregisterThread?
    ensures
      var s' := BodyStep(s, t, s.threads[t].pc.op);
      t in s'.threads && ThreadControl(s', t)
  {
    assert ThreadControl(s, t);
  }

  lemma RegistrationOther(s: State, t: Tid, u: Tid)
    requires Control(s) && t in s.threads && s.threads[t].pc.Body? && u in s.threads && u != t
    requires s.threads[t].pc.op.RegisterThread? || s.threads[t].pc.op.UnregisterThread?
    ensures ThreadControl(BodyStep(s, t, s.threads[t].pc.op), u)
  {
    assert ThreadControl(s, u) && ThreadControl(s, t);
    OtherControl(s, BodyStep(s, t, s.threads[t].pc.op), u);
  }

  // Where a critical section that does not stop the world leaves its thread.
  function AfterBody(op: Op): Pc {
    match op
    case PublishRange(slot, Some(source)) => ClearSource(source, slot)
    case FinishConstruction(_, Some(slot)) => Locking(PublishRange(slot, None))
    case _ => User
  }

  predicate Stops(s: State, t: Tid, op: Op) {
    !s.collecting && (op.Shutdown? || op.Snapshot? || (op.Collect? && t in s.table))
  }

  // Every other critical section leaves flags and thread table alone and unlocks.
  ghost predicate BodyLeaves(s: State, t: Tid, op: Op, s': State) {
    && t in s.threads && s'.threads == s.threads[t := Thread(AfterBody(op), s.threads[t].outer)] && s'.mutex == None
    && s'.collecting == s.collecting && s'.collector == s.collector
    && s'.stopRequested == s.stopRequested && s'.table == s.table
  }

  lemma BodyMoves(s: State, t: Tid, op: Op)
    requires t in s.threads && !op.RegisterThread? && !op.UnregisterThread? && !Stops(s, t, op)
    ensures BodyLeaves(s, t, op, BodyStep(s, t, op))
  {
    match op
    case PublishRange(slot, source) => PublishMoves(s, t, slot, source);
    case FinishConstruction(b, root) => FinishConstructionMoves(s, t, b, root);
    case UnregisterRange(slot) => assert BodyStep(s, t, op) == UnregisterRangeStep(s, t, slot);
    case Allocate(b) => assert BodyStep(s, t, op) == AllocateStep(s, t, b);
    case ReleaseUnconstructed(b) => assert BodyStep(s, t, op) == ReleaseUnconstructedStep(s, t, b);
    case UpdateWeak(entries) => assert BodyStep(s, t, op) == Unlock(Goto(s, t, User)).(weak := entries);
    case _ =>
  }

  lemma PublishMoves(s: State, t: Tid, slot: Slot, source: Option<Slot>)
    requires t in s.threads
    ensures BodyLeaves(s, t, PublishRange(slot, source), BodyStep(s, t, PublishRange(slot, source)))
  {
    assert source.None? || source == Some(source.value);
  }

  lemma FinishConstructionMoves(s: State, t: Tid, b: Block, root: Option<Slot>)
    requires t in s.threads
    ensures BodyLeaves(s, t, FinishConstruction(b, root), BodyStep(s, t, FinishConstruction(b, root)))
  {
    assert root.None? || root == Some(root.value);
  }

  lemma BodyControl(s: State, t: Tid)
    requires Control(s) && t in s.threads && s.threads[t].pc.Body?
    ensures Control(BodyStep(s, t, s.threads[t].pc.op))
  {
    var op := s.threads[t].pc.op;
    assert ThreadControl(s, t);
    if op.RegisterThread? || op.UnregisterThread? {
      RegistrationControl(s, t);
    } else if Stops(s, t, op) {
      StopControl(s, t);
    } else {
      BodyMoves(s, t, op);
      UnlockControl(s, BodyStep(s, t, op), t);
    }
  }

  lemma UnlockControl(s: State, s': State, t: Tid)
    requires Control(s) && Moves(s, s', t) && s.threads[t].pc.Body? && s'.mutex == None
    requires s'.threads[t].outer == s.threads[t].outer
    requires s'.threads[t].pc.User? || s'.threads[t].pc.ClearSource? ||
             (s'.threads[t].pc.Locking? && s'.threads[t].pc.op.PublishRange?)
    ensures Control(s')
  {
    assert ThreadControl(s, t);
    MoveControl(s, s', t);
  }

  lemma AdvanceControl(s: State, t: Tid)
    requires Control(s) && t in s.threads && CanAdvance(s, t)
    ensures Control(AdvanceStep(s, t))
  {
    match s.threads[t].pc
    case Entered(op) => if op.Release? { ReleaseControl(s, t); } else { EnterControl(s, t); }
    case Cooperate(_) => CooperateControl(s, t);
    case BlockedCheck(_) => BlockedCheckControl(s, t);
    case Relocked(_) => RelockedControl(s, t);
    case ParkNotify(_) => ParkNotifyControl(s, t);
    case ReleaseNotify => ReleaseNotifyControl(s, t);
    case ParkCheck(_) => ParkCheckControl(s, t);
    case Body(_) => BodyControl(s, t);
    case PauseCheck(_) => PauseCheckControl(s, t);
    case ClearSource(_, _) => ClearSourceControl(s, t);
    case _ => AcquireControl(s, t);
  }

  lemma FinishWorldControl(s: State, t: Tid, kept: set<Block>, keptWeak: set<nat>)
    requires Control(s) && t in s.threads && s.threads[t].pc.World?
    ensures Control(FinishWorldStep(s, t, s.threads[t].pc.op, kept, keptWeak))
  {
    FinishWorldSelf(s, t, kept, keptWeak);
    hide ThreadControl;
    MoveControl(s, FinishWorldStep(s, t, s.threads[t].pc.op, kept, keptWeak), t);
  }

  lemma FinishWorldSelf(s: State, t: Tid, kept: set<Block>, keptWeak: set<nat>)
    requires Control(s) && t in s.threads && s.threads[t].pc.World?
    ensures
      var s' := FinishWorldStep(s, t, s.threads[t].pc.op, kept, keptWeak);
      Moves(s, s', t) && ThreadControl(s', t)
  {
    var s' := FinishWorldStep(s, t, s.threads[t].pc.op, kept, keptWeak);
    assert ThreadControl(s, t);
    FinishWorldMoves(s, t, s.threads[t].pc.op, kept, keptWeak);
    hide FinishWorldStep;
    assert AllPaused(s, t) ==> AllPaused(s', t);
  }

  lemma FinishWorldMoves(s: State, t: Tid, op: Op, kept: set<Block>, keptWeak: set<nat>)
    requires t in s.threads && s.threads[t].pc == World(op) && s.mutex == Some(t)
    ensures
      var s' := FinishWorldStep(s, t, op, kept, keptWeak);
      Moves(s, s', t) && s'.mutex == None && s'.threads[t] == Thread(User, true)
  {
  }

  lemma SpuriousWakeControl(s: State, t: Tid, s': State)
    requires Control(s) && Next(s, t, SpuriousWake, s')
    ensures Control(s')
  {
    assert ThreadControl(s, t);
    MoveControl(s, s', t);
  }

  lemma AssignRootControl(s: State, t: Tid, slot: Slot, content: Option<Block>, s': State)
    requires Control(s) && Next(s, t, AssignRoot(slot, content), s')
    ensures Control(s')
  {
    assert ThreadControl(s, t);
    assert s'.threads == s.threads[t := s'.threads[t]];
    MoveControl(s, s', t);
  }

  lemma ControlNext(s: State, t: Tid, a: Action, s': State)
    requires Control(s) && Next(s, t, a, s')
    ensures Control(s')
  {
    match a
    case Begin(op) => BeginControl(s, t, op);
    case Advance => AdvanceControl(s, t);
    case Park(marker) => ParkControl(s, t, marker, s');
    case SpuriousWake => SpuriousWakeControl(s, t, s');
    case FinishWorld(kept, keptWeak) => FinishWorldControl(s, t, kept, keptWeak);
    case AssignRoot(slot, content) => AssignRootControl(s, t, slot, content, s');
  }
}
