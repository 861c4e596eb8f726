/**
Who changes what in the stop-the-world protocol, and what a call has done when it returns: the
thread table, the flags, the blocks, the root ranges and the root objects, over arbitrary runs.
 */
module StopTheWorldLaws {
  import opened Wrappers
  import opened StopTheWorld
  import opened StopTheWorldControl
  import opened StopTheWorldTheorems

  // Thread t leaves the critical section of a call for op, or stops the world in it.
  predicate InSection(s: State, t: Tid, a: Action, op: Op) {
    a.Advance? && t in s.threads && s.threads[t].pc == Body(op)
  }

  // --- Steps outside critical sections ---

  // Only program points and the mutex differ.
  ghost predicate OnlyControl(s: State, s': State) {
    s == s'.(threads := s.threads, mutex := s.mutex)
  }

  lemma WaitLeavesAll(s: State, t: Tid, pc: Pc)
    requires t in s.threads
    ensures OnlyControl(s, WaitStep(s, t, pc))
    ensures WaitStep(s, t, pc).threads == s.threads[t := WaitStep(s, t, pc).threads[t]]
  {
    hide AfterWait;
  }

  lemma NotifyLeavesAll(s: State, t: Tid, pc: Pc)
    requires t in s.threads
    ensures OnlyControl(s, Goto(NotifyAll(s), t, pc)) && OnlyControl(s, Unlock(Goto(NotifyAll(s), t, pc)))
    ensures OthersAt(s, t, Goto(NotifyAll(s), t, pc)) && OthersAt(s, t, Unlock(Goto(NotifyAll(s), t, pc)))
  {
    hide Awaken;
  }

  lemma UnparkLeaves(s: State, t: Tid, op: Op)
    requires t in s.threads
    ensures
      var s' := UnparkStep(s, t, op);
      && OnlyControl(s, s'.(table := s.table)) && s'.threads == s.threads[t := Thread(Body(op), s.threads[t].outer)]
      && s'.table.Keys == s.table.Keys && (forall u :: u in s.table && u != t ==> s'.table[u] == s.table[u])
      && (t in s.table ==> s'.table[t] == s.table[t].(paused := false, stackTop := 0))
  {
  }

  lemma ClearLeaves(s: State, t: Tid, source: Slot, target: Slot)
    requires t in s.threads
    ensures
      var s' := ClearSourceStep(s, t, source, target);
      && OnlyControl(s, s'.(contents := s.contents, promised := s.promised))
      && s'.threads == s.threads[t := Thread(User, s.threads[t].outer)]
  {
  }

  // What a step outside a critical section leaves alone, and the two entries that act at once.
  ghost predicate Outside(s: State, t: Tid, s': State)
    requires t in s.threads
  {
    var pc := s.threads[t].pc;
    && s'.allocations == s.allocations && s'.constructing == s.constructing && s'.weak == s.weak
    && s'.table.Keys == s.table.Keys && (forall u :: u in s.table && u != t ==> s'.table[u] == s.table[u])
    && (t in s.table ==> s'.table[t].stackBottom == s.table[t].stackBottom)
    && s'.ranges == (if pc.Entered? && pc.op.PublishRange? then s.ranges + [pc.op.slot] else s.ranges)
    && (if pc.Entered? && pc.op.Release? then !s'.collecting && !s'.stopRequested && s'.collector == None
        else s'.collecting == s.collecting && s'.stopRequested == s.stopRequested && s'.collector == s.collector)
    && (!pc.ClearSource? ==> s'.contents == s.contents && s'.promised == s.promised)
    && OthersAt(s, t, s')
  }

  // The other threads are where they were, or woken.
  ghost predicate OthersAt(s: State, t: Tid, s': State) {
    forall u :: u in s.threads && u != t ==>
      u in s'.threads && s'.threads[u].outer == s.threads[u].outer &&
      (s'.threads[u].pc == s.threads[u].pc || s'.threads[u].pc == Awaken(s.threads[u].pc))
  }

  lemma ControlOnly(s: State, t: Tid, s': State)
    requires t in s.threads && OnlyControl(s, s') && OthersAt(s, t, s') && !s.threads[t].pc.Entered?
    ensures Outside(s, t, s')
  {
    hide OthersAt;
  }

  lemma OneMoved(s: State, t: Tid, s': State)
    requires t in s.threads && t in s'.threads && s'.threads == s.threads[t := s'.threads[t]]
    ensures OthersAt(s, t, s')
  {
    hide Awaken;
  }

  lemma OutsideSections(s: State, t: Tid)
    requires t in s.threads && !s.threads[t].pc.Body?
    ensures Outside(s, t, AdvanceStep(s, t))
  {
    var pc := s.threads[t].pc;
    hide *;
    match pc
    case Entered(_) => EnteredOutside(s, t);
    case ParkNotify(_) => NotifyOutside(s, t);
    case ParkCheck(_) => ParkCheckOutside(s, t);
    case ReleaseNotify => NotifyOutside(s, t);
    case ClearSource(_, _) => ClearOutside(s, t);
    case _ => WaitOutside(s, t);
  }

  lemma NotifyIs(s: State, t: Tid)
    requires t in s.threads && (s.threads[t].pc.ParkNotify? || s.threads[t].pc.ReleaseNotify?)
    ensures
      var pc := s.threads[t].pc;
      AdvanceStep(s, t) == if pc.ParkNotify? then Goto(NotifyAll(s), t, ParkCheck(pc.op))
                           else Unlock(Goto(NotifyAll(s), t, User))
  {
    hide WaitStep, AfterWait, NotifyAll, BodyStep, UnparkStep, ClearSourceStep, Goto, Unlock, Awaken;
  }

  lemma NotifyOutside(s: State, t: Tid)
    requires t in s.threads && (s.threads[t].pc.ParkNotify? || s.threads[t].pc.ReleaseNotify?)
    ensures Outside(s, t, AdvanceStep(s, t))
  {
    hide *;
    NotifyIs(s, t);
    NotifyLeavesAll(s, t, if s.threads[t].pc.ParkNotify? then ParkCheck(s.threads[t].pc.op) else User);
    ControlOnly(s, t, AdvanceStep(s, t));
  }

  lemma ParkCheckIs(s: State, t: Tid)
    requires t in s.threads && s.threads[t].pc.ParkCheck?
    ensures
      var op := s.threads[t].pc.op;
      AdvanceStep(s, t) == if s.stopRequested then Unlock(Goto(s, t, Parked(op, true))) else UnparkStep(s, t, op)
  {
    hide WaitStep, AfterWait, NotifyAll, BodyStep, UnparkStep, ClearSourceStep, Goto, Unlock, Awaken;
  }

  lemma ParkCheckOutside(s: State, t: Tid)
    requires t in s.threads && s.threads[t].pc.ParkCheck?
    ensures Outside(s, t, AdvanceStep(s, t))
  {
    hide AdvanceStep, UnparkStep, Goto, Unlock, OthersAt;
    var op := s.threads[t].pc.op;
    UnparkLeaves(s, t, op);
    GotoLeaves(s, t, Parked(op, true));
    ParkCheckIs(s, t);
    OneMoved(s, t, AdvanceStep(s, t));
  }

  lemma ClearOutside(s: State, t: Tid)
    requires t in s.threads && s.threads[t].pc.ClearSource?
    ensures Outside(s, t, AdvanceStep(s, t))
  {
    var pc := s.threads[t].pc;
    ClearLeaves(s, t, pc.source, pc.target);
    hide WaitStep, AfterWait, NotifyAll, BodyStep, UnparkStep, ClearSourceStep, Goto, Unlock, Awaken, OthersAt;
    assert AdvanceStep(s, t) == ClearSourceStep(s, t, pc.source, pc.target);
    hide AdvanceStep;
    OneMoved(s, t, AdvanceStep(s, t));
  }

  lemma WaitOutside(s: State, t: Tid)
    requires t in s.threads
    requires
      var pc := s.threads[t].pc;
      !pc.Entered? && !pc.ParkNotify? && !pc.ParkCheck? && !pc.Body? && !pc.ReleaseNotify? && !pc.ClearSource?
    ensures Outside(s, t, AdvanceStep(s, t))
  {
    hide *;
    WaitIs(s, t);
    WaitLeavesAll(s, t, s.threads[t].pc);
    OneMoved(s, t, AdvanceStep(s, t));
    ControlOnly(s, t, AdvanceStep(s, t));
  }

  lemma WaitIs(s: State, t: Tid)
    requires t in s.threads
    requires
      var pc := s.threads[t].pc;
      !pc.Entered? && !pc.ParkNotify? && !pc.ParkCheck? && !pc.Body? && !pc.ReleaseNotify? && !pc.ClearSource?
    ensures AdvanceStep(s, t) == WaitStep(s, t, s.threads[t].pc)
  {
    hide WaitStep, AfterWait, NotifyAll, BodyStep, UnparkStep, ClearSourceStep, Goto, Unlock, Awaken;
  }

  lemma GotoLeaves(s: State, t: Tid, pc: Pc)
    requires t in s.threads
    ensures OnlyControl(s, Goto(s, t, pc)) && OnlyControl(s, Unlock(Goto(s, t, pc)))
    ensures Goto(s, t, pc).threads == s.threads[t := Thread(pc, s.threads[t].outer)]
    ensures Unlock(Goto(s, t, pc)).threads == s.threads[t := Thread(pc, s.threads[t].outer)]
  {
  }

  lemma EnteredIs(s: State, t: Tid)
    requires t in s.threads && s.threads[t].pc.Entered?
    ensures
      var op, moved := s.threads[t].pc.op, Goto(s, t, Pc.Cooperate(s.threads[t].pc.op));
      AdvanceStep(s, t) ==
      if op.PublishRange? then moved.(ranges := s.ranges + [op.slot])
      else if op.Release? then Lowered(s, t)
      else moved
  {
    hide WaitStep, AfterWait, NotifyAll, BodyStep, UnparkStep, ClearSourceStep, Goto, Unlock;
  }

  // The flags of a stop are down, and the thread that had raised them goes on to notify.
  function Lowered(s: State, t: Tid): State
    requires t in s.threads
  {
    s.(threads := s.threads[t := Thread(ReleaseNotify, false)],
       collector := None, stopRequested := false, collecting := false)
  }

  lemma LoweredFlags(s: State, t: Tid)
    requires t in s.threads
    ensures
      var s' := Lowered(s, t);
      && OnlyControl(s, s'.(collecting := s.collecting, collector := s.collector, stopRequested := s.stopRequested))
      && !s'.collecting && !s'.stopRequested && s'.collector == None && t in s'.threads
      && s'.threads == s.threads[t := Thread(ReleaseNotify, false)]
  {
  }

  lemma EnteredOutside(s: State, t: Tid)
    requires t in s.threads && s.threads[t].pc.Entered?
    ensures Outside(s, t, AdvanceStep(s, t))
  {
    hide AdvanceStep, OthersAt, Goto, Lowered;
    EnteredIs(s, t);
    GotoLeaves(s, t, Pc.Cooperate(s.threads[t].pc.op));
    LoweredFlags(s, t);
    OneMoved(s, t, AdvanceStep(s, t));
  }

  // --- The thread table ---

  // A thread enters the table by its own registration only and leaves it by its own
  // unregistration only; other threads change neither its record nor its stack bottom.
  lemma TableChanges(s: State, t: Tid, a: Action, s': State, u: Tid)
    requires Control(s) && Next(s, t, a, s')
    ensures u in s'.table && u !in s.table ==> u == t && exists b :: InSection(s, t, a, RegisterThread(b))
    ensures u in s.table && u !in s'.table ==> u == t && InSection(s, t, a, UnregisterThread)
    ensures u in s.table && u in s'.table ==>
              && (u != t ==> s'.table[u] == s.table[u])
              && (s'.table[u].stackBottom == s.table[u].stackBottom ||
                  exists b :: InSection(s, t, a, RegisterThread(b)))
  {
    hide AdvanceStep, BodyStep, FinishWorldStep, BeginStep, Control;
    match a
    case Advance =>
      if s.threads[t].pc.Body? {
        SectionStep(s, t, a, s', s.threads[t].pc.op);
        SectionTable(s, t, s.threads[t].pc.op);
      } else {
        OutsideSections(s, t);
        hide OthersAt;
      }
    case Begin(op) => BegunTable(s, t, op);
    case FinishWorld(kept, keptWeak) => FinishedTable(s, t, s.threads[t].pc.op, kept, keptWeak);
    case _ =>
  }

  lemma BegunTable(s: State, t: Tid, op: Op)
    requires t in s.threads
    ensures
      var s' := BeginStep(s, t, op);
      && s'.table == s.table && s'.allocations == s.allocations && s'.constructing == s.constructing
      && s'.weak == s.weak && s'.ranges == s.ranges
  {
  }

  lemma FinishedTable(s: State, t: Tid, op: Op, kept: set<Block>, keptWeak: set<nat>)
    requires t in s.threads
    ensures FinishWorldStep(s, t, op, kept, keptWeak).table == s.table
  {
  }

  // The record that a critical section gives its thread, or takes from it.
  ghost predicate TableAfter(s: State, t: Tid, op: Op, table': map<Tid, ThreadState>) {
    match op
    case RegisterThread(b) =>
      && table'.Keys == s.table.Keys + {t} && table'[t].stackBottom == b
      && forall u :: u in s.table && u != t ==> table'[u] == s.table[u]
    case UnregisterThread =>
      table'.Keys == s.table.Keys - {t} && forall u :: u in table' ==> table'[u] == s.table[u]
    case _ => table' == s.table
  }

  lemma SectionTable(s: State, t: Tid, op: Op)
    requires t in s.threads
    ensures TableAfter(s, t, op, BodyStep(s, t, op).table)
    ensures op.RegisterThread? || op.UnregisterThread? ==> BodyStep(s, t, op).threads[t].pc == User
  {
    hide UnregisterRangeStep, AllocateStep, FinishConstructionStep, ReleaseUnconstructedStep, StopStep;
    match op
    case UnregisterRange(slot) => OtherTables(s, t, op);
    case Allocate(b) => OtherTables(s, t, op);
    case FinishConstruction(b, root) => OtherTables(s, t, op);
    case ReleaseUnconstructed(b) => OtherTables(s, t, op);
    case Collect => OtherTables(s, t, op);
    case Shutdown => OtherTables(s, t, op);
    case Snapshot => OtherTables(s, t, op);
    case _ =>
  }

  lemma OtherTables(s: State, t: Tid, op: Op)
    requires t in s.threads && !op.RegisterThread? && !op.UnregisterThread?
    ensures BodyStep(s, t, op).table == s.table
  {
  }

  // After its critical section for RegisterThread(b) a thread is in the table, with stack bottom b,
  // not paused, and with no stack top; after that for UnregisterThread it is not.
  lemma SectionRegisters(s: State, t: Tid, a: Action, s': State, op: Op)
    requires Control(s) && Next(s, t, a, s') && InSection(s, t, a, op)
    requires op.RegisterThread? || op.UnregisterThread?
    ensures t in s'.threads && s'.threads[t].pc == User
    ensures op.RegisterThread? ==> t in s'.table && s'.table[t] == ThreadState(op.stackBottom, 0, false)
    ensures op.UnregisterThread? ==> t !in s'.table
  {
    hide *;
    ControlNext(s, t, a, s');
    SectionStep(s, t, a, s', op);
    SectionTable(s, t, op);
    TableAfterMeans(s, t, op, s'.table);
    if t in s'.table {
      UserNotParked(s', t);
    }
  }

  lemma SectionStep(s: State, t: Tid, a: Action, s': State, op: Op)
    requires Next(s, t, a, s') && InSection(s, t, a, op)
    ensures t in s.threads && s' == BodyStep(s, t, op) && t in s'.threads
  {
    hide BodyStep;
    assert s' == BodyStep(s, t, op);
    SectionThreads(s, t, op);
  }

  lemma UserNotParked(s: State, t: Tid)
    requires Control(s) && t in s.threads && s.threads[t].pc == User && t in s.table
    ensures !s.table[t].paused && s.table[t].stackTop == 0
  {
    assert ThreadControl(s, t);
  }

  lemma TableAfterMeans(s: State, t: Tid, op: Op, table': map<Tid, ThreadState>)
    requires TableAfter(s, t, op, table')
    ensures op.RegisterThread? ==> t in table' && table'[t].stackBottom == op.stackBottom
    ensures op.UnregisterThread? ==> t !in table'
  {
  }

  // --- Calls ---

  // The call for op has begun and has not reached the end of its critical section.
  ghost predicate Calling(s: State, t: Tid, op: Op) {
    && t in s.threads && HasOp(s.threads[t].pc) && s.threads[t].pc.op == op && !Stopping(s.threads[t].pc)
    && !op.Release?
  }

  lemma CallGoesOn(s: State, u: Tid, a: Action, s': State, t: Tid, op: Op)
    requires Control(s) && Next(s, u, a, s') && Calling(s, t, op) && !InSection(s, t, a, op)
    ensures Calling(s', t, op)
  {
    if u == t {
      assert ThreadControl(s, t);
      OwnCallGoesOn(s, t, a, s', op);
    } else {
      OtherThreadStays(s, u, a, s', t);
    }
  }

  lemma OwnCallGoesOn(s: State, t: Tid, a: Action, s': State, op: Op)
    requires Next(s, t, a, s') && Calling(s, t, op) && !InSection(s, t, a, op)
    ensures Calling(s', t, op)
  {
    hide AdvanceStep, FinishWorldStep, BeginStep;
    if a.Advance? {
      AdvanceGoesOn(s, t, op);
    }
  }

  lemma AdvanceGoesOn(s: State, t: Tid, op: Op)
    requires Calling(s, t, op) && !s.threads[t].pc.Body?
    ensures Calling(AdvanceStep(s, t), t, op)
  {
    hide *;
    CallingOp(s, t, op);
    match s.threads[t].pc
    case Entered(_) => EnteredGoesOn(s, t, op);
    case ParkNotify(_) => NotifyGoesOn(s, t, op);
    case ParkCheck(_) => ParkCheckGoesOn(s, t, op);
    case _ =>
      WaitIs(s, t);
      WaitGoesOn(s, t, op);
  }

  lemma CallingOp(s: State, t: Tid, op: Op)
    requires Calling(s, t, op)
    ensures t in s.threads && !op.Release? && !s.threads[t].pc.ReleaseNotify? && !s.threads[t].pc.ClearSource?
    ensures !s.threads[t].pc.User? && s.threads[t].pc.op == op
  {
  }

  lemma EnteredGoesOn(s: State, t: Tid, op: Op)
    requires t in s.threads && s.threads[t].pc == Entered(op) && !op.Release?
    ensures Calling(AdvanceStep(s, t), t, op)
  {
    hide AdvanceStep, Goto, Lowered;
    EnteredIs(s, t);
    GotoLeaves(s, t, Pc.Cooperate(op));
  }

  lemma NotifyGoesOn(s: State, t: Tid, op: Op)
    requires t in s.threads && s.threads[t].pc == ParkNotify(op) && !op.Release?
    ensures Calling(AdvanceStep(s, t), t, op)
  {
    hide AdvanceStep, Goto, Unlock, Awaken;
    NotifyIs(s, t);
    GotoKnown(NotifyAll(s), t, ParkCheck(op));
  }

  lemma ParkCheckGoesOn(s: State, t: Tid, op: Op)
    requires t in s.threads && s.threads[t].pc == ParkCheck(op) && !op.Release?
    ensures Calling(AdvanceStep(s, t), t, op)
  {
    hide AdvanceStep, UnparkStep, Goto, Unlock;
    ParkCheckIs(s, t);
    UnparkLeaves(s, t, op);
    GotoLeaves(s, t, Parked(op, true));
  }

  lemma GotoKnown(s: State, t: Tid, pc: Pc)
    requires t in s.threads
    ensures t in Goto(s, t, pc).threads && Goto(s, t, pc).threads[t].pc == pc
  {
  }

  lemma WaitGoesOn(s: State, t: Tid, op: Op)
    requires Calling(s, t, op)
    ensures Calling(WaitStep(s, t, s.threads[t].pc), t, op)
  {
  }

  // Another thread's step leaves a thread where it is, or wakes it.
  lemma OtherThreadStays(s: State, u: Tid, a: Action, s': State, t: Tid)
    requires Next(s, u, a, s') && t in s.threads && t != u
    ensures t in s'.threads && s'.threads[t].outer == s.threads[t].outer
    ensures s'.threads[t].pc == s.threads[t].pc || s'.threads[t].pc == Awaken(s.threads[t].pc)
  {
    hide *;
    if a.Advance? {
      AdvanceNext(s, u, a, s');
      if s.threads[u].pc.Body? {
        SectionThreads(s, u, s.threads[u].pc.op);
      } else {
        OutsideSections(s, u);
        OutsideOthers(s, u, s', t);
      }
    } else {
      OtherActions(s, u, a, s', t);
    }
  }

  lemma AdvanceNext(s: State, u: Tid, a: Action, s': State)
    requires Next(s, u, a, s') && a.Advance?
    ensures u in s.threads && s' == AdvanceStep(s, u)
    ensures s.threads[u].pc.Body? ==>
              s' == BodyStep(s, u, s.threads[u].pc.op) && InSection(s, u, a, s.threads[u].pc.op)
  {
    hide BodyStep, WaitStep, AfterWait, NotifyAll, UnparkStep, ClearSourceStep;
  }

  lemma OutsideOthers(s: State, u: Tid, s': State, t: Tid)
    requires u in s.threads && Outside(s, u, s') && t in s.threads && t != u
    ensures t in s'.threads && s'.threads[t].outer == s.threads[t].outer
    ensures s'.threads[t].pc == s.threads[t].pc || s'.threads[t].pc == Awaken(s.threads[t].pc)
  {
    hide Awaken;
  }

  lemma OtherActions(s: State, u: Tid, a: Action, s': State, t: Tid)
    requires Next(s, u, a, s') && t in s.threads && t != u && !a.Advance?
    ensures t in s'.threads && s'.threads[t] == s.threads[t]
  {
    hide AdvanceStep, CanAdvance, Awaken, MayBegin, KeepsRoots, BeginStep, FinishWorldStep, DropPromises;
    match a
    case Begin(op) => BegunThreads(s, u, op);
    case FinishWorld(kept, keptWeak) => FinishedThreads(s, u, s.threads[u].pc.op, kept, keptWeak);
    case _ =>
  }

  lemma BegunThreads(s: State, u: Tid, op: Op)
    requires u in s.threads
    ensures BeginStep(s, u, op).threads == s.threads[u := Thread(Locking(op), s.threads[u].outer)]
  {
  }

  lemma FinishedThreads(s: State, u: Tid, op: Op, kept: set<Block>, keptWeak: set<nat>)
    requires u in s.threads
    ensures FinishWorldStep(s, u, op, kept, keptWeak).threads == s.threads[u := Thread(User, true)]
  {
  }

  lemma SectionThreads(s: State, u: Tid, op: Op)
    requires u in s.threads
    ensures BodyStep(s, u, op).threads == s.threads[u := BodyStep(s, u, op).threads[u]]
  {
    hide StopStep, UnregisterRangeStep, AllocateStep, FinishConstructionStep, ReleaseUnconstructedStep;
    match op
    case Collect => StopThreads(s, u, op);
    case Shutdown => StopThreads(s, u, op);
    case Snapshot => StopThreads(s, u, op);
    case UnregisterRange(slot) => RangeThreads(s, u, slot);
    case Allocate(b) => BlockThreads(s, u, b);
    case ReleaseUnconstructed(b) => BlockThreads(s, u, b);
    case FinishConstruction(b, root) => FinishThreads(s, u, b, root);
    case _ =>
  }

  lemma StopThreads(s: State, u: Tid, op: Op)
    requires u in s.threads
    ensures StopStep(s, u, op).threads == s.threads[u := Thread(PauseCheck(op), s.threads[u].outer)]
  {
  }

  lemma RangeThreads(s: State, u: Tid, slot: Slot)
    requires u in s.threads
    ensures UnregisterRangeStep(s, u, slot).threads == s.threads[u := Thread(User, s.threads[u].outer)]
    ensures UnregisterRangeStep(s, u, slot).mutex == None
  {
    hide RemoveFirst;
  }

  lemma BlockThreads(s: State, u: Tid, b: Block)
    requires u in s.threads
    ensures AllocateStep(s, u, b).threads == s.threads[u := Thread(User, s.threads[u].outer)]
    ensures ReleaseUnconstructedStep(s, u, b).threads == s.threads[u := Thread(User, s.threads[u].outer)]
    ensures AllocateStep(s, u, b).mutex == None && ReleaseUnconstructedStep(s, u, b).mutex == None
  {
  }

  lemma FinishThreads(s: State, u: Tid, b: Block, root: Option<Slot>)
    requires u in s.threads
    ensures
      var pc' := match root case None => User case Some(slot) => Locking(PublishRange(slot, None));
      FinishConstructionStep(s, u, b, root).threads == s.threads[u := Thread(pc', s.threads[u].outer)]
    ensures FinishConstructionStep(s, u, b, root).mutex == None
  {
  }

  // A call that has returned has run its critical section, after it began.
  lemma {:induction false} CallRunsSection(
      states: seq<State>, moves: seq<(Tid, Action)>, i: nat, j: nat, t: Tid, op: Op)
    returns (k: nat)
    requires Run(states, moves) && i < j < |states| && moves[i] == (t, Begin(op)) && !op.Release?
    requires !Calling(states[j], t, op)
    ensures i < k < j && moves[k].0 == t && InSection(states[k], t, moves[k].1, op)
    decreases j
  {
    hide *;
    k := j - 1;
    RunLength(states, moves);
    StepOf(states, moves, k);
    if k == i {
      BegunIsCalling(states[i], t, op, states[j]);
    } else if Calling(states[k], t, op) {
      SectionIsOwn(states[k], moves[k].0, moves[k].1, states[j], t, op);
    } else {
      k := CallRunsSection(states, moves, i, k, t, op);
    }
  }

  lemma RunLength(states: seq<State>, moves: seq<(Tid, Action)>)
    requires Run(states, moves)
    ensures |states| == |moves| + 1
  {
  }

  lemma StepOf(states: seq<State>, moves: seq<(Tid, Action)>, i: nat)
    requires Run(states, moves) && i < |moves|
    ensures Control(states[i]) && Next(states[i], moves[i].0, moves[i].1, states[i + 1])
  {
    RunKeepsInvariants(states, moves, i);
  }

  lemma BegunIsCalling(s: State, t: Tid, op: Op, s': State)
    requires Next(s, t, Begin(op), s') && !op.Release?
    ensures Calling(s', t, op)
  {
  }

  lemma SectionIsOwn(s: State, u: Tid, a: Action, s': State, t: Tid, op: Op)
    requires Control(s) && Next(s, u, a, s') && Calling(s, t, op) && !Calling(s', t, op)
    ensures u == t && InSection(s, t, a, op)
  {
    if u == t {
      if !InSection(s, t, a, op) {
        CallGoesOn(s, u, a, s', t, op);
      }
    } else {
      OtherThreadStays(s, u, a, s', t);
    }
  }

  // While a thread stays in user code, nobody changes its record.
  lemma {:induction false} RecordStays(states: seq<State>, moves: seq<(Tid, Action)>, i: nat, j: nat, t: Tid)
    requires Run(states, moves) && i <= j < |states| && t in states[i].threads && states[i].threads[t].pc == User
    requires forall k :: i <= k < j && moves[k].0 == t ==> !moves[k].1.Begin?
    ensures t in states[j].threads && states[j].threads[t].pc == User
    ensures t in states[j].table <==> t in states[i].table
    ensures t in states[i].table ==> states[j].table[t] == states[i].table[t]
    decreases j
  {
    if i < j {
      var k := j - 1;
      RecordStays(states, moves, i, k, t);
      StepOf(states, moves, k);
      TableChanges(states[k], moves[k].0, moves[k].1, states[j], t);
      if moves[k].0 == t {
        IdleStep(states[k], t, moves[k].1, states[j]);
      } else {
        OtherThreadStays(states[k], moves[k].0, moves[k].1, states[j], t);
      }
    }
  }

  // In user code a thread can only begin a call or assign to its root objects.
  lemma IdleStep(s: State, t: Tid, a: Action, s': State)
    requires Next(s, t, a, s') && s.threads[t].pc == User && !a.Begin?
    ensures a.AssignRoot? && s'.table == s.table && t in s'.threads && s'.threads[t].pc == User
  {
  }

  // So whoever returns from register_thread(b) is registered, with stack bottom b and not paused,
  // until its next call; and whoever returns from unregister_thread is not registered.
  lemma ReturnedRegistered(states: seq<State>, moves: seq<(Tid, Action)>, i: nat, j: nat, t: Tid, op: Op)
    requires Run(states, moves) && i < j < |states| && moves[i] == (t, Begin(op))
    requires op.RegisterThread? || op.UnregisterThread?
    requires t in states[j].threads && states[j].threads[t].pc == User
    requires forall k :: i < k < j && moves[k].0 == t ==> !moves[k].1.Begin?
    ensures op.RegisterThread? ==> t in states[j].table && states[j].table[t] == ThreadState(op.stackBottom, 0, false)
    ensures op.UnregisterThread? ==> t !in states[j].table
  {
    var k := CallRunsSection(states, moves, i, j, t, op);
    StepOf(states, moves, k);
    SectionRegisters(states[k], t, moves[k].1, states[k + 1], op);
    RecordStays(states, moves, k + 1, j, t);
  }

  // Step k ends a registration or unregistration of t.
  ghost predicate Registers(states: seq<State>, moves: seq<(Tid, Action)>, k: int, t: Tid) {
    0 <= k < |moves| && k < |states| && moves[k].0 == t && moves[k].1.Advance? && t in states[k].threads &&
    states[k].threads[t].pc.Body? &&
    (states[k].threads[t].pc.op.RegisterThread? || states[k].threads[t].pc.op.UnregisterThread?)
  }

  // Every state knows of a thread what its last registration or unregistration left.
  lemma {:induction false} TableHistory(states: seq<State>, moves: seq<(Tid, Action)>, i: nat, t: Tid)
    returns (last: Option<nat>)
    requires Run(states, moves) && i < |states|
    ensures last.None? ==> t !in states[i].table && forall k :: k < i ==> !Registers(states, moves, k, t)
    ensures last.Some? ==>
              && last.value < i && Registers(states, moves, last.value, t)
              && (forall k :: last.value < k < i ==> !Registers(states, moves, k, t))
              && var op := states[last.value].threads[t].pc.op;
                 if op.RegisterThread? then t in states[i].table && states[i].table[t].stackBottom == op.stackBottom
                 else t !in states[i].table
    decreases i
  {
    RunLength(states, moves);
    if i == 0 {
      NobodyAtFirst(states, moves);
      last := None;
    } else {
      var k := i - 1;
      last := TableHistory(states, moves, k, t);
      StepOf(states, moves, k);
      if Registers(states, moves, k, t) {
        last := Some(k);
        hide *;
        SectionKnown(states, moves, k, t);
        SectionRegisters(states[k], t, moves[k].1, states[i], states[k].threads[t].pc.op);
      } else {
        hide Run, Next, Control, Init;
        TableChanges(states[k], moves[k].0, moves[k].1, states[i], t);
      }
    }
  }

  lemma NobodyAtFirst(states: seq<State>, moves: seq<(Tid, Action)>)
    requires Run(states, moves)
    ensures states[0].table == map[]
  {
  }

  lemma SectionKnown(states: seq<State>, moves: seq<(Tid, Action)>, k: nat, t: Tid)
    requires Registers(states, moves, k, t)
    ensures k < |moves| && k < |states| && moves[k].0 == t && t in states[k].threads
    ensures states[k].threads[t].pc.Body? && InSection(states[k], t, moves[k].1, states[k].threads[t].pc.op)
    ensures states[k].threads[t].pc.op.RegisterThread? || states[k].threads[t].pc.op.UnregisterThread?
  {
  }

  // --- Blocks, handles, ranges and root objects ---

  // Registered slots and their contents, blocks and handles are what they were.
  ghost predicate SameBlocks(s: State, s': State) {
    && s'.allocations == s.allocations && s'.constructing == s.constructing && s'.promised == s.promised
  }

  ghost predicate SameRoots(s: State, s': State) {
    s'.ranges == s.ranges && s'.contents == s.contents
  }

  // What the critical section of t for op has done to them in s'.
  ghost predicate SectionDone(s: State, t: Tid, op: Op, s': State) {
    match op
    case Allocate(b) =>
      && SameRoots(s, s') && s'.weak == s.weak
      && if t !in s.table then SameBlocks(s, s')
         else
           && s'.allocations == s.allocations + {b} && s'.constructing == s.constructing + {b}
           && b in s'.promised && s'.promised[b] == Pin && s'.promised - {b} == s.promised - {b}
    case FinishConstruction(b, root) =>
      && s'.allocations == s.allocations && s'.constructing == s.constructing - {b} && s'.weak == s.weak
      && s'.promised - {b} == s.promised - {b} && s'.ranges == s.ranges
      && (root.None? ==> b !in s'.promised && s'.contents == s.contents)
      && (root.Some? ==>
            && b in s'.promised && s'.promised[b] == InSlot(root.value)
            && root.value in s'.contents && s'.contents[root.value] == b
            && s'.contents - {root.value} == s.contents - {root.value})
    case ReleaseUnconstructed(b) =>
      && SameRoots(s, s') && s'.weak == s.weak
      && if t !in s.table then SameBlocks(s, s')
         else
           && s'.allocations == s.allocations - {b} && s'.constructing == s.constructing - {b}
           && b !in s'.promised && s'.promised - {b} == s.promised - {b}
    case UnregisterRange(slot) =>
      && s'.allocations == s.allocations && s'.constructing == s.constructing && s'.weak == s.weak
      && multiset(s'.ranges) == multiset(s.ranges) - multiset{slot} && s'.contents == s.contents
      && forall b :: (b in s'.promised <==> b in s.promised && s.promised[b] != InSlot(slot)) &&
                     (b in s'.promised ==> s'.promised[b] == s.promised[b])
    case UpdateWeak(entries) => SameBlocks(s, s') && SameRoots(s, s') && s'.weak == entries
    case _ => SameBlocks(s, s') && SameRoots(s, s') && s'.weak == s.weak
  }

  lemma SectionDoes(s: State, t: Tid, a: Action, s': State, op: Op)
    requires Next(s, t, a, s') && InSection(s, t, a, op)
    ensures SectionDone(s, t, op, s')
  {
    hide *;
    SectionStep(s, t, a, s', op);
    match op
    case Allocate(b) => AllocateDoes(s, t, b);
    case FinishConstruction(b, root) => FinishDoes(s, t, b, root);
    case ReleaseUnconstructed(b) => ReleaseDoes(s, t, b);
    case UnregisterRange(slot) => UnregisterRangeDoes(s, t, slot);
    case _ => OthersDo(s, t, op);
  }

  // A critical section that stops nobody gives the mutex back and returns; a construction that
  // ends in a root object goes on to publish it, and a move to clear its source.
  lemma SectionReturns(s: State, t: Tid, a: Action, s': State, op: Op)
    requires Next(s, t, a, s') && InSection(s, t, a, op) && !op.Collect? && !op.Shutdown? && !op.Snapshot?
    ensures s'.mutex == None && t in s'.threads && s'.threads[t].outer == s.threads[t].outer
    ensures s'.threads[t].pc ==
              match op
              case FinishConstruction(_, Some(slot)) => Locking(PublishRange(slot, None))
              case PublishRange(slot, Some(source)) => ClearSource(source, slot)
              case _ => User
  {
    hide *;
    SectionStep(s, t, a, s', op);
    SectionEnds(s, t, op);
  }

  lemma SectionEnds(s: State, t: Tid, op: Op)
    requires t in s.threads && !op.Collect? && !op.Shutdown? && !op.Snapshot?
    ensures
      var s' := BodyStep(s, t, op);
      && s'.mutex == None && t in s'.threads && s'.threads[t].outer == s.threads[t].outer
      && s'.threads[t].pc ==
           match op
           case FinishConstruction(_, Some(slot)) => Locking(PublishRange(slot, None))
           case PublishRange(slot, Some(source)) => ClearSource(source, slot)
           case _ => User
  {
    hide StopStep, UnregisterRangeStep, AllocateStep, FinishConstructionStep, ReleaseUnconstructedStep;
    match op
    case UnregisterRange(slot) => RangeThreads(s, t, slot);
    case Allocate(b) => BlockThreads(s, t, b);
    case ReleaseUnconstructed(b) => BlockThreads(s, t, b);
    case FinishConstruction(b, root) => FinishThreads(s, t, b, root);
    case _ =>
  }

  lemma AllocateDoes(s: State, t: Tid, b: Block)
    requires t in s.threads
    ensures SectionDone(s, t, Allocate(b), BodyStep(s, t, Allocate(b)))
  {
    assert BodyStep(s, t, Allocate(b)) == AllocateStep(s, t, b);
  }

  lemma FinishDoes(s: State, t: Tid, b: Block, root: Option<Slot>)
    requires t in s.threads
    ensures SectionDone(s, t, FinishConstruction(b, root), BodyStep(s, t, FinishConstruction(b, root)))
  {
    assert BodyStep(s, t, FinishConstruction(b, root)) == FinishConstructionStep(s, t, b, root);
  }

  lemma ReleaseDoes(s: State, t: Tid, b: Block)
    requires t in s.threads
    ensures SectionDone(s, t, ReleaseUnconstructed(b), BodyStep(s, t, ReleaseUnconstructed(b)))
  {
    assert BodyStep(s, t, ReleaseUnconstructed(b)) == ReleaseUnconstructedStep(s, t, b);
  }

  lemma UnregisterRangeDoes(s: State, t: Tid, slot: Slot)
    requires t in s.threads
    ensures SectionDone(s, t, UnregisterRange(slot), BodyStep(s, t, UnregisterRange(slot)))
  {
    assert BodyStep(s, t, UnregisterRange(slot)) == UnregisterRangeStep(s, t, slot);
    FirstGoes(s.ranges, slot);
    hide RemoveFirst;
  }

  lemma {:induction false} FirstGoes(ranges: seq<Slot>, slot: Slot)
    ensures multiset(RemoveFirst(ranges, slot)) == multiset(ranges) - multiset{slot}
    decreases |ranges|
  {
    if ranges != [] {
      assert ranges == [ranges[0]] + ranges[1..];
      FirstGoes(ranges[1..], slot);
    }
  }

  lemma OthersDo(s: State, t: Tid, op: Op)
    requires t in s.threads
    requires !op.Allocate? && !op.FinishConstruction? && !op.ReleaseUnconstructed? && !op.UnregisterRange?
    ensures SectionDone(s, t, op, BodyStep(s, t, op))
  {
    hide UnregisterRangeStep, AllocateStep, FinishConstructionStep, ReleaseUnconstructedStep;
  }

  // A block appears by an allocation only; it goes by the release of the thread that constructs it,
  // in a shutdown, or in a collection that keeps neither it nor what is pinned or held.
  lemma BlocksChange(s: State, t: Tid, a: Action, s': State, b: Block)
    requires Next(s, t, a, s')
    ensures b in s'.allocations && b !in s.allocations ==> t in s.table && InSection(s, t, a, Allocate(b))
    ensures b in s'.constructing && b !in s.constructing ==> t in s.table && InSection(s, t, a, Allocate(b))
    ensures b in s.allocations && b !in s'.allocations ==>
              || (t in s.table && InSection(s, t, a, ReleaseUnconstructed(b)))
              || (a.FinishWorld? && s.threads[t].pc.op.Shutdown?)
              || (a.FinishWorld? && s.threads[t].pc.op.Collect? && b !in s.constructing && !HeldInRange(s, b))
    ensures b in s.constructing && b !in s'.constructing ==>
              || (t in s.table && InSection(s, t, a, ReleaseUnconstructed(b)))
              || exists root :: InSection(s, t, a, FinishConstruction(b, root))
  {
    hide AdvanceStep, BodyStep, BeginStep;
    match a
    case Advance =>
      AdvanceNext(s, t, a, s');
      if s.threads[t].pc.Body? {
        SectionDoes(s, t, a, s', s.threads[t].pc.op);
        hide Next;
        SectionBlocks(s, t, s.threads[t].pc.op, s', b);
      } else {
        hide Next, OthersAt;
        OutsideSections(s, t);
      }
    case Begin(op) => BegunTable(s, t, op);
    case _ =>
  }

  lemma SectionBlocks(s: State, t: Tid, op: Op, s': State, b: Block)
    requires SectionDone(s, t, op, s')
    ensures b in s'.allocations && b !in s.allocations ==> t in s.table && op == Allocate(b)
    ensures b in s'.constructing && b !in s.constructing ==> t in s.table && op == Allocate(b)
    ensures b in s.allocations && b !in s'.allocations ==> t in s.table && op == ReleaseUnconstructed(b)
    ensures b in s.constructing && b !in s'.constructing ==>
              (t in s.table && op == ReleaseUnconstructed(b)) || (op.FinishConstruction? && op.done == b)
  {
  }

  // Weak entries change in their own critical sections and at the end of a stop only; the list of
  // ranges grows when a registration enters, before it can park, and shrinks by unregistration.
  lemma RegistriesChange(s: State, t: Tid, a: Action, s': State)
    requires Next(s, t, a, s')
    ensures s'.weak != s.weak ==>
              || (a.FinishWorld? && (s.threads[t].pc.op.Collect? || s.threads[t].pc.op.Shutdown?))
              || exists entries :: InSection(s, t, a, UpdateWeak(entries))
    ensures a.FinishWorld? ==>
              var op := s.threads[t].pc.op;
              if op.Collect? then s'.allocations == a.kept && s'.weak == a.keptWeak && s'.promised == s.promised
              else if op.Shutdown? && s.constructing == {} then
                s'.allocations == {} && s'.weak == {} && s'.promised == map[]
              else s'.allocations == s.allocations && s'.weak == s.weak && s'.promised == s.promised
    ensures a.FinishWorld? ==> s'.mutex == None && s'.threads == s.threads[t := Thread(User, true)]
    ensures
      var pc := s.threads[t].pc;
      if a.Advance? && pc.Entered? && pc.op.PublishRange? then s'.ranges == s.ranges + [pc.op.slot]
      else s'.ranges == s.ranges || exists slot :: InSection(s, t, a, UnregisterRange(slot))
  {
    hide AdvanceStep, BodyStep, BeginStep;
    match a
    case Advance =>
      AdvanceNext(s, t, a, s');
      if s.threads[t].pc.Body? {
        SectionDoes(s, t, a, s', s.threads[t].pc.op);
        hide Next;
        SectionRegistries(s, t, s.threads[t].pc.op, s');
      } else {
        hide Next, OthersAt;
        OutsideSections(s, t);
      }
    case Begin(op) => BegunTable(s, t, op);
    case _ =>
  }

  lemma SectionRegistries(s: State, t: Tid, op: Op, s': State)
    requires SectionDone(s, t, op, s')
    ensures s'.weak == s.weak || op == UpdateWeak(s'.weak)
    ensures s'.ranges == s.ranges || op.UnregisterRange?
  {
  }

  // The three flags: raised in the critical section of a stop, if no other one is pending; lowered
  // by its release; otherwise left alone.
  ghost predicate Flags(s: State, collector: Option<Tid>) {
    s.collector == collector && s.collecting == collector.Some? && s.stopRequested == collector.Some?
  }

  lemma FlagsChange(s: State, t: Tid, a: Action, s': State)
    requires Control(s) && Next(s, t, a, s')
    ensures
      var pc := s.threads[t].pc;
      if a.Advance? && pc.Body? && (pc.op.Collect? || pc.op.Shutdown? || pc.op.Snapshot?) then
        if s.collecting || (pc.op.Collect? && t !in s.table) then Flags(s', s.collector) && s'.threads[t].pc == User
        else Flags(s', Some(t)) && s'.threads[t].pc == PauseCheck(pc.op) && s'.mutex == s.mutex
      else if a.Advance? && pc.Entered? && pc.op.Release? then
        Flags(s', None) && s'.threads[t] == Thread(ReleaseNotify, false)
      else Flags(s', s.collector)
  {
    match a
    case Advance =>
      if s.threads[t].pc.Body? {
        SectionFlags(s, t, s.threads[t].pc.op);
        hide BodyStep;
      } else {
        OutsideSections(s, t);
        hide NotifyAll, WaitStep, AfterWait, UnparkStep, ClearSourceStep, BodyStep, OthersAt;
      }
    case _ =>
  }

  lemma SectionFlags(s: State, t: Tid, op: Op)
    requires Control(s) && t in s.threads
    ensures
      var s' := BodyStep(s, t, op);
      if op.Collect? || op.Shutdown? || op.Snapshot? then
        if s.collecting || (op.Collect? && t !in s.table) then Flags(s', s.collector) && s'.threads[t].pc == User
        else Flags(s', Some(t)) && s'.threads[t].pc == PauseCheck(op) && s'.mutex == s.mutex
      else Flags(s', s.collector)
  {
    hide ThreadControl;
  }

  // A root object changes by its owner's assignment, construction or move only; a moved-from one
  // forgets its pointer, and what rested on it rests on the new one.
  lemma RootsChange(s: State, t: Tid, a: Action, s': State, slot: Slot)
    requires Next(s, t, a, s')
    ensures
      var pc := s.threads[t].pc;
      || ((slot in s'.contents <==> slot in s.contents) &&
          (slot in s.contents ==> s'.contents[slot] == s.contents[slot]))
      || (a.AssignRoot? && a.slot == slot && slot.owner == t)
      || (a.Begin? && a.call.PublishRange? && a.call.slot == slot && a.call.from.Some? && slot.owner == t)
      || (a.Advance? && pc.Body? && pc.op.FinishConstruction? && pc.op.root == Some(slot))
      || (a.Advance? && pc.ClearSource? && pc.source == slot && slot !in s'.contents)
    ensures a.AssignRoot? ==>
              if a.content.Some? then a.slot in s'.contents && s'.contents[a.slot] == a.content.value
              else a.slot !in s'.contents
    ensures a.Begin? && a.call.PublishRange? && a.call.from.Some? ==>
              a.call.slot in s'.contents && s'.contents[a.call.slot] == s.contents[a.call.from.value]
    ensures a.Advance? && s.threads[t].pc.ClearSource? ==>
              && s.threads[t].pc.source !in s'.contents
              && forall b :: b in s.promised && s.promised[b] == InSlot(s.threads[t].pc.source) ==>
                   b in s'.promised && s'.promised[b] == InSlot(s.threads[t].pc.target)
  {
    hide AdvanceStep, BodyStep;
    match a
    case Advance =>
      AdvanceNext(s, t, a, s');
      if s.threads[t].pc.Body? {
        SectionDoes(s, t, a, s', s.threads[t].pc.op);
        hide Next;
        SectionRoots(s, t, s.threads[t].pc.op, s', slot);
      } else {
        hide Next, OthersAt;
        OutsideSections(s, t);
        if s.threads[t].pc.ClearSource? {
          ClearedRoots(s, t);
        }
      }
    case _ =>
  }

  lemma SectionRoots(s: State, t: Tid, op: Op, s': State, slot: Slot)
    requires SectionDone(s, t, op, s')
    ensures
      || ((slot in s'.contents <==> slot in s.contents) &&
          (slot in s.contents ==> s'.contents[slot] == s.contents[slot]))
      || (op.FinishConstruction? && op.root == Some(slot))
  {
    if op.FinishConstruction? && op.root.Some? && op.root.value != slot {
      assert slot in s'.contents - {op.root.value} <==> slot in s.contents - {op.root.value};
      assert slot in s.contents ==> (s'.contents - {op.root.value})[slot] == (s.contents - {op.root.value})[slot];
    }
  }

  lemma ClearedRoots(s: State, t: Tid)
    requires t in s.threads && s.threads[t].pc.ClearSource?
    ensures
      var s', pc := AdvanceStep(s, t), s.threads[t].pc;
      && pc.source !in s'.contents && s'.contents == s.contents - {pc.source}
      && forall b :: b in s.promised && s.promised[b] == InSlot(pc.source) ==>
           b in s'.promised && s'.promised[b] == InSlot(pc.target)
  {
    hide WaitStep, AfterWait, NotifyAll, BodyStep, UnparkStep;
  }
}
