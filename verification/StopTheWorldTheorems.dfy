/**
Theorems over whole runs of the stop-the-world protocol: safety of a stop, progress of the
pause wait, no lost wake-up, no deadlock, and rooting without gaps.
 */
module StopTheWorldTheorems {
  import opened Wrappers
  import opened StopTheWorld
  import opened StopTheWorldControl
  import opened StopTheWorldRooting

  // --- Runs ---

  ghost predicate Run(states: seq<State>, moves: seq<(Tid, Action)>) {
    && |states| == |moves| + 1
    && Init(states[0])
    && forall i :: 0 <= i < |moves| ==> Next(states[i], moves[i].0, moves[i].1, states[i + 1])
  }

  lemma {:induction false} RunKeepsInvariants(states: seq<State>, moves: seq<(Tid, Action)>, i: nat)
    requires Run(states, moves) && i < |states|
    ensures Control(states[i]) && Rooting(states[i])
  {
    if i == 0 {
      ControlInit(states[0]);
    } else {
      RunKeepsInvariants(states, moves, i - 1);
      assert Next(states[i - 1], moves[i - 1].0, moves[i - 1].1, states[i - 1 + 1]);
      ControlNext(states[i - 1], moves[i - 1].0, moves[i - 1].1, states[i]);
      RootingNext(states[i - 1], moves[i - 1].0, moves[i - 1].1, states[i]);
    }
  }

  // --- Safety ---

  predicate IsCollector(s: State, c: Tid) {
    c in s.threads && (Stopping(s.threads[c].pc) || s.threads[c].outer)
  }

  lemma AtMostOneCollector(states: seq<State>, moves: seq<(Tid, Action)>, i: nat)
    requires Run(states, moves) && i < |states|
    ensures forall c: Tid, d: Tid :: IsCollector(states[i], c) && IsCollector(states[i], d) ==> c == d
    ensures states[i].collecting == states[i].stopRequested == states[i].collector.Some?
    ensures forall c: Tid :: IsCollector(states[i], c) ==> states[i].collector == Some(c)
    ensures states[i].collector.Some? ==> IsCollector(states[i], states[i].collector.value)
  {
    RunKeepsInvariants(states, moves, i);
    forall c: Tid | IsCollector(states[i], c)
      ensures states[i].collector == Some(c)
    {
      assert ThreadControl(states[i], c);
    }
    if states[i].collector.Some? {
      assert ThreadControl(states[i], states[i].collector.value);
    }
  }

  lemma StoppedWorldIsParked(states: seq<State>, moves: seq<(Tid, Action)>, i: nat, c: Tid, u: Tid)
    requires Run(states, moves) && i < |states| && StoppedBy(states[i], c)
    requires u in states[i].table && u != c
    ensures u in states[i].threads && AtPark(states[i].threads[u].pc)
    ensures states[i].table[u].paused && states[i].table[u].stackTop != 0
  {
    RunKeepsInvariants(states, moves, i);
    assert ThreadControl(states[i], c);
    assert ThreadControl(states[i], u);
  }

  // What a stop leaves alone: everything but root ranges, which may grow at the end.
  ghost predicate Frozen(s: State, s': State) {
    && s'.table == s.table && s'.allocations == s.allocations
    && s'.constructing == s.constructing && s'.weak == s.weak && s.ranges <= s'.ranges
  }

  // Only a parked thread, or one that never registered, can be inside cooperate then.
  lemma FrozenAdvance(s: State, t: Tid, c: Tid)
    requires Control(s) && t in s.threads && CanAdvance(s, t) && StoppedBy(s, c) && t != c
    ensures StoppedBy(AdvanceStep(s, t), c) && Frozen(s, AdvanceStep(s, t))
  {
    assert ThreadControl(s, c);
    assert ThreadControl(s, t);
    var s', pc := AdvanceStep(s, t), s.threads[t].pc;
    match pc
    case Body(_) => assert false;
    case ReleaseNotify => assert s' == Unlock(Goto(NotifyAll(s), t, User));
    case ClearSource(source, target) => assert s' == ClearSourceStep(s, t, source, target);
    case Entered(op) =>
      if op.PublishRange? { assert s' == Goto(s, t, Cooperate(op)).(ranges := s.ranges + [op.slot]); }
      else { assert s' == Goto(s, t, Cooperate(op)); }
    case ParkNotify(op) => assert s' == Goto(NotifyAll(s), t, ParkCheck(op));
    case ParkCheck(op) => assert s' == Unlock(Goto(s, t, Parked(op, true)));
    case _ => WaitShape(s, t, pc);
  }

  lemma FrozenPark(s: State, t: Tid, c: Tid)
    requires Control(s) && t in s.threads && StoppedBy(s, c) && t != c && t in s.table
    ensures !s.threads[t].pc.Relocked?
  {
    assert ThreadControl(s, c);
    assert ThreadControl(s, t);
  }

  lemma FrozenStep(s: State, t: Tid, a: Action, s': State, c: Tid)
    requires Control(s) && Next(s, t, a, s') && StoppedBy(s, c) && t != c
    ensures StoppedBy(s', c) && Frozen(s, s')
  {
    assert ThreadControl(s, c);
    assert ThreadControl(s, t);
    match a
    case Begin(op) =>
    case Advance => FrozenAdvance(s, t, c);
    case Park(_) => FrozenPark(s, t, c);
    case SpuriousWake =>
    case FinishWorld(_, _) =>
    case AssignRoot(_, _) =>
  }

  lemma {:induction false} StoppedWorldIsFrozen(
      states: seq<State>, moves: seq<(Tid, Action)>, i: nat, j: nat, c: Tid)
    requires Run(states, moves) && i <= j < |states| && StoppedBy(states[i], c)
    requires forall k :: i <= k < j ==> moves[k].0 != c
    ensures StoppedBy(states[j], c) && Frozen(states[i], states[j])
  {
    if i < j {
      StoppedWorldIsFrozen(states, moves, i, j - 1, c);
      assert StoppedBy(states[j], c) && Frozen(states[j - 1], states[j]) by {
        RunKeepsInvariants(states, moves, j - 1);
        assert Next(states[j - 1], moves[j - 1].0, moves[j - 1].1, states[j - 1 + 1]);
        FrozenStep(states[j - 1], moves[j - 1].0, moves[j - 1].1, states[j], c);
      }
    }
  }

  // --- Progress ---

  // The threads a pending stop still waits for.
  function Unpaused(s: State): set<Tid> {
    set u | u in s.table && s.collector != Some(u) && !s.table[u].paused
  }

  // While a stop is pending, only the collector itself can register or unregister.
  ghost predicate TableKept(s: State, s': State, t: Tid) {
    && s'.collector == s.collector
    && (s'.table == s.table ||
        (s.collector == Some(t) && forall u :: u != t ==>
           (u in s'.table <==> u in s.table) && (u in s.table ==> s'.table[u] == s.table[u])))
  }

  lemma TableOfBody(s: State, t: Tid, op: Op)
    requires Control(s) && t in s.threads && s.threads[t].pc == Body(op) && s.stopRequested
    ensures TableKept(s, BodyStep(s, t, op), t)
  {
    assert ThreadControl(s, t);
    match op
    case RegisterThread(bottom) =>
      assert BodyStep(s, t, op).table == s.table[t := BodyStep(s, t, op).table[t]];
    case UnregisterThread => assert BodyStep(s, t, op).table == s.table - {t};
    case _ => BodyMoves(s, t, op);
  }

  lemma WaitLeaves(s: State, t: Tid, pc: Pc)
    requires t in s.threads
    ensures
      var s' := WaitStep(s, t, pc);
      s'.collector == s.collector && s'.table == s.table && s'.promised == s.promised
  {
    hide AfterWait;
  }

  lemma NotifyLeaves(s: State, t: Tid, pc: Pc)
    requires t in s.threads
    ensures
      var s' := Goto(NotifyAll(s), t, pc);
      && s'.collector == s.collector && s'.table == s.table && s'.promised == s.promised
      && Unlock(s').collector == s.collector && Unlock(s').table == s.table && Unlock(s').promised == s.promised
  {
  }

  lemma TableOutsideBody(s: State, t: Tid)
    requires t in s.threads && s.stopRequested && !s.threads[t].pc.Body?
    requires !(s.threads[t].pc.Entered? && s.threads[t].pc.op.Release?)
    ensures AdvanceStep(s, t).collector == s.collector && AdvanceStep(s, t).table == s.table
  {
    var pc := s.threads[t].pc;
    hide WaitStep, AfterWait, NotifyAll, BodyStep, UnparkStep;
    match pc
    case ParkNotify(op) => NotifyLeaves(s, t, ParkCheck(op));
    case ReleaseNotify => NotifyLeaves(s, t, User);
    case ClearSource(source, target) =>
    case Entered(op) =>
    case ParkCheck(op) =>
    case _ => WaitLeaves(s, t, pc);
  }

  lemma TableOfAdvance(s: State, t: Tid)
    requires Control(s) && t in s.threads && CanAdvance(s, t) && s.stopRequested && AdvanceStep(s, t).stopRequested
    ensures TableKept(s, AdvanceStep(s, t), t)
  {
    if s.threads[t].pc.Body? {
      TableOfBody(s, t, s.threads[t].pc.op);
    } else {
      TableOutsideBody(s, t);
    }
  }

  lemma StopProgress(s: State, t: Tid, a: Action, s': State)
    requires Control(s) && Next(s, t, a, s') && s.stopRequested && s'.stopRequested
    ensures s'.collector == s.collector && Unpaused(s') <= Unpaused(s)
    ensures a.Park? ==> t in Unpaused(s) && t !in Unpaused(s') && Unpaused(s') < Unpaused(s)
  {
    match a
    case Begin(op) =>
    case Advance => TableOfAdvance(s, t);
    case Park(_) =>
      assert ThreadControl(s, t);
      assert t in Unpaused(s) && t !in Unpaused(s');
    case SpuriousWake =>
    case FinishWorld(_, _) =>
    case AssignRoot(_, _) =>
  }

  // Once nobody is waited for, the pause wait returns the next time it is checked.
  lemma PauseEnds(s: State, c: Tid)
    requires Control(s) && c in s.threads && s.threads[c].pc.PauseCheck?
    ensures AdvanceStep(s, c).threads[c].pc.World? <==> Unpaused(s) == {}
  {
    assert ThreadControl(s, c);
    assert Unpaused(s) == {} <==> AllPaused(s, c) by {
      if !AllPaused(s, c) {
        var u :| u in s.table && u != c && !s.table[u].paused;
        assert u in Unpaused(s);
      }
    }
  }

  predicate Asleep(s: State, t: Tid) {
    t in s.threads && var pc := s.threads[t].pc; (pc.Parked? || pc.Blocked? || pc.Pausing?) && pc.asleep
  }

  // The predicate a condition-variable waiter waits for.
  ghost predicate WakeCondition(s: State, t: Tid)
    requires Asleep(s, t)
  {
    match s.threads[t].pc
    case Parked(_, _) => !s.stopRequested
    case Blocked(_, _) => MayProceed(s, t)
    case Pausing(_, _) => AllPaused(s, t)
  }

  lemma NoWakeupIsLost(states: seq<State>, moves: seq<(Tid, Action)>, i: nat, t: Tid)
    requires Run(states, moves) && i < |states| && Asleep(states[i], t) && WakeCondition(states[i], t)
    ensures NotifyPending(states[i])
    ensures !Asleep(AdvanceStep(states[i], states[i].mutex.value), t)
  {
    RunKeepsInvariants(states, moves, i);
    hide Run, Rooting;
    SleeperNotified(states[i], t);
  }

  lemma SleeperNotified(s: State, t: Tid)
    requires Control(s) && Asleep(s, t) && WakeCondition(s, t)
    ensures NotifyPending(s) && !Asleep(AdvanceStep(s, s.mutex.value), t)
  {
    assert ThreadControl(s, t);
    var m := s.mutex.value;
    assert ThreadControl(s, m);
  }

  // A step that needs neither a new call, nor a spurious wake-up, nor user code.
  ghost predicate CanMove(s: State, t: Tid) {
    exists a: Action, s' :: (a.Advance? || a.Park? || a.FinishWorld?) && Next(s, t, a, s')
  }

  lemma MoveOfOwner(s: State, t: Tid)
    requires Control(s) && Rooting(s) && t in s.threads
    requires CanAdvance(s, t) || s.threads[t].pc.World? || s.threads[t].pc.Relocked?
    ensures CanMove(s, t)
  {
    var pc := s.threads[t].pc;
    if CanAdvance(s, t) {
      assert Next(s, t, Advance, AdvanceStep(s, t));
    } else if pc.World? {
      forall b | b in s.constructing
        ensures b in s.allocations
      {
        assert OwnRooting(s, b.owner);
      }
      assert Next(s, t, FinishWorld(s.allocations, {}), FinishWorldStep(s, t, pc.op, s.allocations, {}));
    } else {
      var s' := Goto(s, t, ParkNotify(pc.op)).(
        table := s.table[t := s.table[t].(stackTop := 1, paused := true)]);
      assert Next(s, t, Park(1), s');
    }
  }

  // If any thread is inside the manager, then some thread there can move, or a stop waits
  // for user code: for its collector's finalizers, or for a registered thread that has not
  // reached a safepoint.
  lemma NoDeadlock(states: seq<State>, moves: seq<(Tid, Action)>, i: nat, t: Tid)
    requires Run(states, moves) && i < |states|
    requires t in states[i].threads && !states[i].threads[t].pc.User?
    ensures
      var s := states[i];
      || (exists u :: CanMove(s, u))
      || (s.stopRequested &&
          exists u :: u in s.threads && s.threads[u].pc.User? && (s.threads[u].outer || u in Unpaused(s)))
  {
    var s := states[i];
    RunKeepsInvariants(states, moves, i);
    assert ThreadControl(s, t);
    if s.mutex.Some? {
      assert ThreadControl(s, s.mutex.value);
      MoveOfOwner(s, s.mutex.value);
    } else if CanAdvance(s, t) {
      MoveOfOwner(s, t);
    } else {
      var c := s.collector.value;
      assert ThreadControl(s, c);
      if CanAdvance(s, c) {
        MoveOfOwner(s, c);
      } else if !s.threads[c].outer {
        var u :| u in s.table && u != c && !s.table[u].paused;
        assert ThreadControl(s, u);
        if CanAdvance(s, u) {
          MoveOfOwner(s, u);
        }
      }
    }
  }

  // --- Rooting ---

  // Whenever any scan can run, a promised block is pinned or in a registered root range,
  // and no collection has reclaimed it.
  lemma GapFreeRooting(states: seq<State>, moves: seq<(Tid, Action)>, i: nat, b: Block)
    requires Run(states, moves) && i < |states| && b in states[i].promised
    ensures b in states[i].allocations
    ensures (exists c :: c in states[i].threads && states[i].threads[c].pc.World?) ==>
              b in states[i].constructing || HeldInRange(states[i], b)
  {
    var s := states[i];
    RunKeepsInvariants(states, moves, i);
    assert OwnRooting(s, b.owner);
    assert PromiseKept(s, b, s.promised[b]);
    if c :| c in s.threads && s.threads[c].pc.World? {
      if s.promised[b].InSlot? {
        NothingLoose(s, c, s.promised[b].slot);
      }
    }
  }

  // A promise starts when the block is registered as constructing and lasts through
  // gc_root<T>(gc_new<T>(...)) and through moves of the root.  It ends only when its own
  // thread drops the block, or in a shutdown.
  lemma PromiseEnds(s: State, t: Tid, a: Action, s': State, b: Block)
    requires Rooting(s) && Next(s, t, a, s') && b in s.promised && b !in s'.promised
    ensures
      || (a.FinishWorld? && s.threads[t].pc.op.Shutdown?)
      || (b.owner == t && a.AssignRoot? && s.promised[b] == InSlot(a.slot))
      || (b.owner == t && a.Advance? && s.threads[t].pc.Body? && BodyEndsPromise(s, s.threads[t].pc.op, b))
  {
    assert OwnRooting(s, b.owner) && PromiseKept(s, b, s.promised[b]);
    match a
    case Advance => AdvanceEndsPromise(s, t, b);
    case _ =>
  }

  predicate BodyEndsPromise(s: State, op: Op, b: Block)
    requires b in s.promised
  {
    match op
    case FinishConstruction(done, root) => done == b && root.None?
    case ReleaseUnconstructed(failed) => failed == b
    case UnregisterRange(slot) => s.promised[b] == InSlot(slot)
    case _ => false
  }

  lemma PromisesOfBody(s: State, t: Tid, op: Op, b: Block)
    requires t in s.threads && PendingOp(s, t, Body(op), op)
    requires b in s.promised && PromiseKept(s, b, s.promised[b])
    ensures b in BodyStep(s, t, op).promised || (b.owner == t && BodyEndsPromise(s, op, b))
  {
    match op
    case UnregisterRange(slot) => assert BodyStep(s, t, op) == UnregisterRangeStep(s, t, slot);
    case Allocate(other) => assert BodyStep(s, t, op) == AllocateStep(s, t, other);
    case FinishConstruction(other, root) => assert BodyStep(s, t, op) == FinishConstructionStep(s, t, other, root);
    case ReleaseUnconstructed(other) => assert BodyStep(s, t, op) == ReleaseUnconstructedStep(s, t, other);
    case _ => assert BodyStep(s, t, op).promised == s.promised;
  }

  lemma PromisesOutsideBody(s: State, t: Tid, b: Block)
    requires t in s.threads && !s.threads[t].pc.Body? && b in s.promised
    ensures b in AdvanceStep(s, t).promised
  {
    var pc := s.threads[t].pc;
    hide WaitStep, AfterWait, NotifyAll, BodyStep;
    match pc
    case ParkNotify(op) => NotifyLeaves(s, t, ParkCheck(op));
    case ReleaseNotify => NotifyLeaves(s, t, User);
    case ClearSource(source, target) => assert AdvanceStep(s, t) == ClearSourceStep(s, t, source, target);
    case Entered(op) =>
    case ParkCheck(op) =>
    case _ => WaitLeaves(s, t, pc);
  }

  lemma AdvanceEndsPromise(s: State, t: Tid, b: Block)
    requires Rooting(s) && t in s.threads && b in s.promised
    ensures
      || b in AdvanceStep(s, t).promised
      || (b.owner == t && s.threads[t].pc.Body? && BodyEndsPromise(s, s.threads[t].pc.op, b))
  {
    var pc := s.threads[t].pc;
    if pc.Body? {
      BodyEndsIt(s, t, b);
    } else {
      PromisesOutsideBody(s, t, b);
    }
  }

  lemma BodyEndsIt(s: State, t: Tid, b: Block)
    requires Rooting(s) && t in s.threads && b in s.promised && s.threads[t].pc.Body?
    ensures b in AdvanceStep(s, t).promised || (b.owner == t && BodyEndsPromise(s, s.threads[t].pc.op, b))
  {
    var pc := s.threads[t].pc;
    assert OwnRooting(s, b.owner) && PromiseKept(s, b, s.promised[b]);
    assert OwnRooting(s, t) && PendingOp(s, t, pc, pc.op);
    hide Rooting, OwnRooting;
    PromisesOfBody(s, t, pc.op, b);
  }
}
