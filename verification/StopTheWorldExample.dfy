/**
A run of the stop-the-world protocol with two threads, for any thread ids, stack addresses, block
and slot: a collector waits for a registered thread, which parks in the middle of a construction,
and goes on when the world is released.
 */
module StopTheWorldExample {
  import opened Wrappers
  import opened StopTheWorld
  import opened StopTheWorldTheorems
  import opened StopTheWorldLaws

  // A run in progress: its states and moves.
  datatype Trace = Trace(states: seq<State>, moves: seq<(Tid, Action)>)

  ghost predicate EndsIn(r: Trace, s: State) {
    Run(r.states, r.moves) && r.states != [] && r.states[|r.states| - 1] == s
  }

  // The second trace goes on from the first.
  ghost predicate Continues(r: Trace, r': Trace) {
    r.states <= r'.states && r.moves <= r'.moves
  }

  lemma ContinuesTwice(r: Trace, r1: Trace, r2: Trace)
    requires Continues(r, r1) && Continues(r1, r2)
    ensures Continues(r, r2)
  {
  }

  lemma OneStep(r: Trace, s: State, t: Tid, a: Action, s': State) returns (r': Trace)
    requires EndsIn(r, s) && Next(s, t, a, s')
    ensures EndsIn(r', s') && Continues(r, r')
  {
    hide Next, Init;
    r' := Trace(r.states + [s'], r.moves + [(t, a)]);
    forall i | 0 <= i < |r'.moves|
      ensures Next(r'.states[i], r'.moves[i].0, r'.moves[i].1, r'.states[i + 1])
    {
      if i < |r.moves| {
        assert Next(r.states[i], r.moves[i].0, r.moves[i].1, r.states[i + 1]);
      }
    }
  }

  lemma Advances(r: Trace, s: State, t: Tid, s': State) returns (r': Trace)
    requires EndsIn(r, s) && t in s.threads && CanAdvance(s, t) && s' == AdvanceStep(s, t)
    ensures EndsIn(r', s') && Continues(r, r')
  {
    hide CanAdvance, AdvanceStep, EndsIn, Continues;
    r' := OneStep(r, s, t, Advance, s');
  }

  // The state with thread t at another program point, and the mutex as given.
  function At(s: State, t: Tid, pc: Pc, mutex: Option<Tid>): State
    requires t in s.threads
  {
    s.(threads := s.threads[t := s.threads[t].(pc := pc)], mutex := mutex)
  }

  lemma AtTwice(s: State, t: Tid, pc: Pc, mutex: Option<Tid>, pc': Pc, mutex': Option<Tid>)
    requires t in s.threads
    ensures At(At(s, t, pc, mutex), t, pc', mutex') == At(s, t, pc', mutex')
  {
    assert s.threads[t := s.threads[t].(pc := pc)][t := s.threads[t].(pc := pc')] ==
           s.threads[t := s.threads[t].(pc := pc')];
  }

  lemma Steps(r: Trace, s: State, t: Tid, pc: Pc, mutex: Option<Tid>, pc': Pc, mutex': Option<Tid>)
    returns (r': Trace)
    requires t in s.threads && EndsIn(r, At(s, t, pc, mutex))
    requires CanAdvance(At(s, t, pc, mutex), t)
    requires AdvanceStep(At(s, t, pc, mutex), t) == At(At(s, t, pc, mutex), t, pc', mutex')
    ensures EndsIn(r', At(s, t, pc', mutex')) && Continues(r, r')
  {
    AtTwice(s, t, pc, mutex, pc', mutex');
    hide At, AdvanceStep, CanAdvance;
    r' := OneStep(r, At(s, t, pc, mutex), t, Advance, At(s, t, pc', mutex'));
  }

  lemma AtParts(s: State, t: Tid, pc: Pc, mutex: Option<Tid>)
    requires t in s.threads
    ensures
      var s' := At(s, t, pc, mutex);
      && s'.stopRequested == s.stopRequested && s'.collector == s.collector && s'.table == s.table
      && s'.mutex == mutex && t in s'.threads && s'.threads[t] == Thread(pc, s.threads[t].outer)
  {
  }

  // The program points that only wait for the mutex or test a condition.
  predicate IsWait(pc: Pc) {
    pc.Locking? || pc.Cooperate? || pc.BlockedCheck? || pc.Blocked? || pc.Spilling? || pc.Relocked? || pc.Parked? ||
    pc.PauseCheck? || pc.Pausing?
  }

  lemma Waited(s: State, t: Tid, pc: Pc, mutex: Option<Tid>)
    requires t in s.threads && IsWait(pc)
    ensures
      var s0 := At(s, t, pc, mutex);
      var pc' := AfterWait(s0, t, pc);
      AdvanceStep(s0, t) == At(s0, t, pc', if HoldsMutex(pc') then Some(t) else None)
  {
    var s0 := At(s, t, pc, mutex);
    hide AfterWait, NotifyAll, BodyStep, UnparkStep, ClearSourceStep, HoldsMutex;
    assert AdvanceStep(s0, t) == WaitStep(s0, t, pc);
  }

  // One step of a thread that waits or tests.
  lemma Waits(r: Trace, s: State, t: Tid, pc: Pc, mutex: Option<Tid>, pc': Pc, mutex': Option<Tid>)
    returns (r': Trace)
    requires t in s.threads && EndsIn(r, At(s, t, pc, mutex)) && IsWait(pc)
    requires CanAdvance(At(s, t, pc, mutex), t) && pc' == AfterWait(At(s, t, pc, mutex), t, pc)
    requires mutex' == if HoldsMutex(pc') then Some(t) else None
    ensures EndsIn(r', At(s, t, pc', mutex')) && Continues(r, r')
  {
    hide *;
    Waited(s, t, pc, mutex);
    r' := Steps(r, s, t, pc, mutex, pc', mutex');
  }

  lemma Begins(r: Trace, s: State, t: Tid, op: Op) returns (r': Trace)
    requires EndsIn(r, s) && t in s.threads && s.threads[t].pc == User && MayBegin(s, t, op) && s.mutex == None
    requires !op.PublishRange?
    ensures EndsIn(r', At(s, t, Locking(op), None)) && Continues(r, r')
  {
    assert BeginStep(s, t, op) == At(s, t, Locking(op), None);
    hide MayBegin, BeginStep;
    r' := OneStep(r, s, t, Begin(op), At(s, t, Locking(op), None));
  }

  // The call has the mutex and is about to cooperate.
  lemma Enters(r: Trace, s: State, t: Tid, op: Op) returns (r': Trace)
    requires t in s.threads && EndsIn(r, At(s, t, Locking(op), None)) && !op.Release? && !op.PublishRange?
    ensures EndsIn(r', At(s, t, StopTheWorld.Cooperate(op), Some(t))) && Continues(r, r')
  {
    hide *;
    AtParts(s, t, Locking(op), None);
    LockingWaits(At(s, t, Locking(op), None), t, op);
    var r1 := Waits(r, s, t, Locking(op), None, Entered(op), Some(t));
    Entering(s, t, op);
    r' := Steps(r1, s, t, Entered(op), Some(t), StopTheWorld.Cooperate(op), Some(t));
    ContinuesTwice(r, r1, r');
  }

  lemma LockingWaits(s: State, t: Tid, op: Op)
    requires t in s.threads && s.threads[t].pc == Locking(op) && s.mutex == None
    ensures IsWait(Locking(op)) && CanAdvance(s, t) && AfterWait(s, t, Locking(op)) == Entered(op)
    ensures HoldsMutex(Entered(op))
  {
  }

  lemma Entering(s: State, t: Tid, op: Op)
    requires t in s.threads && !op.Release? && !op.PublishRange?
    ensures
      var s0 := At(s, t, Entered(op), Some(t));
      CanAdvance(s0, t) && AdvanceStep(s0, t) == At(s0, t, StopTheWorld.Cooperate(op), Some(t))
  {
    hide AfterWait, WaitStep, NotifyAll, BodyStep, UnparkStep, ClearSourceStep;
  }

  // A call that nobody disturbs gets the mutex and reaches its critical section, and nothing else
  // changes on the way.
  lemma ReachesSection(r: Trace, s: State, t: Tid, op: Op) returns (r': Trace)
    requires EndsIn(r, s) && t in s.threads && s.threads[t].pc == User && MayBegin(s, t, op)
    requires s.mutex == None && !s.stopRequested && !op.Release? && !op.PublishRange?
    ensures EndsIn(r', At(s, t, Body(op), Some(t))) && Continues(r, r')
  {
    hide *;
    var r1 := Begins(r, s, t, op);
    var r2 := Enters(r1, s, t, op);
    AtParts(s, t, StopTheWorld.Cooperate(op), Some(t));
    Proceeds(At(s, t, StopTheWorld.Cooperate(op), Some(t)), t, op);
    r' := Waits(r2, s, t, StopTheWorld.Cooperate(op), Some(t), Body(op), Some(t));
    Continued(r, r1, r2, r');
  }

  lemma Proceeds(s: State, t: Tid, op: Op)
    requires t in s.threads && s.threads[t].pc == StopTheWorld.Cooperate(op) && !s.stopRequested
    ensures IsWait(StopTheWorld.Cooperate(op)) && CanAdvance(s, t)
    ensures AfterWait(s, t, StopTheWorld.Cooperate(op)) == Body(op) && HoldsMutex(Body(op))
  {
  }

  lemma Continued(r: Trace, r1: Trace, r2: Trace, r3: Trace)
    requires Continues(r, r1) && Continues(r1, r2) && Continues(r2, r3)
    ensures Continues(r, r3)
  {
  }

  // The program points of both threads; the first one is inside no stop of its own.
  function Two(u: Tid, pc: Pc, c: Tid, thread: Thread): map<Tid, Thread> {
    map[u := Thread(pc, false), c := thread]
  }

  // The critical section itself.
  lemma LeavesSection(r: Trace, s: State, t: Tid, op: Op, s': State) returns (r': Trace)
    requires t in s.threads && EndsIn(r, At(s, t, Body(op), Some(t)))
    requires s' == BodyStep(At(s, t, Body(op), Some(t)), t, op)
    ensures EndsIn(r', s') && Continues(r, r')
  {
    hide BodyStep;
    r' := OneStep(r, At(s, t, Body(op), Some(t)), t, Advance, s');
  }

  // --- The parts of the run ---

  lemma Registers(r: Trace, s: State, t: Tid, b: nat) returns (r': Trace)
    requires EndsIn(r, s) && t in s.threads && s.threads[t].pc == User && s.mutex == None && !s.stopRequested
    requires t !in s.table && b != 0
    ensures EndsIn(r', s.(table := s.table[t := ThreadState(b, 0, false)])) && Continues(r, r')
  {
    var r1 := ReachesSection(r, s, t, RegisterThread(b));
    var s' := s.(table := s.table[t := ThreadState(b, 0, false)]);
    assert s'.threads == At(s, t, Body(RegisterThread(b)), Some(t)).threads[t := s.threads[t]];
    r' := LeavesSection(r1, s, t, RegisterThread(b), s');
  }

  lemma Allocates(r: Trace, s: State, t: Tid, b: Block) returns (r': Trace)
    requires EndsIn(r, s) && t in s.threads && s.threads[t].pc == User && s.mutex == None && !s.stopRequested
    requires t in s.table && b.owner == t && b !in s.allocations
    ensures EndsIn(r', s.(allocations := s.allocations + {b}, constructing := s.constructing + {b},
                          promised := s.promised[b := Pin])) && Continues(r, r')
  {
    var r1 := ReachesSection(r, s, t, Allocate(b));
    var s' := s.(allocations := s.allocations + {b}, constructing := s.constructing + {b},
                 promised := s.promised[b := Pin]);
    assert s'.threads == At(s, t, Body(Allocate(b)), Some(t)).threads[t := s.threads[t]];
    r' := LeavesSection(r1, s, t, Allocate(b), s');
  }

  // The flags of a stop by c.
  function Stopped(s: State, c: Tid): State {
    s.(collecting := true, collector := Some(c), stopRequested := true)
  }

  // The collector raises the flags, finds that somebody runs, and sleeps.
  lemma WaitsForOthers(r: Trace, s: State, c: Tid, u: Tid) returns (r': Trace)
    requires EndsIn(r, s) && c in s.threads && s.threads[c].pc == User && s.mutex == None
    requires !s.stopRequested && !s.collecting && c in s.table && u in s.table && u != c && !s.table[u].paused
    ensures EndsIn(r', At(Stopped(s, c), c, Pausing(Collect, true), None)) && Continues(r, r')
  {
    var r1 := ReachesSection(r, s, c, Collect);
    var s1 := At(Stopped(s, c), c, PauseCheck(Collect), Some(c));
    var s0 := At(s, c, Body(Collect), Some(c));
    assert BodyStep(s0, c, Collect) == s1 by {
      assert s1.threads == s0.threads[c := Thread(PauseCheck(Collect), s.threads[c].outer)];
    }
    var r2 := LeavesSection(r1, s, c, Collect, s1);
    assert !AllPaused(s1, c);
    r' := Steps(r2, Stopped(s, c), c, PauseCheck(Collect), Some(c), Pausing(Collect, true), None);
  }

  // A registered thread that calls in spills its registers and locks again.
  lemma SpillsForStop(r: Trace, s: State, u: Tid, op: Op) returns (r': Trace)
    requires EndsIn(r, s) && u in s.threads && s.threads[u].pc == User && MayBegin(s, u, op)
    requires s.mutex == None && s.stopRequested && s.collector != Some(u) && u in s.table
    requires !op.Release? && !op.PublishRange?
    ensures EndsIn(r', At(s, u, Relocked(op), Some(u))) && Continues(r, r')
  {
    hide *;
    var r1 := Begins(r, s, u, op);
    var r2 := Enters(r1, s, u, op);
    AtParts(s, u, StopTheWorld.Cooperate(op), Some(u));
    Spills(At(s, u, StopTheWorld.Cooperate(op), Some(u)), u, op);
    var r3 := Waits(r2, s, u, StopTheWorld.Cooperate(op), Some(u), Spilling(op), None);
    AtParts(s, u, Spilling(op), None);
    Relocks(At(s, u, Spilling(op), None), u, op);
    r' := Waits(r3, s, u, Spilling(op), None, Relocked(op), Some(u));
    Continued(r, r1, r2, r3);
    ContinuesTwice(r, r3, r');
  }

  lemma Spills(s: State, u: Tid, op: Op)
    requires u in s.threads && s.threads[u].pc == StopTheWorld.Cooperate(op) && s.stopRequested
    requires s.collector != Some(u) && u in s.table
    ensures IsWait(StopTheWorld.Cooperate(op)) && CanAdvance(s, u)
    ensures AfterWait(s, u, StopTheWorld.Cooperate(op)) == Spilling(op) && !HoldsMutex(Spilling(op))
  {
  }

  lemma Relocks(s: State, u: Tid, op: Op)
    requires u in s.threads && s.threads[u].pc == Spilling(op) && s.mutex == None
    ensures IsWait(Spilling(op)) && CanAdvance(s, u)
    ensures AfterWait(s, u, Spilling(op)) == Relocked(op) && HoldsMutex(Relocked(op))
  {
  }

  // It publishes its stack, wakes the collector, and sleeps.
  lemma Parks(r: Trace, s: State, u: Tid, c: Tid, op: Op, marker: nat) returns (r': Trace)
    requires u != c && s.threads == Two(u, User, c, Thread(Pausing(Collect, true), false))
    requires EndsIn(r, At(s, u, Relocked(op), Some(u))) && marker != 0
    requires s.stopRequested && s.collector != Some(u) && u in s.table
    ensures EndsIn(r', s.(threads := Two(u, Parked(op, true), c, Thread(Pausing(Collect, false), false)),
                          mutex := None,
                          table := s.table[u := s.table[u].(stackTop := marker, paused := true)]))
    ensures Continues(r, r')
  {
    var s1 := s.(table := s.table[u := s.table[u].(stackTop := marker, paused := true)]);
    var s0, s2 := At(s, u, Relocked(op), Some(u)), At(s1, u, ParkNotify(op), Some(u));
    assert s2.threads == s0.threads[u := Thread(ParkNotify(op), false)];
    var r1 := OneStep(r, s0, u, Park(marker), s2);
    r' := NotifiesAndSleeps(r1, s1, u, c, op);
  }

  lemma NotifiesAndSleeps(r: Trace, s: State, u: Tid, c: Tid, op: Op) returns (r': Trace)
    requires u != c && s.threads == Two(u, User, c, Thread(Pausing(Collect, true), false)) && s.stopRequested
    requires EndsIn(r, At(s, u, ParkNotify(op), Some(u)))
    ensures EndsIn(r', s.(threads := Two(u, Parked(op, true), c, Thread(Pausing(Collect, false), false)),
                          mutex := None))
    ensures Continues(r, r')
  {
    var s0 := At(s, u, ParkNotify(op), Some(u));
    var s1 := s.(threads := Two(u, User, c, Thread(Pausing(Collect, false), false)));
    var s2 := At(s1, u, ParkCheck(op), Some(u));
    Notified(s, u, c, op);
    var r1 := OneStep(r, s0, u, Advance, s2);
    Sleeps(s1, u, c, op);
    r' := Steps(r1, s1, u, ParkCheck(op), Some(u), Parked(op, true), None);
  }

  lemma Notified(s: State, u: Tid, c: Tid, op: Op)
    requires u != c && s.threads == Two(u, User, c, Thread(Pausing(Collect, true), false))
    ensures
      var s1 := s.(threads := Two(u, User, c, Thread(Pausing(Collect, false), false)));
      var s0 := At(s, u, ParkNotify(op), Some(u));
      CanAdvance(s0, u) && AdvanceStep(s0, u) == At(s1, u, ParkCheck(op), Some(u))
  {
    var s0 := At(s, u, ParkNotify(op), Some(u));
    NotifyIs(s0, u);
    hide AdvanceStep, NotifyAll;
    WokenTwo(s, u, c, op);
  }

  lemma WokenTwo(s: State, u: Tid, c: Tid, op: Op)
    requires u != c && s.threads == Two(u, User, c, Thread(Pausing(Collect, true), false))
    ensures
      var s1 := s.(threads := Two(u, User, c, Thread(Pausing(Collect, false), false)));
      var s0 := At(s, u, ParkNotify(op), Some(u));
      Goto(NotifyAll(s0), u, ParkCheck(op)) == At(s1, u, ParkCheck(op), Some(u))
  {
    var asleep, awake := Thread(Pausing(Collect, true), false), Thread(Pausing(Collect, false), false);
    var s0 := At(s, u, ParkNotify(op), Some(u));
    AtTwo(s, u, User, c, asleep, ParkNotify(op), Some(u));
    TwoNotified(s0, u, c, ParkNotify(op), asleep);
    var s1 := s.(threads := Two(u, User, c, awake));
    AtTwo(s1, u, User, c, awake, ParkCheck(op), Some(u));
    AtTwo(NotifyAll(s0), u, ParkNotify(op), c, awake, ParkCheck(op), Some(u));
    hide NotifyAll, At, Two;
  }

  lemma AtTwo(s: State, u: Tid, pc: Pc, c: Tid, thread: Thread, pc': Pc, mutex: Option<Tid>)
    requires u != c && s.threads == Two(u, pc, c, thread)
    ensures u in s.threads && At(s, u, pc', mutex) == s.(threads := Two(u, pc', c, thread), mutex := mutex)
    ensures Goto(s, u, pc') == s.(threads := Two(u, pc', c, thread))
  {
    assert s.threads[u := Thread(pc', false)] == Two(u, pc', c, thread);
  }

  // A notification wakes both.
  lemma TwoNotified(s: State, u: Tid, c: Tid, pc: Pc, thread: Thread)
    requires u != c && s.threads == Two(u, pc, c, thread)
    ensures NotifyAll(s) == s.(threads := Two(u, Awaken(pc), c, Thread(Awaken(thread.pc), thread.outer)))
  {
    hide Awaken;
    assert NotifyAll(s).threads == Two(u, Awaken(pc), c, Thread(Awaken(thread.pc), thread.outer));
  }

  lemma Sleeps(s: State, u: Tid, c: Tid, op: Op)
    requires u != c && s.threads == Two(u, User, c, Thread(Pausing(Collect, false), false)) && s.stopRequested
    ensures
      var s0, s1 := At(s, u, ParkCheck(op), Some(u)), At(s, u, Parked(op, true), None);
      && CanAdvance(s0, u) && AdvanceStep(s0, u) == At(s0, u, Parked(op, true), None)
      && s1 == s.(threads := Two(u, Parked(op, true), c, Thread(Pausing(Collect, false), false)), mutex := None)
  {
    var s1 := At(s, u, Parked(op, true), None);
    assert s1.threads == Two(u, Parked(op, true), c, Thread(Pausing(Collect, false), false));
  }

  // The collector wakes, finds everybody parked, and has the world to itself.
  lemma HasTheWorld(r: Trace, s: State, c: Tid) returns (r': Trace)
    requires c in s.threads && EndsIn(r, s) && s.threads[c].pc == Pausing(Collect, false) && s.mutex == None
    requires AllPaused(s, c)
    ensures EndsIn(r', At(s, c, World(Collect), Some(c))) && Continues(r, r')
  {
    assert At(s, c, Pausing(Collect, false), None) == s by {
      assert s.threads[c := s.threads[c].(pc := Pausing(Collect, false))] == s.threads;
    }
    var r1 := Steps(r, s, c, Pausing(Collect, false), None, PauseCheck(Collect), Some(c));
    assert AllPaused(At(s, c, PauseCheck(Collect), Some(c)), c);
    r' := Steps(r1, s, c, PauseCheck(Collect), Some(c), World(Collect), Some(c));
  }

  // It keeps what is pinned, runs its finalizers outside the critical section, and releases.
  lemma CollectsAndReleases(r: Trace, s: State, u: Tid, c: Tid, op: Op, kept: set<Block>) returns (r': Trace)
    requires u != c && s.threads == Two(u, Parked(op, true), c, Thread(Pausing(Collect, false), false))
    requires EndsIn(r, At(s, c, World(Collect), Some(c))) && s.collector == Some(c)
    requires KeepsRoots(s, kept)
    ensures EndsIn(r', s.(threads := Two(u, Parked(op, false), c, Thread(User, false)), mutex := None,
                          collecting := false, collector := None, stopRequested := false,
                          allocations := kept, weak := {}))
    ensures Continues(r, r')
  {
    var s1 := s.(threads := Two(u, Parked(op, true), c, Thread(User, true)), mutex := None,
                 allocations := kept, weak := {});
    var r1 := EndsCollection(r, s, u, c, op, kept, s1);
    assert s1.threads[c] == Thread(User, true) && s1.mutex == None;
    hide *;
    UserMayRelease(s1, c);
    var r2 := Begins(r1, s1, c, Release);
    AtParts(s1, c, Locking(Release), None);
    LockingWaits(At(s1, c, Locking(Release), None), c, Release);
    var r3 := Waits(r2, s1, c, Locking(Release), None, Entered(Release), Some(c));
    r' := Releases(r3, s1, u, c, op);
    Continued(r, r1, r2, r3);
    ContinuesTwice(r, r3, r');
  }

  lemma EndsCollection(r: Trace, s: State, u: Tid, c: Tid, op: Op, kept: set<Block>, s1: State) returns (r': Trace)
    requires u != c && s.threads == Two(u, Parked(op, true), c, Thread(Pausing(Collect, false), false))
    requires EndsIn(r, At(s, c, World(Collect), Some(c))) && KeepsRoots(s, kept)
    requires s1 == s.(threads := Two(u, Parked(op, true), c, Thread(User, true)), mutex := None,
                      allocations := kept, weak := {})
    ensures EndsIn(r', s1) && Continues(r, r')
  {
    var s0 := At(s, c, World(Collect), Some(c));
    assert KeepsRoots(s0, kept) by {
      forall b | HeldInRange(s0, b)
        ensures HeldInRange(s, b)
      {
      }
    }
    assert s1.threads == s0.threads[c := Thread(User, true)];
    hide EndsIn, Continues, KeepsRoots;
    r' := OneStep(r, s0, c, FinishWorld(kept, {}), s1);
  }

  lemma UserMayRelease(s: State, c: Tid)
    requires c in s.threads && s.threads[c] == Thread(User, true)
    ensures s.threads[c].pc == User && MayBegin(s, c, Release)
  {
  }

  lemma Releases(r: Trace, s: State, u: Tid, c: Tid, op: Op) returns (r': Trace)
    requires u != c && s.threads == Two(u, Parked(op, true), c, Thread(User, true))
    requires EndsIn(r, At(s, c, Entered(Release), Some(c)))
    ensures EndsIn(r', s.(threads := Two(u, Parked(op, false), c, Thread(User, false)), mutex := None,
                          collecting := false, collector := None, stopRequested := false))
    ensures Continues(r, r')
  {
    var s0 := At(s, c, Entered(Release), Some(c));
    var s1 := s.(threads := Two(u, Parked(op, true), c, Thread(ReleaseNotify, false)),
                 mutex := Some(c), collecting := false, collector := None, stopRequested := false);
    EnteredIs(s0, c);
    assert Lowered(s0, c) == s1 by {
      assert s1.threads == s0.threads[c := Thread(ReleaseNotify, false)];
    }
    assert c in s1.threads && CanAdvance(s0, c);
    hide *;
    var r1 := Advances(r, s0, c, s1);
    FreedTwo(s1, u, c, op);
    r' := Advances(r1, s1, c, s1.(threads := Two(u, Parked(op, false), c, Thread(User, false)), mutex := None));
    ContinuesTwice(r, r1, r');
  }

  lemma FreedTwo(s: State, u: Tid, c: Tid, op: Op)
    requires u != c && s.threads == Two(u, Parked(op, true), c, Thread(ReleaseNotify, false))
    ensures CanAdvance(s, c)
    ensures AdvanceStep(s, c) == s.(threads := Two(u, Parked(op, false), c, Thread(User, false)), mutex := None)
  {
    NotifyIs(s, c);
    TwoNotified(s, u, c, Parked(op, true), Thread(ReleaseNotify, false));
    hide AdvanceStep, NotifyAll;
    assert NotifyAll(s).threads[c := Thread(User, false)] == Two(u, Parked(op, false), c, Thread(User, false));
  }

  // The parked thread wakes, clears its record, and finishes its call: the block is a root object's
  // now, and the object is published.
  lemma GoesOn(r: Trace, s: State, u: Tid, b: Block, slot: Slot) returns (r': Trace)
    requires u in s.threads && s.threads[u] == Thread(Parked(FinishConstruction(b, Some(slot)), false), false)
    requires EndsIn(r, s) && s.mutex == None && !s.stopRequested && u in s.table
    ensures EndsIn(r', s.(threads := s.threads[u := Thread(User, false)],
                          table := s.table[u := s.table[u].(paused := false, stackTop := 0)],
                          constructing := s.constructing - {b}, ranges := s.ranges + [slot],
                          contents := s.contents[slot := b], promised := s.promised[b := InSlot(slot)]))
    ensures Continues(r, r')
  {
    var op := FinishConstruction(b, Some(slot));
    var s2 := s.(table := s.table[u := s.table[u].(paused := false, stackTop := 0)]);
    var s4 := s2.(constructing := s.constructing - {b}, contents := s.contents[slot := b],
                  promised := s.promised[b := InSlot(slot)]);
    assert s4.threads == s.threads && s4.ranges == s.ranges && !s4.stopRequested && s4.mutex == None;
    hide *;
    var r1 := Unparks(r, s, u, op);
    FinishesInRoot(s2, u, b, slot);
    var r2 := LeavesSection(r1, s2, u, op, At(s4, u, Locking(PublishRange(slot, None)), None));
    r' := Publishes(r2, s4, u, slot);
    Continued(r, r1, r2, r');
  }

  lemma Unparks(r: Trace, s: State, u: Tid, op: Op) returns (r': Trace)
    requires u in s.threads && s.threads[u] == Thread(Parked(op, false), false)
    requires EndsIn(r, s) && s.mutex == None && !s.stopRequested && u in s.table
    ensures
      var s2 := s.(table := s.table[u := s.table[u].(paused := false, stackTop := 0)]);
      EndsIn(r', At(s2, u, Body(op), Some(u))) && Continues(r, r')
  {
    var s2 := s.(table := s.table[u := s.table[u].(paused := false, stackTop := 0)]);
    assert u in s2.threads;
    hide *;
    Unmoved(s, u, Parked(op, false));
    Wakes(s, u, op);
    var r1 := Waits(r, s, u, Parked(op, false), None, ParkCheck(op), Some(u));
    Unparked(s, u, op);
    r' := Advances(r1, At(s, u, ParkCheck(op), Some(u)), u, At(s2, u, Body(op), Some(u)));
    ContinuesTwice(r, r1, r');
  }

  lemma Unmoved(s: State, u: Tid, pc: Pc)
    requires u in s.threads && s.threads[u].pc == pc && s.mutex == None
    ensures At(s, u, pc, None) == s
  {
    assert s.threads[u := s.threads[u].(pc := pc)] == s.threads;
  }

  lemma Wakes(s: State, u: Tid, op: Op)
    requires u in s.threads && s.threads[u].pc == Parked(op, false) && s.mutex == None
    ensures IsWait(Parked(op, false)) && CanAdvance(s, u)
    ensures AfterWait(s, u, Parked(op, false)) == ParkCheck(op) && HoldsMutex(ParkCheck(op))
  {
  }

  lemma Unparked(s: State, u: Tid, op: Op)
    requires u in s.threads && u in s.table && !s.stopRequested && !s.threads[u].outer
    ensures
      var s0 := At(s, u, ParkCheck(op), Some(u));
      var s2 := s.(table := s.table[u := s.table[u].(paused := false, stackTop := 0)]);
      u in s0.threads && CanAdvance(s0, u) && AdvanceStep(s0, u) == At(s2, u, Body(op), Some(u))
  {
    var s0 := At(s, u, ParkCheck(op), Some(u));
    ParkCheckIs(s0, u);
    hide AdvanceStep;
    assert s.threads[u := Thread(Body(op), false)] == s0.threads[u := Thread(Body(op), false)];
  }

  lemma FinishesInRoot(s: State, u: Tid, b: Block, slot: Slot)
    requires u in s.threads && !s.threads[u].outer
    ensures
      var op := FinishConstruction(b, Some(slot));
      var s4 := s.(constructing := s.constructing - {b}, contents := s.contents[slot := b],
                   promised := s.promised[b := InSlot(slot)]);
      BodyStep(At(s, u, Body(op), Some(u)), u, op) == At(s4, u, Locking(PublishRange(slot, None)), None)
  {
    var op := FinishConstruction(b, Some(slot));
    var s3 := At(s, u, Body(op), Some(u));
    assert BodyStep(s3, u, op) == FinishConstructionStep(s3, u, b, Some(slot));
    hide BodyStep;
    assert s.threads[u := Thread(Locking(PublishRange(slot, None)), false)] ==
           s3.threads[u := Thread(Locking(PublishRange(slot, None)), false)];
  }

  lemma Publishes(r: Trace, s: State, u: Tid, slot: Slot) returns (r': Trace)
    requires u in s.threads && !s.threads[u].outer && EndsIn(r, At(s, u, Locking(PublishRange(slot, None)), None))
    requires !s.stopRequested && s.mutex == None
    ensures EndsIn(r', s.(threads := s.threads[u := Thread(User, false)], ranges := s.ranges + [slot]))
    ensures Continues(r, r')
  {
    var op := PublishRange(slot, None);
    var s1 := s.(ranges := s.ranges + [slot]);
    assert s1.threads == s.threads && !s1.stopRequested;
    hide *;
    AtParts(s, u, Locking(op), None);
    LockingWaits(At(s, u, Locking(op), None), u, op);
    var r1 := Waits(r, s, u, Locking(op), None, Entered(op), Some(u));
    PublishEnters(s, u, slot);
    var r2 := Advances(r1, At(s, u, Entered(op), Some(u)), u, At(s1, u, StopTheWorld.Cooperate(op), Some(u)));
    AtParts(s1, u, StopTheWorld.Cooperate(op), Some(u));
    Proceeds(At(s1, u, StopTheWorld.Cooperate(op), Some(u)), u, op);
    var r3 := Waits(r2, s1, u, StopTheWorld.Cooperate(op), Some(u), Body(op), Some(u));
    PublishReturns(s1, u, slot);
    r' := LeavesSection(r3, s1, u, op, s1.(threads := s.threads[u := Thread(User, false)]));
    Continued(r, r1, r2, r3);
    ContinuesTwice(r, r3, r');
  }

  lemma PublishEnters(s: State, u: Tid, slot: Slot)
    requires u in s.threads
    ensures
      var op, s1 := PublishRange(slot, None), s.(ranges := s.ranges + [slot]);
      var s0 := At(s, u, Entered(op), Some(u));
      u in s0.threads && CanAdvance(s0, u) && AdvanceStep(s0, u) == At(s1, u, StopTheWorld.Cooperate(op), Some(u))
  {
    var op := PublishRange(slot, None);
    var s0 := At(s, u, Entered(op), Some(u));
    EnteredIs(s0, u);
    hide AdvanceStep;
    assert s.threads[u := s.threads[u].(pc := StopTheWorld.Cooperate(op))] ==
           s0.threads[u := Thread(StopTheWorld.Cooperate(op), s.threads[u].outer)];
  }

  lemma PublishReturns(s: State, u: Tid, slot: Slot)
    requires u in s.threads && !s.threads[u].outer && s.mutex == None
    ensures
      var op := PublishRange(slot, None);
      BodyStep(At(s, u, Body(op), Some(u)), u, op) == s.(threads := s.threads[u := Thread(User, false)])
  {
    var s0 := At(s, u, Body(PublishRange(slot, None)), Some(u));
    assert s.threads[u := Thread(User, false)] == s0.threads[u := Thread(User, false)];
    hide StopStep, UnregisterRangeStep, AllocateStep, FinishConstructionStep, ReleaseUnconstructedStep;
  }

  // --- The run ---

  // Threads u and c, the stack addresses they register, the address u parks at, and the block and
  // the root object that u makes.
  datatype Cast = Cast(u: Tid, c: Tid, bottomU: nat, bottomC: nat, marker: nat, block: Block, slot: Slot)

  predicate Plays(p: Cast, s: State) {
    && p.u != p.c && s.threads == Two(p.u, User, p.c, Thread(User, false))
    && p.bottomU != 0 && p.bottomC != 0 && p.marker != 0 && p.block.owner == p.u && p.slot.owner == p.u
  }

  // Both threads are registered, and u constructs a block.
  function Prepared(s: State, p: Cast): State {
    s.(table := map[p.u := ThreadState(p.bottomU, 0, false), p.c := ThreadState(p.bottomC, 0, false)],
       allocations := {p.block}, constructing := {p.block}, promised := map[p.block := Pin])
  }

  lemma Prepare(s: State, p: Cast) returns (r: Trace)
    requires Init(s) && Plays(p, s)
    ensures EndsIn(r, Prepared(s, p)) && r.states[0] == s
  {
    var r0 := Trace([s], []);
    var r1 := Registers(r0, s, p.u, p.bottomU);
    var s1 := s.(table := s.table[p.u := ThreadState(p.bottomU, 0, false)]);
    var r2 := Registers(r1, s1, p.c, p.bottomC);
    var s2 := s1.(table := s1.table[p.c := ThreadState(p.bottomC, 0, false)]);
    r := Allocates(r2, s2, p.u, p.block);
    assert s2.table == Prepared(s, p).table;
    assert s.allocations + {p.block} == {p.block} && s.constructing + {p.block} == {p.block};
    assert r0.states[0] == r1.states[0] == r2.states[0] == r.states[0];
  }

  // The collector c sleeps because u runs.
  function Waiting(s: State, p: Cast): State {
    Stopped(Prepared(s, p), p.c).(threads := Two(p.u, User, p.c, Thread(Pausing(Collect, true), false)))
  }

  lemma Wait(r: Trace, s: State, p: Cast) returns (r': Trace)
    requires Init(s) && Plays(p, s) && EndsIn(r, Prepared(s, p))
    ensures EndsIn(r', Waiting(s, p)) && Continues(r, r') && Unpaused(Waiting(s, p)) == {p.u}
  {
    r' := WaitsForOthers(r, Prepared(s, p), p.c, p.u);
    assert At(Stopped(Prepared(s, p), p.c), p.c, Pausing(Collect, true), None).threads == Waiting(s, p).threads;
    assert Unpaused(Waiting(s, p)) == {p.u};
  }

  function Call(p: Cast): Op {
    FinishConstruction(p.block, Some(p.slot))
  }

  // Both threads are where the stop lets nobody run but c.
  function AllParked(s: State, p: Cast): State {
    var s1 := Waiting(s, p);
    s1.(threads := Two(p.u, Parked(Call(p), true), p.c, Thread(Pausing(Collect, false), false)),
        table := s1.table[p.u := ThreadState(p.bottomU, p.marker, true)])
  }

  lemma ParkThere(r: Trace, s: State, p: Cast) returns (r': Trace)
    requires Init(s) && Plays(p, s) && EndsIn(r, Waiting(s, p))
    ensures EndsIn(r', AllParked(s, p)) && Continues(r, r')
  {
    var s1 := Waiting(s, p);
    assert Unpromised(s1, p.slot);
    var r1 := SpillsForStop(r, s1, p.u, Call(p));
    r' := Parks(r1, s1, p.u, p.c, Call(p), p.marker);
  }

  // The world belongs to c.
  function InWorld(s: State, p: Cast): State {
    AllParked(s, p).(threads := Two(p.u, Parked(Call(p), true), p.c, Thread(World(Collect), false)), mutex := Some(p.c))
  }

  lemma TakeWorld(r: Trace, s: State, p: Cast) returns (r': Trace)
    requires Init(s) && Plays(p, s) && EndsIn(r, AllParked(s, p))
    ensures EndsIn(r', InWorld(s, p)) && Continues(r, r')
  {
    var s1 := AllParked(s, p);
    assert AllPaused(s1, p.c);
    r' := HasTheWorld(r, s1, p.c);
    assert At(s1, p.c, World(Collect), Some(p.c)).threads == InWorld(s, p).threads;
  }

  // Everybody is back in user code; the block survived the collection, and a published root object
  // holds it.
  function Finished(s: State, p: Cast): State {
    Prepared(s, p).(constructing := {}, ranges := [p.slot], contents := map[p.slot := p.block],
                    promised := map[p.block := InSlot(p.slot)])
  }

  lemma Finish(r: Trace, s: State, p: Cast) returns (r': Trace)
    requires Init(s) && Plays(p, s) && EndsIn(r, InWorld(s, p))
    ensures EndsIn(r', Finished(s, p)) && Continues(r, r')
  {
    var s1 := AllParked(s, p);
    assert At(s1, p.c, World(Collect), Some(p.c)) == InWorld(s, p) by {
      assert At(s1, p.c, World(Collect), Some(p.c)).threads == InWorld(s, p).threads;
    }
    var r1 := CollectsAndReleases(r, s1, p.u, p.c, Call(p), {p.block});
    var s2 := s1.(threads := Two(p.u, Parked(Call(p), false), p.c, Thread(User, false)), mutex := None,
                  collecting := false, collector := None, stopRequested := false,
                  allocations := {p.block}, weak := {});
    r' := GoesOn(r1, s2, p.u, p.block, p.slot);
    FinishedIs(s, s2, p);
  }

  lemma FinishedIs(s: State, s2: State, p: Cast)
    requires Init(s) && Plays(p, s)
    requires s2 == AllParked(s, p).(threads := Two(p.u, Parked(Call(p), false), p.c, Thread(User, false)),
                                    mutex := None, collecting := false, collector := None, stopRequested := false,
                                    allocations := {p.block}, weak := {})
    ensures Finished(s, p) ==
              s2.(threads := s2.threads[p.u := Thread(User, false)],
                  table := s2.table[p.u := s2.table[p.u].(paused := false, stackTop := 0)],
                  constructing := s2.constructing - {p.block}, ranges := s2.ranges + [p.slot],
                  contents := s2.contents[p.slot := p.block], promised := s2.promised[p.block := InSlot(p.slot)])
  {
    assert s2.threads[p.u := Thread(User, false)] == Finished(s, p).threads;
    assert s2.table[p.u := s2.table[p.u].(paused := false, stackTop := 0)] == Finished(s, p).table;
    assert s2.promised[p.block := InSlot(p.slot)] == Finished(s, p).promised;
    assert s2.constructing - {p.block} == {};
  }

  // From any first state with two threads there is a run in which c stops the world while u is in
  // user code: c waits for u and for nobody else; u parks in the middle of gc_root(gc_new(...)) and
  // publishes its stack; then c has the world, collects, and keeps the pinned block; in the end u
  // has published a root object that holds it.
  lemma WaitedForAndParks(s: State, p: Cast) returns (r: Trace, waiting: nat, stopped: nat)
    requires Init(s) && Plays(p, s)
    ensures Run(r.states, r.moves) && r.states[0] == s && waiting < stopped < |r.states|
    ensures
      var w := r.states[waiting];
      && w.threads == map[p.u := Thread(User, false), p.c := Thread(Pausing(Collect, true), false)]
      && w.collector == Some(p.c) && Unpaused(w) == {p.u} && w.constructing == {p.block}
    ensures
      var w := r.states[stopped];
      && w.threads == map[p.u := Thread(Parked(FinishConstruction(p.block, Some(p.slot)), true), false),
                          p.c := Thread(World(Collect), false)]
      && w.table == map[p.u := ThreadState(p.bottomU, p.marker, true), p.c := ThreadState(p.bottomC, 0, false)]
    ensures
      var w := r.states[|r.states| - 1];
      && w.threads == map[p.u := Thread(User, false), p.c := Thread(User, false)] && w.mutex == None
      && w.collector == None && w.allocations == {p.block} && w.constructing == {}
      && w.ranges == [p.slot] && w.contents == map[p.slot := p.block] && w.promised == map[p.block := InSlot(p.slot)]
      && w.table == map[p.u := ThreadState(p.bottomU, 0, false), p.c := ThreadState(p.bottomC, 0, false)]
  {
    var r1 := Prepare(s, p);
    var r2 := Wait(r1, s, p);
    var r3 := ParkThere(r2, s, p);
    var r4 := TakeWorld(r3, s, p);
    r := Finish(r4, s, p);
    waiting, stopped := |r2.states| - 1, |r4.states| - 1;
    Milestones(s, p, r1, r2, r3, r4, r);
  }

  lemma Milestones(s: State, p: Cast, r1: Trace, r2: Trace, r3: Trace, r4: Trace, r: Trace)
    requires Continues(r1, r2) && Continues(r2, r3) && Continues(r3, r4) && Continues(r4, r)
    requires EndsIn(r1, Prepared(s, p)) && EndsIn(r2, Waiting(s, p)) && EndsIn(r3, AllParked(s, p))
    requires EndsIn(r4, InWorld(s, p)) && EndsIn(r, Finished(s, p)) && Plays(p, s)
    ensures r.states[0] == r1.states[0] && |r2.states| < |r4.states| < |r.states|
    ensures r.states[|r2.states| - 1] == Waiting(s, p) && r.states[|r4.states| - 1] == InWorld(s, p)
  {
    hide Run;
    assert Waiting(s, p).threads[p.c].pc != InWorld(s, p).threads[p.c].pc;
    assert InWorld(s, p).threads[p.c].pc != Finished(s, p).threads[p.c].pc;
  }
}
