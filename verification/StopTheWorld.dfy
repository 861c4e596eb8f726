/**
The stop-the-world protocol as an interleaving of threads.

Every lock acquisition, the unlock/relock around the register spill, every check
of a condition-variable predicate, every sleep and every wake-up is a step of its
own, so a run may switch threads between any two of them.  A finalizer runs with
the mutex free (`outer` is set and the thread is back in user code), and may call
the manager again.
Line numbers in comments are those of src/GCManager.cpp.
 */
module StopTheWorld {
  import opened Wrappers

  type Tid = nat

  // Blocks and the storage of gc_root objects each belong to one thread.
  datatype Block = Block(owner: Tid, id: nat)
  datatype Slot = Slot(owner: Tid, id: nat)

  // One entry of threads_.
  datatype ThreadState = ThreadState(stackBottom: nat, stackTop: nat, paused: bool)

  // A call that enters a critical section of the manager.
  datatype Op =
    | Safepoint                                    // also every query without effect
    | RegisterThread(stackBottom: nat)
    | UnregisterThread
    | PublishRange(slot: Slot, from: Option<Slot>) // gc_root construction; `from` for a move
    | UnregisterRange(oldSlot: Slot)
    | Allocate(block: Block)
    | FinishConstruction(done: Block, root: Option<Slot>) // gc_new, then possibly gc_root around it
    | ReleaseUnconstructed(failed: Block)
    | UpdateWeak(entries: set<nat>)
    | Collect
    | Shutdown
    | Snapshot                                     // live_objects, object_info
    | Release                                      // release_stop_the_world

  // Where a thread is.  `asleep` tells a sleeper from a woken waiter that still
  // has to win the mutex.
  datatype Pc =
    | User
    | Locking(op: Op)
    | Entered(op: Op)
    | Cooperate(op: Op)
    | BlockedCheck(op: Op)
    | Blocked(op: Op, asleep: bool)
    | Spilling(op: Op)
    | Relocked(op: Op)
    | ParkNotify(op: Op)
    | ParkCheck(op: Op)
    | Parked(op: Op, asleep: bool)
    | Body(op: Op)
    | PauseCheck(op: Op)
    | Pausing(op: Op, asleep: bool)
    | World(op: Op)
    | ReleaseNotify
    | ClearSource(source: Slot, target: Slot)

  // `outer`: this thread stopped the world and has left the critical section, but
  // has not released the other threads yet.
  datatype Thread = Thread(pc: Pc, outer: bool)

  // Where the one promise about a block is kept: pinned as constructing, or
  // stored in the root object at `slot`.
  datatype Home = Pin | InSlot(slot: Slot)

  datatype State = State(
    threads: map<Tid, Thread>,
    mutex: Option<Tid>,
    collecting: bool,
    collector: Option<Tid>,
    stopRequested: bool,
    table: map<Tid, ThreadState>,
    allocations: set<Block>,
    constructing: set<Block>,
    weak: set<nat>,
    ranges: seq<Slot>,
    contents: map<Slot, Block>,
    promised: map<Block, Home>)

  // One step of one thread.  Parameters are the choices the step is free to make.
  datatype Action =
    | Begin(call: Op)
    | Advance                                      // the next step inside the manager
    | Park(marker: nat)                            // Advance at 683-699; marker is &stack_marker
    | SpuriousWake
    | FinishWorld(kept: set<Block>, keptWeak: set<nat>)
    | AssignRoot(slot: Slot, content: Option<Block>)

  // --- Reading a state ---

  predicate HoldsMutex(pc: Pc) {
    pc.Entered? || pc.Cooperate? || pc.BlockedCheck? || pc.Relocked? || pc.ParkNotify? || pc.ParkCheck? ||
    pc.Body? || pc.PauseCheck? || pc.World? || pc.ReleaseNotify?
  }

  // The thread has published its stack and has not yet cleared its paused flag.
  predicate AtPark(pc: Pc) {
    pc.ParkNotify? || pc.ParkCheck? || pc.Parked?
  }

  // Inside cooperate_with_stop_the_world_locked, past its first test.
  predicate Cooperating(pc: Pc) {
    AtPark(pc) || pc.BlockedCheck? || pc.Blocked? || pc.Spilling? || pc.Relocked?
  }

  predicate Stopping(pc: Pc) {
    pc.PauseCheck? || pc.Pausing? || pc.World?
  }

  predicate MayProceed(s: State, t: Tid) {
    !s.stopRequested || s.collector == Some(t)
  }

  // The predicate of wait_for_other_threads_to_pause_locked.
  ghost predicate AllPaused(s: State, c: Tid) {
    forall u :: u in s.table && u != c ==> s.table[u].paused
  }

  // A notify_all is the next thing the owner of the mutex does.
  ghost predicate NotifyPending(s: State) {
    s.mutex.Some? && s.mutex.value in s.threads &&
    (s.threads[s.mutex.value].pc.ParkNotify? || s.threads[s.mutex.value].pc.ReleaseNotify?)
  }

  // From the moment the pause wait returns until the flags are cleared.
  predicate StoppedBy(s: State, c: Tid) {
    c in s.threads && (s.threads[c].pc.World? || s.threads[c].outer)
  }

  // No promise rests on the root object at `slot`.
  ghost predicate Unpromised(s: State, slot: Slot) {
    forall b :: b in s.promised ==> s.promised[b] != InSlot(slot)
  }

  ghost predicate HeldInRange(s: State, b: Block) {
    exists slot :: slot in s.ranges && slot in s.contents && s.contents[slot] == b
  }

  // --- Writing a state ---

  function Goto(s: State, t: Tid, pc: Pc): State
    requires t in s.threads
  {
    s.(threads := s.threads[t := Thread(pc, s.threads[t].outer)])
  }

  function Unlock(s: State): State {
    s.(mutex := None)
  }

  function Awaken(pc: Pc): Pc {
    match pc
    case Blocked(op, _) => Blocked(op, false)
    case Parked(op, _) => Parked(op, false)
    case Pausing(op, _) => Pausing(op, false)
    case _ => pc
  }

  function NotifyAll(s: State): State {
    s.(threads := map u | u in s.threads :: Thread(Awaken(s.threads[u].pc), s.threads[u].outer))
  }

  function RemoveFirst(ranges: seq<Slot>, slot: Slot): seq<Slot> {
    if ranges == [] then []
    else if ranges[0] == slot then ranges[1..]
    else [ranges[0]] + RemoveFirst(ranges[1..], slot)
  }

  function DropPromises(promised: map<Block, Home>, slot: Slot): map<Block, Home> {
    map b | b in promised && promised[b] != InSlot(slot) :: promised[b]
  }

  // --- Steps ---

  // What the client may call, and when.  The guards are the contract of gc_new and
  // gc_root: a thread finishes, releases and roots its own blocks and slots only, and
  // does not unregister while it is constructing.
  ghost predicate MayBegin(s: State, t: Tid, op: Op) {
    match op
    case UnregisterThread => forall b :: b in s.constructing ==> b.owner != t
    case RegisterThread(bottom) => bottom != 0
    case PublishRange(slot, from) =>
      slot.owner == t &&
      (from.Some? ==> from.value.owner == t && from.value != slot && from.value in s.contents &&
                      Unpromised(s, slot))
    case UnregisterRange(slot) => slot.owner == t
    case Allocate(b) => b.owner == t && b !in s.allocations
    case FinishConstruction(b, root) =>
      b.owner == t && b in s.constructing &&
      (root.Some? ==> root.value.owner == t && Unpromised(s, root.value))
    case ReleaseUnconstructed(b) => b.owner == t && b in s.constructing
    case Release => t in s.threads && s.threads[t].outer
    case _ => true
  }

  function BeginStep(s: State, t: Tid, op: Op): State
    requires t in s.threads
  {
    var s1 := Goto(s, t, Locking(op));
    match op
    case PublishRange(slot, Some(from)) =>
      if from in s.contents then s1.(contents := s.contents[slot := s.contents[from]]) else s1
    case _ => s1
  }

  function UnregisterRangeStep(s: State, t: Tid, slot: Slot): State
    requires t in s.threads
  {
    Unlock(Goto(s, t, User)).(ranges := RemoveFirst(s.ranges, slot), promised := DropPromises(s.promised, slot))
  }

  function AllocateStep(s: State, t: Tid, b: Block): State
    requires t in s.threads
  {
    var back := Unlock(Goto(s, t, User));
    if t !in s.table then back
    else back.(allocations := s.allocations + {b}, constructing := s.constructing + {b},
               promised := s.promised[b := Pin])
  }

  // With a root, gc_root's member initializer stores the pointer, and the next thing
  // this thread does is lock to publish the storage.
  function FinishConstructionStep(s: State, t: Tid, b: Block, root: Option<Slot>): State
    requires t in s.threads
  {
    match root
    case None =>
      Unlock(Goto(s, t, User)).(constructing := s.constructing - {b}, promised := s.promised - {b})
    case Some(slot) =>
      Unlock(Goto(s, t, Locking(PublishRange(slot, None)))).(
        constructing := s.constructing - {b},
        contents := s.contents[slot := b],
        promised := s.promised[b := InSlot(slot)])
  }

  function ReleaseUnconstructedStep(s: State, t: Tid, b: Block): State
    requires t in s.threads
  {
    var back := Unlock(Goto(s, t, User));
    if t !in s.table then back
    else back.(allocations := s.allocations - {b}, constructing := s.constructing - {b},
               promised := s.promised - {b})
  }

  // gc_root's move constructor, last statement: the source forgets the pointer.
  function ClearSourceStep(s: State, t: Tid, source: Slot, target: Slot): State
    requires t in s.threads
  {
    Goto(s, t, User).(
      contents := s.contents - {source},
      promised := map b | b in s.promised ::
        if s.promised[b] == InSlot(source) then InSlot(target) else s.promised[b])
  }

  // collect, shutdown and the snapshots raise the three flags together.
  function StopStep(s: State, t: Tid, op: Op): State
    requires t in s.threads
  {
    Goto(s, t, PauseCheck(op)).(collecting := true, collector := Some(t), stopRequested := true)
  }

  // The critical section proper: what happens between cooperate's return and unlock.
  function BodyStep(s: State, t: Tid, op: Op): State
    requires t in s.threads
  {
    var back := Unlock(Goto(s, t, User));
    match op
    case Safepoint => back
    case RegisterThread(bottom) =>
      back.(table := s.table[t := if t in s.table then s.table[t].(stackBottom := bottom)
                                  else ThreadState(bottom, 0, false)])
    case UnregisterThread => back.(table := s.table - {t})
    case PublishRange(slot, from) =>
      if from.Some? then Unlock(Goto(s, t, ClearSource(from.value, slot))) else back
    case UnregisterRange(slot) => UnregisterRangeStep(s, t, slot)
    case Allocate(b) => AllocateStep(s, t, b)
    case FinishConstruction(b, root) => FinishConstructionStep(s, t, b, root)
    case ReleaseUnconstructed(b) => ReleaseUnconstructedStep(s, t, b)
    case UpdateWeak(entries) => back.(weak := entries)
    case Collect => if s.collecting || t !in s.table then back else StopStep(s, t, op)
    case Shutdown => if s.collecting then back else StopStep(s, t, op)
    case Snapshot => if s.collecting then back else StopStep(s, t, op)
    case Release => back
  }

  // The program points of cooperate and of the pause wait, and of taking the mutex.
  ghost function AfterWait(s: State, t: Tid, pc: Pc): Pc {
    match pc
    case Locking(op) => Entered(op)
    case Cooperate(op) =>
      if MayProceed(s, t) then Body(op) else if t !in s.table then BlockedCheck(op) else Spilling(op)
    case BlockedCheck(op) => if MayProceed(s, t) then Body(op) else Blocked(op, true)
    case Blocked(op, _) => BlockedCheck(op)
    case Spilling(op) => Relocked(op)
    case Relocked(op) => if MayProceed(s, t) then Body(op) else BlockedCheck(op)
    case Parked(op, _) => ParkCheck(op)
    case PauseCheck(op) => if AllPaused(s, t) then World(op) else Pausing(op, true)
    case Pausing(op, _) => PauseCheck(op)
    case _ => pc
  }

  // The thread takes, keeps or gives up the mutex as its new program point says: it is
  // free at 672-681 and inside condition_variable::wait.
  ghost function WaitStep(s: State, t: Tid, pc: Pc): State
    requires t in s.threads
  {
    var pc' := AfterWait(s, t, pc);
    Goto(s, t, pc').(mutex := if HoldsMutex(pc') then Some(t) else None)
  }

  // 704-707: the thread clears its own record and goes on.
  function UnparkStep(s: State, t: Tid, op: Op): State
    requires t in s.threads
  {
    var s1 := Goto(s, t, Body(op));
    if t in s.table then s1.(table := s.table[t := s.table[t].(paused := false, stackTop := 0)]) else s1
  }

  // One step inside the manager, where the source leaves no choice.
  ghost function AdvanceStep(s: State, t: Tid): State
    requires t in s.threads
  {
    var pc := s.threads[t].pc;
    match pc
    case Entered(op) =>
      if op.PublishRange? then Goto(s, t, Cooperate(op)).(ranges := s.ranges + [op.slot])
      else if op.Release? then
        s.(threads := s.threads[t := Thread(ReleaseNotify, false)],
           collector := None, stopRequested := false, collecting := false)
      else Goto(s, t, Cooperate(op))
    case ParkNotify(op) => Goto(NotifyAll(s), t, ParkCheck(op))
    case ParkCheck(op) =>
      if !s.stopRequested then UnparkStep(s, t, op) else Unlock(Goto(s, t, Parked(op, true)))
    case Body(op) => BodyStep(s, t, op)
    case ReleaseNotify => Unlock(Goto(NotifyAll(s), t, User))
    case ClearSource(source, target) => ClearSourceStep(s, t, source, target)
    case _ => WaitStep(s, t, pc)
  }

  // The step of AdvanceStep is possible now: lock acquisitions need the mutex free,
  // sleepers have to be woken first.
  predicate CanAdvance(s: State, t: Tid)
    requires t in s.threads
  {
    var pc := s.threads[t].pc;
    match pc
    case User => false
    case World(_) => false
    case Locking(_) => s.mutex == None
    case Spilling(_) => s.mutex == None
    case Blocked(_, asleep) => !asleep && s.mutex == None
    case Parked(_, asleep) => !asleep && s.mutex == None
    case Pausing(_, asleep) => !asleep && s.mutex == None
    case Relocked(_) => MayProceed(s, t) || t !in s.table
    case _ => true
  }

  // Everything a scan of pinned blocks and registered ranges finds.
  ghost predicate KeepsRoots(s: State, kept: set<Block>) {
    kept <= s.allocations && s.constructing <= kept &&
    forall b :: b in s.allocations && HeldInRange(s, b) ==> b in kept
  }

  function FinishWorldStep(s: State, t: Tid, op: Op, kept: set<Block>, keptWeak: set<nat>): State
    requires t in s.threads
  {
    var out := s.(mutex := None, threads := s.threads[t := Thread(User, true)]);
    if op.Collect? then out.(allocations := kept, weak := keptWeak)
    else if op.Shutdown? && s.constructing == {} then
      out.(allocations := {}, weak := {}, promised := map[])
    else out
  }

  ghost predicate Next(s: State, t: Tid, a: Action, s': State) {
    t in s.threads &&
    var pc := s.threads[t].pc;
    match a
    case Begin(op) => pc.User? && MayBegin(s, t, op) && s' == BeginStep(s, t, op)
    case Advance => CanAdvance(s, t) && s' == AdvanceStep(s, t)
    case Park(marker) =>
      pc.Relocked? && !MayProceed(s, t) && t in s.table && marker != 0 &&
      s' == Goto(s, t, ParkNotify(pc.op)).(
              table := s.table[t := s.table[t].(stackTop := marker, paused := true)])
    case SpuriousWake =>
      (pc.Blocked? || pc.Parked? || pc.Pausing?) && s' == Goto(s, t, Awaken(pc))
    case FinishWorld(kept, keptWeak) =>
      pc.World? && (pc.op.Collect? ==> KeepsRoots(s, kept) && keptWeak <= s.weak) &&
      s' == FinishWorldStep(s, t, pc.op, kept, keptWeak)
    case AssignRoot(slot, content) =>
      pc.User? && slot.owner == t &&
      s' == s.(promised := DropPromises(s.promised, slot),
               contents := if content.Some? then s.contents[slot := content.value] else s.contents - {slot})
  }

  ghost predicate Init(s: State) {
    (forall t :: t in s.threads ==> s.threads[t] == Thread(User, false)) &&
    s.mutex == None && !s.collecting && s.collector == None && !s.stopRequested &&
    s.table == map[] && s.allocations == {} && s.constructing == {} && s.weak == {} &&
    s.ranges == [] && s.contents == map[] && s.promised == map[]
  }
}
