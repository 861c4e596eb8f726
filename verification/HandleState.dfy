/**
Weak handles: what each operation on the registry does to the heap's state, and the state
of a handle while an operation of the thread that owns it is under way.
 */
module HandleState {
  import opened Wrappers
  import opened Words
  import opened ChunkHeaders
  import opened Blocks
  import opened Reachability
  import opened WeakRegistry
  import opened Accounting
  import opened Lifecycle
  import opened Marking
  import opened Sweeping
  import opened HeapState
  import opened Mutation

  // An existing handle that some operation works on and that has no entry.
  predicate Unlisted(w: WeakState, h: Address) {
    h in w.handles && h in w.busy && h !in w.targets
  }

  lemma UnlistedTargets(w: WeakState, h: Address)
    requires Unlisted(w, h)
    ensures h !in w.targets && h in w.handles && h in w.busy
  {
  }

  lemma StillBusy(s: Snapshot, pauses: seq<Pause>, s': Snapshot, h: Address)
    requires Paused(s, pauses, s') && h in s.weak.busy && h in s.weak.handles
    ensures HandleKept(s, s', h)
  {
    hide Paused;
    PausesSurvive(s, pauses, s');
  }

  lemma StillUnlisted(s: Snapshot, pauses: seq<Pause>, s': Snapshot, h: Address)
    requires Paused(s, pauses, s') && Unlisted(s.weak, h)
    ensures Unlisted(s'.weak, h) && Load(s'.weak.memory, h) == Load(s.weak.memory, h)
  {
    hide Paused;
    StillBusy(s, pauses, s', h);
  }

  lemma LiveOwner(allocations: Allocations, block: Option<Address>, a: Address)
    requires block.Some? ==> Owns(allocations, block.value, a)
    requires block.None? ==> !Live(allocations, a)
    ensures block.Some? <==> Live(allocations, a)
  {
  }

  // Only the weak part changes, and stays consistent.
  lemma WeakPartValid(s: Snapshot, w: WeakState)
    requires ValidState(s) && Consistent(w, s.allocations)
    ensures ValidState(s.(weak := w))
  {
  }

  lemma TargetsLive(s: Snapshot)
    requires ValidState(s)
    ensures forall h :: h in s.weak.targets ==> Live(s.allocations, s.weak.targets[h])
  {
  }

  // --- The registry operations ---

  lemma PushedConsistent(w: WeakState, allocations: Allocations, target: Address, storage: Address)
    requires Consistent(w, allocations) && Unlisted(w, storage)
    requires Live(allocations, target) && Load(w.memory, storage) == EncodeWeak(target)
    ensures Consistent(w.(targets := w.targets[storage := target]), allocations)
  {
    hide Live, EncodeWeak;
  }

  lemma ListedConsistent(w: WeakState, allocations: Allocations, target: Address, storage: Address, word: Word)
    requires Consistent(w, allocations) && Unlisted(w, storage)
    requires Live(allocations, target) && word == EncodeWeak(target)
    ensures Consistent(w.(targets := w.targets[storage := target], memory := w.memory[storage := word]), allocations)
  {
    hide Live, EncodeWeak;
  }

  lemma ZeroedConsistent(w: WeakState, allocations: Allocations, storage: Address)
    requires Consistent(w, allocations) && Unlisted(w, storage)
    ensures Consistent(w.(memory := w.memory[storage := 0]), allocations)
  {
    hide Live, EncodeWeak;
  }

  lemma UnlistedConsistent(w: WeakState, allocations: Allocations, storage: Address)
    requires Consistent(w, allocations) && storage in w.busy
    ensures Consistent(w.(targets := w.targets - {storage}), allocations)
  {
    hide Live, EncodeWeak;
  }

  // register_weak_ref.
  ghost function AfterRegister(s: Snapshot, target: Address, storage: Address): Snapshot {
    if Live(s.allocations, target) then
      s.(weak := s.weak.(targets := s.weak.targets[storage := target]))
    else
      s.(weak := s.weak.(memory := s.weak.memory[storage := 0]))
  }

  lemma RegisterIsValid(s: Snapshot, target: Address, storage: Address)
    requires ValidState(s) && Unlisted(s.weak, storage) && Load(s.weak.memory, storage) == EncodeWeak(target)
    ensures ValidState(AfterRegister(s, target, storage))
  {
    ValidParts(s);
    hide ValidState, Live, Consistent, EncodeWeak, Unlisted, Balanced, Lives, WellFormed, HeadersFit;
    if Live(s.allocations, target) {
      PushedConsistent(s.weak, s.allocations, target, storage);
    } else {
      ZeroedConsistent(s.weak, s.allocations, storage);
    }
    WeakPartValid(s, AfterRegister(s, target, storage).weak);
  }

  // unregister_weak_ref.
  ghost function AfterUnregister(s: Snapshot, storage: Address): Snapshot {
    s.(weak := s.weak.(targets := s.weak.targets - {storage}))
  }

  lemma UnregisterIsValid(s: Snapshot, storage: Address)
    requires ValidState(s) && storage in s.weak.busy
    ensures ValidState(AfterUnregister(s, storage))
  {
    ValidParts(s);
    hide ValidState, Live, Consistent, Balanced, Lives, WellFormed, HeadersFit;
    UnlistedConsistent(s.weak, s.allocations, storage);
    WeakPartValid(s, AfterUnregister(s, storage).weak);
  }

  // copy_weak_ref.
  ghost function AfterCopy(s: Snapshot, from: Address, to: Address): Snapshot {
    if from in s.weak.targets then
      s.(weak := s.weak.(targets := s.weak.targets[to := s.weak.targets[from]],
                         memory := s.weak.memory[to := Load(s.weak.memory, from)]))
    else
      s.(weak := s.weak.(memory := s.weak.memory[to := 0]))
  }

  lemma ListedTarget(w: WeakState, allocations: Allocations, h: Address)
    requires Consistent(w, allocations) && h in w.targets
    ensures Live(allocations, w.targets[h]) && Load(w.memory, h) == EncodeWeak(w.targets[h])
  {
  }

  lemma CopyIsValid(s: Snapshot, from: Address, to: Address)
    requires ValidState(s) && Unlisted(s.weak, to)
    ensures ValidState(AfterCopy(s, from, to))
  {
    ValidParts(s);
    hide ValidState, Live, Consistent, EncodeWeak, Unlisted, Balanced, Lives, WellFormed, HeadersFit, Load;
    if from in s.weak.targets {
      ListedTarget(s.weak, s.allocations, from);
      ListedConsistent(s.weak, s.allocations, s.weak.targets[from], to, Load(s.weak.memory, from));
    } else {
      ZeroedConsistent(s.weak, s.allocations, to);
    }
    WeakPartValid(s, AfterCopy(s, from, to).weak);
  }

  // update_weak_ref.
  ghost function AfterUpdate(s: Snapshot, from: Address, to: Address): Snapshot {
    if from in s.weak.targets then
      s.(weak := s.weak.(targets := (s.weak.targets - {from})[to := s.weak.targets[from]],
                         memory := s.weak.memory[to := Load(s.weak.memory, from)][from := 0]))
    else
      s.(weak := s.weak.(memory := s.weak.memory[to := 0]))
  }

  lemma MovedConsistent(w: WeakState, allocations: Allocations, from: Address, to: Address)
    requires Consistent(w, allocations) && Unlisted(w, to) && from in w.targets && from != to
    ensures Consistent(w.(targets := (w.targets - {from})[to := w.targets[from]],
                          memory := w.memory[to := Load(w.memory, from)][from := 0]), allocations)
  {
    hide Live, EncodeWeak;
  }

  lemma UpdateIsValid(s: Snapshot, from: Address, to: Address)
    requires ValidState(s) && Unlisted(s.weak, to) && from != to
    ensures ValidState(AfterUpdate(s, from, to))
  {
    ValidParts(s);
    hide ValidState, Live, Consistent, EncodeWeak, Unlisted, Balanced, Lives, WellFormed, HeadersFit, Load;
    if from in s.weak.targets {
      MovedConsistent(s.weak, s.allocations, from, to);
    } else {
      ZeroedConsistent(s.weak, s.allocations, to);
    }
    WeakPartValid(s, AfterUpdate(s, from, to).weak);
  }

  // --- Handles in use ---

  // An operation takes handles, and lets go of them.
  ghost function Taken(s: Snapshot, hs: set<Address>): Snapshot {
    s.(weak := s.weak.(busy := s.weak.busy + hs))
  }

  ghost function LetGo(s: Snapshot, hs: set<Address>): Snapshot {
    s.(weak := s.weak.(busy := s.weak.busy - hs))
  }

  // A handle comes into being, taken and null; its word changes; it ceases to be.
  ghost function Created(s: Snapshot, h: Address): Snapshot {
    s.(weak := s.weak.(handles := s.weak.handles + {h}, busy := s.weak.busy + {h}, memory := s.weak.memory[h := 0]))
  }

  ghost function WithWord(s: Snapshot, h: Address, word: Word): Snapshot {
    s.(weak := s.weak.(memory := s.weak.memory[h := word]))
  }

  ghost function Destroyed(s: Snapshot, h: Address): Snapshot {
    s.(weak := s.weak.(handles := s.weak.handles - {h}, busy := s.weak.busy - {h}))
  }

  // The handle is registered, or null.
  predicate Settled(w: WeakState, h: Address) {
    h in w.targets || Load(w.memory, h) == 0
  }

  lemma TakenIsValid(s: Snapshot, hs: set<Address>)
    requires ValidState(s)
    ensures ValidState(Taken(s, hs))
  {
    ValidParts(s);
    hide ValidState, Live, EncodeWeak, Balanced, Lives, WellFormed, HeadersFit;
    WeakPartValid(s, Taken(s, hs).weak);
  }

  lemma LetGoIsValid(s: Snapshot, hs: set<Address>)
    requires ValidState(s) && forall h :: h in hs ==> Settled(s.weak, h)
    ensures ValidState(LetGo(s, hs))
  {
    ValidParts(s);
    hide ValidState, Live, EncodeWeak, Balanced, Lives, WellFormed, HeadersFit;
    WeakPartValid(s, LetGo(s, hs).weak);
  }

  lemma CreatedIsValid(s: Snapshot, h: Address)
    requires ValidState(s) && h != 0 && h !in s.weak.handles && h !in s.weak.guarded
    ensures ValidState(Created(s, h)) && Unlisted(Created(s, h).weak, h)
  {
    ValidParts(s);
    hide ValidState, Live, EncodeWeak, Balanced, Lives, WellFormed, HeadersFit, Consistent;
    CreatedConsistent(s.weak, s.allocations, h);
    WeakPartValid(s, Created(s, h).weak);
  }

  lemma CreatedConsistent(w: WeakState, allocations: Allocations, h: Address)
    requires Consistent(w, allocations) && h != 0 && h !in w.handles && h !in w.guarded
    ensures h !in w.targets
    ensures Consistent(w.(handles := w.handles + {h}, busy := w.busy + {h}, memory := w.memory[h := 0]), allocations)
  {
    hide Live, EncodeWeak;
  }

  lemma WithWordIsValid(s: Snapshot, h: Address, word: Word)
    requires ValidState(s) && Unlisted(s.weak, h)
    ensures ValidState(WithWord(s, h, word)) && Unlisted(WithWord(s, h, word).weak, h)
    ensures Load(WithWord(s, h, word).weak.memory, h) == word
  {
    hide *;
    ValidParts(s);
    WordParts(s, h, word);
    WeakPartValid(s, WithWord(s, h, word).weak);
  }

  lemma WordParts(s: Snapshot, h: Address, word: Word)
    requires Consistent(s.weak, s.allocations) && Unlisted(s.weak, h)
    ensures
      var s' := WithWord(s, h, word);
      && s' == s.(weak := s'.weak) && Consistent(s'.weak, s.allocations) && Unlisted(s'.weak, h)
      && Load(s'.weak.memory, h) == word
  {
    hide Live, EncodeWeak;
  }

  lemma DestroyedIsValid(s: Snapshot, h: Address)
    requires ValidState(s) && h !in s.weak.targets
    ensures ValidState(Destroyed(s, h))
  {
    hide *;
    ValidParts(s);
    DestroyedParts(s, h);
    WeakPartValid(s, Destroyed(s, h).weak);
  }

  lemma DestroyedParts(s: Snapshot, h: Address)
    requires Consistent(s.weak, s.allocations) && h !in s.weak.targets
    ensures
      var s' := Destroyed(s, h);
      s' == s.(weak := s'.weak) && Consistent(s'.weak, s.allocations)
  {
    hide Live, EncodeWeak;
  }

  // A handle whose word is zero is not registered, and address zero is no handle.
  lemma ZeroIsUnlisted(s: Snapshot, h: Address)
    requires ValidState(s) && h in s.weak.handles
    ensures h != 0
    ensures Load(s.weak.memory, h) == 0 ==> h !in s.weak.targets
  {
    ValidParts(s);
    hide ValidState, Balanced, Lives, HeadersFit;
    if h in s.weak.targets {
      var owner :| Owns(s.allocations, owner, s.weak.targets[h]);
      EncodedIsNoPayloadAddress(s.allocations, s.weak.targets[h], owner);
    }
  }

  // --- What handles hold ---

  // The target a handle is registered for; 0 stands for null.
  function HeldTarget(w: WeakState, h: Address): Address {
    if h in w.targets then w.targets[h] else 0
  }

  // The handle holds exactly this target, in its word and in the registry.
  ghost predicate Holds(w: WeakState, h: Address, target: Address) {
    if target == 0 then h !in w.targets && Load(w.memory, h) == 0
    else h in w.targets && w.targets[h] == target && Load(w.memory, h) == EncodeWeak(target)
  }

  lemma LiveIsNonzero(s: Snapshot, a: Address)
    requires ValidState(s) && Live(s.allocations, a)
    ensures a != 0
  {
  }

  lemma HoldsHeld(s: Snapshot, h: Address)
    requires ValidState(s) && h in s.weak.targets
    ensures Holds(s.weak, h, s.weak.targets[h]) && s.weak.targets[h] != 0
  {
    ValidParts(s);
    hide ValidState;
    LiveIsNonzero(s, s.weak.targets[h]);
  }

  lemma RegisterHolds(s: Snapshot, target: Address, h: Address)
    requires ValidState(s) && Unlisted(s.weak, h) && Load(s.weak.memory, h) == EncodeWeak(target)
    ensures Holds(AfterRegister(s, target, h).weak, h, if Live(s.allocations, target) then target else 0)
  {
    hide Live, ValidState;
    if Live(s.allocations, target) {
      LiveIsNonzero(s, target);
    }
  }

  lemma CopyHolds(s: Snapshot, from: Address, to: Address)
    requires ValidState(s) && Unlisted(s.weak, to)
    ensures Holds(AfterCopy(s, from, to).weak, to, HeldTarget(s.weak, from))
  {
    hide ValidState;
    if from in s.weak.targets {
      HoldsHeld(s, from);
    }
  }

  lemma UpdateHolds(s: Snapshot, from: Address, to: Address)
    requires ValidState(s) && Unlisted(s.weak, to) && from != to && from in s.weak.handles && from in s.weak.busy
    ensures
      var s' := AfterUpdate(s, from, to);
      Holds(s'.weak, to, HeldTarget(s.weak, from)) && Unlisted(s'.weak, from) &&
      Holds(WithWord(s', from, 0).weak, to, HeldTarget(s.weak, from)) && Holds(WithWord(s', from, 0).weak, from, 0)
  {
    hide ValidState;
    if from in s.weak.targets {
      HoldsHeld(s, from);
    }
  }

  lemma UnregisterHolds(s: Snapshot, h: Address)
    requires h in s.weak.handles && h in s.weak.busy
    ensures Unlisted(AfterUnregister(s, h).weak, h)
    ensures Holds(WithWord(AfterUnregister(s, h), h, 0).weak, h, 0)
  {
  }

  // --- Handle operations ---

  lemma ZeroCode(p: Address)
    ensures EncodeWeak(p) == 0 <==> p == 0
  {
  }

  // Handles that an operation has taken are still there after a pause.
  ghost predicate KeepsTaken(w: WeakState, w': WeakState) {
    w'.busy == w.busy && w.handles * w.busy <= w'.handles
  }

  lemma PausesKeepTaken(s: Snapshot, pauses: seq<Pause>, s': Snapshot)
    requires Paused(s, pauses, s')
    ensures KeepsTaken(s.weak, s'.weak)
  {
    hide Paused;
    PausesSurvive(s, pauses, s');
  }

  // The word is written, then the target registered.
  ghost function Initialized(mid: Snapshot, p: Address, h: Address): Snapshot {
    if p == 0 then mid else AfterRegister(mid, p, h)
  }

  lemma InitializeHolds(s: Snapshot, p: Address, pauses: seq<Pause>, mid: Snapshot, h: Address)
    requires ValidState(s) && ValidState(mid) && Unlisted(s.weak, h)
    requires Paused(WithWord(s, h, EncodeWeak(p)), pauses, mid)
    ensures Initialized(mid, p, h) == if p == 0 then mid else AfterRegister(mid, p, h)
    ensures Holds(Initialized(mid, p, h).weak, h, if p != 0 && Live(mid.allocations, p) then p else 0)
    ensures KeepsTaken(s.weak, Initialized(mid, p, h).weak)
  {
    hide ValidState, Paused, Live;
    WithWordIsValid(s, h, EncodeWeak(p));
    StillUnlisted(WithWord(s, h, EncodeWeak(p)), pauses, mid, h);
    PausesKeepTaken(WithWord(s, h, EncodeWeak(p)), pauses, mid);
    RegisterHolds(mid, p, h);
  }

  // A move writes the word of the source into the target, then lets the entry follow.
  ghost function MoveStarted(s: Snapshot, from: Address, to: Address): Snapshot {
    WithWord(s, to, Load(s.weak.memory, from))
  }

  ghost function Moved(s: Snapshot, mid: Snapshot, from: Address, to: Address): Snapshot {
    if Load(s.weak.memory, from) == 0 then mid else WithWord(AfterUpdate(mid, from, to), from, 0)
  }

  lemma MoveStarts(s: Snapshot, from: Address, to: Address)
    requires ValidState(s) && Unlisted(s.weak, to)
    ensures MoveStarted(s, from, to) == WithWord(s, to, Load(s.weak.memory, from))
    ensures ValidState(MoveStarted(s, from, to)) && Unlisted(MoveStarted(s, from, to).weak, to)
  {
    WithWordIsValid(s, to, Load(s.weak.memory, from));
  }

  lemma MoveHolds(s: Snapshot, from: Address, pauses: seq<Pause>, mid: Snapshot, to: Address)
    requires ValidState(s) && ValidState(mid) && Unlisted(s.weak, to) && from != to
    requires from in s.weak.handles && from in s.weak.busy
    requires Paused(MoveStarted(s, from, to), pauses, mid)
    requires Load(s.weak.memory, from) == 0 ==> mid == MoveStarted(s, from, to)
    ensures Unlisted(mid.weak, to) && Unlisted(AfterUpdate(mid, from, to).weak, from)
    ensures Moved(s, mid, from, to) ==
              if Load(s.weak.memory, from) == 0 then mid else WithWord(AfterUpdate(mid, from, to), from, 0)
    ensures Holds(Moved(s, mid, from, to).weak, to, HeldTarget(mid.weak, from))
    ensures Holds(Moved(s, mid, from, to).weak, from, 0)
    ensures KeepsTaken(s.weak, Moved(s, mid, from, to).weak)
  {
    var s1 := MoveStarted(s, from, to);
    hide ValidState, Paused;
    WithWordIsValid(s, to, Load(s.weak.memory, from));
    StillUnlisted(s1, pauses, mid, to);
    StillBusy(s1, pauses, mid, from);
    PausesKeepTaken(s1, pauses, mid);
    UpdateHolds(mid, from, to);
    ZeroIsUnlisted(s, from);
  }

  // A reset unregisters the handle and zeroes its word.
  ghost function Nulled(s: Snapshot, mid: Snapshot, h: Address): Snapshot {
    if Load(s.weak.memory, h) == 0 then mid else WithWord(AfterUnregister(mid, h), h, 0)
  }

  lemma ClearHolds(s: Snapshot, pauses: seq<Pause>, mid: Snapshot, h: Address)
    requires ValidState(s) && Paused(s, pauses, mid) && h in s.weak.handles && h in s.weak.busy
    requires Load(s.weak.memory, h) == 0 ==> mid == s
    ensures Unlisted(AfterUnregister(mid, h).weak, h)
    ensures Nulled(s, mid, h) == if Load(s.weak.memory, h) == 0 then mid else WithWord(AfterUnregister(mid, h), h, 0)
    ensures Holds(Nulled(s, mid, h).weak, h, 0) && Unlisted(Nulled(s, mid, h).weak, h)
    ensures KeepsTaken(s.weak, Nulled(s, mid, h).weak)
  {
    hide Paused, ValidState;
    StillBusy(s, pauses, mid, h);
    PausesKeepTaken(s, pauses, mid);
    UnregisterHolds(mid, h);
    ZeroIsUnlisted(s, h);
  }

  lemma KeptTaken(w: WeakState, w': WeakState, h: Address)
    requires KeepsTaken(w, w') && h in w.handles && h in w.busy
    ensures h in w'.handles && h in w'.busy
  {
  }

  // Taking an existing handle, and creating another one.
  lemma TakenHandles(s: Snapshot, hs: set<Address>)
    ensures Taken(s, hs).weak.handles == s.weak.handles && Taken(s, hs).weak.busy == s.weak.busy + hs
    ensures Taken(s, hs).weak.memory == s.weak.memory && Taken(s, hs).weak.targets == s.weak.targets
  {
  }

  lemma CreatedHandles(s: Snapshot, h: Address)
    ensures Created(s, h).weak.handles == s.weak.handles + {h} && Created(s, h).weak.busy == s.weak.busy + {h}
    ensures Created(s, h).weak.targets == s.weak.targets
    ensures forall a: Address :: a != h ==> Load(Created(s, h).weak.memory, a) == Load(s.weak.memory, a)
  {
  }

  lemma KeptTwice(w: WeakState, w1: WeakState, w2: WeakState)
    requires KeepsTaken(w, w1) && KeepsTaken(w1, w2)
    ensures KeepsTaken(w, w2)
  {
  }

  // Handles that hold something definite may be let go.
  lemma LetGoHolding(s: Snapshot, hs: set<Address>, h: Address, target: Address)
    requires Holds(s.weak, h, target)
    ensures Settled(s.weak, h) && Holds(LetGo(s, hs).weak, h, target)
  {
  }

  lemma LetGoBoth(s: Snapshot, h: Address, target: Address, h': Address, target': Address)
    requires Holds(s.weak, h, target) && Holds(s.weak, h', target')
    ensures Settled(s.weak, h) && Settled(s.weak, h')
    ensures Holds(LetGo(s, {h, h'}).weak, h, target) && Holds(LetGo(s, {h, h'}).weak, h', target')
  {
  }

  // While it is taken, a handle keeps its target or loses it.
  lemma HeldOrNull(s: Snapshot, pauses: seq<Pause>, s': Snapshot, h: Address)
    requires Paused(s, pauses, s') && h in s.weak.handles && h in s.weak.busy
    ensures HeldTarget(s'.weak, h) == HeldTarget(s.weak, h) ||
            (HeldTarget(s'.weak, h) == 0 && !Live(s'.allocations, HeldTarget(s.weak, h)))
  {
    hide Paused;
    StillBusy(s, pauses, s', h);
  }

  // Replacing one handle by another: what the other one holds survives the reset of the first.
  lemma ReplacementHeld(
      s: Snapshot, pauses: seq<Pause>, mid: Snapshot, h: Address, temp: Address, pauses2: seq<Pause>, mid2: Snapshot)
    requires Paused(s, pauses, mid) && temp != h && ValidState(s)
    requires temp in s.weak.handles && temp in s.weak.busy && h in s.weak.handles && h in s.weak.busy
    requires Load(s.weak.memory, h) == 0 ==> mid == s
    requires Paused(MoveStarted(Nulled(s, mid, h), temp, h), pauses2, mid2)
    ensures HeldTarget(mid2.weak, temp) == HeldTarget(s.weak, temp) ||
            (HeldTarget(mid2.weak, temp) == 0 && !Live(mid2.allocations, HeldTarget(s.weak, temp)))
  {
    hide Paused, ValidState, Live;
    HeldOrNull(s, pauses, mid, temp);
    ClearHolds(s, pauses, mid, h);
    var started := MoveStarted(Nulled(s, mid, h), temp, h);
    assert HeldTarget(started.weak, temp) == HeldTarget(mid.weak, temp);
    HeldOrNull(started, pauses2, mid2, temp);
    PausesSurvive(started, pauses2, mid2);
    NotLiveAgain(mid.allocations, mid2.allocations, HeldTarget(s.weak, temp));
  }

  // A handle that lost its target only to reclamation holds it exactly while it is live.
  lemma HoldsWhileLive(s: Snapshot, h: Address, held: Address, target: Address)
    requires ValidState(s) && Holds(s.weak, h, held)
    requires held == target || (held == 0 && !Live(s.allocations, target))
    ensures Holds(s.weak, h, if Live(s.allocations, target) then target else 0)
  {
    TargetsLive(s);
    hide ValidState, Live;
    if Live(s.allocations, target) {
      LiveIsNonzero(s, target);
    }
  }

  lemma HoldsDestroyed(s: Snapshot, temp: Address, h: Address, target: Address)
    requires Holds(s.weak, h, target) && Holds(s.weak, temp, 0) && h != temp
    ensures temp !in s.weak.targets && Holds(Destroyed(s, temp).weak, h, target)
  {
  }

  lemma CopyKeeps(s: Snapshot, pauses: seq<Pause>, mid: Snapshot, from: Address, to: Address)
    requires Paused(s, pauses, mid)
    ensures KeepsTaken(s.weak, AfterCopy(mid, from, to).weak)
  {
    hide Paused;
    PausesKeepTaken(s, pauses, mid);
  }

  lemma HoldsIsHeld(s: Snapshot, h: Address, target: Address)
    requires Holds(s.weak, h, target)
    ensures HeldTarget(s.weak, h) == target
  {
  }

  lemma HeldNonzero(s: Snapshot, h: Address)
    requires ValidState(s)
    ensures HeldTarget(s.weak, h) == if h in s.weak.targets then s.weak.targets[h] else 0
    ensures HeldTarget(s.weak, h) == 0 <==> h !in s.weak.targets
  {
    if h in s.weak.targets {
      HoldsHeld(s, h);
    }
  }

  lemma DestroyedHandle(s: Snapshot, h: Address)
    ensures h !in AfterUnregister(s, h).weak.targets && AfterUnregister(s, h).weak.handles == s.weak.handles
    ensures h !in Destroyed(s, h).weak.handles && Destroyed(s, h).weak.targets == s.weak.targets
    ensures h !in Destroyed(AfterUnregister(s, h), h).weak.handles
    ensures h !in Destroyed(AfterUnregister(s, h), h).weak.targets
  {
  }

  // The entry of `temp` moved to h, which was reset before, and `temp` is gone.
  ghost predicate Adopted(
      s: Snapshot, pauses: seq<Pause>, mid: Snapshot, pauses2: seq<Pause>, mid2: Snapshot, temp: Address, h: Address,
      s': Snapshot)
  {
    var cleared := Nulled(s, mid, h);
    && Paused(s, pauses, mid) && Paused(MoveStarted(cleared, temp, h), pauses2, mid2)
    && s' == LetGo(Destroyed(Moved(cleared, mid2, temp, h), temp), {h})
  }

  lemma AdoptedBy(
      s: Snapshot, pauses: seq<Pause>, mid: Snapshot, pauses2: seq<Pause>, mid2: Snapshot, temp: Address, h: Address)
    requires Paused(s, pauses, mid) && Paused(MoveStarted(Nulled(s, mid, h), temp, h), pauses2, mid2)
    ensures Adopted(s, pauses, mid, pauses2, mid2, temp, h,
                    LetGo(Destroyed(Moved(Nulled(s, mid, h), mid2, temp, h), temp), {h}))
    ensures LetGo(Destroyed(Moved(Nulled(s, mid, h), mid2, temp, h), temp), {h}).allocations == mid2.allocations
  {
    hide Paused;
  }

  // --- Guarded words ---

  // The count of an array under construction is written, and protected from then on.
  ghost function Guarded(s: Snapshot, p: Address, word: Word): Snapshot {
    s.(weak := s.weak.(guarded := s.weak.guarded + {p}, memory := s.weak.memory[p := word]))
  }

  ghost function Unguarded(s: Snapshot, p: Address): Snapshot {
    s.(weak := s.weak.(guarded := s.weak.guarded - {p}))
  }

  lemma GuardedIsValid(s: Snapshot, p: Address, word: Word)
    requires ValidState(s) && p !in s.weak.handles
    ensures ValidState(Guarded(s, p, word))
  {
    ValidParts(s);
    hide ValidState, Live, EncodeWeak, Balanced, Lives, WellFormed, HeadersFit, Consistent;
    GuardedConsistent(s.weak, s.allocations, p, word);
    WeakPartValid(s, Guarded(s, p, word).weak);
  }

  lemma GuardedConsistent(w: WeakState, allocations: Allocations, p: Address, word: Word)
    requires Consistent(w, allocations) && p !in w.handles
    ensures Consistent(w.(guarded := w.guarded + {p}, memory := w.memory[p := word]), allocations)
  {
    hide Live, EncodeWeak;
  }

  lemma UnguardedIsValid(s: Snapshot, p: Address)
    requires ValidState(s)
    ensures ValidState(Unguarded(s, p))
  {
    ValidParts(s);
    hide ValidState, Live, EncodeWeak, Balanced, Lives, WellFormed, HeadersFit;
    WeakPartValid(s, Unguarded(s, p).weak);
  }

  lemma GuardedIsNoHandle(s: Snapshot, p: Address)
    requires ValidState(s) && p in s.weak.guarded
    ensures p !in s.weak.handles
  {
    ValidParts(s);
  }
}
