/**
gc_weak_ptr (include/gc/gc_weak_ptr.hpp): the handle that the registry serves.  Its encoded
pointer is the word at `storage` in the program's memory, where the collector zeroes it.
Wherever a call parks, other threads may collect; `mid` is the state in which the registry
was reached.  Line numbers in comments are those of that file.
 */
module WeakPtr {
  import opened Wrappers
  import opened Words
  import opened Blocks
  import opened WeakRegistry
  import opened HeapState
  import opened Mutation
  import opened HandleState
  import opened GCManager

  class GcWeakPtr {
    const manager: GC_Manager
    const storage: Address

    constructor (manager: GC_Manager, storage: Address)
      ensures this.manager == manager && this.storage == storage
    {
      this.manager := manager;
      this.storage := storage;
    }

    // --- Steps, on handles the operation has taken ---

    // 40-45: the word is written first, and zeroed again if the target is gone.
    method Initialize(p: Address, parked: Parked) returns (ghost mid: Snapshot, ghost pauses: seq<Pause>)
      requires manager.Valid() && Unlisted(manager.State().weak, storage)
      modifies manager, manager.Headers()
      ensures manager.Valid() && manager.collecting == old(manager.collecting)
      ensures manager.Headers() <= old(manager.Headers())
      ensures Paused(WithWord(old(manager.State()), storage, EncodeWeak(p)), pauses, mid)
      ensures manager.State() == Initialized(mid, p, storage)
      ensures Holds(manager.State().weak, storage, if p != 0 && Live(mid.allocations, p) then p else 0)
      ensures KeepsTaken(old(manager.State()).weak, manager.State().weak)
    {
      hide *;
      ghost var s := manager.State();
      manager.Fields();
      ZeroCode(p);
      UnlistedTargets(s.weak, storage);
      ZeroIsUnlisted(s, storage);
      WithWordIsValid(s, storage, EncodeWeak(p));
      manager.SetHandleWord(storage, EncodeWeak(p));
      manager.Fields();
      mid, pauses := manager.State(), [];
      NoPauses(mid);
      if EncodeWeak(p) != 0 {
        mid, pauses := manager.RegisterWeakRef(p, storage, parked);
      }
      InitializeHolds(s, p, pauses, mid, storage);
    }

    // 58-64 and 80-86: the other handle's word, then its entry, move over.
    method TakeOver(other: GcWeakPtr, parked: Parked) returns (ghost mid: Snapshot, ghost pauses: seq<Pause>)
      requires manager.Valid() && Unlisted(manager.State().weak, storage)
      requires other.manager == manager && other.storage != storage
      requires other.storage in manager.weakHandles && other.storage in manager.busyHandles
      modifies manager, manager.Headers()
      ensures manager.Valid() && manager.collecting == old(manager.collecting)
      ensures manager.Headers() <= old(manager.Headers())
      ensures Paused(MoveStarted(old(manager.State()), other.storage, storage), pauses, mid)
      ensures manager.State() == Moved(old(manager.State()), mid, other.storage, storage)
      ensures Holds(manager.State().weak, storage, HeldTarget(mid.weak, other.storage))
      ensures Holds(manager.State().weak, other.storage, 0)
      ensures KeepsTaken(old(manager.State()).weak, manager.State().weak)
    {
      hide *;
      ghost var s := manager.State();
      manager.Fields();
      var word := Load(manager.memory, other.storage);
      MoveStarts(s, other.storage, storage);
      manager.SetHandleWord(storage, word);
      manager.Fields();
      mid, pauses := manager.State(), [];
      NoPauses(mid);
      if word != 0 {
        mid, pauses := manager.UpdateWeakRef(other.storage, storage, parked);
        MoveHolds(s, other.storage, pauses, mid, storage);
        manager.SetHandleWord(other.storage, 0);
      }
      MoveHolds(s, other.storage, pauses, mid, storage);
    }

    // 106-111: the entry goes, then the word.
    method Clear(parked: Parked) returns (ghost mid: Snapshot, ghost pauses: seq<Pause>)
      requires manager.Valid()
      requires storage in manager.weakHandles && storage in manager.busyHandles
      modifies manager, manager.Headers()
      ensures manager.Valid() && manager.collecting == old(manager.collecting)
      ensures manager.Headers() <= old(manager.Headers())
      ensures Paused(old(manager.State()), pauses, mid)
      ensures Load(old(manager.State()).weak.memory, storage) == 0 ==> mid == old(manager.State())
      ensures manager.State() == Nulled(old(manager.State()), mid, storage)
      ensures Holds(manager.State().weak, storage, 0) && Unlisted(manager.State().weak, storage)
      ensures KeepsTaken(old(manager.State()).weak, manager.State().weak)
    {
      hide *;
      ghost var s := manager.State();
      manager.Fields();
      mid, pauses := s, [];
      NoPauses(s);
      if Load(manager.memory, storage) != 0 {
        mid, pauses := manager.UnregisterWeakRef(storage, parked);
        ClearHolds(s, pauses, mid, storage);
        manager.SetHandleWord(storage, 0);
      }
      ClearHolds(s, pauses, mid, storage);
    }

    // --- Operations ---

    // gc_weak_ptr(const gc_ptr<T>&).
    method Construct(p: Address, parked: Parked) returns (ghost mid: Snapshot, ghost pauses: seq<Pause>)
      requires manager.Valid() && storage != 0 && storage !in manager.weakHandles && storage !in manager.guardedWords
      modifies manager, manager.Headers()
      ensures manager.Valid() && manager.collecting == old(manager.collecting)
      ensures manager.Headers() <= old(manager.Headers())
      ensures Paused(WithWord(Created(old(manager.State()), storage), storage, EncodeWeak(p)), pauses, mid)
      ensures manager.State() == LetGo(Initialized(mid, p, storage), {storage})
      ensures Holds(manager.State().weak, storage, if p != 0 && Live(mid.allocations, p) then p else 0)
    {
      hide *;
      manager.Fields();
      CreatedIsValid(manager.State(), storage);
      manager.CreateHandle(storage);
      mid, pauses := Initialize(p, parked);
      LetGoHolding(manager.State(), {storage}, storage, if p != 0 && Live(mid.allocations, p) then p else 0);
      manager.LetGoHandles({storage});
    }

    // gc_weak_ptr(const gc_weak_ptr&).
    method Copy(other: GcWeakPtr, parked: Parked) returns (ghost mid: Snapshot, ghost pauses: seq<Pause>)
      requires manager.Valid() && storage != 0 && storage !in manager.weakHandles && storage !in manager.guardedWords
      modifies manager, manager.Headers()
      ensures manager.Valid() && manager.collecting == old(manager.collecting)
      ensures manager.Headers() <= old(manager.Headers())
      ensures Paused(Created(old(manager.State()), storage), pauses, mid)
      ensures manager.State() == LetGo(AfterCopy(mid, other.storage, storage), {storage})
      ensures Holds(manager.State().weak, storage, HeldTarget(mid.weak, other.storage))
    {
      hide *;
      ghost var s := manager.State();
      manager.Fields();
      CreatedIsValid(s, storage);
      manager.CreateHandle(storage);
      mid, pauses := manager.CopyWeakRef(other.storage, storage, parked);
      StillUnlisted(Created(s, storage), pauses, mid, storage);
      CopyHolds(mid, other.storage, storage);
      LetGoHolding(manager.State(), {storage}, storage, HeldTarget(mid.weak, other.storage));
      manager.LetGoHandles({storage});
    }

    // gc_weak_ptr(gc_weak_ptr&&).
    method Move(other: GcWeakPtr, parked: Parked) returns (ghost mid: Snapshot, ghost pauses: seq<Pause>)
      requires manager.Valid() && storage != 0 && storage !in manager.weakHandles && storage !in manager.guardedWords
      requires other.manager == manager && other.storage in manager.weakHandles && other.storage !in manager.busyHandles
      modifies manager, manager.Headers()
      ensures manager.Valid() && manager.collecting == old(manager.collecting)
      ensures manager.Headers() <= old(manager.Headers())
      ensures
        var s := Created(Taken(old(manager.State()), {other.storage}), storage);
        && Paused(MoveStarted(s, other.storage, storage), pauses, mid)
        && manager.State() == LetGo(Moved(s, mid, other.storage, storage), {storage, other.storage})
      ensures Holds(manager.State().weak, storage, HeldTarget(mid.weak, other.storage))
      ensures Holds(manager.State().weak, other.storage, 0)
    {
      hide *;
      ghost var s := manager.State();
      manager.Fields();
      TakenHandles(s, {other.storage});
      manager.TakeHandles({other.storage});
      manager.Fields();
      CreatedIsValid(manager.State(), storage);
      CreatedHandles(manager.State(), storage);
      manager.CreateHandle(storage);
      manager.Fields();
      mid, pauses := TakeOver(other, parked);
      LetGoBoth(manager.State(), storage, HeldTarget(mid.weak, other.storage), other.storage, 0);
      manager.LetGoHandles({storage, other.storage});
    }

    // reset().
    method Reset(parked: Parked) returns (ghost mid: Snapshot, ghost pauses: seq<Pause>)
      requires manager.Valid()
      requires storage in manager.weakHandles && storage !in manager.busyHandles
      modifies manager, manager.Headers()
      ensures manager.Valid() && manager.collecting == old(manager.collecting)
      ensures manager.Headers() <= old(manager.Headers())
      ensures
        var s := Taken(old(manager.State()), {storage});
        Paused(s, pauses, mid) && manager.State() == LetGo(Nulled(s, mid, storage), {storage})
      ensures Holds(manager.State().weak, storage, 0)
    {
      hide *;
      ghost var s := manager.State();
      manager.Fields();
      TakenHandles(s, {storage});
      manager.TakeHandles({storage});
      manager.Fields();
      mid, pauses := Clear(parked);
      LetGoHolding(manager.State(), {storage}, storage, 0);
      manager.LetGoHandles({storage});
    }

    // operator=(gc_weak_ptr&&).
    method AssignMove(other: GcWeakPtr, parkedFirst: Parked, parkedThen: Parked)
      returns (ghost mid: Snapshot, ghost pauses: seq<Pause>, ghost mid2: Snapshot, ghost pauses2: seq<Pause>)
      requires manager.Valid() && other.manager == manager
      requires storage in manager.weakHandles && storage !in manager.busyHandles
      requires other.storage in manager.weakHandles && other.storage !in manager.busyHandles
      modifies manager, manager.Headers()
      ensures manager.Valid() && manager.collecting == old(manager.collecting)
      ensures manager.Headers() <= old(manager.Headers())
      ensures other.storage == storage ==> manager.State() == old(manager.State())
      ensures other.storage != storage ==>
                var s := Taken(old(manager.State()), {storage, other.storage});
                && Paused(s, pauses, mid)
                && Paused(MoveStarted(Nulled(s, mid, storage), other.storage, storage), pauses2, mid2)
                && manager.State() ==
                     LetGo(Moved(Nulled(s, mid, storage), mid2, other.storage, storage), {storage, other.storage})
                && Holds(manager.State().weak, storage, HeldTarget(mid2.weak, other.storage))
                && Holds(manager.State().weak, other.storage, 0)
    {
      hide *;
      ghost var s := manager.State();
      mid, pauses, mid2, pauses2 := s, [], s, [];
      if other.storage == storage {
        return;
      }
      manager.Fields();
      TakenHandles(s, {storage, other.storage});
      manager.TakeHandles({storage, other.storage});
      mid, pauses, mid2, pauses2 := ReplaceBy(other, parkedFirst, parkedThen);
      LetGoBoth(manager.State(), storage, HeldTarget(mid2.weak, other.storage), other.storage, 0);
      manager.LetGoHandles({storage, other.storage});
    }

    // 79-86: reset, then the entry of the other handle follows.
    method ReplaceBy(other: GcWeakPtr, parkedFirst: Parked, parkedThen: Parked)
      returns (ghost mid: Snapshot, ghost pauses: seq<Pause>, ghost mid2: Snapshot, ghost pauses2: seq<Pause>)
      requires manager.Valid() && other.manager == manager && other.storage != storage
      requires {storage, other.storage} <= manager.State().weak.handles
      requires {storage, other.storage} <= manager.State().weak.busy
      modifies manager, manager.Headers()
      ensures manager.Valid() && manager.collecting == old(manager.collecting)
      ensures manager.Headers() <= old(manager.Headers())
      ensures Paused(old(manager.State()), pauses, mid)
      ensures Load(old(manager.State()).weak.memory, storage) == 0 ==> mid == old(manager.State())
      ensures
        var cleared := Nulled(old(manager.State()), mid, storage);
        && Paused(MoveStarted(cleared, other.storage, storage), pauses2, mid2)
        && manager.State() == Moved(cleared, mid2, other.storage, storage)
      ensures Holds(manager.State().weak, storage, HeldTarget(mid2.weak, other.storage))
      ensures Holds(manager.State().weak, other.storage, 0)
      ensures KeepsTaken(old(manager.State()).weak, manager.State().weak)
    {
      hide *;
      ghost var s := manager.State();
      manager.Fields();
      mid, pauses := Clear(parkedFirst);
      KeptTaken(s.weak, manager.State().weak, other.storage);
      manager.Fields();
      ghost var s2 := manager.State();
      mid2, pauses2 := TakeOver(other, parkedThen);
      KeptTwice(s.weak, s2.weak, manager.State().weak);
    }

    // The replacement's entry moves into this handle, and the replacement dies.
    method Adopt(replacement: GcWeakPtr, parkedFirst: Parked, parkedThen: Parked)
      returns (ghost mid: Snapshot, ghost pauses: seq<Pause>, ghost mid2: Snapshot, ghost pauses2: seq<Pause>)
      requires manager.Valid() && replacement.manager == manager && replacement.storage != storage
      requires {storage, replacement.storage} <= manager.State().weak.handles
      requires {storage, replacement.storage} <= manager.State().weak.busy
      modifies manager, manager.Headers()
      ensures manager.Valid() && manager.collecting == old(manager.collecting)
      ensures manager.Headers() <= old(manager.Headers())
      ensures Adopted(old(manager.State()), pauses, mid, pauses2, mid2, replacement.storage, storage, manager.State())
      ensures
        var target := HeldTarget(old(manager.State()).weak, replacement.storage);
        Holds(manager.State().weak, storage, if Live(manager.allocations, target) then target else 0)
    {
      hide *;
      ghost var s := manager.State();
      manager.Fields();
      mid, pauses, mid2, pauses2 := ReplaceBy(replacement, parkedFirst, parkedThen);
      ReplacementHeld(s, pauses, mid, storage, replacement.storage, pauses2, mid2);
      ghost var target := HeldTarget(mid2.weak, replacement.storage);
      HoldsDestroyed(manager.State(), replacement.storage, storage, target);
      manager.RemoveHandle(replacement.storage);
      LetGoHolding(manager.State(), {storage}, storage, target);
      manager.LetGoHandles({storage});
      AdoptedBy(s, pauses, mid, pauses2, mid2, replacement.storage, storage);
      manager.Fields();
      HoldsWhileLive(manager.State(), storage, target, HeldTarget(s.weak, replacement.storage));
    }

    // operator=(const gc_weak_ptr&), with the place of the local `replacement`.
    method AssignCopy(other: GcWeakPtr, replacement: GcWeakPtr, parked: Parked, parkedFirst: Parked, parkedThen: Parked)
      returns (ghost before: Snapshot, ghost copying: seq<Pause>, ghost mid: Snapshot, ghost pauses: seq<Pause>,
               ghost mid2: Snapshot, ghost pauses2: seq<Pause>)
      requires manager.Valid() && replacement.manager == manager
      requires storage in manager.weakHandles && storage !in manager.busyHandles
      requires replacement.storage != 0 && replacement.storage !in manager.weakHandles
      requires replacement.storage !in manager.guardedWords
      modifies manager, manager.Headers()
      ensures manager.Valid() && manager.collecting == old(manager.collecting)
      ensures manager.Headers() <= old(manager.Headers())
      ensures other.storage == storage ==> manager.State() == old(manager.State())
      ensures other.storage != storage ==>
                && Paused(Created(Taken(old(manager.State()), {storage}), replacement.storage), copying, before)
                && Adopted(AfterCopy(before, other.storage, replacement.storage), pauses, mid, pauses2, mid2,
                           replacement.storage, storage, manager.State())
                && var target := HeldTarget(before.weak, other.storage);
                   Holds(manager.State().weak, storage, if Live(manager.allocations, target) then target else 0)
    {
      hide *;
      ghost var s := manager.State();
      before, copying, mid, pauses, mid2, pauses2 := s, [], s, [], s, [];
      if other.storage == storage {
        return;
      }
      TakeAndCreate(replacement);
      ghost var started := manager.State();
      before, copying := manager.CopyWeakRef(other.storage, replacement.storage, parked);
      StillUnlisted(started, copying, before, replacement.storage);
      CopyHolds(before, other.storage, replacement.storage);
      CopyKeeps(started, copying, before, other.storage, replacement.storage);
      KeptTaken(started.weak, manager.State().weak, storage);
      KeptTaken(started.weak, manager.State().weak, replacement.storage);
      HoldsIsHeld(manager.State(), replacement.storage, HeldTarget(before.weak, other.storage));
      mid, pauses, mid2, pauses2 := Adopt(replacement, parkedFirst, parkedThen);
    }

    // This handle is taken, and the local one created.
    method TakeAndCreate(replacement: GcWeakPtr)
      requires manager.Valid() && replacement.manager == manager && storage in manager.weakHandles
      requires replacement.storage != 0 && replacement.storage !in manager.weakHandles
      requires replacement.storage !in manager.guardedWords
      modifies manager`busyHandles, manager`weakHandles, manager`memory
      ensures manager.Valid() && manager.Headers() == old(manager.Headers())
      ensures manager.State() == Created(Taken(old(manager.State()), {storage}), replacement.storage)
      ensures Unlisted(manager.State().weak, replacement.storage) && replacement.storage != storage
      ensures {storage, replacement.storage} <= manager.State().weak.handles
      ensures {storage, replacement.storage} <= manager.State().weak.busy
    {
      hide *;
      ghost var s := manager.State();
      manager.Fields();
      TakenHandles(s, {storage});
      manager.TakeHandles({storage});
      manager.Fields();
      CreatedIsValid(manager.State(), replacement.storage);
      CreatedHandles(manager.State(), replacement.storage);
      manager.CreateHandle(replacement.storage);
    }

    // operator=(const gc_ptr<T>&).
    method Assign(p: Address, replacement: GcWeakPtr, parked: Parked, parkedFirst: Parked, parkedThen: Parked)
      returns (ghost before: Snapshot, ghost registering: seq<Pause>, ghost mid: Snapshot, ghost pauses: seq<Pause>,
               ghost mid2: Snapshot, ghost pauses2: seq<Pause>)
      requires manager.Valid() && replacement.manager == manager
      requires storage in manager.weakHandles && storage !in manager.busyHandles
      requires replacement.storage != 0 && replacement.storage !in manager.weakHandles
      requires replacement.storage !in manager.guardedWords
      modifies manager, manager.Headers()
      ensures manager.Valid() && manager.collecting == old(manager.collecting)
      ensures manager.Headers() <= old(manager.Headers())
      ensures
        var s := Created(Taken(old(manager.State()), {storage}), replacement.storage);
        && Paused(WithWord(s, replacement.storage, EncodeWeak(p)), registering, before)
        && Adopted(Initialized(before, p, replacement.storage), pauses, mid, pauses2, mid2,
                   replacement.storage, storage, manager.State())
        && Holds(manager.State().weak, storage,
                 if Live(before.allocations, p) && Live(manager.allocations, p) then p else 0)
    {
      hide *;
      TakeAndCreate(replacement);
      ghost var started := manager.State();
      before, registering := replacement.Initialize(p, parked);
      KeptTaken(started.weak, manager.State().weak, storage);
      KeptTaken(started.weak, manager.State().weak, replacement.storage);
      HoldsIsHeld(manager.State(), replacement.storage, if p != 0 && Live(before.allocations, p) then p else 0);
      mid, pauses, mid2, pauses2 := Adopt(replacement, parkedFirst, parkedThen);
    }

    // ~gc_weak_ptr().
    method Destroy(parked: Parked) returns (ghost mid: Snapshot, ghost pauses: seq<Pause>)
      requires manager.Valid()
      requires storage in manager.weakHandles && storage !in manager.busyHandles
      modifies manager, manager.Headers()
      ensures manager.Valid() && manager.collecting == old(manager.collecting)
      ensures manager.Headers() <= old(manager.Headers())
      ensures Paused(Taken(old(manager.State()), {storage}), pauses, mid)
      ensures manager.State() ==
                if Load(old(manager.memory), storage) == 0 then Destroyed(mid, storage)
                else Destroyed(AfterUnregister(mid, storage), storage)
      ensures storage !in manager.State().weak.targets && storage !in manager.State().weak.handles
    {
      hide *;
      ghost var s := manager.State();
      manager.Fields();
      TakenHandles(s, {storage});
      manager.TakeHandles({storage});
      manager.Fields();
      mid, pauses := manager.State(), [];
      NoPauses(mid);
      if Load(manager.memory, storage) == 0 {
        ZeroIsUnlisted(mid, storage);
      } else {
        mid, pauses := manager.UnregisterWeakRef(storage, parked);
      }
      DestroyedHandle(mid, storage);
      manager.RemoveHandle(storage);
    }

    // lock(): never an address outside the live blocks.
    method Lock(parked: Parked) returns (target: Address, ghost pauses: seq<Pause>)
      requires manager.Valid()
      modifies manager, manager.Headers()
      ensures manager.Valid() && manager.collecting == old(manager.collecting)
      ensures manager.Headers() <= old(manager.Headers())
      ensures Paused(old(manager.State()), pauses, manager.State())
      ensures target == HeldTarget(manager.State().weak, storage)
      ensures target != 0 ==> Live(manager.allocations, target)
    {
      hide *;
      target, pauses := manager.ReadWeakRef(storage, parked);
      manager.Fields();
      HeldNonzero(manager.State(), storage);
    }

    // expired().
    method Expired(parked: Parked) returns (expired: bool, ghost pauses: seq<Pause>)
      requires manager.Valid()
      modifies manager, manager.Headers()
      ensures manager.Valid() && manager.collecting == old(manager.collecting)
      ensures manager.Headers() <= old(manager.Headers())
      ensures Paused(old(manager.State()), pauses, manager.State())
      ensures expired <==> storage !in manager.State().weak.targets
    {
      hide *;
      var target;
      target, pauses := Lock(parked);
      manager.Fields();
      HeldNonzero(manager.State(), storage);
      expired := target == 0;
    }
  }
}
