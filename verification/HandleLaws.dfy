/**
What the operations on weak handles change, address by address, and that everything else stays:
other handles and their entries, other words, blocks, ranges and counters.
 */
module HandleLaws {
  import opened Words
  import opened Blocks
  import opened WeakRegistry
  import opened HeapState
  import opened Mutation
  import opened HandleState

  // Whether a is a handle, in use, and registered, for what, and the word there.
  ghost predicate SameAt(w: WeakState, w': WeakState, a: Address) {
    && (a in w'.handles <==> a in w.handles) && (a in w'.busy <==> a in w.busy)
    && (a in w'.targets <==> a in w.targets) && (a in w.targets ==> w'.targets[a] == w.targets[a])
    && Load(w'.memory, a) == Load(w.memory, a)
  }

  // Nothing but the handles at `places` differs.
  ghost predicate OnlyAt(s: Snapshot, s': Snapshot, places: set<Address>) {
    && s == s'.(weak := s.weak) && s'.weak.guarded == s.weak.guarded
    && forall a: Address :: a !in places ==> SameAt(s.weak, s'.weak, a)
  }

  lemma OnlyAtTwice(s: Snapshot, s1: Snapshot, s2: Snapshot, places: set<Address>, more: set<Address>)
    requires OnlyAt(s, s1, places) && OnlyAt(s1, s2, more)
    ensures OnlyAt(s, s2, places + more)
  {
  }

  // --- The registry ---

  // A code and its pointer add up to zero in 64 bits, and the pointer determines it.
  lemma CodeIsNegative(p: Address, word: Word)
    ensures word == EncodeWeak(p) <==> (p + word) % 0x1_0000_0000_0000_0000 == 0
  {
  }

  // What a handle holds, as its word and its entry say it.
  lemma HoldsExactly(w: WeakState, h: Address, target: Address)
    ensures Holds(w, h, target) <==>
              && (target + Load(w.memory, h)) % 0x1_0000_0000_0000_0000 == 0
              && (if target == 0 then h !in w.targets else h in w.targets && w.targets[h] == target)
  {
    CodeIsNegative(target, Load(w.memory, h));
  }

  ghost predicate InBlock(allocations: Allocations, a: Address) {
    exists b :: b in allocations && allocations[b].payloadBegin <= a < allocations[b].payloadEnd
  }

  lemma InBlockIsLive(allocations: Allocations, a: Address)
    ensures InBlock(allocations, a) <==> Live(allocations, a)
  {
    if b :| b in allocations && allocations[b].payloadBegin <= a < allocations[b].payloadEnd {
      assert Owns(allocations, b, a);
    }
    if b :| Owns(allocations, b, a) {
      assert allocations[b].payloadBegin <= a < allocations[b].payloadEnd;
    }
  }

  // register_weak_ref: an entry for an address in a live block; a zero word otherwise.
  lemma Registering(s: Snapshot, target: Address, h: Address)
    ensures
      var s' := AfterRegister(s, target, h);
      && OnlyAt(s, s', {h}) && s'.weak.handles == s.weak.handles && s'.weak.busy == s.weak.busy
      && if InBlock(s.allocations, target) then
           && h in s'.weak.targets && s'.weak.targets[h] == target
           && Load(s'.weak.memory, h) == Load(s.weak.memory, h)
         else
           && s'.weak.targets == s.weak.targets && Load(s'.weak.memory, h) == 0
  {
    InBlockIsLive(s.allocations, target);
    hide Live, InBlock;
  }

  // unregister_weak_ref: the entry of this handle goes; no other entry and no word does.
  lemma Unregistering(s: Snapshot, h: Address)
    ensures
      var s' := AfterUnregister(s, h);
      && OnlyAt(s, s', {h}) && s'.weak.handles == s.weak.handles && s'.weak.busy == s.weak.busy
      && s'.weak.memory == s.weak.memory && h !in s'.weak.targets
      && forall a :: a != h ==> (a in s'.weak.targets <==> a in s.weak.targets)
  {
  }

  // copy_weak_ref: the second handle gets the word and the target of the first, or zero.
  lemma Copying(s: Snapshot, from: Address, to: Address)
    requires from != to && to !in s.weak.targets
    ensures
      var s' := AfterCopy(s, from, to);
      && OnlyAt(s, s', {to}) && s'.weak.handles == s.weak.handles && s'.weak.busy == s.weak.busy
      && (to in s'.weak.targets <==> from in s.weak.targets)
      && (from in s.weak.targets ==> s'.weak.targets[to] == s.weak.targets[from])
      && Load(s'.weak.memory, to) == if from in s.weak.targets then Load(s.weak.memory, from) else 0
  {
  }

  // update_weak_ref: word and entry move over, and the first handle is left with neither; without
  // an entry, the second handle becomes null.
  lemma Updating(s: Snapshot, from: Address, to: Address)
    requires from != to && to !in s.weak.targets
    ensures
      var s' := AfterUpdate(s, from, to);
      && OnlyAt(s, s', {from, to}) && s'.weak.handles == s.weak.handles && s'.weak.busy == s.weak.busy
      && from !in s'.weak.targets && (to in s'.weak.targets <==> from in s.weak.targets)
      && if from in s.weak.targets then
           && s'.weak.targets[to] == s.weak.targets[from]
           && Load(s'.weak.memory, to) == Load(s.weak.memory, from) && Load(s'.weak.memory, from) == 0
         else
           && Load(s'.weak.memory, to) == 0 && Load(s'.weak.memory, from) == Load(s.weak.memory, from)
  {
  }

  // --- Handles come, are used, and go ---

  lemma Using(s: Snapshot, hs: set<Address>)
    ensures
      && OnlyAt(s, Taken(s, hs), hs) && OnlyAt(s, LetGo(s, hs), hs)
      && forall h: Address :: h in hs ==>
           && h in Taken(s, hs).weak.busy && SameAt(s.weak, Taken(s, hs).weak.(busy := s.weak.busy), h)
           && h !in LetGo(s, hs).weak.busy && SameAt(s.weak, LetGo(s, hs).weak.(busy := s.weak.busy), h)
  {
  }

  lemma Creating(s: Snapshot, h: Address, word: Word)
    ensures
      var s' := WithWord(Created(s, h), h, word);
      && OnlyAt(s, s', {h}) && h in s'.weak.handles && h in s'.weak.busy && Load(s'.weak.memory, h) == word
      && s'.weak.targets == s.weak.targets && Load(Created(s, h).weak.memory, h) == 0
      && OnlyAt(s, Created(s, h), {h}) && SameAt(s'.weak.(memory := Created(s, h).weak.memory), Created(s, h).weak, h)
  {
  }

  lemma Destroying(s: Snapshot, h: Address)
    ensures
      var s' := Destroyed(s, h);
      && OnlyAt(s, s', {h}) && h !in s'.weak.handles && h !in s'.weak.busy
      && s'.weak.memory == s.weak.memory && s'.weak.targets == s.weak.targets
  {
  }

  // --- Whole operations ---

  // An idle handle that was made for p: it has an entry for p, and its code as the word, exactly if
  // p lies in one of these blocks; it has no entry and a zero word otherwise.
  ghost predicate PointsAt(w: WeakState, h: Address, p: Address, allocations: Allocations) {
    && h in w.handles && h !in w.busy && (h in w.targets <==> InBlock(allocations, p))
    && (h in w.targets ==> w.targets[h] == p)
    && (p + Load(w.memory, h)) % 0x1_0000_0000_0000_0000 == if InBlock(allocations, p) then 0 else p
  }

  // Construction from a pointer: before the registry is reached, the handle is new and holds the
  // code alone; afterwards it is idle, and registered if the pointer is into a live block.
  lemma ConstructionChanges(s: Snapshot, p: Address, pauses: seq<Pause>, mid: Snapshot, h: Address)
    requires ValidState(s) && ValidState(mid) && h != 0 && h !in s.weak.handles && h !in s.weak.guarded
    requires Paused(WithWord(Created(s, h), h, EncodeWeak(p)), pauses, mid)
    ensures OnlyAt(s, WithWord(Created(s, h), h, EncodeWeak(p)), {h})
    ensures
      var s' := LetGo(Initialized(mid, p, h), {h});
      OnlyAt(mid, s', {h}) && PointsAt(s'.weak, h, p, mid.allocations)
  {
    hide *;
    CreatedIsValid(s, h);
    WithWordIsValid(Created(s, h), h, EncodeWeak(p));
    StillUnlisted(WithWord(Created(s, h), h, EncodeWeak(p)), pauses, mid, h);
    Creating(s, h, EncodeWeak(p));
    InitializingChanges(mid, p, h);
  }

  lemma InitializingChanges(mid: Snapshot, p: Address, h: Address)
    requires ValidState(mid) && Unlisted(mid.weak, h) && Load(mid.weak.memory, h) == EncodeWeak(p)
    ensures
      var s' := LetGo(Initialized(mid, p, h), {h});
      OnlyAt(mid, s', {h}) && PointsAt(s'.weak, h, p, mid.allocations)
  {
    hide *;
    CodeIsNegative(p, Load(mid.weak.memory, h));
    ZeroWord(p);
    NullInNoBlock(mid);
    Registering(mid, p, h);
    InitializedIs(mid, p, h);
    UnlistedTargets(mid.weak, h);
    IdleAgain(mid, Initialized(mid, p, h), h);
    ThenPointsAt(LetGo(Initialized(mid, p, h), {h}).weak, h, p, mid.allocations);
  }

  lemma ThenPointsAt(w: WeakState, h: Address, p: Address, allocations: Allocations)
    requires h in w.handles && h !in w.busy && (h in w.targets <==> InBlock(allocations, p))
    requires h in w.targets ==> w.targets[h] == p
    requires (p + Load(w.memory, h)) % 0x1_0000_0000_0000_0000 == if InBlock(allocations, p) then 0 else p
    ensures PointsAt(w, h, p, allocations)
  {
    hide InBlock, Load;
  }

  lemma ZeroWord(p: Address)
    ensures (p + 0) % 0x1_0000_0000_0000_0000 == p
  {
  }

  lemma InitializedIs(mid: Snapshot, p: Address, h: Address)
    ensures Initialized(mid, p, h) == if p == 0 then mid else AfterRegister(mid, p, h)
    ensures OnlyAt(mid, mid, {h})
  {
    hide AfterRegister;
  }

  lemma IdleAgain(mid: Snapshot, s: Snapshot, h: Address)
    requires OnlyAt(mid, s, {h})
    ensures
      var s' := LetGo(s, {h});
      && OnlyAt(mid, s', {h}) && h !in s'.weak.busy && s'.weak.handles == s.weak.handles
      && s'.weak.targets == s.weak.targets && s'.weak.memory == s.weak.memory
  {
  }

  lemma NullInNoBlock(s: Snapshot)
    requires ValidState(s)
    ensures !InBlock(s.allocations, 0)
  {
  }

  // Copying makes a new handle with the word and the target of the other one, which stays.
  lemma CopyChanges(s: Snapshot, pauses: seq<Pause>, mid: Snapshot, from: Address, to: Address)
    requires ValidState(s) && to != 0 && to !in s.weak.handles && to !in s.weak.guarded && from != to
    requires Paused(Created(s, to), pauses, mid)
    ensures OnlyAt(s, Created(s, to), {to})
    ensures
      var s' := LetGo(AfterCopy(mid, from, to), {to});
      && OnlyAt(mid, s', {to}) && to in s'.weak.handles && to !in s'.weak.busy
      && (to in s'.weak.targets <==> from in mid.weak.targets)
      && (from in mid.weak.targets ==> s'.weak.targets[to] == mid.weak.targets[from])
      && Load(s'.weak.memory, to) == if from in mid.weak.targets then Load(mid.weak.memory, from) else 0
  {
    hide *;
    CreatedIsValid(s, to);
    StillUnlisted(Created(s, to), pauses, mid, to);
    Creating(s, to, 0);
    CopyingChanges(mid, from, to);
  }

  lemma CopyingChanges(mid: Snapshot, from: Address, to: Address)
    requires Unlisted(mid.weak, to) && from != to
    ensures
      var s' := LetGo(AfterCopy(mid, from, to), {to});
      && OnlyAt(mid, s', {to}) && to in s'.weak.handles && to !in s'.weak.busy
      && (to in s'.weak.targets <==> from in mid.weak.targets)
      && (from in mid.weak.targets ==> s'.weak.targets[to] == mid.weak.targets[from])
      && Load(s'.weak.memory, to) == if from in mid.weak.targets then Load(mid.weak.memory, from) else 0
  {
    Copying(mid, from, to);
    Using(AfterCopy(mid, from, to), {to});
  }

  // A move writes the word first; then the entry follows, and the source is null.
  lemma MoveChanges(s: Snapshot, pauses: seq<Pause>, mid: Snapshot, from: Address, to: Address)
    requires ValidState(s) && Unlisted(s.weak, to) && from in s.weak.handles && from in s.weak.busy && from != to
    requires Paused(MoveStarted(s, from, to), pauses, mid)
    ensures OnlyAt(s, MoveStarted(s, from, to), {to})
    ensures MovedOver(mid, Moved(s, mid, from, to), from, to)
  {
    hide *;
    var s1 := MoveStarted(s, from, to);
    MoveStarts(s, from, to);
    Writing(s, to, Load(s.weak.memory, from));
    StillUnlisted(s1, pauses, mid, to);
    StillBusy(s1, pauses, mid, from);
    ZeroIsUnlisted(s, from);
    MovingChanges(s, mid, from, to);
  }

  // Word and entry of one handle are those the other one had, which has neither.
  ghost predicate MovedOver(s: Snapshot, s': Snapshot, from: Address, to: Address) {
    && OnlyAt(s, s', {from, to}) && s'.weak.handles == s.weak.handles && s'.weak.busy == s.weak.busy
    && from !in s'.weak.targets && Load(s'.weak.memory, from) == 0
    && (to in s'.weak.targets <==> from in s.weak.targets)
    && (from in s.weak.targets ==>
          s'.weak.targets[to] == s.weak.targets[from] && Load(s'.weak.memory, to) == Load(s.weak.memory, from))
    && (from !in s.weak.targets ==> Load(s'.weak.memory, to) == 0)
  }

  lemma Writing(s: Snapshot, h: Address, word: Word)
    ensures
      var s' := WithWord(s, h, word);
      && OnlyAt(s, s', {h}) && Load(s'.weak.memory, h) == word && s'.weak.handles == s.weak.handles
      && s'.weak.busy == s.weak.busy && s'.weak.targets == s.weak.targets
  {
  }

  lemma MovingChanges(s: Snapshot, mid: Snapshot, from: Address, to: Address)
    requires Unlisted(mid.weak, to) && from != to && HandleKept(MoveStarted(s, from, to), mid, from)
    requires Load(mid.weak.memory, to) == Load(MoveStarted(s, from, to).weak.memory, to)
    requires Load(s.weak.memory, from) == 0 ==> from !in s.weak.targets
    ensures MovedOver(mid, Moved(s, mid, from, to), from, to)
  {
    Updating(mid, from, to);
    hide Live;
  }

  // A reset takes the entry and zeroes the word; a handle whose word is zero already stays as it is.
  lemma ResetChanges(s: Snapshot, pauses: seq<Pause>, mid: Snapshot, h: Address)
    requires ValidState(s) && h in s.weak.handles && h in s.weak.busy && Paused(s, pauses, mid)
    ensures
      var s' := Nulled(s, mid, h);
      && OnlyAt(mid, s', {h}) && s'.weak.handles == mid.weak.handles && s'.weak.busy == mid.weak.busy
      && h !in s'.weak.targets && Load(s'.weak.memory, h) == 0
  {
    hide *;
    ZeroIsUnlisted(s, h);
    StillBusy(s, pauses, mid, h);
    NullingChanges(s, mid, h);
  }

  lemma NullingChanges(s: Snapshot, mid: Snapshot, h: Address)
    requires HandleKept(s, mid, h) && (Load(s.weak.memory, h) == 0 ==> h !in s.weak.targets)
    ensures
      var s' := Nulled(s, mid, h);
      && OnlyAt(mid, s', {h}) && s'.weak.handles == mid.weak.handles && s'.weak.busy == mid.weak.busy
      && h !in s'.weak.targets && Load(s'.weak.memory, h) == 0
  {
    hide Live;
  }

  // Assignment through a replacement: the handle ends up with the entry of the replacement, which
  // is destroyed, and nothing changes besides the two.
  lemma AdoptionChanges(
      s: Snapshot, pauses: seq<Pause>, mid: Snapshot, pauses2: seq<Pause>, mid2: Snapshot, temp: Address, h: Address,
      s': Snapshot)
    requires Adopted(s, pauses, mid, pauses2, mid2, temp, h, s') && temp != h && ValidState(s) && ValidState(mid)
    requires h in s.weak.handles && h in s.weak.busy && temp in s.weak.handles && temp in s.weak.busy
    ensures OnlyAt(mid, MoveStarted(Nulled(s, mid, h), temp, h), {h})
    ensures OnlyAt(mid2, s', {temp, h}) && temp !in s'.weak.handles && temp !in s'.weak.busy && h !in s'.weak.busy
    ensures temp !in s'.weak.targets && (h in s'.weak.targets <==> temp in mid2.weak.targets)
    ensures h in s'.weak.targets ==> s'.weak.targets[h] == mid2.weak.targets[temp]
    ensures Load(s'.weak.memory, h) == if temp in mid2.weak.targets then Load(mid2.weak.memory, temp) else 0
  {
    var cleared := Nulled(s, mid, h);
    var started, moved := MoveStarted(cleared, temp, h), Moved(cleared, mid2, temp, h);
    AdoptedParts(s, pauses, mid, pauses2, mid2, temp, h, s');
    hide *;
    ResetChanges(s, pauses, mid, h);
    StillBusy(s, pauses, mid, h);
    StillBusy(s, pauses, mid, temp);
    ClearedIsValid(s, mid, h);
    ClearedKeeps(s, mid, cleared, h, temp);
    MoveChanges(cleared, pauses2, mid2, temp, h);
    TwoChanges(mid, cleared, started, h);
    AdoptionEnds(mid2, moved, temp, h);
  }

  lemma ClearedIsValid(s: Snapshot, mid: Snapshot, h: Address)
    requires ValidState(mid) && HandleKept(s, mid, h)
    ensures ValidState(Nulled(s, mid, h))
  {
    hide ValidState, Live, HandleKept;
    KeptHandle(s, mid, h);
    if Load(s.weak.memory, h) != 0 {
      UnregisterIsValid(mid, h);
      UnregisterHolds(mid, h);
      WithWordIsValid(AfterUnregister(mid, h), h, 0);
    }
  }

  lemma KeptHandle(s: Snapshot, mid: Snapshot, h: Address)
    requires HandleKept(s, mid, h)
    ensures h in mid.weak.handles && h in mid.weak.busy
  {
  }

  lemma ClearedKeeps(s: Snapshot, mid: Snapshot, cleared: Snapshot, h: Address, temp: Address)
    requires HandleKept(s, mid, h) && HandleKept(s, mid, temp) && OnlyAt(mid, cleared, {h}) && temp != h
    requires cleared.weak.handles == mid.weak.handles && cleared.weak.busy == mid.weak.busy
    requires h !in cleared.weak.targets
    ensures Unlisted(cleared.weak, h) && temp in cleared.weak.handles && temp in cleared.weak.busy
  {
    KeptHandle(s, mid, h);
    KeptHandle(s, mid, temp);
    hide HandleKept, OnlyAt;
  }

  lemma AdoptionEnds(mid: Snapshot, moved: Snapshot, temp: Address, h: Address)
    requires MovedOver(mid, moved, temp, h) && temp != h
    ensures
      var s' := LetGo(Destroyed(moved, temp), {h});
      && OnlyAt(mid, s', {temp, h}) && temp !in s'.weak.handles && temp !in s'.weak.busy && h !in s'.weak.busy
      && temp !in s'.weak.targets && (h in s'.weak.targets <==> temp in mid.weak.targets)
      && (h in s'.weak.targets ==> s'.weak.targets[h] == mid.weak.targets[temp])
      && Load(s'.weak.memory, h) == if temp in mid.weak.targets then Load(mid.weak.memory, temp) else 0
  {
  }

  lemma AdoptedParts(
      s: Snapshot, pauses: seq<Pause>, mid: Snapshot, pauses2: seq<Pause>, mid2: Snapshot, temp: Address, h: Address,
      s': Snapshot)
    requires Adopted(s, pauses, mid, pauses2, mid2, temp, h, s')
    ensures Paused(s, pauses, mid) && Paused(MoveStarted(Nulled(s, mid, h), temp, h), pauses2, mid2)
    ensures s' == LetGo(Destroyed(Moved(Nulled(s, mid, h), mid2, temp, h), temp), {h})
  {
    hide Paused, Nulled, Moved, MoveStarted;
  }

  lemma TwoChanges(s: Snapshot, s1: Snapshot, s2: Snapshot, h: Address)
    requires OnlyAt(s, s1, {h}) && OnlyAt(s1, s2, {h})
    ensures OnlyAt(s, s2, {h})
  {
    OnlyAtTwice(s, s1, s2, {h}, {h});
    assert {h} + {h} == {h};
    hide OnlyAt;
  }

  // --- Counts of arrays ---

  // A count is written and protected; nothing else changes, then and when it is given up.
  lemma Guarding(s: Snapshot, p: Address, word: Word)
    ensures
      var s' := Guarded(s, p, word);
      && s == s'.(weak := s.weak) && s'.weak.guarded == s.weak.guarded + {p} && Load(s'.weak.memory, p) == word
      && s'.weak.handles == s.weak.handles && s'.weak.busy == s.weak.busy && s'.weak.targets == s.weak.targets
      && forall a: Address :: a != p ==> Load(s'.weak.memory, a) == Load(s.weak.memory, a)
    ensures Unguarded(s, p) == s.(weak := s.weak.(guarded := s.weak.guarded - {p}))
  {
  }
}
