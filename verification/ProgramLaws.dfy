/**
What constructors and destructors do, step by step, when nobody collects meanwhile; and the
finalizer of an array, piece by piece.
 */
module ProgramLaws {
  import opened Wrappers
  import opened Words
  import opened ChunkHeaders
  import opened Blocks
  import opened WeakRegistry
  import opened Layout
  import opened Marking
  import opened HeapState
  import opened Mutation
  import opened HandleState
  import opened FinalizerLaws
  import opened HandleLaws
  import opened Construction

  // --- Where an array goes ---

  // An array has a place exactly if its prefix and elements fit a word.
  lemma PlaceExactly(spec: ArraySpec, payload: Address)
    requires IsPower(spec.elementAlignment) && 8 + spec.elementAlignment < 0x1_0000_0000_0000_0000
    ensures
      var prefix := if spec.elementAlignment < 8 then 8 else spec.elementAlignment;
      && (PlaceOf(spec, payload).Some? <==> prefix + spec.elementSize * spec.count < 0x1_0000_0000_0000_0000)
      && (PlaceOf(spec, payload).Some? ==>
            PlaceOf(spec, payload).value ==
            ArrayPlace(payload, ArrayLayout(prefix, prefix + spec.elementSize * spec.count, prefix), spec.elementSize))
  {
    ArrayLayoutExact(spec.count, spec.elementSize, spec.elementAlignment);
    hide ArrayLayoutOf;
  }

  // --- The finalizer of an array ---

  // The cuts divide the acts into n consecutive pieces with nothing left over, and the i-th piece
  // is the destructor of element n - 1 - i.
  ghost predicate LastFirst(acts: seq<Act>, cuts: seq<nat>, destructors: seq<seq<Act>>, n: nat) {
    && |cuts| == n + 1 && cuts[0] == 0 && cuts[n] == |acts|
    && forall i, j :: 0 <= i && j == i + 1 && j <= n ==>
         cuts[i] <= cuts[j] <= |acts| &&
         acts[cuts[i]..cuts[j]] == if n - 1 - i < |destructors| then destructors[n - 1 - i] else []
  }

  // The finalizer of n elements destroys each of them once, the last one first.
  lemma {:induction false} FinalizerPieces(spec: ArraySpec, n: nat) returns (cuts: seq<nat>)
    ensures LastFirst(FinalizerOf(spec, n), cuts, spec.destructors, n)
    decreases n
  {
    cuts := [0];
    if n > 0 {
      var first := DestructorOf(spec, n - 1);
      var rest := FinalizerPieces(spec, n - 1);
      cuts := [0] + seq(n, i requires 0 <= i < n => |first| + rest[i]);
      OnePieceMore(first, FinalizerOf(spec, n - 1), rest, spec.destructors, n, cuts);
    }
  }

  lemma OnePieceMore(
      first: seq<Act>, acts: seq<Act>, rest: seq<nat>, destructors: seq<seq<Act>>, n: nat, cuts: seq<nat>)
    requires n > 0 && LastFirst(acts, rest, destructors, n - 1)
    requires first == if n - 1 < |destructors| then destructors[n - 1] else []
    requires |cuts| == n + 1 && cuts[0] == 0
    requires forall i, j :: 0 <= i && j == i + 1 && j <= n ==> cuts[j] == |first| + rest[i]
    ensures LastFirst(first + acts, cuts, destructors, n)
  {
    forall i, j | 0 <= i && j == i + 1 && j <= n
      ensures cuts[i] <= cuts[j] <= |first + acts|
      ensures (first + acts)[cuts[i]..cuts[j]] ==
                if n - 1 - i < |destructors| then destructors[n - 1 - i] else []
    {
      if i > 0 {
        var k := i - 1;
        assert rest[k] <= rest[i] <= |acts| && cuts[i] == |first| + rest[k];
        Shifted(first, acts, rest[k], rest[i]);
      }
    }
  }

  lemma Shifted(first: seq<Act>, acts: seq<Act>, lo: nat, hi: nat)
    requires lo <= hi <= |acts|
    ensures (first + acts)[|first| + lo..|first| + hi] == acts[lo..hi]
  {
  }

  // So the finalizer of an array without elements changes nothing, and that of n elements does
  // what the destructor of the last one does, then the rest.
  lemma FinalizerRuns(s: Snapshot, spec: ArraySpec, n: nat)
    ensures AfterActs(s, FinalizerOf(spec, 0)) == s
    ensures n > 0 ==>
              AfterActs(s, FinalizerOf(spec, n)) ==
              AfterActs(AfterActs(s, if n - 1 < |spec.destructors| then spec.destructors[n - 1] else []),
                        FinalizerOf(spec, n - 1))
  {
    if n > 0 {
      ActsInSequence(s.weak, s.rootRanges, DestructorOf(spec, n - 1), FinalizerOf(spec, n - 1));
    }
  }

  // Acts change words, handles and ranges, and nothing else.
  lemma {:induction false} ActsLeaveRest(s: Snapshot, acts: seq<Act>)
    ensures
      var s' := AfterActs(s, acts);
      && s == s'.(weak := s.weak, rootRanges := s.rootRanges)
      && s'.weak == RunActs(s.weak, acts) && s'.rootRanges == RangesAfterActs(s.rootRanges, acts)
      && s'.weak.busy == s.weak.busy && s'.weak.guarded == s.weak.guarded
  {
    ActsKeepHandles(s.weak, acts);
  }

  // --- Steps while nobody collects ---

  // Parking changes nothing then, and a collection of this thread's own has failed.
  lemma QuietWait(step: Step, g: Stage)
    requires PlainPerformed(step, g) && (step.Park? || step.CollectNow?) && g.pauses == []
    ensures g.after == g.before && (g.threw <==> step.CollectNow?)
  {
  }

  // A write changes one word, and none that is private to the library.
  lemma QuietWrite(g: Stage, address: Address, value: Word)
    requires PlainPerformed(Write(address, value), g)
    ensures !g.threw && g.before == g.after.(weak := g.before.weak)
    ensures
      var w, w' := g.before.weak, g.after.weak;
      && w'.handles == w.handles && w'.busy == w.busy && w'.guarded == w.guarded && w'.targets == w.targets
      && (forall a: Address :: a != address ==> Load(w'.memory, a) == Load(w.memory, a))
      && Load(w'.memory, address) ==
           if address in w.handles || address in w.guarded then Load(w.memory, address) else value
  {
  }

  // Registering a range adds it, with its endpoints in order; null and empty ones are ignored.
  lemma QuietAddRange(g: Stage, begin: Address, end: Address, parked: Parked)
    requires PlainPerformed(AddRange(begin, end, parked), g) && g.pauses == []
    ensures !g.threw && g.before == g.after.(rootRanges := g.before.rootRanges)
    ensures
      if begin == 0 || end == 0 || begin == end then g.after.rootRanges == g.before.rootRanges
      else
        && |g.after.rootRanges| == |g.before.rootRanges| + 1 && g.before.rootRanges <= g.after.rootRanges
        && var r := g.after.rootRanges[|g.before.rootRanges|];
           r.begin < r.end && ((r.begin == begin && r.end == end) || (r.begin == end && r.end == begin))
  {
  }

  // Unregistering takes one equal range away, if there is one.
  lemma QuietRemoveRange(g: Stage, begin: Address, end: Address, parked: Parked, r: RootRange)
    requires PlainPerformed(RemoveRange(begin, end, parked), g) && g.pauses == []
    ensures !g.threw && g.before == g.after.(rootRanges := g.before.rootRanges)
    ensures
      var had := multiset(g.before.rootRanges)[r];
      multiset(g.after.rootRanges)[r] == if Drops(DropRange(begin, end), r) && had > 0 then had - 1 else had
  {
    OneActDrops(g.before.rootRanges, DropRange(begin, end), r);
    hide WithoutFirst;
  }

  // A weak handle comes into being at a free place, idle, and registered if the pointer is into a
  // live block.
  lemma QuietPointWeakly(g: Stage, h: Address, target: Address, parked: Parked)
    requires PlainPerformed(PointWeakly(h, target, parked), g) && g.pauses == [] && ValidState(g.before)
    ensures !g.threw && OnlyAt(g.before, g.after, {h})
    ensures if h == 0 || h in g.before.weak.handles || h in g.before.weak.guarded then g.after == g.before
            else PointsAt(g.after.weak, h, target, g.before.allocations)
  {
    hide *;
    Pointing(g, h, target, parked);
    FreePlaceMeans(g.before.weak, h);
    if FreeForHandle(g.before.weak, h) {
      CreatedIsValid(g.before, h);
      WithWordIsValid(Created(g.before, h), h, EncodeWeak(target));
      ConstructionChanges(g.before, target, g.pauses, g.mid, h);
      TwoChanges(g.before, g.mid, g.after, h);
      SameBlocks(g.before, g.mid, {h});
    } else {
      OnlyItself(g.before, {h});
    }
  }

  lemma Pointing(g: Stage, h: Address, target: Address, parked: Parked)
    requires PlainPerformed(PointWeakly(h, target, parked), g) && g.pauses == []
    ensures !g.threw
    ensures if !FreeForHandle(g.before.weak, h) then g.after == g.before
            else
              && Paused(WithWord(Created(g.before, h), h, EncodeWeak(target)), g.pauses, g.mid)
              && g.mid == WithWord(Created(g.before, h), h, EncodeWeak(target))
              && g.after == LetGo(Initialized(g.mid, target, h), {h})
  {
    hide FreeForHandle, WithWord, Created, EncodeWeak, LetGo, Initialized;
  }

  lemma FreePlaceMeans(w: WeakState, h: Address)
    ensures FreeForHandle(w, h) <==> h != 0 && h !in w.handles && h !in w.guarded
  {
  }

  lemma OnlyItself(s: Snapshot, places: set<Address>)
    ensures OnlyAt(s, s, places)
  {
  }

  lemma SameBlocks(s: Snapshot, s': Snapshot, places: set<Address>)
    requires OnlyAt(s, s', places)
    ensures s'.allocations == s.allocations
  {
  }

  // An idle handle goes, with its entry and nothing else; there is no other handle to destroy.
  lemma QuietDropHandle(g: Stage, h: Address, parked: Parked)
    requires PlainPerformed(DropHandle(h, parked), g) && g.pauses == [] && ValidState(g.before)
    ensures !g.threw && OnlyAt(g.before, g.after, {h}) && g.after.weak.memory == g.before.weak.memory
    ensures g.after.weak.busy == g.before.weak.busy
    ensures g.after.weak.handles == if h in g.before.weak.busy then g.before.weak.handles
                                    else g.before.weak.handles - {h}
    ensures g.after.weak.targets == if h in g.before.weak.busy then g.before.weak.targets
                                    else g.before.weak.targets - {h}
  {
    ValidParts(g.before);
    if h in g.before.weak.handles {
      ZeroIsUnlisted(g.before, h);
    }
    hide ValidState, Live, EncodeWeak;
    DroppingHandle(g, h, parked);
  }

  lemma DroppingHandle(g: Stage, h: Address, parked: Parked)
    requires PlainPerformed(DropHandle(h, parked), g) && g.pauses == []
    requires h in g.before.weak.targets ==> h in g.before.weak.handles && Load(g.before.weak.memory, h) != 0
    ensures !g.threw && OnlyAt(g.before, g.after, {h}) && g.after.weak.memory == g.before.weak.memory
    ensures g.after.weak.busy == g.before.weak.busy
    ensures g.after.weak.handles == if h in g.before.weak.busy then g.before.weak.handles
                                    else g.before.weak.handles - {h}
    ensures g.after.weak.targets == if h in g.before.weak.busy then g.before.weak.targets
                                    else g.before.weak.targets - {h}
  {
    assert h !in g.before.weak.busy ==> g.before.weak.busy + {h} - {h} == g.before.weak.busy;
  }

  // --- Destructors ---

  // Outside a collection, an act of a destructor does what it does in a finalizer.
  lemma QuietAct(act: Act, setting: Setting, g: Stage)
    requires PlainPerformed(StepOf(act, setting), g) && g.pauses == [] && ValidState(g.before)
    ensures g.after == AfterAct(g.before, act) && ValidState(g.after)
  {
    hide ValidState;
    ActKeepsValid(g.before, act);
    match act
    case Recollect => QuietWait(StepOf(act, setting), g);
    case Reshutdown => QuietWait(StepOf(act, setting), g);
    case Store(address, value) =>
    case DropWeak(storage) => QuietDrop(g, storage, setting);
    case DropRange(begin, end) => hide WithoutFirst;
  }

  lemma QuietDrop(g: Stage, h: Address, setting: Setting)
    requires PlainPerformed(StepOf(DropWeak(h), setting), g) && g.pauses == [] && ValidState(g.before)
    ensures g.after == AfterAct(g.before, DropWeak(h))
  {
    hide *;
    DropStep(h, setting);
    QuietDropHandle(g, h, setting.parkedLast);
    ValidParts(g.before);
    EntriesAreHandles(g.before);
    SameButHandles(g.before, g.after, h);
  }

  lemma DropStep(h: Address, setting: Setting)
    ensures StepOf(DropWeak(h), setting) == DropHandle(h, setting.parkedLast)
  {
  }

  lemma EntriesAreHandles(s: Snapshot)
    requires Consistent(s.weak, s.allocations)
    ensures forall h :: h in s.weak.targets ==> h in s.weak.handles
  {
  }

  lemma SameButHandles(s: Snapshot, s': Snapshot, h: Address)
    requires OnlyAt(s, s', {h}) && s'.weak.memory == s.weak.memory && s'.weak.busy == s.weak.busy
    requires s'.weak.handles == if h in s.weak.busy then s.weak.handles else s.weak.handles - {h}
    requires s'.weak.targets == if h in s.weak.busy then s.weak.targets else s.weak.targets - {h}
    requires forall a :: a in s.weak.targets ==> a in s.weak.handles
    ensures s' == AfterAct(s, DropWeak(h))
  {
    hide SameAt;
    assert h !in s.weak.handles ==> s.weak.handles - {h} == s.weak.handles && s.weak.targets - {h} == s.weak.targets;
  }

  // So the destructors of a rollback leave what the finalizers of a collection would leave.
  lemma {:induction false} QuietDestructor(
      acts: seq<Act>, setting: Setting, s: Snapshot, stages: seq<Stage>, s': Snapshot)
    requires ValidState(s) && |stages| == |acts| && Follows(s, stages, s')
    requires forall i :: 0 <= i < |acts| ==>
               PlainPerformed(StepOf(acts[i], setting), stages[i]) && stages[i].pauses == []
    ensures s' == AfterActs(s, acts) && ValidState(s')
    decreases |acts|
  {
    hide PlainPerformed, ValidState, StepOf, AfterAct;
    if acts == [] {
      RunNoActs(s, acts);
      assert acts[..0] == acts;
    } else {
      var n := |acts| - 1;
      QuietDestructor(acts[..n], setting, s, stages[..n], stages[n].before);
      QuietAct(acts[n], setting, stages[n]);
      OneMoreAct(s, acts, n);
      assert acts[..n + 1] == acts;
    }
  }

  // The stages of a program are one run: each begins where the one before it ended.
  lemma {:induction false} FollowsMeans(s: Snapshot, stages: seq<Stage>, s': Snapshot)
    ensures Follows(s, stages, s') <==>
              if stages == [] then s' == s
              else
                && stages[0].before == s && stages[|stages| - 1].after == s'
                && forall i, j :: 0 <= i && j == i + 1 && j < |stages| ==> stages[i].after == stages[j].before
    decreases |stages|
  {
    if stages != [] {
      var n := |stages| - 1;
      FollowsMeans(s, stages[..n], stages[n].before);
      assert forall i :: 0 <= i < n ==> stages[..n][i] == stages[i];
    }
  }
}
