/**
The two halves joined: what a collection does to the heap class is what the collector's step
does in the interleaving model.
 */
module StopTheWorldHeap {
  import Protocol = StopTheWorld
  import opened Wrappers
  import opened Words
  import opened Blocks
  import opened Accounting
  import opened Lifecycle
  import opened Reachability
  import opened WeakRegistry
  import opened Marking
  import opened Sweeping
  import opened HeapState
  import opened Mutation
  import opened CollectionTheorems

  // Where the blocks and the root objects of the interleaving model lie in memory.
  datatype Placement = Placement(blocks: map<Protocol.Block, Address>, slots: map<Protocol.Slot, Address>)

  // The storage of a root object is one aligned word in a registered range.
  ghost predicate Published(s: Snapshot, a: Address) {
    a > 0 && a % WORD_SIZE == 0 && a + WORD_SIZE <= WORD_MAX && RootRange(a, a + WORD_SIZE) in s.rootRanges
  }

  // Every block of the model has its record, pinned blocks are pinned, and every root object
  // in a published range holds an address in its block.
  ghost predicate Embeds(p: Placement, t: Protocol.State, s: Snapshot) {
    && (forall b :: b in t.allocations ==> b in p.blocks && p.blocks[b] in s.allocations)
    && (forall b :: b in t.constructing ==> b in t.allocations && s.allocations[p.blocks[b]].constructing)
    && (forall slot :: slot in t.ranges ==> slot in p.slots && Published(s, p.slots[slot]))
    && (forall slot :: slot in t.ranges && slot in t.contents && t.contents[slot] in t.allocations ==>
          Contains(s.allocations[p.blocks[t.contents[slot]]], Load(s.weak.memory, p.slots[slot])))
  }

  function SurvivingBlocks(p: Placement, t: Protocol.State, s': Snapshot): set<Protocol.Block> {
    set b | b in t.allocations && b in p.blocks && p.blocks[b] in s'.allocations
  }

  // The collection of the heap keeps everything that the model's collector must keep.
  lemma CollectionKeepsRoots(
      p: Placement, t: Protocol.State, s: Snapshot, s': Snapshot, stack: seq<Word>, report: Report)
    requires ValidState(s) && Collected(s, s', stack, report) && Embeds(p, t, s)
    ensures Protocol.KeepsRoots(t, SurvivingBlocks(p, t, s'))
  {
    PinnedSurvive(p, t, s, s', stack, report);
    hide ValidState, Collected, Embeds, SurvivingBlocks;
    forall b | b in t.allocations && Protocol.HeldInRange(t, b)
      ensures b in SurvivingBlocks(p, t, s')
    {
      var slot :| slot in t.ranges && slot in t.contents && t.contents[slot] == b;
      RootedSurvives(p, t, s, s', stack, report, slot);
    }
  }

  lemma PinnedSurvive(
      p: Placement, t: Protocol.State, s: Snapshot, s': Snapshot, stack: seq<Word>, report: Report)
    requires ValidState(s) && Collected(s, s', stack, report) && Embeds(p, t, s)
    ensures t.constructing <= SurvivingBlocks(p, t, s') <= t.allocations
  {
    hide ValidState, Collected;
    PinnedStay(s, s', stack, report);
  }

  lemma PinnedStay(s: Snapshot, s': Snapshot, stack: seq<Word>, report: Report)
    requires ValidState(s) && Collected(s, s', stack, report)
    ensures forall a :: a in s.allocations && s.allocations[a].constructing ==> a in s'.allocations
    ensures forall a :: a in s'.allocations ==> a in s.allocations && s'.allocations[a] == s.allocations[a]
  {
    hide ValidState, Collected, HandleKept, WellFormed, Consistent, HeadersFit, Balanced, Lives;
    ValidParts(s);
    CollectedSurvives(s, s', stack, report);
  }

  lemma RootedSurvives(
      p: Placement, t: Protocol.State, s: Snapshot, s': Snapshot, stack: seq<Word>, report: Report, slot: Protocol.Slot)
    requires ValidState(s) && Collected(s, s', stack, report) && Embeds(p, t, s)
    requires slot in t.ranges && slot in t.contents && t.contents[slot] in t.allocations
    ensures t.contents[slot] in SurvivingBlocks(p, t, s')
  {
    hide ValidState, Collected, Contains, WellFormed, Consistent, HeadersFit, Balanced, Lives;
    ValidParts(s);
    RootObjectKeepsTarget(s, s', stack, report, p.slots[slot], p.blocks[t.contents[slot]]);
  }

  // So finishing it is a step of the interleaving model.
  lemma CollectionIsStep(
      p: Placement, t: Protocol.State, c: Protocol.Tid, keptWeak: set<nat>,
      s: Snapshot, s': Snapshot, stack: seq<Word>, report: Report)
    requires ValidState(s) && Collected(s, s', stack, report) && Embeds(p, t, s)
    requires c in t.threads && t.threads[c].pc == Protocol.World(Protocol.Collect) && keptWeak <= t.weak
    ensures
      var kept := SurvivingBlocks(p, t, s');
      Protocol.Next(t, c, Protocol.FinishWorld(kept, keptWeak),
                    Protocol.FinishWorldStep(t, c, Protocol.Collect, kept, keptWeak))
  {
    CollectionKeepsRoots(p, t, s, s', stack, report);
    hide Collected, ValidState, Embeds;
  }

  // And if no finalizer writes a word or unregisters a range, the state after the step lies
  // in memory as the state before it did.
  lemma EmbeddingSurvives(
      p: Placement, t: Protocol.State, c: Protocol.Tid, keptWeak: set<nat>,
      s: Snapshot, s': Snapshot, stack: seq<Word>, report: Report)
    requires ValidState(s) && Collected(s, s', stack, report) && Embeds(p, t, s) && Quiet(report.batch)
    requires c in t.threads
    ensures Embeds(p, Protocol.FinishWorldStep(t, c, Protocol.Collect, SurvivingBlocks(p, t, s'), keptWeak), s')
  {
    hide *;
    ValidParts(s);
    PinnedStay(s, s', stack, report);
    PinnedSurvive(p, t, s, s', stack, report);
    RangesStay(s, s', stack, report);
    OnlyHighWordsZeroed(s, s', stack, report);
    AfterWorld(p, t, c, keptWeak, s');
    EmbedsSurvivors(p, t, Protocol.FinishWorldStep(t, c, Protocol.Collect, SurvivingBlocks(p, t, s'), keptWeak), s, s');
  }

  lemma AfterWorld(p: Placement, t: Protocol.State, c: Protocol.Tid, keptWeak: set<nat>, s': Snapshot)
    requires c in t.threads
    ensures
      var t' := Protocol.FinishWorldStep(t, c, Protocol.Collect, SurvivingBlocks(p, t, s'), keptWeak);
      && t'.allocations == SurvivingBlocks(p, t, s') && t'.constructing == t.constructing
      && t'.ranges == t.ranges && t'.contents == t.contents
  {
  }

  lemma EmbedsSurvivors(p: Placement, t: Protocol.State, t': Protocol.State, s: Snapshot, s': Snapshot)
    requires Embeds(p, t, s) && WellFormed(s.allocations) && HighWordsZeroed(s.weak.memory, s'.weak.memory)
    requires forall a :: a in s'.allocations ==> a in s.allocations && s'.allocations[a] == s.allocations[a]
    requires s'.rootRanges == s.rootRanges
    requires t'.allocations == SurvivingBlocks(p, t, s') && t'.constructing == t.constructing
    requires t'.ranges == t.ranges && t'.contents == t.contents && t.constructing <= SurvivingBlocks(p, t, s')
    ensures Embeds(p, t', s')
  {
    hide WellFormed, HighWordsZeroed, Contains, Load;
    forall slot | slot in t.ranges && slot in t.contents && t.contents[slot] in t'.allocations
      ensures Load(s'.weak.memory, p.slots[slot]) == Load(s.weak.memory, p.slots[slot])
    {
      LowWordStays(s, s', p.slots[slot], p.blocks[t.contents[slot]]);
    }
  }

  // A word that addresses a payload is not among the zeroed ones.
  lemma LowWordStays(s: Snapshot, s': Snapshot, slot: Address, a: Address)
    requires WellFormed(s.allocations) && HighWordsZeroed(s.weak.memory, s'.weak.memory)
    requires a in s.allocations && Contains(s.allocations[a], Load(s.weak.memory, slot))
    ensures Load(s'.weak.memory, slot) == Load(s.weak.memory, slot)
  {
  }
}
