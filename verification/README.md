# GC-Lib: a verified model

GC-Lib is a conservative, stop-the-world mark-and-sweep collector for C++. This project
models its core in Dafny and proves what the core is for:

- **Stopping the world** (`StopTheWorld*.dfy`). An interleaving transition system with one
  step for every lock acquisition, unlock, condition-variable check, sleep and wake-up. The
  control invariant holds in every reachable state: one collector at most, three flags that
  agree, and a stopped world that stays parked and unchanged. No wake-up is lost, nothing
  deadlocks, the set the collector waits for only shrinks, and a block on its way into a
  `gc_root` is pinned or published at every step where a scan can run.
- **The heap** (`GCManager.dfy`, a class with the source's fields and loops, specified by the
  pure modules `Blocks`, `Reachability`, `Marking`, `Sweeping`, `WeakRegistry`, `Accounting`,
  `Lifecycle`, `HeapState`, `Mutation` and `HandleState`). `Valid()` holds between any two
  operations, and each operation's contract gives the whole new state. A collection keeps
  exactly the blocks that a chain of payload words reaches from the roots; a failed one
  changes nothing.
- **Finalization order** (`FinalizationOrder.dfy`, `ChainHeap.dfy`). Kahn's algorithm with a
  greatest-address queue, characterised exactly: what the queue emits, when a reference is
  respected, and that the order is the lexicographically greatest one.
- **Weak handles** (`WeakPtr.dfy`). Construct, copy, move, assign, reset, destroy and lock,
  with whole collections by other threads wherever a call may park.
- **Allocation and layout** (`Layout.dfy`, `Bits.dfy`, `RootScanner.dfy`). Mask arithmetic in
  64-bit words, and the wrap-safe range scan.
- **Construction** (`Construction.dfy`, `Pinning.dfy`, `GcNew.dfy`). Objects and arrays whose
  constructors are programs: they park, collect, write memory, register root ranges, make weak
  handles, and construct further objects and arrays to any depth, and may throw anywhere. Every
  construction is published or rolled back, and the whole state change is given exactly.
- **Theorems about collections** (`CollectionTheorems.dfy`). Nothing dangles, a second
  collection reclaims nothing, roots survive, weak entries expire exactly with their targets,
  and the batch order is exact for every reference.
- **Laws in plain terms** (`CollectionLaws`, `OrderLaws`, `FinalizerLaws`, `OperationLaws`,
  `HandleLaws`, `ProgramLaws`, `ConstructionLaws`, `StopTheWorldLaws`). The specification
  functions are characterised a second time, by addresses, words, bytes, list entries and the
  history of a run alone: the survivors are the least set of blocks closed under aligned words,
  the finalization order follows words of reclaimed blocks, each operation changes the parts
  named and nothing else, and the thread table holds exactly what the last registrations left.
- **Runs** (`RootExample.dfy`, `ChainHeap.dfy`, `StopTheWorldExample.dfy`). A block that lives as
  long as a root range addresses it, a chain finalized from its far end, and two threads of which
  one waits for the other to park.
- **The two halves joined** (`StopTheWorldHeap.dfy`). A collection of the heap class is a
  collector's step of the transition system.

`dafny verify dfyconfig.toml` checks everything.

## How the pieces fit

`HeapState.Snapshot` is the value of all fields of the manager. `GC_Manager.State()` gives
the current one, `HeapState.ValidState` is the invariant, and `HeapState.Collected(s, s', ...)`
says what one collection does. A call that may park takes a list of root-word sequences, one
for each collection another thread completes meanwhile. It returns those collections as
`pauses`, and `Mutation.Paused(s, pauses, s')` relates the states before and after.

The transition system abstracts a collection to "some set of blocks that contains everything
pinned or held in a published root". `StopTheWorldHeap.CollectionIsStep` proves, for any
placement of its blocks and root objects in memory, that the heap class's collections are such
steps, and `StopTheWorldHeap.EmbeddingSurvives` that the placement still fits afterwards.

`GcNew.RunBody` runs a constructor, and `Construction.Ran(body, run)` says what it did, step by
step. A construction inside it has a record of its own: `Construction.ObjectMade` and
`ArrayMade` give its states from the allocation through the constructors to the publication or
the release. `Pinning.KeepsPinned` is what each of them guarantees to the constructions around it.

Assumptions, each stated as a precondition or built into a type:

- The system allocator returns fresh, nonzero, aligned regions below 2^63, disjoint from live
  blocks with their headers and from weak handles (`Mutation.Honest`, `Mutation.Fresh`).
- The words that stacks, registers and globals contribute to a scan are an arbitrary list.
- A thread id is never the default id: `collector` is an option, and absent means none.
- A thread does not unregister while it is constructing, and writes only its own `gc_root`
  objects (`StopTheWorld.MayBegin`).
- Finalizers do what `ChunkHeaders.Act` lists: re-enter the collector, write words outside
  weak handles, destroy weak handles that no operation is using, and unregister root ranges.
  They do not throw.
- Nobody but `construct_array` writes the count in front of an array that is under construction,
  and no weak handle is placed there, just as the encoded word of a handle is private to it.

Where the code and the repository's README differ: the README says that references between
unreachable objects determine the finalization order for acyclic dependencies. In the code, a
reference between two blocks on no cycle can still be ignored when both lie downstream of a
cycle. `ChainHeap.RunChain` is a run of the manager in which this happens, and
`FinalizationOrder.ReferenceOrderExact` says exactly when a reference is respected.

## Model

| member | source | states |
|---|---|---|
| StopTheWorldControl.ControlNext | src/GCManager.cpp:653-732 | every step of every thread keeps the control invariant: mutex ownership, the three flags, parked flags and published stack tops agree with each thread's program point |
| StopTheWorldRooting.RootingNext | src/GCManager.cpp:155-173 | every step keeps each promised block pinned, or held by a root object that is published or whose owner is about to publish it before it can park |
| StopTheWorldTheorems.RunKeepsInvariants | src/GCManager.cpp:653-732 | both invariants hold in every state of every run |
| StopTheWorldTheorems.AtMostOneCollector | src/GCManager.cpp:456-467 | there is at most one collector, and `collecting_`, `stop_the_world_requested_` and `collector_thread_` always change together |
| StopTheWorldTheorems.StoppedWorldIsParked | src/GCManager.cpp:710-724 | from the return of the pause wait to the release, every other registered thread is parked with its stack top published |
| StopTheWorldTheorems.StoppedWorldIsFrozen | src/GCManager.cpp:668-732 | meanwhile no other thread changes the thread table, the allocations or the weak registry; root ranges can only be appended |
| StopTheWorldTheorems.StopProgress | src/GCManager.cpp:124-141 | while a stop is pending the set of threads it waits for only shrinks, and each park removes one |
| StopTheWorldTheorems.PauseEnds | src/GCManager.cpp:710-724 | a check of the pause condition succeeds if and only if that set is empty |
| StopTheWorldTheorems.NoWakeupIsLost | src/GCManager.cpp:701-731 | when a sleeper's condition holds, the owner of the mutex is about to notify, and that notification wakes the sleeper |
| StopTheWorldTheorems.NoDeadlock | src/GCManager.cpp:653-732 | if a thread is inside the manager, some thread there can move, or the stop waits for user code |
| StopTheWorldTheorems.GapFreeRooting | include/gc/gc_root.hpp:24-37 | whenever a scan can run, a promised block is pinned or in a registered range, without relying on stacks; it is never reclaimed |
| StopTheWorldTheorems.PromiseEnds | src/GCManager.cpp:386-394 | a promise ends only when its own thread drops the block, or in a shutdown; construction, publication and moves of roots keep it |
| StopTheWorldLaws.TableChanges | src/GCManager.cpp:124-141 | a thread enters the table by its own registration only and leaves it by its own unregistration only, and no other thread changes its record |
| StopTheWorldLaws.SectionRegisters | src/GCManager.cpp:124-141 | after its critical section for a registration a thread is in the table with that stack bottom, unpaused and with no stack top; after that for an unregistration it is not |
| StopTheWorldLaws.CallRunsSection | src/GCManager.cpp:653-708 | in every run, a call that has returned has run its critical section in between |
| StopTheWorldLaws.ReturnedRegistered | src/GCManager.cpp:124-141 | in every run, a thread that has returned from register_stack_bottom is in the table as registered until its next call, and one that has returned from unregister_current_thread is not |
| StopTheWorldLaws.TableHistory | src/GCManager.cpp:124-141 | in every state of every run the table holds exactly the threads whose last registration was not undone, with the stack bottoms they gave |
| StopTheWorldLaws.SectionDoes | src/GCManager.cpp:155-196 | what each critical section does to blocks, pins, promises, handles, ranges and root objects, and that it leaves the others alone |
| StopTheWorldLaws.SectionReturns | src/GCManager.cpp:653-708 | a critical section that stops nobody frees the mutex and returns; a construction in a root goes on to publish it, and a move to clear its source |
| StopTheWorldLaws.BlocksChange | src/GCManager.cpp:326-422 | blocks appear by allocation only, and go by the release of a construction, by a shutdown, or by a collection for which they were neither pinned nor held |
| StopTheWorldLaws.RegistriesChange | src/GCManager.cpp:155-196 | the list of ranges grows when a registration gets the mutex, before it can park, and shrinks by unregistration only; weak entries change in their own sections and at the end of a stop only |
| StopTheWorldLaws.FlagsChange | src/GCManager.cpp:456-467 | the three flags are raised by a stop if none is pending, lowered by its release, and otherwise unchanged |
| StopTheWorldLaws.RootsChange | include/gc/gc_root.hpp:24-37 | a root object changes by its owner's construction, assignment or move only; a moved-from one holds nothing, and promises resting on it rest on the new one |
| StopTheWorldExample.WaitedForAndParks | src/GCManager.cpp:653-732 | for any two threads there is a run in which a collector waits for exactly the other, registered thread, which parks in the middle of a construction; the pinned block survives, and in the end a published root object holds it |
| Blocks.FindIndexExact | src/GCManager.cpp:798-822 | on disjoint blocks the predecessor lookup returns a position if and only if that block contains the address |
| Blocks.FindBlockExact | src/GCManager.cpp:798-822 | the same on the allocation map: predecessor lookup is linear search |
| Blocks.Find | src/GCManager.cpp:798-822 | the lookup method finds the owner of an address, or there is none |
| Blocks.UniqueBlock | src/GCManager.cpp:798-822 | no address has two owners |
| Blocks.SubMapLookup | src/GCManager.cpp:846-874 | the lookup among the blocks being ordered agrees with the full lookup restricted to them |
| RootScanner.VisitedExact | src/RootScanner.cpp:55-90 | the visited words are exactly the aligned complete words between the endpoints in either order, ascending, each once, and none if an endpoint is null |
| RootScanner.ScanWords | src/RootScanner.cpp:55-90 | the loop in 64-bit words, without wrap up to the last word of the address space, visits those words |
| RootScanner.PayloadScanIsRangeScan | src/GCManager.cpp:971-981 | the additive payload loop visits the same words as a range scan of the payload |
| Reachability.ClosedIsReached | src/GCManager.cpp:952-981 | a closed set of reachable blocks is the set of reachable blocks, where reachable means a chain of interior pointers from a root |
| Reachability.SurvivorsDoNotDangle | src/GCManager.cpp:983-1010 | no root word and no payload word of a reached block addresses a byte of an unreached one |
| Reachability.ReachedAgain | src/GCManager.cpp:469-479 | after the unreached blocks are gone, and words above every payload were zeroed, the same blocks are reached |
| Marking.PayloadAddresses | src/GCManager.cpp:971-981 | the blocks that the scanned words of a payload address are its successors in the graph |
| Marking.PayloadWordsVisited | src/GCManager.cpp:971-981 | the scanned words of a payload are all the words at its aligned addresses, in order |
| Marking.DrainStep | src/GCManager.cpp:952-960 | popping and scanning a block keeps the marking invariant |
| Marking.DrainShrinks | src/GCManager.cpp:952-960 | each round marks more blocks or shortens the worklist, which never outgrows the reserved size |
| GCManager.GC_Manager.ClearMarks | src/GCManager.cpp:931-936 | no mark is left, whatever marks an earlier failed collection left behind |
| GCManager.GC_Manager.MarkCandidate | src/GCManager.cpp:938-950 | marks and pushes exactly the unmarked block that contains the word; the worklist holds no block twice |
| GCManager.GC_Manager.ScanPayload | src/GCManager.cpp:971-981 | marks exactly the blocks that the payload's words address |
| GCManager.GC_Manager.MarkConstructing | src/GCManager.cpp:473-475 | marks exactly the blocks under construction |
| GCManager.GC_Manager.MarkRanges | src/GCManager.cpp:962-969 | marks exactly the blocks that words of registered ranges address |
| GCManager.GC_Manager.DrainMarkWorklist | src/GCManager.cpp:952-960 | terminates with exactly the reachable blocks marked |
| GCManager.GC_Manager.InvalidateWeakRefs | src/GCManager.cpp:615-627 | drops exactly the entries whose target lies in the block, zeroes their handles and no other word |
| GCManager.GC_Manager.Unmarked | src/GCManager.cpp:984-990 | lists exactly the unmarked blocks in address order |
| GCManager.GC_Manager.DetachUnmarked | src/GCManager.cpp:994-1007 | keeps exactly the marked blocks, clears their marks, expires the handles into the others, and leaves both byte counters equal to the sums over what is left |
| GCManager.GC_Manager.BytesFreed | src/GCManager.cpp:482-486 | the sum over the batch does not wrap and equals the payload bytes of the detached blocks |
| GCManager.GC_Manager.Collect | src/GCManager.cpp:449-505 | re-entry changes nothing; an unregistered thread gets a logic error; a failed internal allocation leaves the state as it was; otherwise the state is the one `Collected` describes, with all marks clear |
| GCManager.GC_Manager.Shutdown | src/GCManager.cpp:507-547 | re-entry changes nothing; a block under construction or a failed allocation leaves the state as it was; otherwise everything is finalized and freed, handles are null and statistics reset |
| GCManager.GC_Manager.RunOneAct | src/GCManager.cpp:1028-1035 | a finalizer's recursive collect or shutdown changes nothing; its writes and handle destructions keep the invariant |
| GCManager.GC_Manager.DestroyBlocks | src/GCManager.cpp:1028-1042 | the destructors of the batch run in order, each once, and only then is its memory freed |
| FinalizationOrder.AddReference | src/GCManager.cpp:861-882 | one word adds an edge if and only if it addresses another block of the batch not seen before |
| FinalizationOrder.BuildGraph | src/GCManager.cpp:851-884 | the edges are exactly the references between different blocks, without duplicates, and in-degrees count distinct sources |
| FinalizationOrder.Top | src/GCManager.cpp:886-904 | the queue's top is the ready block with the greatest address |
| FinalizationOrder.Relax | src/GCManager.cpp:912-919 | in-degrees stay the numbers of distinct unemitted sources, and exactly the blocks that lost their last source become ready |
| FinalizationOrder.QueuePhase | src/GCManager.cpp:886-920 | each emitted block is the greatest available one, none is left available, and each index enters the queue once |
| FinalizationOrder.OrderBlocks | src/GCManager.cpp:835-929 | the order is the queue phase followed by the residue, for batches of any size |
| FinalizationOrder.OrderIsUnique | src/GCManager.cpp:835-929 | the blocks and their words alone determine the order |
| FinalizationOrder.OrderIsPermutation | src/GCManager.cpp:835-929 | every block of the batch occurs in the order exactly once |
| FinalizationOrder.EmittedExactly | src/GCManager.cpp:902-920 | the queue phase emits a block if and only if it is neither on nor reachable from a cycle of two or more blocks |
| FinalizationOrder.ReferencesFirst | src/GCManager.cpp:902-926 | a reference u to v puts u first unless both are in the residue |
| FinalizationOrder.ReferenceOrderExact | src/GCManager.cpp:902-926 | a reference u to v puts u first if and only if u is not downstream of a cycle or has the higher address |
| FinalizationOrder.DownstreamInversion | src/GCManager.cpp:922-926 | four blocks whose words make a chain behind a cycle have exactly one order, and it finalizes the chain from its far end, against the reference between two blocks on no cycle |
| ChainHeap.FinalizedBackwards | src/GCManager.cpp:922-926 | in every valid state whose heap is this chain, every collection that finds no address of a block finalizes it in this order |
| ChainHeap.RunChain | src/GCManager.cpp:449-505 | such a state is reached: a new manager, four allocations, four writes and a collection log the destructors in this order |
| FinalizationOrder.ResidueDescends | src/GCManager.cpp:922-926 | the residue follows in descending address |
| FinalizationOrder.AcyclicHasNoResidue | src/GCManager.cpp:922-926 | the residue is empty if and only if no block lies on a cycle |
| FinalizationOrder.LexGreatest | src/GCManager.cpp:886-920 | among all orders of the emitted blocks that respect the references, this one is lexicographically greatest by address |
| OrderLaws.WordsOrderFinalizers | src/GCManager.cpp:835-929 | if an aligned word of a reclaimed block u lies in another reclaimed block v, then u comes first in the batch if and only if no cycle of such words leads to u, or u has the higher address |
| OrderLaws.WordsOrderLog | src/GCManager.cpp:1028-1038 | the same for the destructor calls in the log |
| WeakRegistry.EncodingRoundTrips | include/gc/gc_weak_ptr.hpp:14-24 | encoding and decoding are inverse bijections on 64-bit words, and only null is encoded as zero |
| WeakRegistry.EncodedIsNoPayloadAddress | include/gc/gc_weak_ptr.hpp:14-19 | the code of an address inside a payload lies inside no payload |
| WeakRegistry.WeakHandlesNeverRetain | include/gc/gc_weak_ptr.hpp:14-19 | zeroing any encoded weak words in roots and payloads leaves the set of reached blocks unchanged |
| WeakRegistry.NonzeroIffRegistered | src/GCManager.cpp:551-627 | a handle word is nonzero if and only if it is registered, and decodes to the registered target |
| HandleLaws.CodeIsNegative | include/gc/gc_weak_ptr.hpp:14-19 | a word is the code of a pointer if and only if both add up to zero in 64 bits |
| HandleLaws.HoldsExactly | src/GCManager.cpp:551-613 | what a handle holds is what its entry names and its word encodes, and nothing if it has no entry and a zero word |
| WeakRegistry.ExpireConsistent | src/GCManager.cpp:1001-1003 | invalidating the handles into reclaimed blocks keeps the registry invariant for the smaller heap |
| WeakRegistry.SwapPopRemoves | src/GCManager.cpp:571-582 | swap-and-pop removes exactly the one entry |
| WeakRegistry.MoveStorage | src/GCManager.cpp:604-611 | renaming the storage of an entry moves exactly that entry |
| WeakRegistry.RemainingTargets | src/GCManager.cpp:617-626 | what `remove_if` leaves is the registry without the entries into the block |
| WeakRegistry.RunFinalizersSparesBusy | src/GCManager.cpp:1028-1038 | finalizers leave a handle that an operation works on as it is |
| GCManager.GC_Manager.WeakInvariant | src/GCManager.cpp:551-627 | at operation boundaries a handle word is nonzero if and only if exactly one entry names its storage, it decodes to that entry's target, and the target lies in a live block |
| GCManager.GC_Manager.RegisterWeakRef | src/GCManager.cpp:551-560 | after parking, the entry is added if the target is live, and the handle is zeroed otherwise; null storage changes nothing |
| GCManager.GC_Manager.ReadWeakRef | src/GCManager.cpp:562-569 | returns the registered target or null, and never an address outside the live blocks, although it does not look |
| GCManager.GC_Manager.UnregisterWeakRef | src/GCManager.cpp:571-582 | removes the handle's entry and nothing else |
| GCManager.GC_Manager.CopyWeakRef | src/GCManager.cpp:584-598 | the new handle gets an entry and word of its own, or zero if the old one has no entry |
| GCManager.GC_Manager.UpdateWeakRef | src/GCManager.cpp:600-613 | the entry and the word move to the new handle and the old word is zeroed, or the new word is zero |
| HandleState.RegisterHolds | src/GCManager.cpp:551-560 | a handle initialised from a pointer holds it in word and registry exactly if it is live |
| HandleState.CopyHolds | src/GCManager.cpp:584-598 | a copy holds what the original held |
| HandleState.UpdateHolds | src/GCManager.cpp:600-613 | a move leaves the target in the new handle and null in the old one |
| HandleState.HeldOrNull | src/GCManager.cpp:615-627 | while an operation is parked, its handle keeps its target, or loses it because no live block contains it any more |
| HandleLaws.Registering | src/GCManager.cpp:551-560 | a registration adds an entry with the target and leaves the word if some payload contains the target, and zeroes the word otherwise; all other handles, entries, words and parts of the heap stay |
| HandleLaws.Unregistering | src/GCManager.cpp:571-582 | an unregistration takes this handle's entry; every other handle keeps its own, and no word changes |
| HandleLaws.Copying | src/GCManager.cpp:584-598 | a copy gives the second handle the entry and word of the first, or zero, and changes nothing else |
| HandleLaws.Updating | src/GCManager.cpp:600-613 | a move takes entry and word from the first handle and gives them to the second, or zeroes the second, and changes nothing else |
| HandleLaws.ConstructionChanges | include/gc/gc_weak_ptr.hpp:39-46 | around any pauses, construction changes the new handle only; it has an entry for the pointer and its code if some payload contains the pointer, and no entry and zero otherwise |
| HandleLaws.CopyChanges | include/gc/gc_weak_ptr.hpp:54-56 | copy construction changes the new handle only, which gets entry and word of the other one |
| HandleLaws.MoveChanges | include/gc/gc_weak_ptr.hpp:58-65 | a move changes the two handles only: one has the entry and word of the other, which has neither |
| HandleLaws.ResetChanges | include/gc/gc_weak_ptr.hpp:106-111 | a reset changes this handle only, which has no entry and a zero word |
| HandleLaws.AdoptionChanges | include/gc/gc_weak_ptr.hpp:67-93 | assignment through a replacement changes the handle and the replacement only: the handle has the replacement's entry and word, and the replacement no longer exists |
| HandleLaws.Destroying | include/gc/gc_weak_ptr.hpp:48-52 | destruction of an unregistered handle takes this handle and changes nothing else |
| HandleLaws.Guarding | include/gc/gc_new.hpp:127-141 | writing the count of an array changes that word and protects it, and nothing else |
| WeakPtr.GcWeakPtr.Construct | include/gc/gc_weak_ptr.hpp:39-46 | the new handle holds the pointer if it is still live when the registry is reached, and null otherwise |
| WeakPtr.GcWeakPtr.Copy | include/gc/gc_weak_ptr.hpp:54-56 | the new handle holds what the other one holds then |
| WeakPtr.GcWeakPtr.Move | include/gc/gc_weak_ptr.hpp:58-65 | the target moves and the other handle is null, also when a collection expires it in between |
| WeakPtr.GcWeakPtr.AssignCopy | include/gc/gc_weak_ptr.hpp:67-73 | self-assignment changes nothing; otherwise the handle holds the other's target if a live block still contains it, and null if a collection during the call reclaimed it |
| WeakPtr.GcWeakPtr.AssignMove | include/gc/gc_weak_ptr.hpp:75-88 | self-assignment changes nothing; otherwise the old target is dropped, the new one moves over and the other handle is null |
| WeakPtr.GcWeakPtr.Assign | include/gc/gc_weak_ptr.hpp:90-93 | the handle holds the pointer if it was live when registered and no collection during the call reclaimed it, and null otherwise |
| WeakPtr.GcWeakPtr.Lock | include/gc/gc_weak_ptr.hpp:95-100 | returns the held target, always inside a live block, or null |
| WeakPtr.GcWeakPtr.Expired | include/gc/gc_weak_ptr.hpp:102-104 | true if and only if the handle has no entry |
| WeakPtr.GcWeakPtr.Reset | include/gc/gc_weak_ptr.hpp:106-111 | the handle holds null and has no entry |
| WeakPtr.GcWeakPtr.Destroy | include/gc/gc_weak_ptr.hpp:48-52 | no entry names the dead handle's storage |
| Mutation.CollectedSurvives | src/GCManager.cpp:473-475 | a collection keeps every block under construction and every surviving record; a handle in use keeps its entry and word, or has lost a target that no live block contains any more |
| Mutation.PausesSurvive | src/GCManager.cpp:653-708 | the same for any number of collections while a call is parked |
| Mutation.StillPlaced | src/GCManager.cpp:350-378 | a region that operator new found free is still free when the block is registered |
| Mutation.RegisteredIsValid | src/GCManager.cpp:375-377 | registration keeps the whole invariant: disjoint blocks, byte sums, peaks and saturating totals, weak registry, block lives |
| Mutation.ConstructedIsValid | src/GCManager.cpp:386-394 | unpinning a block keeps the whole invariant |
| Mutation.ReleasedIsValid | src/GCManager.cpp:396-422 | giving a block back keeps the whole invariant, and its bytes leave both counters |
| GCManager.GC_Manager.Cooperate | src/GCManager.cpp:653-708 | parking changes the heap only by whole collections of other threads, one for each stack they scan; the collector itself, and the finalizers it runs, do not park |
| OperationLaws.PausedMeans | src/GCManager.cpp:653-708 | between the two states of a pause lies a succession of complete collections, each starting where the one before it ended |
| GCManager.GC_Manager.RegisterRootRange | src/GCManager.cpp:155-173 | null or empty ranges are ignored; otherwise the normalised range is already published for every collection during the call |
| GCManager.GC_Manager.UnregisterRootRange | src/GCManager.cpp:175-196 | the first equal range, and only that, is removed after parking |
| OperationLaws.NormalizedExact | src/GCManager.cpp:160-169 | a published range has the two given endpoints, the lower one first |
| OperationLaws.RangeComesAndGoes | src/GCManager.cpp:155-196 | registering a range adds one to the list, and unregistering it with its endpoints in either order takes one equal range away |
| FinalizerLaws.FirstRemoved | src/GCManager.cpp:187-195 | what is erased is the first equal range, and the others stay in order |
| OperationLaws.PublishedSlotSurvives | src/GCManager.cpp:155-173 | after a one-word range is registered, the block that its word addresses survives the next collection, whatever else is registered |
| OperationLaws.RegisterThenCollect | include/gc/gc_root.hpp:24-37 | the same through the calls: registration, then collection |
| GCManager.GC_Manager.IsLive | src/GCManager.cpp:316-324 | true if and only if some live block contains the address |
| GCManager.GC_Manager.MallocInternal | src/GCManager.cpp:326-384 | on success a zeroed, aligned, pinned or unpinned block on fresh memory is registered; on failure the heap is as collections left it, and the reason is a bad layout, a refusal by operator new in a named state of the call, a counter overflow or an unregistered thread |
| GCManager.GC_Manager.AcquireRegion | src/GCManager.cpp:347-355 | a first answer of operator new is used; if it refuses, this thread collects and the second answer decides; the region is free in the heap at that time |
| OperationLaws.RefusedExactly | src/GCManager.cpp:339-374 | an allocation is refused if and only if its size is zero, its alignment is no power of two, offset or size do not fit, operator new has no memory, or a byte counter would overflow |
| OperationLaws.AllocatedBlock | src/GCManager.cpp:357-378 | the new record has the size, destructor and pin that were asked for, and a new header |
| OperationLaws.AllocatedZero | src/GCManager.cpp:375-375 | every word of the new payload is zero |
| OperationLaws.AllocatedApart | src/GCManager.cpp:347-363 | the new block with its header overlaps no other block with its own, and no weak handle |
| OperationLaws.AllocationCounted | src/GCManager.cpp:824-833 | an allocation adds its bytes to both counters and one to the saturating totals, raises the peaks to the new values if they are higher, and leaves the other statistics |
| Mutation.AllocationLeavesRest | src/GCManager.cpp:365-378 | an allocation, pinned or not, leaves root ranges, threshold, weak entries, handles, log, every other record and every word outside the payload as they were |
| GCManager.GC_Manager.RegisterBlock | src/GCManager.cpp:375-377 | the state after memset and `register_block_locked` |
| GCManager.GC_Manager.FinishConstruction | src/GCManager.cpp:386-394 | the block is unpinned, or a logic error leaves the heap alone |
| GCManager.GC_Manager.ReleaseUnconstructed | src/GCManager.cpp:396-422 | the block, its bytes and the handles into it are gone; null and unknown payloads change nothing |
| OperationLaws.PublishedBlock | src/GCManager.cpp:386-394 | publication changes the pin of one record and nothing else |
| OperationLaws.ReleasedBlock | src/GCManager.cpp:396-422 | a release takes one record, its payload bytes and its region from the heap and the counters, and logs one free |
| OperationLaws.ReleasedHandles | src/GCManager.cpp:396-422 | exactly the entries whose targets lie in its payload go, and their words become zero |
| GCManager.GC_Manager.CollectIfNeeded | src/GCManager.cpp:428-447 | collects if and only if managed plus incoming bytes, without wrap, reach the threshold |
| GCManager.GC_Manager.Stats | src/GCManager.cpp:222-238 | live and reserved bytes are the sums over live blocks, the waste in the fragmentation ratio cannot underflow, and the numbers of root ranges and weak references are those of the lists |
| Accounting.Conservation | src/GCManager.cpp:482-495 | until saturation, allocated total equals live plus reclaimed plus released bytes; reserved covers managed; peaks cover the present |
| Accounting.PeaksAreMaxima | src/GCManager.cpp:831-832 | the peaks are maxima of the history since the last shutdown, and are attained |
| Accounting.TotalSplit | src/GCManager.cpp:994-1007 | detaching blocks splits the byte totals between what stays and what goes |
| HeapState.BalancedAfterCollection | src/GCManager.cpp:482-495 | a collection keeps the books balanced, with the reclaimed total modulo 2^64 |
| OperationLaws.BytesAreSizes | src/GCManager.cpp:824-833 | in every valid state the byte counters are the sums of payload lengths, and of payload lengths with headers |
| CollectionLaws.CollectionCounted | src/GCManager.cpp:482-495 | a collection reports the bytes and blocks that left the heap as those of the last collection, adds them to the totals modulo 2^64, and leaves the other statistics |
| Lifecycle.LivesDetach | src/GCManager.cpp:1001-1007 | detaching moves headers from live to pending and leaves each in one place |
| Lifecycle.LivesFree | src/GCManager.cpp:1039-1041 | freeing moves a header whose destructor ran from pending to freed, once |
| Lifecycle.LivesRelease | src/GCManager.cpp:396-422 | giving a block back moves its header to freed and released, and its destructor never runs |
| Lifecycle.ExactlyOnePlace | src/GCManager.cpp:983-1042 | every allocation ever registered is in exactly one place: on the heap, detached, finalized and freed, or given back unconstructed |
| Lifecycle.FinalizedExactlyOnce | src/GCManager.cpp:1028-1042 | the destructor of a finished allocation occurs in the log exactly once, that of one on the heap or given back never, and each is freed once or not at all |
| GCManager.GC_Manager.LifeInvariant | src/GCManager.cpp:983-1042 | both facts hold of the manager between any two operations, and nothing is detached except during a collection |
| HeapState.FinalizationsCover | src/GCManager.cpp:1028-1038 | every block of a batch that has a destructor is finalized |
| Lifecycle.FinalizedAtMostOnce | src/GCManager.cpp:1028-1042 | over whole runs a destructor runs at most once, never for a live block, and before its memory is freed |
| CollectionTheorems.KeepsExactlyTheReachable | src/GCManager.cpp:469-480 | a block survives if and only if a chain of payload words reaches it from a root word or a pinned block |
| CollectionLaws.LeastSurvivors | src/GCManager.cpp:469-480 | the survivors are the least set of blocks that holds what is pinned or addressed by a stack word or an aligned word of a registered range, and whatever an aligned word of a kept payload addresses |
| CollectionLaws.SurvivorHasReason | src/GCManager.cpp:952-981 | a survivor that no root addresses is addressed by an aligned word of another survivor |
| CollectionLaws.NoWordIntoTheDead | src/GCManager.cpp:983-1010 | no root and no aligned word of a survivor addresses a byte of a reclaimed block |
| CollectionLaws.BatchIsDead | src/GCManager.cpp:983-1010 | the batch lists the headers of exactly the blocks that leave the heap, each once |
| CollectionLaws.LoggedExactly | src/GCManager.cpp:1028-1042 | a collection frees exactly the blocks that leave the heap, and runs exactly their destructors |
| CollectionLaws.HandlesAftermath | src/GCManager.cpp:994-1038 | over a collection a handle stays unless a finalizer destroys it while idle, and its entry stays if and only if the handle does and some surviving payload contains the target |
| CollectionLaws.WordsAftermath | src/GCManager.cpp:994-1038 | the word of a handle becomes zero if its entry expired and is unchanged otherwise; any other word is what a finalizer wrote last, or unchanged |
| CollectionLaws.RangesAftermath | src/GCManager.cpp:1028-1038 | each range is registered as often as before, less once for each finalizer act that unregisters it |
| OperationLaws.NothingAfterShutdown | src/GCManager.cpp:507-547 | after a shutdown no block, byte or statistic is left, and every header was in the batch |
| OperationLaws.WordsAfterShutdown | src/GCManager.cpp:507-547 | after a shutdown no entry is left and every handle that had one is zero; other words are what finalizers wrote last |
| RootExample.RootedWhileRegistered | src/GCManager.cpp:449-505 | a run from a new manager: an allocated block survives a collection while a registered word addresses it, and is finalized and freed by the first collection after the range is withdrawn |
| FinalizerLaws.FinalizersAreActs | src/GCManager.cpp:1028-1038 | the finalizers of a batch act as one list that splits into the destructors in batch order, with nothing left over |
| FinalizerLaws.HandlesAfter | src/GCManager.cpp:1028-1038 | a handle goes, with its entry, if and only if some act destroys it while no operation works on it |
| FinalizerLaws.WordAfter | src/GCManager.cpp:1028-1038 | a word that is no handle and no count holds what was written to it last |
| FinalizerLaws.RangesAfter | src/GCManager.cpp:175-196 | each act that unregisters a range removes one equal range, as long as there is one |
| CollectionTheorems.NothingDangles | src/GCManager.cpp:983-1010 | in memory as the collection scanned it, no root word and no word of a surviving payload addresses a byte of a reclaimed block |
| CollectionTheorems.NothingDanglesAfterwards | src/GCManager.cpp:983-1042 | and none does in memory after the finalizers, if they write no words |
| CollectionTheorems.RootObjectKeepsTarget | src/GCManager.cpp:962-969 | what a published one-word root object addresses survives |
| CollectionTheorems.SecondCollectionReclaimsNothing | src/GCManager.cpp:449-505 | with unchanged roots, and finalizers that write no words and unregister no ranges, an immediate second collection reclaims nothing and runs no finalizer |
| CollectionTheorems.ReferrersFinalizedFirst | src/GCManager.cpp:991-992 | a reclaimed block that refers to another precedes it in the batch if and only if it is not downstream of a cycle or has the higher address |
| CollectionTheorems.ExpiryExact | src/GCManager.cpp:1001-1003 | over a collection, an entry stays if and only if its target is still live and its handle still exists, and its target never changes |
| CollectionTheorems.DestructorsBeforeFrees | src/GCManager.cpp:1028-1042 | in what a collection adds to the log, every destructor precedes every free |
| StopTheWorldHeap.CollectionKeepsRoots | src/GCManager.cpp:469-480 | whatever placement of the transition system's blocks and root objects in memory, a collection of the heap keeps every block that is pinned or held in a published root |
| StopTheWorldHeap.CollectionIsStep | src/GCManager.cpp:469-505 | so the end of a collection is a step of the transition system |
| StopTheWorldHeap.EmbeddingSurvives | src/GCManager.cpp:469-505 | and the placement fits the states after it, if finalizers write no words and unregister no ranges |
| Bits.SingleBitIsPower | include/gc/ChunkHeader.hpp:33-39 | the single-bit test recognises exactly the powers of two, and the stored shift gives the alignment back |
| Bits.ClearLowBits | src/GCManager.cpp:52-52 | masking with the complement of 2^k - 1 subtracts the remainder modulo 2^k |
| Layout.RoundUpIsLeastMultiple | src/GCManager.cpp:45-53 | the result is the least multiple of the alignment not below the value, and exists exactly for powers of two without overflow |
| Layout.LayoutFits | src/GCManager.cpp:339-363 | the payload clears the header, its offset fits 16 bits, it is aligned as asked and to words, and the alignment is recovered from its shift |
| Layout.LayoutExact | src/GCManager.cpp:339-363 | there is a layout if and only if the size is positive, the alignment a power of two, the offset fits 16 bits and the total a word; the offset is 32, or the alignment if that is larger |
| Layout.MultiplyOverflowExact | include/gc/gc_new.hpp:59-61 | the overflow test is exact |
| Layout.ElementFits | include/gc/gc_new.hpp:63-119 | every array element is aligned, past the count and inside the payload |
| Layout.ElementsApart | include/gc/gc_new.hpp:63-119 | different elements do not overlap |
| Layout.ArrayLayoutExact | include/gc/gc_new.hpp:106-119 | there is an array layout if and only if prefix and elements together fit a word; the prefix is 8, or the alignment if that is larger |
| ProgramLaws.PlaceExactly | include/gc/gc_new.hpp:106-119 | so an array of any count has a place if and only if that sum fits a word |
| GcNew.AllocatePinned | include/gc/gc_new.hpp:26-30 | collections lead to a state in which exactly the new block is registered, pinned and with a fresh header; a failure leaves the state as the collections left it, and is a logic error for an unregistered thread, a failed collection at the threshold, or a refused allocation |
| Pinning.PausesKeep | include/gc/gc_new.hpp:32-39 | collections during construction leave pinned blocks and the counts of arrays alone |
| Pinning.AllocationKeeps | src/GCManager.cpp:326-384 | so does a further allocation, whose block is pinned, all zero, aligned and apart from them |
| Pinning.StepKeeps | include/gc/gc_new.hpp:32-39 | so does every step of a constructor |
| Pinning.ObjectKeeps | include/gc/gc_new.hpp:22-41 | so does the construction of an object, whatever its constructor builds in turn |
| Pinning.ArrayKeeps | include/gc/gc_new.hpp:96-157 | so does the construction of an array, rollback included |
| Pinning.WholeConstruction | include/gc/gc_new.hpp:22-41 | a construction from allocation to publication or rollback leaves older pinned blocks and counts alone, so constructions nest |
| GcNew.RunBody | include/gc/gc_new.hpp:32-39 | a constructor runs its steps in order, all or up to the first that throws; each step does what its operation does, a nested construction included |
| GcNew.RunDestructor | include/gc/gc_new.hpp:80-94 | an element destructor does all its acts in order, outside a collection |
| ProgramLaws.QuietAct | include/gc/gc_new.hpp:80-94 | while nobody collects, an act of a destructor does outside a collection what it does in a finalizer |
| ProgramLaws.QuietDestructor | include/gc/gc_new.hpp:146-153 | so the destructors of a rollback leave what the same destructors leave as finalizers |
| ProgramLaws.ActsLeaveRest | src/GCManager.cpp:1028-1038 | what destructors do changes words, handles and ranges only |
| ProgramLaws.QuietWrite | include/gc/gc_new.hpp:32-39 | a write of a constructor changes one word, and no handle and no count |
| ProgramLaws.QuietPointWeakly | include/gc/gc_weak_ptr.hpp:39-46 | a constructor that makes a weak handle changes that handle only, and registers it if some payload contains the pointer |
| ProgramLaws.QuietAddRange | src/GCManager.cpp:155-173 | one that registers a range adds it with its endpoints in order, and changes nothing else |
| ProgramLaws.QuietRemoveRange | src/GCManager.cpp:175-196 | one that unregisters a range takes one equal range away if there is one, and changes nothing else |
| ProgramLaws.QuietDropHandle | include/gc/gc_weak_ptr.hpp:48-52 | one that destroys an idle handle takes this handle and its entry, and changes no word |
| ProgramLaws.FollowsMeans | include/gc/gc_new.hpp:32-39 | the steps of a program are one run: each begins in the state in which the one before it ended |
| ConstructionLaws.NestedOutcome | include/gc/gc_new.hpp:22-41 | a construction inside a constructor ends with a published block, or threw and left none; a caught exception goes no further |
| GcNew.New | include/gc/gc_new.hpp:22-41 | the states are given exactly: collections, the allocation, the constructor on a pinned block, further collections, then publication, or, if it threw, the release of the block, which is freed and never finalized; older pinned blocks stay |
| ConstructionLaws.ObjectOutcome | include/gc/gc_new.hpp:22-41 | at any depth, an object whose constructor returned is on the heap, unpinned, with the size and destructor asked for; one whose constructor threw was freed and never finalized |
| GcNew.BuildElements | include/gc/gc_new.hpp:132-144 | the element constructors run in ascending order up to the first that throws, each with its own index in the prefix, and the prefix ends as the number that returned |
| GcNew.DestroyElements | include/gc/gc_new.hpp:80-94 | runs the destructors of elements count - 1 down to 0 |
| GcNew.EndingsReverseEntries | include/gc/gc_new.hpp:80-94 | destruction visits what construction visited, each element once, in the opposite order |
| GcNew.TraceExactly | include/gc/gc_new.hpp:80-144 | the i-th event of construction and of destruction names its element and the element's address past the prefix |
| GcNew.ConstructArray | include/gc/gc_new.hpp:96-157 | for any count and any element constructors: nothing happens for count zero or an overflowing size; otherwise the states are given exactly, and success publishes the block with count in the prefix, and with a finalizer that destroys each element once, the last one first; if element k throws, the destructors of k - 1 down to 0 run and the block is freed and never finalized; older pinned blocks stay |
| ConstructionLaws.ArrayOutcome | include/gc/gc_new.hpp:96-157 | at any depth, an array whose constructors returned is on the heap with its count in front; one whose constructor threw was freed and never finalized; one without elements changes nothing |
| Pinning.ReleasedNotFinalized | include/gc/gc_new.hpp:146-153 | a block given back before its construction ended is freed but never finalized |
| ProgramLaws.FinalizerPieces | include/gc/gc_new.hpp:80-94 | the finalizer of n elements splits into exactly n consecutive pieces with nothing left over, and the i-th piece is the destructor of element n - 1 - i |
| ProgramLaws.FinalizerRuns | include/gc/gc_new.hpp:80-94 | the finalizer of no elements changes nothing; that of n does what the destructor of element n - 1 does, then the rest |

## Left out

- Memory is a map from word addresses to words: unaligned words, bytes and words that straddle a payload's end are not modelled.
- Platform root discovery, register capture, ASan fake stacks and stack-bound detection: the words they find are an arbitrary list.
- The C++ memory model, and `mark` as an atomic: every access that matters is under the mutex or in a stopped world.
- Throwing finalizers, `std::terminate`, resurrecting finalizers, and finalizers that allocate or register handles.
- live_objects, object_info, dump_heap and the fragmentation ratio's value: the stops of the first two are steps of the transition system; their reports are not modelled.
- Durations, and 64-bit wrap of block counts: blocks are counted by natural numbers, bytes by 64-bit words.
- The heap inside `std::priority_queue` and the tree inside `std::map`: only their order matters.
- Singleton teardown, `ScopedThreadRegistration`, `ScopedRootRange`, `gc_ptr` and `gc_vector`: thin wrappers over modelled operations.
- Threads that never reach a safepoint: a stop may wait for them forever, which `NoDeadlock` says.
- Allocations and registrations of other threads inside one call: while a call of the heap class is parked, other threads complete whole collections; their other critical sections interleave in the transition system.
- GcNew.RunBody: of the weak handle operations, constructors only make and destroy handles.
- ProgramLaws.FinalizerRuns: the finalizer is fixed when the array is published, for the count its prefix shows then; that nobody writes the count of a finished array afterwards is assumed.
- GcNew.RunDestructor: element destructors catch what they throw; the source terminates otherwise.
- GCManager.GC_Manager.Stats: the number of registered threads belongs to the transition system, and the fragmentation ratio itself is not computed.
- GCManager.GC_Manager.MallocInternal: not called from finalizers, since a finalizer is modelled by what it does to words, handles and ranges.
- CollectionTheorems.NothingDanglesAfterwards: needs finalizers that write no words, since a write may store a dangling pointer.
- CollectionTheorems.SecondCollectionReclaimsNothing: needs finalizers that write no words and unregister no ranges, since either may drop the last pointer to a block.
- StopTheWorldHeap.EmbeddingSurvives: needs the same, since a write may change a root object.
- CollectionTheorems.RootObjectKeepsTarget: for root objects of one aligned word, which is what `gc_root` is.
- WeakPtr.GcWeakPtr.Construct: weak handles that live in memory `malloc_internal` reuses are excluded by the assumption on the allocator.
