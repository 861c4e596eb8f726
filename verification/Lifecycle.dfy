// The life of an allocation: live, then detached, finalized and freed, or released before
// its construction finished.  Nothing leaves that line, and nothing skips its destructor.
module Lifecycle {
  import opened Wrappers
  import opened Words
  import opened ChunkHeaders
  import opened Blocks

  // What happened to headers, in order.
  datatype Event = Finalized(header: ChunkHeader) | Freed(header: ChunkHeader)

  // A destructor call for every block of the batch that has a destructor.
  function Finalizations(batch: seq<ChunkHeader>): seq<Event>
    decreases |batch|
  {
    if batch == [] then []
    else
      var n := |batch| - 1;
      Finalizations(batch[..n]) + (if batch[n].destructor.Some? then [Finalized(batch[n])] else [])
  }

  function Frees(batch: seq<ChunkHeader>): seq<Event>
    decreases |batch|
  {
    if batch == [] then [] else Frees(batch[..|batch| - 1]) + [Freed(batch[|batch| - 1])]
  }

  ghost predicate HasBlock(allocations: Allocations, h: ChunkHeader) {
    exists a :: a in allocations && allocations[a].header == h
  }

  function HeadersOf(allocations: Allocations): set<ChunkHeader> {
    set a | a in allocations :: allocations[a].header
  }

  // Finalized at most once, freed at most once, never finalized after being freed.
  ghost predicate OnceEach(log: seq<Event>) {
    forall i, j :: 0 <= i < j < |log| ==>
      log[i] != log[j] && !(log[i].Freed? && log[j].Finalized? && log[i].header == log[j].header)
  }

  // Every header ever registered is in exactly one place: it has a live block, or it is
  // detached and waiting to be freed, or it has been freed; and it was freed either after
  // its destructor ran or because its construction failed.
  ghost predicate Lives(
      allocations: Allocations, registered: set<ChunkHeader>, released: set<ChunkHeader>, pending: set<ChunkHeader>,
      log: seq<Event>)
  {
    && (forall a :: a in allocations ==> allocations[a].header in registered)
    && (forall a, b ::
          a in allocations && b in allocations && allocations[a].header == allocations[b].header ==> a == b)
    && OnceEach(log)
    && (forall e :: e in log ==> e.header in registered && !HasBlock(allocations, e.header))
    && (forall h :: h in pending ==> h in registered && !HasBlock(allocations, h) && Freed(h) !in log)
    && (forall h :: h in registered ==> HasBlock(allocations, h) || h in pending || Freed(h) in log)
    && (forall h :: h in released ==> Freed(h) in log && Finalized(h) !in log)
    && (forall e :: e in log && e.Freed? && e.header.destructor.Some? && e.header !in released ==>
          Finalized(e.header) in log)
  }

  lemma LivesRegister(
      allocations: Allocations, registered: set<ChunkHeader>, released: set<ChunkHeader>, pending: set<ChunkHeader>,
      log: seq<Event>, a: Address, b: BlockRecord)
    requires Lives(allocations, registered, released, pending, log) && a !in allocations && b.header !in registered
    ensures Lives(allocations[a := b], registered + {b.header}, released, pending, log)
  {
    var allocations' := allocations[a := b];
    forall h | h in registered + {b.header}
      ensures HasBlock(allocations', h) || h in pending || Freed(h) in log
      ensures HasBlock(allocations', h) <==> h == b.header || HasBlock(allocations, h)
    {
      if h == b.header {
        assert allocations'[a].header == h;
      } else if HasBlock(allocations, h) {
        var c :| c in allocations && allocations[c].header == h;
        assert allocations'[c].header == h;
      }
    }
  }

  lemma LivesDetach(
      allocations: Allocations, registered: set<ChunkHeader>, released: set<ChunkHeader>, pending: set<ChunkHeader>,
      log: seq<Event>, dead: set<Address>)
    requires Lives(allocations, registered, released, pending, log)
    ensures Lives(allocations - dead, registered, released,
                  pending + HeadersOf(allocations) - HeadersOf(allocations - dead), log)
  {
    var rest := allocations - dead;
    var pending' := pending + HeadersOf(allocations) - HeadersOf(rest);
    assert forall h :: h in HeadersOf(rest) ==> HasBlock(rest, h);
    forall h | HasBlock(rest, h)
      ensures HasBlock(allocations, h) && h in HeadersOf(rest)
    {
      var a :| a in rest && rest[a].header == h;
      assert allocations[a].header == h;
    }
    forall h | h in pending'
      ensures h in registered && !HasBlock(rest, h) && Freed(h) !in log
    {
      if h !in pending {
        var a :| a in allocations && allocations[a].header == h;
        assert HasBlock(allocations, h);
      }
    }
    forall h | h in registered
      ensures HasBlock(rest, h) || h in pending' || Freed(h) in log
    {
      if HasBlock(allocations, h) && !HasBlock(rest, h) {
        assert h in HeadersOf(allocations) && h !in HeadersOf(rest);
      }
    }
  }

  lemma LivesFinalize(
      allocations: Allocations, registered: set<ChunkHeader>, released: set<ChunkHeader>, pending: set<ChunkHeader>,
      log: seq<Event>, h: ChunkHeader)
    requires Lives(allocations, registered, released, pending, log) && h in pending && Finalized(h) !in log
    ensures Lives(allocations, registered, released, pending, log + [Finalized(h)])
  {
    var longer := log + [Finalized(h)];
    forall i, j | 0 <= i < j < |longer|
      ensures longer[i] != longer[j]
      ensures !(longer[i].Freed? && longer[j].Finalized? && longer[i].header == longer[j].header)
    {
      assert longer[i] in log;
    }
  }

  // The memory of a detached block goes: after its destructor, or, if it has one that never
  // ran, as a release.
  lemma LivesFree(
      allocations: Allocations, registered: set<ChunkHeader>, released: set<ChunkHeader>, pending: set<ChunkHeader>,
      log: seq<Event>, h: ChunkHeader)
    requires Lives(allocations, registered, released, pending, log) && h in pending
    requires h.destructor.Some? ==> Finalized(h) in log
    ensures Lives(allocations, registered, released, pending - {h}, log + [Freed(h)])
  {
    FreeOnce(allocations, registered, released, pending, log, h);
    var longer := log + [Freed(h)];
    forall g | g in registered
      ensures HasBlock(allocations, g) || g in pending - {h} || Freed(g) in longer
    {
      assert Freed(h) == longer[|log|];
    }
  }

  lemma LivesRelease(
      allocations: Allocations, registered: set<ChunkHeader>, released: set<ChunkHeader>, pending: set<ChunkHeader>,
      log: seq<Event>, h: ChunkHeader)
    requires Lives(allocations, registered, released, pending, log) && h in pending && Finalized(h) !in log
    ensures Lives(allocations, registered, released + {h}, pending - {h}, log + [Freed(h)])
  {
    FreeOnce(allocations, registered, released, pending, log, h);
    var longer := log + [Freed(h)];
    forall g | g in registered
      ensures HasBlock(allocations, g) || g in pending - {h} || Freed(g) in longer
    {
      assert Freed(h) == longer[|log|];
    }
  }

  lemma FreeOnce(
      allocations: Allocations, registered: set<ChunkHeader>, released: set<ChunkHeader>, pending: set<ChunkHeader>,
      log: seq<Event>, h: ChunkHeader)
    requires Lives(allocations, registered, released, pending, log) && h in pending
    ensures OnceEach(log + [Freed(h)])
  {
    var longer := log + [Freed(h)];
    forall i, j | 0 <= i < j < |longer|
      ensures longer[i] != longer[j]
      ensures !(longer[i].Freed? && longer[j].Finalized? && longer[i].header == longer[j].header)
    {
      assert longer[i] in log;
    }
  }

  // --- The places of an allocation ---

  datatype Place = InHeap | InBatch | Finished | GivenBack

  // InHeap has a block, InBatch is detached, Finished was finalized and freed, and GivenBack
  // was freed because its construction failed.
  ghost predicate At(
      allocations: Allocations, released: set<ChunkHeader>, pending: set<ChunkHeader>, log: seq<Event>, h: ChunkHeader,
      place: Place)
  {
    match place
    case InHeap => HasBlock(allocations, h) && Finalized(h) !in log && Freed(h) !in log
    case InBatch => h in pending && Freed(h) !in log
    case Finished => Freed(h) in log && h !in released && (h.destructor.Some? ==> Finalized(h) in log)
    case GivenBack => Freed(h) in log && h in released && Finalized(h) !in log
  }

  // At any time every registered allocation is in exactly one place.
  lemma ExactlyOnePlace(
      allocations: Allocations, registered: set<ChunkHeader>, released: set<ChunkHeader>, pending: set<ChunkHeader>,
      log: seq<Event>, h: ChunkHeader)
    returns (place: Place)
    requires Lives(allocations, registered, released, pending, log) && h in registered
    ensures At(allocations, released, pending, log, h, place)
    ensures forall other: Place :: At(allocations, released, pending, log, h, other) ==> other == place
  {
    place := if h in pending then InBatch else if h in released then GivenBack
             else if Freed(h) in log then Finished else InHeap;
  }

  // How often an event occurs in a log.
  function Count(log: seq<Event>, e: Event): nat
    decreases |log|
  {
    if log == [] then 0
    else Count(log[..|log| - 1], e) + (if log[|log| - 1] == e then 1 else 0)
  }

  lemma {:induction false} CountOnce(log: seq<Event>, e: Event)
    requires OnceEach(log)
    ensures Count(log, e) == if e in log then 1 else 0
    decreases |log|
  {
    if log != [] {
      var n := |log| - 1;
      assert log == log[..n] + [log[n]];
      assert forall i, j :: 0 <= i < j < n ==> log[..n][i] == log[i] && log[..n][j] == log[j];
      CountOnce(log[..n], e);
      if e in log[..n] {
        var i :| 0 <= i < n && log[..n][i] == e;
        assert log[i] == e;
      }
    }
  }

  // The destructor of an allocation that has one ran exactly once if the allocation is
  // finished, and never if it is on the heap or was given back; nothing is freed twice.
  lemma FinalizedExactlyOnce(
      allocations: Allocations, registered: set<ChunkHeader>, released: set<ChunkHeader>, pending: set<ChunkHeader>,
      log: seq<Event>, h: ChunkHeader, place: Place)
    requires Lives(allocations, registered, released, pending, log) && h in registered
    requires At(allocations, released, pending, log, h, place)
    ensures place.Finished? && h.destructor.Some? ==> Count(log, Finalized(h)) == 1
    ensures place.InHeap? || place.GivenBack? ==> Count(log, Finalized(h)) == 0
    ensures Count(log, Freed(h)) == if place.Finished? || place.GivenBack? then 1 else 0
  {
    CountOnce(log, Finalized(h));
    CountOnce(log, Freed(h));
  }

  // Over whole runs: a destructor runs at most once, never for a live block, and before the
  // block's memory is freed.
  lemma FinalizedAtMostOnce(
      allocations: Allocations, registered: set<ChunkHeader>, released: set<ChunkHeader>, pending: set<ChunkHeader>,
      log: seq<Event>, h: ChunkHeader, i: nat, j: nat)
    requires Lives(allocations, registered, released, pending, log)
    requires i < |log| && j < |log| && log[i] == Finalized(h)
    ensures log[j] == Finalized(h) ==> i == j
    ensures log[j] == Freed(h) ==> i < j
    ensures !HasBlock(allocations, h)
    ensures (h in pending) != (Freed(h) in log)
  {
    assert log[i] in log;
  }
}
