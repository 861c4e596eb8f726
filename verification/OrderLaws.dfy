/**
The finalization order of a collection, in terms of words and addresses alone.
 */
module OrderLaws {
  import opened Words
  import opened ChunkHeaders
  import opened Blocks
  import opened Reachability
  import opened FinalizationOrder
  import opened Lifecycle
  import opened Sweeping
  import opened HeapState
  import opened Mutation
  import opened CollectionTheorems
  import opened CollectionLaws

  // A word of one reclaimed block addresses another one.
  ghost predicate DeadWord(s: Snapshot, s': Snapshot, u: Address, v: Address) {
    && u in s.allocations && u !in s'.allocations && v in s.allocations && v !in s'.allocations && u != v
    && WordInto(s, u, s.allocations[u].payloadEnd, v)
  }

  ghost predicate PathFromTo(s: Snapshot, s': Snapshot, p: seq<Address>, u: Address, v: Address) {
    && p != [] && p[0] == u && p[|p| - 1] == v
    && forall i, j :: 0 <= i && j == i + 1 && j < |p| ==> DeadWord(s, s', p[i], p[j])
  }

  ghost predicate OnDeadCycle(s: Snapshot, s': Snapshot, u: Address) {
    exists p :: PathFromTo(s, s', p, u, u) && |p| >= 2
  }

  // u lies on a cycle of reclaimed blocks, or words lead to it from one.
  ghost predicate BehindDeadCycle(s: Snapshot, s': Snapshot, v: Address) {
    exists u, p :: OnDeadCycle(s, s', u) && PathFromTo(s, s', p, u, v)
  }

  // --- Positions and addresses ---

  // The records are those of the reclaimed blocks, and the edges are their words.
  ghost predicate Mirrors(s: Snapshot, s': Snapshot, records: seq<BlockRecord>, g: Graph) {
    && |g| == |records|
    && (forall x :: 0 <= x < |records| ==>
          records[x].payloadBegin in s.allocations && records[x] == s.allocations[records[x].payloadBegin] &&
          records[x].payloadBegin !in s'.allocations)
    && (forall a :: a in s.allocations && a !in s'.allocations ==>
          exists x :: 0 <= x < |records| && records[x].payloadBegin == a)
    && (forall x, y :: 0 <= x < y < |records| ==> records[x].payloadBegin < records[y].payloadBegin)
    && (forall x: nat, y: nat :: Edge(g, x, y) ==> x < |records| && y < |records|)
    && (forall x: nat, y: nat :: x < |records| && y < |records| ==>
          (Edge(g, x, y) <==> DeadWord(s, s', records[x].payloadBegin, records[y].payloadBegin)))
  }

  lemma WalkIsPath(s: Snapshot, s': Snapshot, records: seq<BlockRecord>, g: Graph, p: seq<nat>, x: nat, y: nat)
    returns (q: seq<Address>)
    requires Mirrors(s, s', records, g) && WalkFromTo(g, p, x, y) && x < |records|
    ensures y < |records| && |q| == |p|
    ensures PathFromTo(s, s', q, records[x].payloadBegin, records[y].payloadBegin)
  {
    WalkStays(s, s', records, g, p);
    q := seq(|p|, i requires 0 <= i < |p| => records[p[i]].payloadBegin);
    hide DeadWord, Edge;
  }

  lemma WalkStays(s: Snapshot, s': Snapshot, records: seq<BlockRecord>, g: Graph, p: seq<nat>)
    requires Mirrors(s, s', records, g) && Walk(g, p) && p[0] < |records|
    ensures forall i :: 0 <= i < |p| ==> p[i] < |records|
  {
    forall i | 0 <= i < |p|
      ensures p[i] < |records|
    {
      if i > 0 {
        assert Edge(g, p[i - 1], p[i]);
      }
    }
  }

  ghost function PositionOf(records: seq<BlockRecord>, a: Address): (x: nat)
    requires exists x :: 0 <= x < |records| && records[x].payloadBegin == a
    ensures x < |records| && records[x].payloadBegin == a
  {
    var x :| 0 <= x < |records| && records[x].payloadBegin == a;
    x
  }

  lemma PathIsWalk(
      s: Snapshot, s': Snapshot, records: seq<BlockRecord>, g: Graph, q: seq<Address>, x: nat, y: nat)
    returns (p: seq<nat>)
    requires Mirrors(s, s', records, g) && x < |records| && y < |records|
    requires PathFromTo(s, s', q, records[x].payloadBegin, records[y].payloadBegin)
    ensures WalkFromTo(g, p, x, y) && |p| == |q|
  {
    PathStays(s, s', records, g, q, x);
    p := seq(|q|, i requires 0 <= i < |q| => PositionOf(records, q[i]));
    SamePosition(s, s', records, g, p[0], x);
    SamePosition(s, s', records, g, p[|p| - 1], y);
    hide DeadWord, Edge;
  }

  lemma PathStays(s: Snapshot, s': Snapshot, records: seq<BlockRecord>, g: Graph, q: seq<Address>, x: nat)
    requires Mirrors(s, s', records, g) && x < |records|
    requires q != [] && q[0] == records[x].payloadBegin
    requires forall i, j :: 0 <= i && j == i + 1 && j < |q| ==> DeadWord(s, s', q[i], q[j])
    ensures forall i :: 0 <= i < |q| ==> exists z :: 0 <= z < |records| && records[z].payloadBegin == q[i]
  {
    forall i | 0 <= i < |q|
      ensures exists z :: 0 <= z < |records| && records[z].payloadBegin == q[i]
    {
      if i > 0 {
        assert DeadWord(s, s', q[i - 1], q[i]);
      }
    }
  }

  lemma SamePosition(s: Snapshot, s': Snapshot, records: seq<BlockRecord>, g: Graph, x: nat, y: nat)
    requires Mirrors(s, s', records, g) && x < |records| && y < |records|
    requires records[x].payloadBegin == records[y].payloadBegin
    ensures x == y
  {
    hide DeadWord, Edge;
  }

  lemma CyclesAgree(s: Snapshot, s': Snapshot, records: seq<BlockRecord>, g: Graph, x: nat)
    requires Mirrors(s, s', records, g) && x < |records|
    ensures OnCycle(g, x) <==> OnDeadCycle(s, s', records[x].payloadBegin)
  {
    hide Mirrors, PathFromTo, WalkFromTo;
    if OnCycle(g, x) {
      var p :| WalkFromTo(g, p, x, x) && |p| >= 2;
      var q := WalkIsPath(s, s', records, g, p, x, x);
    }
    if OnDeadCycle(s, s', records[x].payloadBegin) {
      var q :| PathFromTo(s, s', q, records[x].payloadBegin, records[x].payloadBegin) && |q| >= 2;
      var p := PathIsWalk(s, s', records, g, q, x, x);
    }
  }

  lemma DownstreamAgrees(s: Snapshot, s': Snapshot, records: seq<BlockRecord>, g: Graph, y: nat)
    requires Mirrors(s, s', records, g) && y < |records|
    ensures DownstreamOfCycle(g, y) <==> BehindDeadCycle(s, s', records[y].payloadBegin)
  {
    hide Mirrors, PathFromTo, WalkFromTo, OnCycle, OnDeadCycle;
    if DownstreamOfCycle(g, y) {
      var x: nat, p :| OnCycle(g, x) && WalkFromTo(g, p, x, y);
      CycleWithin(s, s', records, g, x);
      var q := WalkIsPath(s, s', records, g, p, x, y);
      CyclesAgree(s, s', records, g, x);
    }
    if BehindDeadCycle(s, s', records[y].payloadBegin) {
      var u: Address, q :| OnDeadCycle(s, s', u) && PathFromTo(s, s', q, u, records[y].payloadBegin);
      var x := DeadCycleWithin(s, s', records, g, u);
      var p := PathIsWalk(s, s', records, g, q, x, y);
      CyclesAgree(s, s', records, g, x);
    }
  }

  lemma CycleWithin(s: Snapshot, s': Snapshot, records: seq<BlockRecord>, g: Graph, x: nat)
    requires Mirrors(s, s', records, g) && OnCycle(g, x)
    ensures x < |records|
  {
    var p :| WalkFromTo(g, p, x, x) && |p| >= 2;
    assert Edge(g, p[0], p[1]);
  }

  lemma DeadCycleWithin(s: Snapshot, s': Snapshot, records: seq<BlockRecord>, g: Graph, u: Address) returns (x: nat)
    requires Mirrors(s, s', records, g) && OnDeadCycle(s, s', u)
    ensures x < |records| && records[x].payloadBegin == u
  {
    var q :| PathFromTo(s, s', q, u, u) && |q| >= 2;
    assert DeadWord(s, s', q[0], q[1]);
    x :| 0 <= x < |records| && records[x].payloadBegin == u;
  }

  // --- The order ---

  lemma WordIsReference(s: Snapshot, records: seq<BlockRecord>, x: nat, y: nat)
    requires ValidState(s) && Ordered(records) && x < |records| && y < |records| && x != y
    requires forall z :: 0 <= z < |records| ==>
               records[z].payloadBegin in s.allocations && records[z] == s.allocations[records[z].payloadBegin]
    ensures Refers(records, s.weak.memory, x, y) <==>
              WordInto(s, records[x].payloadBegin, records[x].payloadEnd, records[y].payloadBegin)
  {
    ValidParts(s);
    hide ValidState, Ordered, WordInto, WellFormed, HeadersFit;
    EdgeIsWord(s, records[x].payloadBegin, records[y].payloadBegin);
  }

  lemma BatchMirrors(s: Snapshot, s': Snapshot, stack: seq<Word>, report: Report)
    requires ValidState(s) && Collected(s, s', stack, report)
    ensures OrderedBy(report.records, s.weak.memory, report.batch, report.g, report.out)
    ensures Mirrors(s, s', report.records, report.g)
  {
    hide *;
    ValidParts(s);
    CollectedParts(s, s', stack, report);
    ReachedInHeap(s, stack);
    SurvivorKeys(s.allocations, s'.allocations, Survivors(s, stack));
    ghost var kept := Survivors(s, stack);
    DeadRecords(s, s', report.records, kept);
    RepresentsWords(s, s', report);
  }

  lemma DeadRecords(s: Snapshot, s': Snapshot, records: seq<BlockRecord>, kept: set<Address>)
    requires WellFormed(s.allocations) && s'.allocations.Keys == kept
    requires InOrder(records, Restrict(s.allocations, s.allocations.Keys - kept))
    ensures forall x :: 0 <= x < |records| ==>
              records[x].payloadBegin in s.allocations && records[x] == s.allocations[records[x].payloadBegin] &&
              records[x].payloadBegin !in s'.allocations
    ensures forall a :: a in s.allocations && a !in s'.allocations ==>
              exists x :: 0 <= x < |records| && records[x].payloadBegin == a
    ensures forall x, y :: 0 <= x < y < |records| ==> records[x].payloadBegin < records[y].payloadBegin
  {
    var dead := Restrict(s.allocations, s.allocations.Keys - kept);
    assert forall a :: a in dead ==> a in s.allocations && dead[a] == s.allocations[a] && a !in kept;
    forall x, y | 0 <= x < y < |records|
      ensures records[x].payloadBegin < records[y].payloadBegin
    {
      LaterBegin(records, x);
    }
    hide Restrict, Ordered;
    forall a | a in s.allocations && a !in s'.allocations
      ensures exists x :: 0 <= x < |records| && records[x].payloadBegin == a
    {
      InRestriction(s.allocations, s.allocations.Keys - kept, a);
    }
  }

  lemma InRestriction(heap: Allocations, dead: set<Address>, a: Address)
    requires a in heap && a in dead
    ensures a in Restrict(heap, dead)
  {
  }

  lemma RepresentsWords(s: Snapshot, s': Snapshot, report: Report)
    requires ValidState(s) && OrderedBy(report.records, s.weak.memory, report.batch, report.g, report.out)
    requires forall x :: 0 <= x < |report.records| ==>
               report.records[x].payloadBegin in s.allocations &&
               report.records[x] == s.allocations[report.records[x].payloadBegin] &&
               report.records[x].payloadBegin !in s'.allocations
    requires forall a :: a in s.allocations && a !in s'.allocations ==>
               exists x :: 0 <= x < |report.records| && report.records[x].payloadBegin == a
    requires forall x, y :: 0 <= x < y < |report.records| ==>
               report.records[x].payloadBegin < report.records[y].payloadBegin
    ensures Mirrors(s, s', report.records, report.g)
  {
    var records, g := report.records, report.g;
    hide ValidState, Greedy, Exhausted, Refers, Ordered, WordInto, Residue;
    forall x: nat, y: nat
      ensures Edge(g, x, y) ==> x < |records| && y < |records|
      ensures x < |records| && y < |records| ==>
                (Edge(g, x, y) <==> DeadWord(s, s', records[x].payloadBegin, records[y].payloadBegin))
    {
      EdgeIsReference(records, s.weak.memory, g, x, y);
      if x < |records| && y < |records| && x != y {
        WordIsReference(s, records, x, y);
      }
    }
  }

  lemma EdgeIsReference(records: seq<BlockRecord>, mem: Memory, g: Graph, x: nat, y: nat)
    requires Ordered(records) && Represents(g, records, mem)
    ensures Edge(g, x, y) <==> Refers(records, mem, x, y)
    ensures Edge(g, x, y) ==> x < |records| && y < |records| && x != y
  {
  }

  // If a word of a reclaimed block u addresses another one, v, then the destructor of u comes
  // first exactly if u is neither on a cycle of reclaimed blocks nor led to from one, or has the
  // higher address.
  lemma WordsOrderFinalizers(s: Snapshot, s': Snapshot, stack: seq<Word>, report: Report, u: Address, v: Address)
    returns (i: nat, j: nat)
    requires ValidState(s) && Collected(s, s', stack, report) && DeadWord(s, s', u, v)
    ensures i < |report.batch| && j < |report.batch|
    ensures u in s.allocations && report.batch[i] == s.allocations[u].header
    ensures v in s.allocations && report.batch[j] == s.allocations[v].header
    ensures i < j <==> !BehindDeadCycle(s, s', u) || u > v
  {
    hide *;
    BatchMirrors(s, s', stack, report);
    var x, y := BothListed(s, s', report.records, report.g, u, v);
    EdgeListed(s, s', report, x, y);
    DownstreamAgrees(s, s', report.records, report.g, x);
    ReferrersFinalizedFirst(s.weak.memory, report, x, y);
    i, j := Positions(report, x, y);
  }

  lemma BothListed(s: Snapshot, s': Snapshot, records: seq<BlockRecord>, g: Graph, u: Address, v: Address)
    returns (x: nat, y: nat)
    requires Mirrors(s, s', records, g) && DeadWord(s, s', u, v)
    ensures x < |records| && y < |records| && records[x].payloadBegin == u && records[y].payloadBegin == v
    ensures u in s.allocations && v in s.allocations && records[x] == s.allocations[u] && records[y] == s.allocations[v]
    ensures Edge(g, x, y) && (x > y <==> u > v)
  {
    x, y := PositionOf(records, u), PositionOf(records, v);
    hide WordInto, Edge;
  }

  lemma EdgeListed(s: Snapshot, s': Snapshot, report: Report, x: nat, y: nat)
    requires OrderedBy(report.records, s.weak.memory, report.batch, report.g, report.out) && Edge(report.g, x, y)
    ensures Ordered(report.records) && Refers(report.records, s.weak.memory, x, y)
  {
    hide Greedy, Exhausted, Refers, Ordered, Residue;
    EdgeIsReference(report.records, s.weak.memory, report.g, x, y);
  }

  lemma Positions(report: Report, x: nat, y: nat) returns (i: nat, j: nat)
    requires exists i, j :: 0 <= i < |report.batch| && 0 <= j < |report.batch| &&
               AtPosition(report, i, x) && AtPosition(report, j, y) &&
               (i < j <==> !DownstreamOfCycle(report.g, x) || x > y)
    ensures i < |report.batch| && j < |report.batch| && x < |report.records| && y < |report.records|
    ensures report.batch[i] == report.records[x].header && report.batch[j] == report.records[y].header
    ensures i < j <==> !DownstreamOfCycle(report.g, x) || x > y
  {
    hide DownstreamOfCycle;
    i, j :| 0 <= i < |report.batch| && 0 <= j < |report.batch| &&
            AtPosition(report, i, x) && AtPosition(report, j, y) &&
            (i < j <==> !DownstreamOfCycle(report.g, x) || x > y);
  }

  // The destructors are logged in batch order.
  lemma {:induction false} LoggedAt(batch: seq<ChunkHeader>, i: nat, j: nat) returns (k: nat, l: nat)
    requires i < |batch| && j < |batch| && batch[i].destructor.Some? && batch[j].destructor.Some?
    ensures k < |Finalizations(batch)| && Finalizations(batch)[k] == Finalized(batch[i])
    ensures l < |Finalizations(batch)| && Finalizations(batch)[l] == Finalized(batch[j])
    ensures (k < l <==> i < j) && (k == l <==> i == j)
    decreases |batch|
  {
    var n := |batch| - 1;
    var before := Finalizations(batch[..n]);
    if i < n && j < n {
      k, l := LoggedAt(batch[..n], i, j);
    } else if i < n {
      k, l := LoggedAt(batch[..n], i, i);
      l := |before|;
    } else if j < n {
      k, l := LoggedAt(batch[..n], j, j);
      k := |before|;
    } else {
      k, l := |before|, |before|;
    }
  }

  // So it is with the events of the log, if both blocks have destructors.
  lemma WordsOrderLog(s: Snapshot, s': Snapshot, stack: seq<Word>, report: Report, u: Address, v: Address)
    returns (k: nat, l: nat)
    requires ValidState(s) && Collected(s, s', stack, report) && DeadWord(s, s', u, v)
    requires u in s.allocations && s.allocations[u].header.destructor.Some?
    requires v in s.allocations && s.allocations[v].header.destructor.Some?
    ensures |s.log| <= k < |s'.log| && s'.log[k] == Finalized(s.allocations[u].header)
    ensures |s.log| <= l < |s'.log| && s'.log[l] == Finalized(s.allocations[v].header)
    ensures k < l <==> !BehindDeadCycle(s, s', u) || u > v
  {
    hide *;
    var i, j := WordsOrderFinalizers(s, s', stack, report, u, v);
    k, l := LoggedAt(report.batch, i, j);
    ValidParts(s);
    CollectedParts(s, s', stack, report);
    InTheMiddle(s.log, Finalizations(report.batch), Frees(report.batch), k);
    InTheMiddle(s.log, Finalizations(report.batch), Frees(report.batch), l);
    k, l := |s.log| + k, |s.log| + l;
  }

  lemma InTheMiddle(log: seq<Event>, added: seq<Event>, more: seq<Event>, k: nat)
    requires k < |added|
    ensures |log| + k < |log + added + more| && (log + added + more)[|log| + k] == added[k]
  {
  }
}
