/**
What a collection means: plain reachability in the graph whose edges are interior
pointers found in payload words.
 */
module Reachability {
  import opened Words
  import opened Blocks

  // Some word of u's payload addresses a byte of v.
  ghost predicate PointsTo(allocations: Allocations, mem: Memory, u: Address, v: Address)
    requires WellFormed(allocations)
  {
    u in allocations && v in allocations &&
    exists k: nat :: k < PayloadWords(allocations[u]) && Contains(allocations[v], PayloadWord(mem, allocations[u], k))
  }

  // v is under construction, or some scanned root word addresses a byte of it.
  ghost predicate IsRoot(allocations: Allocations, roots: seq<Word>, v: Address) {
    v in allocations && (allocations[v].constructing || exists w :: w in roots && Contains(allocations[v], w))
  }

  ghost predicate Chain(allocations: Allocations, mem: Memory, roots: seq<Word>, p: seq<Address>)
    requires WellFormed(allocations)
  {
    p != [] && IsRoot(allocations, roots, p[0]) &&
    forall i, j :: 0 <= i && j == i + 1 && j < |p| ==> PointsTo(allocations, mem, p[i], p[j])
  }

  ghost predicate Reachable(allocations: Allocations, mem: Memory, roots: seq<Word>, v: Address)
    requires WellFormed(allocations)
  {
    exists p :: Chain(allocations, mem, roots, p) && p[|p| - 1] == v
  }

  ghost function Reached(allocations: Allocations, mem: Memory, roots: seq<Word>): set<Address>
    requires WellFormed(allocations)
  {
    set v | v in allocations && Reachable(allocations, mem, roots, v)
  }

  lemma RootIsReachable(allocations: Allocations, mem: Memory, roots: seq<Word>, v: Address)
    requires WellFormed(allocations) && IsRoot(allocations, roots, v)
    ensures Reachable(allocations, mem, roots, v)
  {
    assert Chain(allocations, mem, roots, [v]);
    assert [v][|[v]| - 1] == v;
  }

  lemma SuccessorIsReachable(allocations: Allocations, mem: Memory, roots: seq<Word>, u: Address, v: Address)
    requires WellFormed(allocations) && Reachable(allocations, mem, roots, u) && PointsTo(allocations, mem, u, v)
    ensures Reachable(allocations, mem, roots, v)
  {
    var p :| Chain(allocations, mem, roots, p) && p[|p| - 1] == u;
    var longer := p + [v];
    assert Chain(allocations, mem, roots, longer);
    assert longer[|longer| - 1] == v;
  }

  ghost predicate Closed(allocations: Allocations, mem: Memory, roots: seq<Word>, s: set<Address>)
    requires WellFormed(allocations)
  {
    && (forall v :: IsRoot(allocations, roots, v) ==> v in s)
    && (forall u, v :: u in s && PointsTo(allocations, mem, u, v) ==> v in s)
  }

  lemma {:induction false} ChainStaysInside(
      allocations: Allocations, mem: Memory, roots: seq<Word>, s: set<Address>, p: seq<Address>)
    requires WellFormed(allocations) && Closed(allocations, mem, roots, s) && Chain(allocations, mem, roots, p)
    ensures p[|p| - 1] in s
    decreases |p|
  {
    if |p| > 1 {
      var shorter := p[..|p| - 1];
      assert PointsTo(allocations, mem, p[|p| - 2], p[|p| - 1]);
      ChainStaysInside(allocations, mem, roots, s, shorter);
    }
  }

  // A set of reachable blocks that is closed is the set of reachable blocks.
  lemma ClosedIsReached(allocations: Allocations, mem: Memory, roots: seq<Word>, s: set<Address>)
    requires WellFormed(allocations) && Closed(allocations, mem, roots, s)
    requires forall v :: v in s ==> v in allocations && Reachable(allocations, mem, roots, v)
    ensures s == Reached(allocations, mem, roots)
  {
    forall v | v in Reached(allocations, mem, roots)
      ensures v in s
    {
      var p :| Chain(allocations, mem, roots, p) && p[|p| - 1] == v;
      ChainStaysInside(allocations, mem, roots, s, p);
    }
  }

  lemma ReachedIsClosed(allocations: Allocations, mem: Memory, roots: seq<Word>)
    requires WellFormed(allocations)
    ensures Closed(allocations, mem, roots, Reached(allocations, mem, roots))
  {
    forall v | IsRoot(allocations, roots, v)
      ensures v in Reached(allocations, mem, roots)
    {
      RootIsReachable(allocations, mem, roots, v);
    }
    forall u, v | u in Reached(allocations, mem, roots) && PointsTo(allocations, mem, u, v)
      ensures v in Reached(allocations, mem, roots)
    {
      SuccessorIsReachable(allocations, mem, roots, u, v);
    }
  }

  function Restrict(allocations: Allocations, kept: set<Address>): (r: Allocations)
    ensures forall a :: a in r <==> a in allocations && a in kept
    ensures forall a :: a in r ==> r[a] == allocations[a]
  {
    map a | a in allocations && a in kept :: allocations[a]
  }

  // No root word and no word of a surviving payload addresses a byte of a reclaimed block.
  lemma SurvivorsDoNotDangle(allocations: Allocations, mem: Memory, roots: seq<Word>, dead: Address)
    requires WellFormed(allocations) && dead in allocations && dead !in Reached(allocations, mem, roots)
    ensures !allocations[dead].constructing
    ensures forall w :: w in roots ==> !Contains(allocations[dead], w)
    ensures forall u, k: nat :: u in Reached(allocations, mem, roots) && k < PayloadWords(allocations[u]) ==>
              !Contains(allocations[dead], PayloadWord(mem, allocations[u], k))
  {
    ReachedIsClosed(allocations, mem, roots);
    assert !IsRoot(allocations, roots, dead);
    forall u, k: nat | u in Reached(allocations, mem, roots) && k < PayloadWords(allocations[u])
      ensures !Contains(allocations[dead], PayloadWord(mem, allocations[u], k))
    {
      assert !PointsTo(allocations, mem, u, dead);
    }
  }

  // --- Encoded weak words ---

  // Some words that lie above every payload were replaced by zero.
  ghost predicate HighWordsZeroed(mem: Memory, mem': Memory) {
    forall a: Address :: Load(mem', a) == Load(mem, a) || (Load(mem', a) == 0 && Load(mem, a) >= PAYLOAD_LIMIT)
  }

  ghost predicate HighRootsZeroed(roots: seq<Word>, roots': seq<Word>) {
    |roots'| == |roots| &&
    forall i :: 0 <= i < |roots| ==> roots'[i] == roots[i] || (roots'[i] == 0 && roots[i] >= PAYLOAD_LIMIT)
  }

  // On the blocks of `smaller`, edges and roots are the same in both heaps.
  ghost predicate SameGraph(
      allocations: Allocations, mem: Memory, roots: seq<Word>,
      smaller: Allocations, mem': Memory, roots': seq<Word>)
    requires WellFormed(allocations) && WellFormed(smaller)
  {
    && (forall u, v :: u in smaller && v in smaller ==>
          (PointsTo(smaller, mem', u, v) <==> PointsTo(allocations, mem, u, v)))
    && (forall v :: v in smaller ==> (IsRoot(smaller, roots', v) <==> IsRoot(allocations, roots, v)))
  }

  lemma SmallerIsSameGraph(
      allocations: Allocations, mem: Memory, roots: seq<Word>,
      smaller: Allocations, mem': Memory, roots': seq<Word>)
    requires WellFormed(allocations) && WellFormed(smaller)
    requires HighWordsZeroed(mem, mem') && HighRootsZeroed(roots, roots')
    requires forall v :: v in smaller ==> v in allocations && smaller[v] == allocations[v]
    ensures SameGraph(allocations, mem, roots, smaller, mem', roots')
  {
    forall u, v | u in smaller && v in smaller
      ensures PointsTo(smaller, mem', u, v) <==> PointsTo(allocations, mem, u, v)
    {
      SameEdges(allocations, mem, mem', smaller, u, v);
    }
    forall v | v in smaller
      ensures IsRoot(smaller, roots', v) <==> IsRoot(allocations, roots, v)
    {
      SameRoots(allocations, roots, roots', smaller, v);
    }
  }

  lemma SameGraphSameReached(
      allocations: Allocations, mem: Memory, roots: seq<Word>,
      smaller: Allocations, mem': Memory, roots': seq<Word>)
    requires WellFormed(allocations) && WellFormed(smaller)
    requires SameGraph(allocations, mem, roots, smaller, mem', roots')
    requires forall v :: v in Reached(allocations, mem, roots) ==> v in smaller
    requires forall v :: v in smaller ==> v in allocations
    ensures Reached(smaller, mem', roots') == Reached(allocations, mem, roots)
  {
    forall v | v in Reached(allocations, mem, roots)
      ensures Reachable(smaller, mem', roots', v)
    {
      var p :| Chain(allocations, mem, roots, p) && p[|p| - 1] == v;
      ChainSurvives(allocations, mem, roots, smaller, mem', roots', p);
    }
    SameGraphClosed(allocations, mem, roots, smaller, mem', roots');
    ClosedIsReached(smaller, mem', roots', Reached(allocations, mem, roots));
  }

  lemma SameGraphClosed(
      allocations: Allocations, mem: Memory, roots: seq<Word>,
      smaller: Allocations, mem': Memory, roots': seq<Word>)
    requires WellFormed(allocations) && WellFormed(smaller)
    requires SameGraph(allocations, mem, roots, smaller, mem', roots')
    requires forall v :: v in smaller ==> v in allocations
    ensures Closed(smaller, mem', roots', Reached(allocations, mem, roots))
  {
    var reached := Reached(allocations, mem, roots);
    ReachedIsClosed(allocations, mem, roots);
    forall v | IsRoot(smaller, roots', v)
      ensures v in reached
    {
      assert IsRoot(allocations, roots, v);
    }
    forall u, v | u in reached && PointsTo(smaller, mem', u, v)
      ensures v in reached
    {
      assert PointsTo(allocations, mem, u, v);
    }
  }

  // The blocks of `kept`, looked up and followed alone, are reached exactly as before, and
  // words no payload address can equal do not matter.
  lemma ReachedAgain(
      allocations: Allocations, mem: Memory, roots: seq<Word>, mem': Memory, roots': seq<Word>, kept: set<Address>)
    requires WellFormed(allocations) && HighWordsZeroed(mem, mem') && HighRootsZeroed(roots, roots')
    requires Reached(allocations, mem, roots) <= kept
    ensures WellFormed(Restrict(allocations, kept))
    ensures Reached(Restrict(allocations, kept), mem', roots') == Reached(allocations, mem, roots)
  {
    var smaller := Restrict(allocations, kept);
    SmallerIsSameGraph(allocations, mem, roots, smaller, mem', roots');
    SameGraphSameReached(allocations, mem, roots, smaller, mem', roots');
  }

  lemma SameEdges(allocations: Allocations, mem: Memory, mem': Memory, smaller: Allocations, u: Address, v: Address)
    requires WellFormed(allocations) && WellFormed(smaller) && HighWordsZeroed(mem, mem')
    requires u in smaller && v in smaller && u in allocations && v in allocations
    requires smaller[u] == allocations[u] && smaller[v] == allocations[v]
    ensures PointsTo(smaller, mem', u, v) <==> PointsTo(allocations, mem, u, v)
  {
    forall k: nat | k < PayloadWords(allocations[u])
      ensures Contains(allocations[v], PayloadWord(mem', allocations[u], k)) <==>
              Contains(allocations[v], PayloadWord(mem, allocations[u], k))
    {
      var a: Address := allocations[u].payloadBegin + WORD_SIZE * k;
      assert Load(mem', a) == Load(mem, a) || (Load(mem', a) == 0 && Load(mem, a) >= PAYLOAD_LIMIT);
    }
  }

  lemma SameRoots(allocations: Allocations, roots: seq<Word>, roots': seq<Word>, smaller: Allocations, v: Address)
    requires WellFormed(allocations) && HighRootsZeroed(roots, roots')
    requires v in smaller && v in allocations && smaller[v] == allocations[v]
    ensures IsRoot(smaller, roots', v) <==> IsRoot(allocations, roots, v)
  {
    if w :| w in roots && Contains(allocations[v], w) {
      var i :| 0 <= i < |roots| && roots[i] == w;
      assert roots'[i] == w;
    }
    if w :| w in roots' && Contains(allocations[v], w) {
      var i :| 0 <= i < |roots'| && roots'[i] == w;
      assert roots[i] == w;
    }
  }

  lemma {:induction false} ChainSurvives(
      allocations: Allocations, mem: Memory, roots: seq<Word>,
      smaller: Allocations, mem': Memory, roots': seq<Word>, p: seq<Address>)
    requires WellFormed(allocations) && WellFormed(smaller) && Chain(allocations, mem, roots, p)
    requires forall v :: v in Reached(allocations, mem, roots) ==> v in smaller
    requires SameGraph(allocations, mem, roots, smaller, mem', roots')
    ensures p[|p| - 1] in Reached(allocations, mem, roots)
    ensures Reachable(smaller, mem', roots', p[|p| - 1])
    decreases |p|
  {
    if |p| == 1 {
      RootIsReachable(allocations, mem, roots, p[0]);
      RootIsReachable(smaller, mem', roots', p[0]);
    } else {
      var shorter := p[..|p| - 1];
      var u, v := p[|p| - 2], p[|p| - 1];
      assert PointsTo(allocations, mem, u, v);
      ChainSurvives(allocations, mem, roots, smaller, mem', roots', shorter);
      SuccessorIsReachable(allocations, mem, roots, u, v);
      SuccessorIsReachable(smaller, mem', roots', u, v);
    }
  }
}
