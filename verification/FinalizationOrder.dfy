/**
The order in which unreachable blocks are finalized: Kahn's algorithm with a priority
queue that prefers high addresses, then a residue in descending address.

The first part builds the order the way the source does.  The second part proves what the
order means, from two facts only: the queue phase always takes the greatest block all of
whose sources are out (`Greedy`), and it stops when there is none (`Exhausted`).
 */
module FinalizationOrder {
  import opened Wrappers
  import opened Words
  import opened ChunkHeaders
  import opened Blocks

  // outgoing[u] lists the blocks u refers to, by position in the list of records.
  type Graph = seq<seq<nat>>

  ghost predicate Edge(g: Graph, u: nat, v: nat) {
    u < |g| && v in g[u]
  }

  ghost predicate NoDuplicates(s: seq<nat>) {
    forall i, j :: 0 <= i < j < |s| ==> s[i] != s[j]
  }

  ghost predicate ValidGraph(g: Graph) {
    && (forall u: nat, v: nat :: Edge(g, u, v) ==> v < |g| && v != u)
    && (forall u :: 0 <= u < |g| ==> NoDuplicates(g[u]))
  }

  // Some word of u's payload addresses a byte of another block v.
  ghost predicate Refers(records: seq<BlockRecord>, mem: Memory, u: nat, v: nat)
    requires Ordered(records)
  {
    u < |records| && v < |records| && u != v &&
    exists k: nat :: k < PayloadWords(records[u]) && Contains(records[v], PayloadWord(mem, records[u], k))
  }

  ghost predicate Represents(g: Graph, records: seq<BlockRecord>, mem: Memory)
    requires Ordered(records)
  {
    |g| == |records| && ValidGraph(g) && forall u: nat, v: nat :: Edge(g, u, v) <==> Refers(records, mem, u, v)
  }

  // --- What the queue phase maintains ---

  ghost predicate SourcesOut(g: Graph, out: seq<nat>, v: nat) {
    forall u: nat :: Edge(g, u, v) ==> u in out
  }

  // v may come next: it is not out yet, and everything that refers to it is.
  ghost predicate Available(g: Graph, out: seq<nat>, v: nat) {
    v < |g| && v !in out && SourcesOut(g, out, v)
  }

  ghost predicate GreatestAvailable(g: Graph, out: seq<nat>, v: nat) {
    Available(g, out, v) && forall w: nat :: Available(g, out, w) ==> w <= v
  }

  ghost predicate Greedy(g: Graph, out: seq<nat>) {
    forall i :: 0 <= i < |out| ==> GreatestAvailable(g, out[..i], out[i])
  }

  ghost predicate Exhausted(g: Graph, out: seq<nat>) {
    forall v: nat :: !Available(g, out, v)
  }

  // --- Building the graph ---

  // The distinct blocks that refer to v and are not out yet.
  ghost function Sources(g: Graph, out: seq<nat>, v: nat): set<nat> {
    set u | 0 <= u < |g| && v in g[u] && u !in out
  }

  ghost predicate CountsSources(g: Graph, out: seq<nat>, indegree: seq<nat>) {
    |indegree| == |g| && forall v :: 0 <= v < |g| ==> indegree[v] == |Sources(g, out, v)|
  }

  // One scan step: the word either names a new target of `source`, or nothing new.
  method AddReference(records: seq<BlockRecord>, source: nat, candidate: Word, outgoing: seq<nat>)
    returns (target: Option<nat>)
    requires Ordered(records) && source < |records|
    ensures target.Some? <==>
              exists v: nat :: v < |records| && v != source && v !in outgoing && Contains(records[v], candidate)
    ensures target.Some? ==>
              target.value < |records| && target.value != source && target.value !in outgoing &&
              Contains(records[target.value], candidate)
    ensures target.None? ==>
              forall v: nat :: v < |records| && v != source && Contains(records[v], candidate) ==> v in outgoing
  {
    var found := FindIndex(records, candidate);
    FindIndexNone(records, candidate);
    forall v: nat | v < |records| && Contains(records[v], candidate)
      ensures found == Some(v)
    {
      FindIndexExact(records, candidate, v);
    }
    if found.Some? {
      FindIndexExact(records, candidate, found.value);
    }
    if found.None? || found.value == source || found.value in outgoing {
      target := None;
    } else {
      target := found;
    }
  }

  ghost predicate TargetWithin(records: seq<BlockRecord>, mem: Memory, u: nat, count: nat, v: nat)
    requires Ordered(records) && u < |records| && count <= PayloadWords(records[u])
  {
    v < |records| && v != u &&
    exists k: nat :: k < count && Contains(records[v], PayloadWord(mem, records[u], k))
  }

  // The targets found among the first `count` words of block u.
  ghost predicate TargetsOf(records: seq<BlockRecord>, mem: Memory, u: nat, count: nat, outgoing: seq<nat>)
    requires Ordered(records) && u < |records| && count <= PayloadWords(records[u])
  {
    && NoDuplicates(outgoing)
    && forall v: nat :: v in outgoing <==> TargetWithin(records, mem, u, count, v)
  }

  method ScanReferences(records: seq<BlockRecord>, mem: Memory, source: nat, indegree0: seq<nat>)
    returns (outgoing: seq<nat>, indegree: seq<nat>)
    requires Ordered(records) && source < |records| && |indegree0| == |records|
    ensures TargetsOf(records, mem, source, PayloadWords(records[source]), outgoing)
    ensures |indegree| == |records|
    ensures forall v :: 0 <= v < |records| ==> indegree[v] == indegree0[v] + (if v in outgoing then 1 else 0)
  {
    outgoing, indegree := [], indegree0;
    var k := 0;
    while k < PayloadWords(records[source])
      invariant 0 <= k <= PayloadWords(records[source])
      invariant TargetsOf(records, mem, source, k, outgoing)
      invariant |indegree| == |records|
      invariant forall v :: 0 <= v < |records| ==> indegree[v] == indegree0[v] + (if v in outgoing then 1 else 0)
    {
      var candidate := PayloadWord(mem, records[source], k);
      var target := AddReference(records, source, candidate, outgoing);
      ghost var before := outgoing;
      if target.Some? {
        outgoing := outgoing + [target.value];
        indegree := indegree[target.value := indegree[target.value] + 1];
      }
      AddedTarget(records, mem, source, k, before, outgoing);
      k := k + 1;
    }
  }

  lemma AddedTarget(records: seq<BlockRecord>, mem: Memory, u: nat, k: nat, before: seq<nat>, after: seq<nat>)
    requires Ordered(records) && u < |records| && k < PayloadWords(records[u])
    requires TargetsOf(records, mem, u, k, before)
    requires
      var candidate := PayloadWord(mem, records[u], k);
      || (after == before &&
          forall v: nat :: v < |records| && v != u && Contains(records[v], candidate) ==> v in before)
      || (exists t: nat :: t < |records| && t != u && t !in before && Contains(records[t], candidate) &&
            after == before + [t])
    ensures TargetsOf(records, mem, u, k + 1, after)
  {
    var candidate := PayloadWord(mem, records[u], k);
    UniqueOwner(records, candidate);
    forall v: nat
      ensures v in after <==> TargetWithin(records, mem, u, k + 1, v)
    {
      if TargetWithin(records, mem, u, k, v) {
        var j: nat :| j < k && Contains(records[v], PayloadWord(mem, records[u], j));
        assert j < k + 1;
      }
      if v in after && v !in before {
        assert Contains(records[v], PayloadWord(mem, records[u], k));
      }
      if TargetWithin(records, mem, u, k + 1, v) {
        var j: nat :| j < k + 1 && Contains(records[v], PayloadWord(mem, records[u], j));
        assert j < k ==> TargetWithin(records, mem, u, k, v);
      }
    }
  }

  lemma UniqueOwner(records: seq<BlockRecord>, a: Address)
    requires Ordered(records)
    ensures forall u, v ::
              0 <= u < |records| && 0 <= v < |records| && Contains(records[u], a) && Contains(records[v], a) ==> u == v
  {
  }

  // The outgoing edges and in-degrees of every block, before anything is out.
  method BuildGraph(records: seq<BlockRecord>, mem: Memory) returns (edges: Graph, indegree: seq<nat>)
    requires Ordered(records)
    ensures Represents(edges, records, mem) && CountsSources(edges, [], indegree)
  {
    edges := [];
    indegree := seq(|records|, _ => 0);
    var source := 0;
    while source < |records|
      invariant 0 <= source <= |records| && |edges| == source && |indegree| == |records|
      invariant forall u :: 0 <= u < source ==> TargetsOf(records, mem, u, PayloadWords(records[u]), edges[u])
      invariant forall v :: 0 <= v < |records| ==> indegree[v] == |Sources(edges, [], v)|
    {
      var outgoing;
      ghost var edges0, indegree0 := edges, indegree;
      outgoing, indegree := ScanReferences(records, mem, source, indegree);
      edges := edges + [outgoing];
      SourcesAdded(edges0, outgoing, indegree0, indegree);
      source := source + 1;
    }
    TargetsAreReferences(edges, records, mem);
  }

  lemma SourcesAdded(edges: Graph, outgoing: seq<nat>, indegree0: seq<nat>, indegree: seq<nat>)
    requires |indegree| == |indegree0|
    requires forall v :: 0 <= v < |indegree| ==> indegree0[v] == |Sources(edges, [], v)|
    requires forall v :: 0 <= v < |indegree| ==> indegree[v] == indegree0[v] + (if v in outgoing then 1 else 0)
    ensures forall v :: 0 <= v < |indegree| ==> indegree[v] == |Sources(edges + [outgoing], [], v)|
  {
    forall v | 0 <= v < |indegree|
      ensures indegree[v] == |Sources(edges + [outgoing], [], v)|
    {
      assert Sources(edges + [outgoing], [], v) == Sources(edges, [], v) + (if v in outgoing then {|edges|} else {});
    }
  }

  lemma TargetsAreReferences(g: Graph, records: seq<BlockRecord>, mem: Memory)
    requires Ordered(records) && |g| == |records|
    requires forall u :: 0 <= u < |g| ==> TargetsOf(records, mem, u, PayloadWords(records[u]), g[u])
    ensures Represents(g, records, mem)
  {
    forall u: nat, v: nat
      ensures Edge(g, u, v) <==> Refers(records, mem, u, v)
    {
      if u < |records| {
        assert TargetsOf(records, mem, u, PayloadWords(records[u]), g[u]);
        assert v in g[u] <==> TargetWithin(records, mem, u, PayloadWords(records[u]), v);
      }
    }
  }

  // --- The queue phase ---

  // The top of a priority queue that puts the highest address first; records are in
  // ascending order, so that is the greatest position.
  method Top(records: seq<BlockRecord>, ready: seq<nat>) returns (at: nat)
    requires Ordered(records) && ready != [] && forall r :: r in ready ==> r < |records|
    ensures at < |ready| && forall r :: r in ready ==> r <= ready[at]
  {
    at := 0;
    var i := 1;
    while i < |ready|
      invariant 1 <= i <= |ready| && at < i
      invariant forall j :: 0 <= j < i ==> ready[j] <= ready[at]
    {
      assert ready[at] in ready && ready[i] in ready;
      if records[ready[at]].payloadBegin < records[ready[i]].payloadBegin {
        at := i;
      }
      i := i + 1;
    }
  }

  ghost predicate ReadyIs(g: Graph, out: seq<nat>, ready: seq<nat>) {
    NoDuplicates(ready) && forall v: nat :: v in ready <==> Available(g, out, v)
  }

  lemma SourcesEmpty(g: Graph, out: seq<nat>, v: nat)
    requires v < |g|
    ensures |Sources(g, out, v)| == 0 <==> SourcesOut(g, out, v)
  {
    if SourcesOut(g, out, v) {
      assert Sources(g, out, v) == {};
    } else {
      var u: nat :| Edge(g, u, v) && u !in out;
      assert u in Sources(g, out, v);
    }
  }

  lemma SourcesAfter(g: Graph, out: seq<nat>, index: nat, v: nat)
    requires index < |g| && index !in out && v < |g|
    ensures |Sources(g, out + [index], v)| == |Sources(g, out, v)| - (if v in g[index] then 1 else 0)
  {
    assert Sources(g, out + [index], v) == Sources(g, out, v) - {index};
    assert v in g[index] <==> index in Sources(g, out, v);
  }

  // The order of the first phase.  `pushed` lists what entered the ready queue.
  method QueuePhase(records: seq<BlockRecord>, edges: Graph, indegree0: seq<nat>)
    returns (order: seq<nat>, emitted: seq<bool>, ghost pushed: seq<nat>)
    requires Ordered(records) && ValidGraph(edges) && |edges| == |records| && CountsSources(edges, [], indegree0)
    ensures Greedy(edges, order) && Exhausted(edges, order)
    ensures |emitted| == |records| && forall v :: 0 <= v < |records| ==> (emitted[v] <==> v in order)
    ensures NoDuplicates(pushed) && forall v: nat :: v in pushed <==> v in order
  {
    var indegree := indegree0;
    var ready: seq<nat> := [];
    var index := 0;
    while index < |records|
      invariant 0 <= index <= |records|
      invariant NoDuplicates(ready)
      invariant forall v: nat :: v in ready <==> v < index && indegree[v] == 0
    {
      if indegree[index] == 0 {
        ready := ready + [index];
      }
      index := index + 1;
    }
    order, emitted, pushed := [], seq(|records|, _ => false), ready;
    InitiallyReady(edges, indegree, ready);
    while ready != []
      invariant Greedy(edges, order) && ReadyIs(edges, order, ready) && CountsSources(edges, order, indegree)
      invariant NoDuplicates(order) && forall v :: v in order ==> v < |records|
      invariant |emitted| == |records| && forall v :: 0 <= v < |records| ==> (emitted[v] <==> v in order)
      invariant NoDuplicates(pushed) && forall v: nat :: v in pushed <==> v in order || v in ready
      decreases |records| - |order|
    {
      var at := Top(records, ready);
      var next := ready[at];
      assert next in ready && Available(edges, order, next);
      ghost var ready0 := ready;
      ready := ready[..at] + ready[at + 1..];
      RemovedAt(ready0, at, ready);
      if !emitted[next] {
        emitted := emitted[next := true];
        ghost var out := order;
        order := order + [next];
        GreedyExtends(edges, out, next);
        BoundedLength(order, |records|);
        ghost var ready1 := ready;
        indegree, ready := Relax(edges, out, next, indegree, ready);
        ReleasedReady(edges, out, next, ready1, ready);
        assert ready == ready1 + ready[|ready1|..];
        AppendNoDuplicates(pushed, ready[|ready1|..]);
        pushed := pushed + ready[|ready1|..];
      }
    }
  }

  // Take `next` away from the in-degrees of its targets; those that reach zero are ready.
  method Relax(edges: Graph, ghost out: seq<nat>, next: nat, indegree0: seq<nat>, ready0: seq<nat>)
    returns (indegree: seq<nat>, ready: seq<nat>)
    requires ValidGraph(edges) && next < |edges| && next !in out && CountsSources(edges, out, indegree0)
    ensures CountsSources(edges, out + [next], indegree)
    ensures |ready0| <= |ready| && ready[..|ready0|] == ready0 && NoDuplicates(ready[|ready0|..])
    ensures forall v: nat :: v in ready[|ready0|..] <==> v in edges[next] && SourcesOut(edges, out + [next], v)
  {
    indegree, ready := indegree0, ready0;
    ghost var released: seq<nat> := [];
    var k := 0;
    while k < |edges[next]|
      invariant 0 <= k <= |edges[next]| && |indegree| == |edges|
      invariant forall v :: 0 <= v < |edges| ==>
                  indegree[v] + (if v in edges[next][..k] then 1 else 0) == indegree0[v]
      invariant ready == ready0 + released && NoDuplicates(released)
      invariant forall v: nat :: v in released <==> v < |edges| && v in edges[next][..k] && indegree[v] == 0
    {
      var target := edges[next][k];
      assert Edge(edges, next, target);
      assert next in Sources(edges, out, target);
      assert edges[next][..k + 1] == edges[next][..k] + [target];
      if indegree[target] > 0 {
        indegree := indegree[target := indegree[target] - 1];
        if indegree[target] == 0 {
          ready, released := ready + [target], released + [target];
        }
      }
      k := k + 1;
    }
    assert edges[next][..k] == edges[next];
    forall v | 0 <= v < |edges|
      ensures indegree[v] == |Sources(edges, out + [next], v)|
      ensures indegree[v] == 0 <==> SourcesOut(edges, out + [next], v)
    {
      SourcesAfter(edges, out, next, v);
      SourcesEmpty(edges, out + [next], v);
    }
    assert ready[|ready0|..] == released;
    forall v: nat
      ensures v in released <==> v in edges[next] && SourcesOut(edges, out + [next], v)
    {
      assert v in edges[next] ==> Edge(edges, next, v);
    }
  }

  lemma InitiallyReady(g: Graph, indegree: seq<nat>, ready: seq<nat>)
    requires CountsSources(g, [], indegree) && NoDuplicates(ready)
    requires forall v: nat :: v in ready <==> v < |g| && indegree[v] == 0
    ensures ReadyIs(g, [], ready)
  {
    forall v: nat
      ensures v in ready <==> Available(g, [], v)
    {
      if v < |g| {
        SourcesEmpty(g, [], v);
      }
    }
  }

  lemma AppendNoDuplicates(a: seq<nat>, b: seq<nat>)
    requires NoDuplicates(a) && NoDuplicates(b) && forall v :: v in a ==> v !in b
    ensures NoDuplicates(a + b)
  {
    forall i, j | 0 <= i < j < |a + b|
      ensures (a + b)[i] != (a + b)[j]
    {
      if i < |a| <= j {
        assert a[i] in a && b[j - |a|] in b;
      }
    }
  }

  lemma RemovedAt(s: seq<nat>, at: nat, rest: seq<nat>)
    requires at < |s| && NoDuplicates(s) && rest == s[..at] + s[at + 1..]
    ensures NoDuplicates(rest) && forall v: nat :: v in rest <==> v in s && v != s[at]
  {
    forall v: nat
      ensures v in rest <==> v in s && v != s[at]
    {
      if v in s && v != s[at] {
        var i :| 0 <= i < |s| && s[i] == v;
        assert rest[if i < at then i else i - 1] == v;
      }
    }
  }

  lemma GreedyExtends(g: Graph, out: seq<nat>, next: nat)
    requires Greedy(g, out) && GreatestAvailable(g, out, next)
    ensures Greedy(g, out + [next])
  {
    var longer := out + [next];
    forall i | 0 <= i < |longer|
      ensures GreatestAvailable(g, longer[..i], longer[i])
    {
      assert longer[..i] == out[..i];
      if i == |out| {
        assert out[..i] == out;
      }
    }
  }

  // Whatever is out has all its sources out before it.
  lemma SourcesFirst(g: Graph, out: seq<nat>, u: nat, v: nat)
    requires Greedy(g, out) && Edge(g, u, v) && v in out
    ensures u in out && Before(out, u, v)
  {
    var j :| 0 <= j < |out| && out[j] == v;
    assert GreatestAvailable(g, out[..j], out[j]);
    assert u in out[..j];
    var i :| 0 <= i < j && out[..j][i] == u;
    assert out[i] == u;
  }

  lemma ReleasedReady(g: Graph, out: seq<nat>, next: nat, rest: seq<nat>, ready: seq<nat>)
    requires Greedy(g, out) && next < |g| && next !in out && ValidGraph(g)
    requires NoDuplicates(rest) && forall v: nat :: v in rest <==> Available(g, out, v) && v != next
    requires |rest| <= |ready| && ready[..|rest|] == rest && NoDuplicates(ready[|rest|..])
    requires forall v: nat :: v in ready[|rest|..] <==> v in g[next] && SourcesOut(g, out + [next], v)
    ensures ReadyIs(g, out + [next], ready)
    ensures forall v :: v in ready[|rest|..] ==> v !in out && v != next && v !in rest
  {
    assert ready == rest + ready[|rest|..];
    forall v: nat
      ensures v in ready <==> Available(g, out + [next], v)
      ensures !(v in rest && v in ready[|rest|..])
    {
      if v in g[next] {
        assert Edge(g, next, v);
        assert !SourcesOut(g, out, v);
        if v in out {
          SourcesFirst(g, out, next, v);
        }
      } else {
        assert SourcesOut(g, out + [next], v) <==> SourcesOut(g, out, v) by {
          assert !Edge(g, next, v);
        }
      }
    }
    AppendNoDuplicates(rest, ready[|rest|..]);
  }

  lemma {:induction false} BoundedLength(s: seq<nat>, n: nat)
    requires NoDuplicates(s) && forall v :: v in s ==> v < n
    ensures |s| <= n
  {
    if s != [] {
      assert s[0] in s;
      if n - 1 in s {
        var at :| 0 <= at < |s| && s[at] == n - 1;
        var rest := s[..at] + s[at + 1..];
        RemovedAt(s, at, rest);
        BoundedLength(rest, n - 1);
      } else {
        BoundedLength(s, n - 1);
      }
    }
  }

  // --- The whole order ---

  // What the queue phase did not emit, in descending position.
  function Residue(n: nat, out: seq<nat>): seq<nat> {
    if n == 0 then []
    else if n - 1 in out then Residue(n - 1, out)
    else [n - 1] + Residue(n - 1, out)
  }

  // The order the records are finalized in: some greedy run of the queue phase over their
  // references, then the residue.
  ghost predicate IsFinalizationOrder(records: seq<BlockRecord>, mem: Memory, order: seq<nat>)
    requires Ordered(records)
  {
    exists g, out :: Represents(g, records, mem) && Greedy(g, out) && Exhausted(g, out) &&
      order == out + Residue(|records|, out)
  }

  method OrderBlocks(records: seq<BlockRecord>, mem: Memory)
    returns (order: seq<nat>, ghost g: Graph, ghost out: seq<nat>)
    requires Ordered(records)
    ensures IsFinalizationOrder(records, mem, order)
    ensures Represents(g, records, mem) && Greedy(g, out) && Exhausted(g, out)
    ensures order == out + Residue(|records|, out)
  {
    if |records| <= 1 {
      hide *;
      order := [];
      var index := 0;
      while index < |records|
        invariant 0 <= index <= |records| && order == (if index == 0 then [] else [0])
      {
        order := order + [index];
        index := index + 1;
      }
      g, out := seq(|records|, _ => []), order;
      NothingToOrder(records, mem, g, out);
    } else {
      hide Represents, Greedy, Exhausted, Ordered, CountsSources, ValidGraph;
      var edges, indegree := BuildGraph(records, mem);
      GraphOf(edges, records, mem);
      var emitted;
      ghost var pushed;
      order, emitted, pushed := QueuePhase(records, edges, indegree);
      g, out := edges, order;
      var index := |records|;
      while index > 0
        invariant 0 <= index <= |records|
        invariant order + Residue(index, out) == out + Residue(|records|, out)
      {
        if !emitted[index - 1] {
          order := order + [index - 1];
        }
        index := index - 1;
      }
    }
    MakeOrder(records, mem, g, out);
  }

  lemma MakeOrder(records: seq<BlockRecord>, mem: Memory, g: Graph, out: seq<nat>)
    requires Ordered(records) && Represents(g, records, mem) && Greedy(g, out) && Exhausted(g, out)
    ensures IsFinalizationOrder(records, mem, out + Residue(|records|, out))
  {
    hide Represents, Greedy, Exhausted, Residue, Ordered;
  }

  lemma GraphOf(g: Graph, records: seq<BlockRecord>, mem: Memory)
    requires Ordered(records) && Represents(g, records, mem)
    ensures ValidGraph(g) && |g| == |records|
  {
  }

  lemma NothingToOrder(records: seq<BlockRecord>, mem: Memory, g: Graph, out: seq<nat>)
    requires Ordered(records) && |records| <= 1 && |g| == |records| && out == (if |records| == 0 then [] else [0])
    requires forall u :: 0 <= u < |g| ==> g[u] == []
    ensures Represents(g, records, mem) && Greedy(g, out) && Exhausted(g, out) && Residue(|records|, out) == []
  {
  }

  // --- What the order means ---

  lemma {:induction false} GreedyUnique(g1: Graph, out1: seq<nat>, g2: Graph, out2: seq<nat>, i: nat)
    requires |g1| == |g2| && forall u: nat, v: nat :: Edge(g1, u, v) <==> Edge(g2, u, v)
    requires Greedy(g1, out1) && Exhausted(g1, out1) && Greedy(g2, out2) && Exhausted(g2, out2)
    requires i <= |out1| && i <= |out2| && out1[..i] == out2[..i]
    ensures out1 == out2
    decreases |out1| - i
  {
    if i < |out1| && i < |out2| {
      GreatestAt(g1, out1, i);
      GreatestAt(g2, out2, i);
      assert Available(g2, out2[..i], out1[i]) && Available(g1, out1[..i], out2[i]);
      assert out1[..i + 1] == out1[..i] + [out1[i]] && out2[..i + 1] == out2[..i] + [out2[i]];
      GreedyUnique(g1, out1, g2, out2, i + 1);
    } else {
      NoLonger(g1, out1, g2, out2);
      NoLonger(g2, out2, g1, out1);
      assert out1[..i] == out1 && out2[..i] == out2;
    }
  }

  lemma GreatestAt(g: Graph, out: seq<nat>, i: nat)
    requires Greedy(g, out) && i < |out|
    ensures GreatestAvailable(g, out[..i], out[i])
  {
  }

  lemma NoLonger(g1: Graph, out1: seq<nat>, g2: Graph, out2: seq<nat>)
    requires |g1| == |g2| && forall u: nat, v: nat :: Edge(g1, u, v) <==> Edge(g2, u, v)
    requires Exhausted(g1, out1) && Greedy(g2, out2)
    ensures |out1| < |out2| ==> out1 != out2[..|out1|]
  {
    if |out1| < |out2| {
      var v := out2[|out1|];
      GreatestAt(g2, out2, |out1|);
      assert Available(g1, out2[..|out1|], v);
    }
  }

  // The blocks and their words alone determine the order: it does not depend on how the
  // graph was built or the queue was arranged.
  lemma OrderIsUnique(records: seq<BlockRecord>, mem: Memory, order1: seq<nat>, order2: seq<nat>)
    requires Ordered(records)
    requires IsFinalizationOrder(records, mem, order1) && IsFinalizationOrder(records, mem, order2)
    ensures order1 == order2
  {
    var g1, out1 :| Represents(g1, records, mem) && Greedy(g1, out1) && Exhausted(g1, out1) &&
      order1 == out1 + Residue(|records|, out1);
    var g2, out2 :| Represents(g2, records, mem) && Greedy(g2, out2) && Exhausted(g2, out2) &&
      order2 == out2 + Residue(|records|, out2);
    hide Refers, Greedy, Exhausted, Residue, Ordered;
    GreedyUnique(g1, out1, g2, out2, 0);
  }

  lemma {:induction false} ResidueExact(n: nat, out: seq<nat>)
    ensures forall v: nat :: v in Residue(n, out) <==> v < n && v !in out
    ensures forall i, j :: 0 <= i < j < |Residue(n, out)| ==> Residue(n, out)[i] > Residue(n, out)[j]
  {
    if n > 0 {
      var rest := Residue(n - 1, out);
      ResidueExact(n - 1, out);
      assert forall i :: 0 <= i < |rest| ==> rest[i] in rest;
    }
  }

  lemma GreedyDistinct(g: Graph, out: seq<nat>)
    requires Greedy(g, out)
    ensures NoDuplicates(out) && forall v :: v in out ==> v < |g|
  {
    forall i, j | 0 <= i < j < |out|
      ensures out[i] != out[j]
    {
      assert GreatestAvailable(g, out[..j], out[j]);
      assert out[..j][i] == out[i];
    }
    forall v | v in out
      ensures v < |g|
    {
      var i :| 0 <= i < |out| && out[i] == v;
      assert GreatestAvailable(g, out[..i], out[i]);
    }
  }

  // Every block is finalized exactly once.
  lemma OrderIsPermutation(g: Graph, out: seq<nat>)
    requires Greedy(g, out)
    ensures
      var order := out + Residue(|g|, out);
      NoDuplicates(order) && |order| == |g| && forall v: nat :: v in order <==> v < |g|
  {
    var residue := Residue(|g|, out);
    GreedyDistinct(g, out);
    ResidueExact(|g|, out);
    AppendNoDuplicates(out, residue);
    var order := out + residue;
    BoundedLength(order, |g|);
    CoversLength(order, |g|);
  }

  lemma {:induction false} CoversLength(s: seq<nat>, n: nat)
    requires forall v: nat :: v < n ==> v in s
    ensures n <= |s|
    decreases n
  {
    if n > 0 {
      assert n - 1 in s;
      var at :| 0 <= at < |s| && s[at] == n - 1;
      var rest := s[..at] + s[at + 1..];
      forall v: nat | v < n - 1
        ensures v in rest
      {
        assert v in s;
        var i :| 0 <= i < |s| && s[i] == v;
        assert rest[if i < at then i else i - 1] == v;
      }
      CoversLength(rest, n - 1);
    }
  }

  ghost predicate Before(order: seq<nat>, u: nat, v: nat) {
    exists i, j :: 0 <= i < j < |order| && order[i] == u && order[j] == v
  }

  // A reference u -> v puts u first, unless both are in the residue.
  lemma ReferencesFirst(g: Graph, out: seq<nat>, u: nat, v: nat)
    requires ValidGraph(g) && Greedy(g, out) && Edge(g, u, v)
    ensures (u !in out && v !in out) || Before(out + Residue(|g|, out), u, v)
  {
    var residue := Residue(|g|, out);
    var order := out + residue;
    ResidueExact(|g|, out);
    if v in out {
      SourcesFirst(g, out, u, v);
      var i, j :| 0 <= i < j < |out| && out[i] == u && out[j] == v;
      assert order[i] == u && order[j] == v;
    } else if u in out {
      var i :| 0 <= i < |out| && out[i] == u;
      assert v in residue;
      var k :| 0 <= k < |residue| && residue[k] == v;
      assert order[i] == u && order[|out| + k] == v;
    }
  }

  // The residue follows in descending address.
  lemma ResidueDescends(records: seq<BlockRecord>, out: seq<nat>, i: nat, j: nat)
    requires Ordered(records) && forall v :: v in out ==> v < |records|
    requires |out| <= i < j < |out| + |Residue(|records|, out)|
    ensures
      var order := out + Residue(|records|, out);
      order[i] < |records| && order[j] < |records| &&
      records[order[i]].payloadBegin > records[order[j]].payloadBegin
  {
    ResidueExact(|records|, out);
    var residue := Residue(|records|, out);
    assert residue[i - |out|] in residue && residue[j - |out|] in residue;
  }

  // --- Which blocks the queue phase emits ---

  ghost predicate Walk(g: Graph, p: seq<nat>) {
    p != [] && forall i, j :: 0 <= i && j == i + 1 && j < |p| ==> Edge(g, p[i], p[j])
  }

  ghost predicate WalkFromTo(g: Graph, p: seq<nat>, u: nat, v: nat) {
    Walk(g, p) && p[0] == u && p[|p| - 1] == v
  }

  // No block has an edge to itself, so such a closed walk visits two or more blocks.
  ghost predicate OnCycle(g: Graph, u: nat) {
    exists p :: WalkFromTo(g, p, u, u) && |p| >= 2
  }

  ghost predicate DownstreamOfCycle(g: Graph, v: nat) {
    exists u: nat, p :: OnCycle(g, u) && WalkFromTo(g, p, u, v)
  }

  // Walking backwards from an emitted block meets only blocks emitted earlier.
  lemma {:induction false} WalkIntoOut(g: Graph, out: seq<nat>, p: seq<nat>, j: nat)
    requires Greedy(g, out) && Walk(g, p) && j < |out| && out[j] == p[|p| - 1]
    ensures exists i :: 0 <= i <= j && out[i] == p[0] && (|p| >= 2 ==> i < j)
    decreases |p|
  {
    if |p| >= 2 {
      var shorter := p[..|p| - 1];
      assert Edge(g, p[|p| - 2], p[|p| - 1]);
      assert GreatestAvailable(g, out[..j], out[j]);
      var k :| 0 <= k < j && out[k] == p[|p| - 2];
      WalkIntoOut(g, out, shorter, k);
    }
  }

  lemma EmittedIsNotDownstream(g: Graph, out: seq<nat>, v: nat)
    requires Greedy(g, out) && v in out
    ensures !DownstreamOfCycle(g, v)
  {
    if u: nat, p :| OnCycle(g, u) && WalkFromTo(g, p, u, v) {
      var j :| 0 <= j < |out| && out[j] == v;
      WalkIntoOut(g, out, p, j);
      var i :| 0 <= i <= j && out[i] == u;
      var cycle :| WalkFromTo(g, cycle, u, u) && |cycle| >= 2;
      WalkIntoOut(g, out, cycle, i);
      GreedyDistinct(g, out);
      assert false;
    }
  }

  // A block that was not emitted has a source that was not, and so on backwards.
  lemma {:induction false} BackWalk(g: Graph, out: seq<nat>, v: nat, k: nat) returns (p: seq<nat>)
    requires ValidGraph(g) && Greedy(g, out) && Exhausted(g, out) && v < |g| && v !in out
    ensures |p| == k + 1 && Walk(g, p) && p[k] == v
    ensures forall u :: u in p ==> u < |g| && u !in out
  {
    if k == 0 {
      p := [v];
    } else {
      var tail := BackWalk(g, out, v, k - 1);
      assert tail[0] in tail;
      assert !Available(g, out, tail[0]);
      var u: nat :| Edge(g, u, tail[0]) && u !in out;
      p := [u] + tail;
      assert forall i :: 1 <= i < |p| ==> p[i] == tail[i - 1];
    }
  }

  lemma LeftOverIsDownstream(g: Graph, out: seq<nat>, v: nat)
    requires ValidGraph(g) && Greedy(g, out) && Exhausted(g, out) && v < |g| && v !in out
    ensures DownstreamOfCycle(g, v)
  {
    var p := BackWalk(g, out, v, |g|);
    if NoDuplicates(p) {
      BoundedLength(p, |g|);
    }
    var i, j :| 0 <= i < j < |p| && p[i] == p[j];
    var cycle, tail := p[i..j + 1], p[j..];
    assert WalkFromTo(g, cycle, p[i], p[i]);
    assert WalkFromTo(g, tail, p[i], v);
    assert OnCycle(g, p[i]);
  }

  // The queue phase emits exactly the blocks that are neither on a cycle of two or more
  // blocks nor reachable from one.
  lemma EmittedExactly(g: Graph, out: seq<nat>, v: nat)
    requires ValidGraph(g) && Greedy(g, out) && Exhausted(g, out) && v < |g|
    ensures v in out <==> !DownstreamOfCycle(g, v)
  {
    if v in out {
      EmittedIsNotDownstream(g, out, v);
    } else {
      LeftOverIsDownstream(g, out, v);
    }
  }

  lemma CycleInGraph(g: Graph, u: nat)
    requires OnCycle(g, u)
    ensures u < |g|
  {
    var cycle :| WalkFromTo(g, cycle, u, u) && |cycle| >= 2;
    assert Edge(g, cycle[0], cycle[1]);
  }

  lemma AcyclicHasNoResidue(g: Graph, out: seq<nat>)
    requires ValidGraph(g) && Greedy(g, out) && Exhausted(g, out)
    ensures Residue(|g|, out) == [] <==> forall u: nat :: u < |g| ==> !OnCycle(g, u)
  {
    ResidueExact(|g|, out);
    if u: nat :| u < |g| && OnCycle(g, u) {
      EmittedExactly(g, out, u);
      assert WalkFromTo(g, [u], u, u);
      assert DownstreamOfCycle(g, u);
    }
    if Residue(|g|, out) != [] {
      var v := Residue(|g|, out)[0];
      assert v in Residue(|g|, out);
      EmittedExactly(g, out, v);
      var u: nat, p :| OnCycle(g, u) && WalkFromTo(g, p, u, v);
      CycleInGraph(g, u);
    }
  }

  lemma DownstreamExtends(g: Graph, u: nat, v: nat)
    requires DownstreamOfCycle(g, u) && Edge(g, u, v)
    ensures DownstreamOfCycle(g, v)
  {
    var c: nat, p :| OnCycle(g, c) && WalkFromTo(g, p, c, u);
    assert WalkFromTo(g, p + [v], c, v);
  }

  // Exactly when a reference u -> v puts u first: always, unless u lies on or downstream of
  // a cycle; then only if u has the higher address.
  lemma ReferenceOrderExact(g: Graph, out: seq<nat>, u: nat, v: nat)
    requires ValidGraph(g) && Greedy(g, out) && Exhausted(g, out) && Edge(g, u, v)
    ensures Before(out + Residue(|g|, out), u, v) <==> !DownstreamOfCycle(g, u) || u > v
  {
    var residue := Residue(|g|, out);
    var order := out + residue;
    ResidueExact(|g|, out);
    EmittedExactly(g, out, u);
    ReferencesFirst(g, out, u, v);
    if DownstreamOfCycle(g, u) {
      DownstreamExtends(g, u, v);
      EmittedExactly(g, out, v);
      assert u in residue && v in residue;
      var i :| 0 <= i < |residue| && residue[i] == u;
      var j :| 0 <= j < |residue| && residue[j] == v;
      assert order[|out| + i] == u && order[|out| + j] == v;
      if Before(order, u, v) {
        var k, l :| 0 <= k < l < |order| && order[k] == u && order[l] == v;
        assert k >= |out| && l >= |out|;
        assert residue[k - |out|] == u && residue[l - |out|] == v;
      }
    }
  }

  // So a reference between two blocks on no cycle can still be finalized in the wrong order.
  // Four blocks of two words, at 48, 96, 144 and 192: 0 and 1 refer to each other, 1 refers
  // to 2, and 2 to 3.
  function ChainRecord(h: ChunkHeader, i: nat): BlockRecord
    requires i < 4
  {
    BlockRecord(h, 48 * i + 48, 48 * i + 64, false)
  }

  function ChainRecords(hs: seq<ChunkHeader>): seq<BlockRecord>
    requires |hs| == 4
  {
    [ChainRecord(hs[0], 0), ChainRecord(hs[1], 1), ChainRecord(hs[2], 2), ChainRecord(hs[3], 3)]
  }

  predicate ChainMemory(mem: Memory) {
    && Load(mem, 48) == 96 && Load(mem, 56) == 0
    && Load(mem, 96) == 48 && Load(mem, 104) == 144
    && Load(mem, 144) == 192 && Load(mem, 152) == 0
    && Load(mem, 192) == 0 && Load(mem, 200) == 0
  }

  const CHAIN_GRAPH: Graph := [[1], [0, 2], [3], []]

  lemma ChainWords(hs: seq<ChunkHeader>, mem: Memory, u: nat, v: nat)
    requires |hs| == 4 && ChainMemory(mem) && u < 4 && v < 4
    ensures Ordered(ChainRecords(hs))
    ensures Refers(ChainRecords(hs), mem, u, v) <==> (u, v) in {(0, 1), (1, 0), (1, 2), (2, 3)}
  {
    var records := ChainRecords(hs);
    assert PayloadWords(records[u]) == 2;
    var first, second := PayloadWord(mem, records[u], 0), PayloadWord(mem, records[u], 1);
    assert first == [96, 48, 192, 0][u] && second == [0, 144, 0, 0][u];
    assert Refers(records, mem, u, v) <==> u != v && (Contains(records[v], first) || Contains(records[v], second));
  }

  lemma ChainRepresented(hs: seq<ChunkHeader>, mem: Memory)
    requires |hs| == 4 && ChainMemory(mem)
    ensures Ordered(ChainRecords(hs)) && Represents(CHAIN_GRAPH, ChainRecords(hs), mem)
  {
    var records := ChainRecords(hs);
    forall u: nat, v: nat
      ensures Edge(CHAIN_GRAPH, u, v) <==> Refers(records, mem, u, v)
    {
      if u < 4 && v < 4 {
        ChainWords(hs, mem, u, v);
      }
    }
  }

  // The only order of these blocks finalizes 3 before 2, which refers to it.
  lemma DownstreamInversion(hs: seq<ChunkHeader>, mem: Memory, order: seq<nat>)
    requires |hs| == 4 && ChainMemory(mem)
    ensures
      var records := ChainRecords(hs);
      && Ordered(records) && Represents(CHAIN_GRAPH, records, mem)
      && Refers(records, mem, 2, 3) && !OnCycle(CHAIN_GRAPH, 2) && !OnCycle(CHAIN_GRAPH, 3)
      && (IsFinalizationOrder(records, mem, order) <==> order == [3, 2, 1, 0])
  {
    var records, g := ChainRecords(hs), CHAIN_GRAPH;
    ChainRepresented(hs, mem);
    ChainWords(hs, mem, 2, 3);
    hide Refers, Contains, ChainRecords, Ordered;
    SinkOnNoCycle(g, 3);
    OnlyToSink(g, 2, 3);
    NothingAvailable(g);
    MakeOrder(records, mem, g, []);
    assert [] + Residue(4, []) == [3, 2, 1, 0];
    GraphOf(g, records, mem);
    hide *;
    if IsFinalizationOrder(records, mem, order) {
      OrderIsUnique(records, mem, order, [3, 2, 1, 0]);
    }
  }

  // Every block of the chain waits for another, so the queue phase emits nothing.
  lemma NothingAvailable(g: Graph)
    requires g == CHAIN_GRAPH
    ensures Greedy(g, []) && Exhausted(g, [])
  {
    assert Edge(g, 1, 0) && Edge(g, 0, 1) && Edge(g, 1, 2) && Edge(g, 2, 3);
  }

  lemma WalkStep(g: Graph, p: seq<nat>, i: nat)
    requires Walk(g, p) && i + 1 < |p|
    ensures p[i] < |g| && p[i + 1] in g[p[i]]
  {
    assert Edge(g, p[i], p[i + 1]);
  }

  lemma SinkOnNoCycle(g: Graph, v: nat)
    requires v < |g| && g[v] == []
    ensures !OnCycle(g, v)
  {
    if p :| WalkFromTo(g, p, v, v) && |p| >= 2 {
      WalkStep(g, p, 0);
    }
  }

  lemma OnlyToSink(g: Graph, u: nat, v: nat)
    requires u < |g| && v < |g| && g[u] == [v] && g[v] == [] && u != v
    ensures !OnCycle(g, u)
  {
    if p :| WalkFromTo(g, p, u, u) && |p| >= 2 {
      WalkStep(g, p, 0);
      if |p| >= 3 {
        WalkStep(g, p, 1);
      }
    }
  }

  // --- Among all orders that respect the references, the greatest ---

  ghost predicate Respects(g: Graph, p: seq<nat>) {
    forall j, u: nat :: 0 <= j < |p| && Edge(g, u, p[j]) ==> u in p[..j]
  }

  // q is p, or greater than p at the first position where they differ.
  ghost predicate LexAtMost(p: seq<nat>, q: seq<nat>) {
    p == q || exists i :: 0 <= i < |p| && i < |q| && p[..i] == q[..i] && p[i] < q[i]
  }

  lemma {:induction false} LexGreatestFrom(g: Graph, out: seq<nat>, p: seq<nat>, i: nat)
    requires ValidGraph(g) && Greedy(g, out) && NoDuplicates(p) && Respects(g, p) && |p| == |out|
    requires forall v: nat :: v in p ==> v < |g|
    requires i <= |p| && p[..i] == out[..i]
    ensures LexAtMost(p, out)
    decreases |p| - i
  {
    if i < |p| {
      assert GreatestAvailable(g, out[..i], out[i]);
      assert p[i] in p;
      assert p[i] !in p[..i];
      assert Available(g, out[..i], p[i]);
      if p[i] == out[i] {
        assert p[..i + 1] == p[..i] + [p[i]] && out[..i + 1] == out[..i] + [out[i]];
        LexGreatestFrom(g, out, p, i + 1);
      }
    } else {
      assert p[..i] == p && out[..i] == out;
    }
  }

  // Positions are in ascending address, so greater positions are higher addresses.
  lemma LexGreatest(g: Graph, out: seq<nat>, p: seq<nat>)
    requires ValidGraph(g) && Greedy(g, out)
    requires NoDuplicates(p) && Respects(g, p) && multiset(p) == multiset(out)
    ensures Respects(g, out) && LexAtMost(p, out)
  {
    forall j, u: nat | 0 <= j < |out| && Edge(g, u, out[j])
      ensures u in out[..j]
    {
      assert GreatestAvailable(g, out[..j], out[j]);
    }
    assert |p| == |multiset(p)| && |out| == |multiset(out)|;
    GreedyDistinct(g, out);
    forall v: nat | v in p
      ensures v < |g|
    {
      assert v in multiset(p);
      assert v in out;
    }
    LexGreatestFrom(g, out, p, 0);
  }
}
