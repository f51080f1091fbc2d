/** Kahn's algorithm over a graph of paths: the greedy order, its meaning, and the worklist loop. */
module Toposort {
  import opened Results
  import opened Paths

  datatype Edge = Edge(tail: Path, head: Path)

  // ---- what an order has to satisfy ----

  /** Every node once, and every edge leads from an earlier node to a strictly later one. */
  ghost predicate IsTopologicalOrder(nodes: set<Path>, edges: set<Edge>, out: seq<Path>) {
    && Distinct(out)
    && Elems(out) == nodes
    && forall i, j | 0 <= i <= j < |out| :: Edge(out[j], out[i]) !in edges
  }

  ghost predicate IsCycle(nodes: set<Path>, edges: set<Edge>, c: seq<Path>) {
    && |c| >= 2
    && c[0] == c[|c| - 1]
    && IsWalk(nodes, edges, c)
  }

  ghost predicate IsWalk(nodes: set<Path>, edges: set<Edge>, w: seq<Path>) {
    && (forall x | x in w :: x in nodes)
    && forall i | 0 < i < |w| :: Edge(w[i - 1], w[i]) in edges
  }

  ghost predicate Acyclic(nodes: set<Path>, edges: set<Edge>) {
    forall c: seq<Path> :: !IsCycle(nodes, edges, c)
  }

  /** Lexicographic order on sequences of paths. */
  ghost predicate LexLeq(xs: seq<Path>, ys: seq<Path>) {
    |xs| == 0 || (|ys| > 0 && (Less(xs[0], ys[0]) || (xs[0] == ys[0] && LexLeq(xs[1..], ys[1..]))))
  }

  ghost predicate IsLexLeast(nodes: set<Path>, edges: set<Edge>, out: seq<Path>) {
    forall s | IsTopologicalOrder(nodes, edges, s) :: LexLeq(out, s)
  }

  // ---- the greedy order ----

  /** The nodes without a predecessor among `nodes`. */
  function Ready(nodes: set<Path>, edges: set<Edge>): set<Path> {
    set v | v in nodes && forall e | e in edges :: e.head == v ==> e.tail !in nodes
  }

  /** Repeatedly takes the smallest ready node; stops early when every remaining node waits for another. */
  function LexKahn(nodes: set<Path>, edges: set<Edge>): (out: seq<Path>)
    decreases |nodes|
  {
    var ready := Ready(nodes, edges);
    if ready == {} then [] else [Least(ready)] + LexKahn(nodes - {Least(ready)}, edges)
  }

  lemma {:induction false} LexKahnElems(nodes: set<Path>, edges: set<Edge>)
    ensures Distinct(LexKahn(nodes, edges)) && Elems(LexKahn(nodes, edges)) <= nodes
    decreases |nodes|
  {
    if Ready(nodes, edges) != {} {
      var n := Least(Ready(nodes, edges));
      LexKahnElems(nodes - {n}, edges);
      ElemsConcat([n], LexKahn(nodes - {n}, edges));
      assert n !in Elems(LexKahn(nodes - {n}, edges));
    }
  }

  lemma LexKahnSize(nodes: set<Path>, edges: set<Edge>)
    ensures |LexKahn(nodes, edges)| <= |nodes|
    ensures |LexKahn(nodes, edges)| == |nodes| <==> Elems(LexKahn(nodes, edges)) == nodes
  {
    LexKahnElems(nodes, edges);
    DistinctSize(LexKahn(nodes, edges));
    SubsetSize(Elems(LexKahn(nodes, edges)), nodes);
  }

  lemma {:induction false} LexKahnForward(nodes: set<Path>, edges: set<Edge>, i: nat, j: nat)
    requires i <= j < |LexKahn(nodes, edges)|
    ensures Edge(LexKahn(nodes, edges)[j], LexKahn(nodes, edges)[i]) !in edges
    decreases |nodes|
  {
    var n := Least(Ready(nodes, edges));
    if i == 0 {
      LexKahnElems(nodes, edges);
      assert LexKahn(nodes, edges)[j] in Elems(LexKahn(nodes, edges));
    } else {
      LexKahnForward(nodes - {n}, edges, i - 1, j - 1);
    }
  }

  lemma LexKahnSound(nodes: set<Path>, edges: set<Edge>)
    requires Elems(LexKahn(nodes, edges)) == nodes
    ensures IsTopologicalOrder(nodes, edges, LexKahn(nodes, edges))
  {
    var out := LexKahn(nodes, edges);
    LexKahnElems(nodes, edges);
    forall i, j | 0 <= i <= j < |out| ensures Edge(out[j], out[i]) !in edges {
      LexKahnForward(nodes, edges, i, j);
    }
  }

  lemma {:induction false} LexKahnLeast(nodes: set<Path>, edges: set<Edge>, s: seq<Path>)
    requires IsTopologicalOrder(nodes, edges, s)
    ensures LexLeq(LexKahn(nodes, edges), s)
    decreases |nodes|
  {
    var ready := Ready(nodes, edges);
    if ready != {} {
      var n := Least(ready);
      assert n in Elems(s);
      assert s[0] in Elems(s);
      forall e | e in edges && e.head == s[0] ensures e.tail !in nodes {
        assert e == Edge(e.tail, s[0]);
        forall j | 0 <= j < |s| ensures s[j] != e.tail {
          assert Edge(s[j], s[0]) !in edges;
        }
        assert e.tail !in Elems(s);
      }
      assert s[0] in ready;
      assert s == [s[0]] + s[1..];
      if n == s[0] {
        assert Elems(s) == {n} + Elems(s[1..]);
        assert IsTopologicalOrder(nodes - {n}, edges, s[1..]);
        LexKahnLeast(nodes - {n}, edges, s[1..]);
      }
    }
  }

  // ---- completeness: the greedy order misses a node exactly when there is a cycle ----

  lemma {:induction false} Pigeonhole(w: seq<Path>, nodes: set<Path>) returns (i: nat, j: nat)
    requires forall x | x in w :: x in nodes
    requires |w| > |nodes|
    ensures i < j < |w| && w[i] == w[j]
  {
    DistinctSize(w);
    SubsetSize(Elems(w), nodes);
    assert !Distinct(w);
    i, j :| 0 <= i < j < |w| && w[i] == w[j];
  }

  lemma {:induction false} LongWalk(nodes: set<Path>, edges: set<Edge>, v: Path, n: nat) returns (w: seq<Path>)
    requires v in nodes && Ready(nodes, edges) == {}
    ensures |w| == n + 1 && IsWalk(nodes, edges, w)
    decreases n
  {
    if n == 0 {
      w := [v];
    } else {
      var rest := LongWalk(nodes, edges, v, n - 1);
      assert rest[0] in nodes && rest[0] !in Ready(nodes, edges);
      var e :| e in edges && e.head == rest[0] && e.tail in nodes;
      w := [e.tail] + rest;
      forall i | 0 < i < |w| ensures Edge(w[i - 1], w[i]) in edges {
        if i == 1 {
          assert e == Edge(w[0], w[1]);
        } else {
          assert w[i - 1] == rest[i - 2] && w[i] == rest[i - 1];
        }
      }
    }
  }

  lemma AcyclicHasReady(nodes: set<Path>, edges: set<Edge>)
    requires Acyclic(nodes, edges) && nodes != {}
    ensures Ready(nodes, edges) != {}
  {
    if Ready(nodes, edges) == {} {
      var v :| v in nodes;
      var w := LongWalk(nodes, edges, v, |nodes|);
      var i, j := Pigeonhole(w, nodes);
      var c := w[i..j + 1];
      assert IsCycle(nodes, edges, c);
    }
  }

  lemma {:induction false} AcyclicLexKahn(nodes: set<Path>, edges: set<Edge>)
    requires Acyclic(nodes, edges)
    ensures Elems(LexKahn(nodes, edges)) == nodes
    decreases |nodes|
  {
    if nodes != {} {
      AcyclicHasReady(nodes, edges);
      var n := Least(Ready(nodes, edges));
      forall c: seq<Path> ensures !IsCycle(nodes - {n}, edges, c) {
        if IsCycle(nodes - {n}, edges, c) {
          assert IsCycle(nodes, edges, c);
        }
      }
      AcyclicLexKahn(nodes - {n}, edges);
      ElemsConcat([n], LexKahn(nodes - {n}, edges));
    }
  }

  lemma {:induction false} CycleClimbs(nodes: set<Path>, edges: set<Edge>, out: seq<Path>, c: seq<Path>, k: nat) returns (i: nat, j: nat)
    requires IsTopologicalOrder(nodes, edges, out) && IsWalk(nodes, edges, c) && k < |c|
    ensures i < |out| && out[i] == c[0] && j < |out| && out[j] == c[k] && i + k <= j
  {
    if k == 0 {
      assert c[0] in Elems(out);
      i :| 0 <= i < |out| && out[i] == c[0];
      j := i;
    } else {
      var j';
      i, j' := CycleClimbs(nodes, edges, out, c, k - 1);
      assert c[k] in Elems(out);
      j :| 0 <= j < |out| && out[j] == c[k];
      assert Edge(c[k - 1], c[k]) in edges;
    }
  }

  lemma TopologicalIsAcyclic(nodes: set<Path>, edges: set<Edge>, out: seq<Path>)
    requires IsTopologicalOrder(nodes, edges, out)
    ensures Acyclic(nodes, edges)
  {
    forall c: seq<Path> ensures !IsCycle(nodes, edges, c) {
      if IsCycle(nodes, edges, c) {
        var i, j := CycleClimbs(nodes, edges, out, c, |c| - 1);
        assert false;
      }
    }
  }

  /** The greedy order lists all nodes exactly when the graph is acyclic; then it is the least topological order. */
  lemma LexKahnCorrect(nodes: set<Path>, edges: set<Edge>)
    ensures |LexKahn(nodes, edges)| == |nodes| <==> Acyclic(nodes, edges)
    ensures Acyclic(nodes, edges) ==> IsTopologicalOrder(nodes, edges, LexKahn(nodes, edges))
    ensures IsLexLeast(nodes, edges, LexKahn(nodes, edges))
  {
    LexKahnSize(nodes, edges);
    if Acyclic(nodes, edges) {
      AcyclicLexKahn(nodes, edges);
    }
    if Elems(LexKahn(nodes, edges)) == nodes {
      LexKahnSound(nodes, edges);
      TopologicalIsAcyclic(nodes, edges, LexKahn(nodes, edges));
    }
    forall s | IsTopologicalOrder(nodes, edges, s) ensures LexLeq(LexKahn(nodes, edges), s) {
      LexKahnLeast(nodes, edges, s);
    }
  }

  // ---- prefixes and restrictions ----

  /** Ordering the nodes of a prefix gives back that prefix. */
  lemma {:induction false} LexKahnPrefix(nodes: set<Path>, edges: set<Edge>, k: nat)
    requires k <= |LexKahn(nodes, edges)|
    ensures LexKahn(Elems(LexKahn(nodes, edges)[..k]), edges) == LexKahn(nodes, edges)[..k]
    decreases |nodes|
  {
    var out := LexKahn(nodes, edges);
    if k == 0 {
      assert out[..0] == [];
    } else {
      var ready := Ready(nodes, edges);
      var n := Least(ready);
      var rest := LexKahn(nodes - {n}, edges);
      assert out == [n] + rest;
      var sub := Elems(out[..k]);
      LexKahnElems(nodes, edges);
      PrefixReady(nodes, edges, k);
      assert out[0] in sub;
      assert IsLeast(n, Ready(sub, edges));
      LeastIsUnique(Ready(sub, edges), n);
      assert out[..k] == [n] + rest[..k - 1];
      LexKahnElems(nodes - {n}, edges);
      assert sub - {n} == Elems(rest[..k - 1]);
      LexKahnPrefix(nodes - {n}, edges, k - 1);
    }
  }

  lemma {:induction false} LexKahnPredecessors(nodes: set<Path>, edges: set<Edge>, i: nat, u: Path)
    requires i < |LexKahn(nodes, edges)| && u in nodes && Edge(u, LexKahn(nodes, edges)[i]) in edges
    ensures u in LexKahn(nodes, edges)[..i]
    decreases |nodes|
  {
    var out := LexKahn(nodes, edges);
    var n := Least(Ready(nodes, edges));
    var rest := LexKahn(nodes - {n}, edges);
    assert out == [n] + rest;
    assert i > 0;
    if u == n {
      assert out[..i][0] == n;
    } else {
      LexKahnPredecessors(nodes - {n}, edges, i - 1, u);
      assert out[..i] == [n] + rest[..i - 1];
    }
  }

  lemma PrefixReady(nodes: set<Path>, edges: set<Edge>, k: nat)
    requires k <= |LexKahn(nodes, edges)|
    ensures Ready(Elems(LexKahn(nodes, edges)[..k]), edges) == Ready(nodes, edges) * Elems(LexKahn(nodes, edges)[..k])
  {
    var out := LexKahn(nodes, edges);
    var sub := Elems(out[..k]);
    LexKahnElems(nodes, edges);
    forall v | v in sub && v in Ready(sub, edges) ensures v in Ready(nodes, edges) {
      var i :| 0 <= i < k && out[i] == v;
      forall e | e in edges && e.head == v ensures e.tail !in nodes {
        if e.tail in nodes {
          LexKahnPredecessors(nodes, edges, i, e.tail);
          assert false;
        }
      }
    }
  }

  /** Only edges between the nodes matter. */
  lemma {:induction false} LexKahnEdges(nodes: set<Path>, e1: set<Edge>, e2: set<Edge>)
    requires forall u, v | u in nodes && v in nodes :: Edge(u, v) in e1 <==> Edge(u, v) in e2
    ensures LexKahn(nodes, e1) == LexKahn(nodes, e2)
    decreases |nodes|
  {
    forall v | v in nodes ensures v in Ready(nodes, e1) <==> v in Ready(nodes, e2) {
      if v !in Ready(nodes, e1) {
        var e :| e in e1 && e.head == v && e.tail in nodes;
        assert e == Edge(e.tail, v);
      }
      if v !in Ready(nodes, e2) {
        var e :| e in e2 && e.head == v && e.tail in nodes;
        assert e == Edge(e.tail, v);
      }
    }
    assert Ready(nodes, e1) == Ready(nodes, e2);
    if Ready(nodes, e1) != {} {
      LexKahnEdges(nodes - {Least(Ready(nodes, e1))}, e1, e2);
    }
  }

  // ---- sorting is ordering without edges ----

  ghost predicate StrictlySorted(xs: seq<Path>) {
    forall i, j | 0 <= i < j < |xs| :: Less(xs[i], xs[j])
  }

  /** The elements of `s` in byte order: what `sort` leaves of a list of distinct paths. */
  function Sorted(s: set<Path>): (r: seq<Path>) {
    LexKahn(s, {})
  }

  lemma {:induction false} SortedCorrect(s: set<Path>)
    ensures StrictlySorted(Sorted(s)) && Elems(Sorted(s)) == s && Distinct(Sorted(s))
    decreases |s|
  {
    assert Ready(s, {}) == s;
    if s != {} {
      var n := Least(s);
      SortedCorrect(s - {n});
      PrependLeast(n, Sorted(s - {n}));
      assert s == {n} + (s - {n});
    }
  }

  lemma PrependLeast(n: Path, rest: seq<Path>)
    requires StrictlySorted(rest) && Distinct(rest)
    requires forall x | x in Elems(rest) :: Less(n, x)
    ensures StrictlySorted([n] + rest) && Distinct([n] + rest) && Elems([n] + rest) == {n} + Elems(rest)
  {
    forall j | 0 <= j < |rest| ensures Less(n, rest[j]) {
      assert rest[j] in Elems(rest);
    }
  }

  /** A strictly sorted sequence is determined by its elements. */
  lemma {:induction false} SortedUnique(xs: seq<Path>)
    requires StrictlySorted(xs)
    ensures Sorted(Elems(xs)) == xs
  {
    assert Ready(Elems(xs), {}) == Elems(xs);
    if xs != [] {
      LeqReflexive(xs[0]);
      assert xs[0] in Elems(xs);
      LeastIsUnique(Elems(xs), xs[0]);
      assert xs == [xs[0]] + xs[1..];
      assert Elems(xs) - {xs[0]} == Elems(xs[1..]);
      SortedUnique(xs[1..]);
    }
  }

  // ---- the loop of the program ----

  function EdgeSet(edges: seq<Edge>): set<Edge> {
    set e | e in edges
  }

  /** The heads of the edges that leave `u`, one entry per edge. */
  ghost function HeadsFrom(edges: seq<Edge>, u: Path): seq<Path> {
    if edges == [] then []
    else HeadsFrom(edges[..|edges| - 1], u)
         + (var e := edges[|edges| - 1]; if e.tail == u then [e.head] else [])
  }

  /** How many edges, counted with repetition, enter `v` from `from`. */
  ghost function InDegree(edges: seq<Edge>, from: set<Path>, v: Path): nat {
    if edges == [] then 0
    else InDegree(edges[..|edges| - 1], from, v)
         + (var e := edges[|edges| - 1]; if e.head == v && e.tail in from then 1 else 0)
  }

  lemma {:induction false} InDegreeRemove(edges: seq<Edge>, from: set<Path>, n: Path, v: Path)
    requires n in from
    ensures InDegree(edges, from, v) == InDegree(edges, from - {n}, v) + multiset(HeadsFrom(edges, n))[v]
  {
    if edges != [] {
      InDegreeRemove(edges[..|edges| - 1], from, n, v);
    }
  }

  lemma {:induction false} InDegreeZero(edges: seq<Edge>, from: set<Path>, v: Path)
    ensures InDegree(edges, from, v) == 0 <==> forall e | e in EdgeSet(edges) :: e.head == v ==> e.tail !in from
  {
    if edges != [] {
      var front, last := edges[..|edges| - 1], edges[|edges| - 1];
      InDegreeZero(front, from, v);
      assert edges == front + [last];
      assert EdgeSet(edges) == EdgeSet(front) + {last};
    }
  }

  lemma ReadyIsDegreeZero(edges: seq<Edge>, nodes: set<Path>, indegree: map<Path, nat>)
    requires indegree.Keys >= nodes && DegreesMatch(edges, nodes, [], indegree)
    ensures Ready(nodes, EdgeSet(edges)) == set v | v in nodes && indegree[v] == 0
  {
    forall v | v in nodes ensures v in Ready(nodes, EdgeSet(edges)) <==> indegree[v] == 0 {
      InDegreeZero(edges, nodes, v);
    }
  }

  /** Every indegree, counted with repetition. */
  ghost predicate Counted(edges: seq<Edge>, nodes: set<Path>, indegree: map<Path, nat>) {
    indegree.Keys == nodes && forall v | v in nodes :: indegree[v] == InDegree(edges, nodes, v)
  }

  /** Every adjacency list, repetitions kept. */
  ghost predicate Grouped(edges: seq<Edge>, adj: map<Path, seq<Path>>) {
    forall u: Path :: (if u in adj then adj[u] else []) == HeadsFrom(edges, u)
  }

  lemma CountedNext(edges: seq<Edge>, e: Edge, nodes: set<Path>, indegree: map<Path, nat>)
    requires Counted(edges, nodes, indegree) && e.tail in nodes && e.head in nodes
    ensures Counted(edges + [e], nodes, indegree[e.head := indegree[e.head] + 1])
  {
    assert (edges + [e])[..|edges|] == edges;
  }

  lemma GroupedNext(edges: seq<Edge>, e: Edge, adj: map<Path, seq<Path>>)
    requires Grouped(edges, adj)
    ensures Grouped(edges + [e], adj[e.tail := (if e.tail in adj then adj[e.tail] else []) + [e.head]])
  {
    assert (edges + [e])[..|edges|] == edges;
  }

  /** Counts indegrees and groups heads by tail, the first loop of the program. */
  method BuildGraph(nodes: set<Path>, edges: seq<Edge>) returns (indegree: map<Path, nat>, adj: map<Path, seq<Path>>)
    requires forall e | e in edges :: e.tail in nodes && e.head in nodes
    ensures Counted(edges, nodes, indegree)
    ensures Grouped(edges, adj)
  {
    indegree := map n | n in nodes :: 0;
    adj := map[];
    for i := 0 to |edges|
      invariant Counted(edges[..i], nodes, indegree)
      invariant Grouped(edges[..i], adj)
    {
      var e := edges[i];
      CountedNext(edges[..i], e, nodes, indegree);
      GroupedNext(edges[..i], e, adj);
      assert edges[..i + 1] == edges[..i] + [e];
      adj := adj[e.tail := (if e.tail in adj then adj[e.tail] else []) + [e.head]];
      indegree := indegree[e.head := indegree[e.head] + 1];
    }
    assert edges[..|edges|] == edges;
  }

  ghost predicate DegreesMatch(edges: seq<Edge>, remaining: set<Path>, pending: seq<Path>, indegree: map<Path, nat>)
    requires indegree.Keys >= remaining
  {
    forall v | v in remaining :: indegree[v] == InDegree(edges, remaining, v) + multiset(pending)[v]
  }

  lemma DegreesAfterTake(edges: seq<Edge>, remaining: set<Path>, n: Path, indegree: map<Path, nat>)
    requires indegree.Keys >= remaining && n in remaining
    requires DegreesMatch(edges, remaining, [], indegree)
    ensures DegreesMatch(edges, remaining - {n}, HeadsFrom(edges, n), indegree)
  {
    forall v | v in remaining - {n}
      ensures indegree[v] == InDegree(edges, remaining - {n}, v) + multiset(HeadsFrom(edges, n))[v]
    {
      InDegreeRemove(edges, remaining, n, v);
    }
  }

  /** Releases the heads of a taken node: the inner loop of the program. */
  method Release(ghost edges: seq<Edge>, ghost left: set<Path>, heads: seq<Path>, indegree0: map<Path, nat>, ready0: set<Path>)
    returns (indegree: map<Path, nat>, ready: set<Path>)
    requires indegree0.Keys >= left && DegreesMatch(edges, left, heads, indegree0)
    requires forall w | w in heads :: w in left
    requires ready0 == set v | v in left && indegree0[v] == 0
    ensures indegree.Keys == indegree0.Keys && DegreesMatch(edges, left, [], indegree)
    ensures ready == set v | v in left && indegree[v] == 0
  {
    indegree, ready := indegree0, ready0;
    assert heads[0..] == heads;
    for i := 0 to |heads|
      invariant indegree.Keys == indegree0.Keys
      invariant DegreesMatch(edges, left, heads[i..], indegree)
      invariant ready == set v | v in left && indegree[v] == 0
    {
      var w := heads[i];
      assert heads[i..] == [w] + heads[i + 1..];
      // The program asserts that the indegree is positive before it is decremented.
      assert indegree[w] > 0;
      indegree := indegree[w := indegree[w] - 1];
      if indegree[w] == 0 {
        ready := ready + {w};
      }
    }
    assert heads[|heads|..] == [];
  }

  /** The state of the main loop: `out` has been taken, `remaining` is left. */
  ghost predicate Taking(nodes: set<Path>, edges: seq<Edge>, out: seq<Path>, remaining: set<Path>, indegree: map<Path, nat>, ready: set<Path>) {
    && remaining <= nodes && indegree.Keys == nodes
    && |out| + |remaining| == |nodes|
    && DegreesMatch(edges, remaining, [], indegree)
    && ready == (set v | v in remaining && indegree[v] == 0)
    && LexKahn(nodes, EdgeSet(edges)) == out + LexKahn(remaining, EdgeSet(edges))
    && forall e | e in EdgeSet(edges) && e.tail in remaining :: e.head in remaining
  }

  /** What `Release` needs after `n` was taken. */
  lemma TakeOne(nodes: set<Path>, edges: seq<Edge>, out: seq<Path>, remaining: set<Path>, indegree: map<Path, nat>, ready: set<Path>, n: Path)
    requires Taking(nodes, edges, out, remaining, indegree, ready) && ready != {} && n == Least(ready)
    requires forall e | e in edges :: e.tail in nodes && e.head in nodes
    ensures DegreesMatch(edges, remaining - {n}, HeadsFrom(edges, n), indegree)
    ensures ready - {n} == set v | v in remaining - {n} && indegree[v] == 0
    ensures forall w | w in HeadsFrom(edges, n) :: w in remaining - {n}
    ensures LexKahn(nodes, EdgeSet(edges)) == (out + [n]) + LexKahn(remaining - {n}, EdgeSet(edges))
    ensures forall e | e in EdgeSet(edges) && e.tail in remaining - {n} :: e.head in remaining - {n}
  {
    ReadyIsDegreeZero(edges, remaining, indegree);
    assert n in Ready(remaining, EdgeSet(edges));
    DegreesAfterTake(edges, remaining, n, indegree);
    HeadsAreNodes(edges, n, nodes);
  }

  /** Topological order that prefers the smallest ready node; fails on a cycle. */
  method KahnToposort(nodes: set<Path>, edges: seq<Edge>) returns (r: Result<seq<Path>, string>)
    requires forall e | e in edges :: e.tail in nodes && e.head in nodes
    ensures r.Success? <==> Acyclic(nodes, EdgeSet(edges))
    ensures r.Success? ==> r.value == LexKahn(nodes, EdgeSet(edges))
    ensures r.Success? ==> IsTopologicalOrder(nodes, EdgeSet(edges), r.value)
    ensures r.Success? ==> IsLexLeast(nodes, EdgeSet(edges), r.value)
  {
    var indegree, adj := BuildGraph(nodes, edges);
    var ready := set n | n in nodes && indegree[n] == 0;
    var out: seq<Path> := [];
    ghost var remaining := nodes;
    while ready != {}
      invariant Taking(nodes, edges, out, remaining, indegree, ready)
      decreases |remaining|
    {
      var n := Least(ready);
      TakeOne(nodes, edges, out, remaining, indegree, ready, n);
      ready := ready - {n};
      out := out + [n];
      remaining := remaining - {n};
      indegree, ready := Release(edges, remaining, if n in adj then adj[n] else [], indegree, ready);
    }
    ReadyIsDegreeZero(edges, remaining, indegree);
    assert out == LexKahn(nodes, EdgeSet(edges));
    LexKahnCorrect(nodes, EdgeSet(edges));
    if |out| != |nodes| {
      return Failure("operation graph has a cycle or disconnected node with missing parents");
    }
    return Success(out);
  }

  lemma {:induction false} HeadsAreNodes(edges: seq<Edge>, u: Path, nodes: set<Path>)
    requires forall e | e in edges :: e.tail in nodes && e.head in nodes
    ensures forall w | w in HeadsFrom(edges, u) :: w in nodes && Edge(u, w) in EdgeSet(edges)
  {
    if edges != [] {
      var front, last := edges[..|edges| - 1], edges[|edges| - 1];
      assert edges == front + [last];
      HeadsAreNodes(front, u, nodes);
    }
  }
}
