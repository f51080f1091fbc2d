/** The order in which mirrored files may be written so that dependencies precede dependents. */
module MirrorApplyOrder {
  import opened Results
  import opened Paths
  import opened OperationStore
  import opened Toposort

  datatype Layer = Store | Views | OpStoreType | Operations | Misc | Index | Submodules | OpHeads

  const LAYERS: seq<Layer> := [Store, Views, OpStoreType, Operations, Misc, Index, Submodules, OpHeads]

  datatype OrderError =
    | InvalidOperationId(path: Path)
    | Unreadable(path: Path)
    | BadProto(path: Path)
    | BadParentLength(path: Path)
    | MissingParent(path: Path, parent: Path)
    | OwnParent(path: Path)
    | Cyclic

  function Classify(p: Path): Layer {
    if "store/" <= p then Store
    else if "op_store/views/" <= p then Views
    else if p == "op_store/type" then OpStoreType
    else if "op_store/operations/" <= p then Operations
    else if "index/" <= p then Index
    else if "submodules/" <= p then Submodules
    else if "op_heads/" <= p then OpHeads
    else Misc
  }

  function LayerRank(l: Layer): (r: nat)
    ensures r < |LAYERS| && LAYERS[r] == l
  {
    match l
    case Store => 0
    case Views => 1
    case OpStoreType => 2
    case Operations => 3
    case Misc => 4
    case Index => 5
    case Submodules => 6
    case OpHeads => 7
  }

  function PathRank(p: Path): (r: nat)
    ensures r < 8
  {
    LayerRank(Classify(p))
  }

  lemma KindRanks(p: Path)
    ensures IsOp(p) <==> PathRank(p) == 3
    ensures IsView(p) ==> PathRank(p) == 1
    ensures IsHead(p) ==> PathRank(p) == 7
  {
    if IsOp(p) {
      assert p[0] == 'o' && p[3] == 's' && p[9] == 'o';
    }
    if IsView(p) {
      assert p[0] == 'o' && p[9] == 'v';
    }
    if IsHead(p) {
      assert p[0] == 'o' && p[3] == 'h';
    }
  }

  function InLayer(s: set<Path>, k: nat): set<Path> {
    set p | p in s && PathRank(p) == k
  }

  function Ops(s: set<Path>): set<Path> {
    set p | p in s && IsOp(p)
  }

  lemma OpsAreLayer3(s: set<Path>)
    ensures Ops(s) == InLayer(s, 3)
  {
    forall p | p in s ensures IsOp(p) <==> PathRank(p) == 3 {
      KindRanks(p);
    }
  }

  /** An edge from each parent to each child among the operations of `s`. */
  function ParentEdges(files: map<Path, Bytes>, decode: Decoder, s: set<Path>): set<Edge> {
    set c, q | c in Ops(s) && q in ParentPaths(files, decode, c) :: Edge(q, c)
  }

  ghost predicate ValidOperation(files: map<Path, Bytes>, decode: Decoder, s: set<Path>, p: Path)
    requires IsOp(p)
  {
    && HexIdValid(p[|OP_PREFIX|..])
    && Parses(files, decode, p)
    && ParentPaths(files, decode, p) <= s
  }

  /** Exactly the inputs for which an apply order exists. */
  ghost predicate Orderable(files: map<Path, Bytes>, decode: Decoder, s: set<Path>) {
    && (forall p | p in Ops(s) :: ValidOperation(files, decode, s, p))
    && Acyclic(Ops(s), ParentEdges(files, decode, s))
  }

  /** The first `k` layers, each in least topological order. */
  function OrderUpTo(edges: set<Edge>, s: set<Path>, k: nat): seq<Path> {
    if k == 0 then [] else OrderUpTo(edges, s, k - 1) + LexKahn(InLayer(s, k - 1), edges)
  }

  function ApplyOrder(files: map<Path, Bytes>, decode: Decoder, s: set<Path>): seq<Path> {
    OrderUpTo(ParentEdges(files, decode, s), s, |LAYERS|)
  }

  // ---- what the order means ----

  lemma {:induction false} OrderUpToElems(edges: set<Edge>, s: set<Path>, k: nat)
    ensures forall p | p in OrderUpTo(edges, s, k) :: p in s && PathRank(p) < k
    ensures Distinct(OrderUpTo(edges, s, k))
  {
    if k > 0 {
      OrderUpToElems(edges, s, k - 1);
      var a, b := OrderUpTo(edges, s, k - 1), LexKahn(InLayer(s, k - 1), edges);
      LexKahnElems(InLayer(s, k - 1), edges);
      forall p | p in b ensures p in s && PathRank(p) == k - 1 {
        assert p in Elems(b);
      }
      DistinctConcat(a, b);
    }
  }

  /** Everything in a later layer ranks above the layers before it. */
  lemma BlockRanks(edges: set<Edge>, s: set<Path>, k: nat)
    ensures forall p | p in OrderUpTo(edges, s, k) :: PathRank(p) < k
    ensures forall p | p in LexKahn(InLayer(s, k), edges) :: PathRank(p) == k
  {
    OrderUpToElems(edges, s, k);
    LexKahnElems(InLayer(s, k), edges);
    forall p | p in LexKahn(InLayer(s, k), edges) ensures PathRank(p) == k {
      assert p in Elems(LexKahn(InLayer(s, k), edges));
    }
  }

  lemma LayeredConcat(a: seq<Path>, b: seq<Path>, l: nat, i: nat, j: nat)
    requires (forall p | p in a :: PathRank(p) < l) && (forall p | p in b :: PathRank(p) == l)
    requires i <= j < |a| + |b| && |a| <= j
    ensures PathRank((a + b)[i]) <= PathRank((a + b)[j])
  {
    assert (a + b)[j] in b;
    assert (a + b)[i] in a || (a + b)[i] in b;
  }

  /** Layers never go back. */
  lemma {:induction false} OrderUpToLayered(edges: set<Edge>, s: set<Path>, k: nat, i: nat, j: nat)
    requires i <= j < |OrderUpTo(edges, s, k)|
    ensures PathRank(OrderUpTo(edges, s, k)[i]) <= PathRank(OrderUpTo(edges, s, k)[j])
    decreases k
  {
    var a, b := OrderUpTo(edges, s, k - 1), LexKahn(InLayer(s, k - 1), edges);
    if j < |a| {
      OrderUpToLayered(edges, s, k - 1, i, j);
    } else {
      BlockRanks(edges, s, k - 1);
      LayeredConcat(a, b, k - 1, i, j);
    }
  }

  lemma LayerOfBlock(edges: set<Edge>, s: set<Path>, m: nat, l: nat)
    ensures Filter(LexKahn(InLayer(s, m), edges), InLayer(s, l)) == if l == m then LexKahn(InLayer(s, m), edges) else []
  {
    var b := LexKahn(InLayer(s, m), edges);
    LexKahnElems(InLayer(s, m), edges);
    if l == m {
      FilterAll(b, InLayer(s, l));
    } else {
      forall p | p in b ensures p !in InLayer(s, l) {
        assert p in Elems(b);
      }
      FilterNone(b, InLayer(s, l));
    }
  }

  lemma TopLayer(edges: set<Edge>, s: set<Path>, k: nat)
    requires k > 0
    ensures Filter(OrderUpTo(edges, s, k), InLayer(s, k - 1)) == LexKahn(InLayer(s, k - 1), edges)
  {
    var a, b := OrderUpTo(edges, s, k - 1), LexKahn(InLayer(s, k - 1), edges);
    FilterConcat(a, b, InLayer(s, k - 1));
    LayerOfBlock(edges, s, k - 1, k - 1);
    OrderUpToElems(edges, s, k - 1);
    FilterNone(a, InLayer(s, k - 1));
    assert [] + b == b;
  }

  lemma LowerLayer(edges: set<Edge>, s: set<Path>, k: nat, l: nat)
    requires l < k - 1
    ensures Filter(OrderUpTo(edges, s, k), InLayer(s, l)) == Filter(OrderUpTo(edges, s, k - 1), InLayer(s, l))
  {
    var a, b := OrderUpTo(edges, s, k - 1), LexKahn(InLayer(s, k - 1), edges);
    FilterConcat(a, b, InLayer(s, l));
    LayerOfBlock(edges, s, k - 1, l);
    assert Filter(a, InLayer(s, l)) + [] == Filter(a, InLayer(s, l));
  }

  /** Each layer, read off the result, is the least topological order of that layer. */
  lemma {:induction false} OrderUpToLayer(edges: set<Edge>, s: set<Path>, k: nat, l: nat)
    requires l < k
    ensures Filter(OrderUpTo(edges, s, k), InLayer(s, l)) == LexKahn(InLayer(s, l), edges)
    decreases k
  {
    if l == k - 1 {
      TopLayer(edges, s, k);
    } else {
      OrderUpToLayer(edges, s, k - 1, l);
      LowerLayer(edges, s, k, l);
    }
  }

  lemma {:induction false} FilterConcat(xs: seq<Path>, ys: seq<Path>, keep: set<Path>)
    ensures Filter(xs + ys, keep) == Filter(xs, keep) + Filter(ys, keep)
  {
    if xs == [] {
      assert xs + ys == ys;
    } else {
      FilterConcat(xs[1..], ys, keep);
      assert (xs + ys)[1..] == xs[1..] + ys;
    }
  }

  lemma {:induction false} FilterNone(xs: seq<Path>, keep: set<Path>)
    requires forall p | p in xs :: p !in keep
    ensures Filter(xs, keep) == []
  {
    if xs != [] {
      FilterNone(xs[1..], keep);
    }
  }

  lemma {:induction false} FilterAll(xs: seq<Path>, keep: set<Path>)
    requires Elems(xs) <= keep
    ensures Filter(xs, keep) == xs
  {
    if xs != [] {
      assert xs[0] in Elems(xs);
      assert Elems(xs[1..]) <= Elems(xs);
      FilterAll(xs[1..], keep);
    }
  }

  lemma NonOperationLayerSorted(files: map<Path, Bytes>, decode: Decoder, s: set<Path>, l: nat)
    requires l != 3
    ensures LexKahn(InLayer(s, l), ParentEdges(files, decode, s)) == Sorted(InLayer(s, l))
  {
    var edges := ParentEdges(files, decode, s);
    forall u, v | u in InLayer(s, l) && v in InLayer(s, l) ensures Edge(u, v) !in edges {
      KindRanks(v);
    }
    LexKahnEdges(InLayer(s, l), edges, {});
  }

  /** An orderable input comes back whole: every path once. */
  lemma ApplyOrderPermutes(files: map<Path, Bytes>, decode: Decoder, s: set<Path>)
    requires Orderable(files, decode, s)
    ensures Distinct(ApplyOrder(files, decode, s)) && Elems(ApplyOrder(files, decode, s)) == s
  {
    var edges := ParentEdges(files, decode, s);
    OrderUpToElems(edges, s, |LAYERS|);
    var out := ApplyOrder(files, decode, s);
    forall p | p in s ensures p in out {
      var l := PathRank(p);
      OrderUpToLayer(edges, s, |LAYERS|, l);
      OpsAreLayer3(s);
      if l == 3 {
        AcyclicLexKahn(InLayer(s, 3), edges);
      } else {
        NonOperationLayerSorted(files, decode, s, l);
        SortedCorrect(InLayer(s, l));
      }
      assert p in Elems(LexKahn(InLayer(s, l), edges));
      assert p in Elems(Filter(out, InLayer(s, l)));
    }
  }

  /** The canonical shape of the result: a permutation, layer by layer, each layer sorted, parents
      before children and otherwise the least such order. */
  lemma ApplyOrderMeaning(files: map<Path, Bytes>, decode: Decoder, s: set<Path>)
    requires Orderable(files, decode, s)
    ensures var out := ApplyOrder(files, decode, s);
            && Distinct(out) && Elems(out) == s
            && (forall i, j | 0 <= i <= j < |out| :: PathRank(out[i]) <= PathRank(out[j]))
            && (forall l | 0 <= l < 8 && l != 3 :: StrictlySorted(Filter(out, InLayer(s, l))))
            && IsTopologicalOrder(Ops(s), ParentEdges(files, decode, s), Filter(out, Ops(s)))
            && IsLexLeast(Ops(s), ParentEdges(files, decode, s), Filter(out, Ops(s)))
  {
    var edges := ParentEdges(files, decode, s);
    var out := ApplyOrder(files, decode, s);
    ApplyOrderPermutes(files, decode, s);
    forall i, j | 0 <= i <= j < |out| ensures PathRank(out[i]) <= PathRank(out[j]) {
      OrderUpToLayered(edges, s, |LAYERS|, i, j);
    }
    forall l | 0 <= l < 8 && l != 3 ensures StrictlySorted(Filter(out, InLayer(s, l))) {
      OrderUpToLayer(edges, s, |LAYERS|, l);
      NonOperationLayerSorted(files, decode, s, l);
      SortedCorrect(InLayer(s, l));
    }
    OpsAreLayer3(s);
    OrderUpToLayer(edges, s, |LAYERS|, 3);
    LexKahnCorrect(Ops(s), edges);
  }

  /** Which layer a path belongs to, by the names in the program. */
  lemma RanksByName(p: Path)
    ensures PathRank(p) == 0 <==> "store/" <= p
    ensures PathRank(p) == 1 <==> "op_store/views/" <= p
    ensures PathRank(p) == 2 <==> p == "op_store/type"
    ensures PathRank(p) == 3 <==> "op_store/operations/" <= p
    ensures PathRank(p) == 5 <==> "index/" <= p
    ensures PathRank(p) == 6 <==> "submodules/" <= p
    ensures PathRank(p) == 7 <==> "op_heads/" <= p
  {
    StartsApart(p);
  }

  lemma StartsApart(p: Path)
    ensures "store/" <= p ==> p[0] == 's' && p[1] == 't'
    ensures "submodules/" <= p ==> p[0] == 's' && p[1] == 'u'
    ensures "index/" <= p ==> p[0] == 'i'
    ensures "op_heads/" <= p ==> p[0] == 'o' && p[3] == 'h'
    ensures "op_store/views/" <= p ==> p[0] == 'o' && p[3] == 's' && p[9] == 'v'
    ensures "op_store/operations/" <= p ==> p[0] == 'o' && p[3] == 's' && p[9] == 'o'
    ensures p == "op_store/type" ==> p[0] == 'o' && p[3] == 's' && p[9] == 't'
  {
  }

  /** The result layer by layer: objects first, then views, the store's type, operations, everything that is
      not known, index, submodules, and the heads last. */
  lemma LayersInOrder(files: map<Path, Bytes>, decode: Decoder, s: set<Path>, i: nat, j: nat)
    requires Orderable(files, decode, s) && i < j < |ApplyOrder(files, decode, s)|
    ensures var p, q := ApplyOrder(files, decode, s)[i], ApplyOrder(files, decode, s)[j];
            && ("store/" <= q ==> "store/" <= p)
            && ("op_store/views/" <= q ==> "store/" <= p || "op_store/views/" <= p)
            && (q == "op_store/type" ==> "store/" <= p || "op_store/views/" <= p)
            && ("op_store/operations/" <= q ==>
                  "store/" <= p || "op_store/views/" <= p || p == "op_store/type" || "op_store/operations/" <= p)
            && ("op_heads/" <= p ==> "op_heads/" <= q)
            && ("submodules/" <= p ==> "submodules/" <= q || "op_heads/" <= q)
            && ("index/" <= p ==> "index/" <= q || "submodules/" <= q || "op_heads/" <= q)
  {
    var out := ApplyOrder(files, decode, s);
    RanksByName(out[i]);
    RanksByName(out[j]);
    OrderUpToLayered(ParentEdges(files, decode, s), s, |LAYERS|, i, j);
    ApplyOrderPermutes(files, decode, s);
  }

  /** Outside the operations the paths of one layer stand in byte order. */
  lemma LayersAreSorted(files: map<Path, Bytes>, decode: Decoder, s: set<Path>, i: nat, j: nat)
    requires Orderable(files, decode, s) && i < j < |ApplyOrder(files, decode, s)|
    requires PathRank(ApplyOrder(files, decode, s)[i]) == PathRank(ApplyOrder(files, decode, s)[j]) != 3
    ensures Less(ApplyOrder(files, decode, s)[i], ApplyOrder(files, decode, s)[j])
  {
    var out := ApplyOrder(files, decode, s);
    var l := PathRank(out[i]);
    ApplyOrderMeaning(files, decode, s);
    SortedWithin(out, InLayer(s, l), i, j);
  }

  lemma SortedWithin(xs: seq<Path>, keep: set<Path>, i: nat, j: nat)
    requires i < j < |xs| && xs[i] in keep && xs[j] in keep && StrictlySorted(Filter(xs, keep))
    ensures Less(xs[i], xs[j])
  {
    FilterKeepsOrder(xs, keep, i, j);
  }

  /** What a filter keeps stays in the same order. */
  lemma {:induction false} FilterKeepsOrder(xs: seq<Path>, keep: set<Path>, i: nat, j: nat)
    requires i < j < |xs| && Elems(xs[i..j + 1]) * keep >= {xs[i], xs[j]}
    ensures exists a, b :: 0 <= a < b < |Filter(xs, keep)| && Filter(xs, keep)[a] == xs[i] && Filter(xs, keep)[b] == xs[j]
  {
    var front, back := xs[..j], xs[j..];
    assert xs == front + back && back == [xs[j]] + xs[j + 1..];
    FilterConcat(front, back, keep);
    FilterConcat([xs[j]], xs[j + 1..], keep);
    var a, b := Filter(front, keep), Filter(back, keep);
    assert Elems(a) == Elems(front) * keep && xs[i] == front[i];
    assert xs[i] in Elems(a);
    var k :| 0 <= k < |a| && a[k] == xs[i];
    assert b[0] == xs[j];
    assert (a + b)[k] == xs[i] && (a + b)[|a|] == xs[j];
  }

  /** A list of the operations in which parents come before their children. */
  ghost predicate ParentsFirst(files: map<Path, Bytes>, decode: Decoder, out: seq<Path>) {
    forall i, q | 0 <= i < |out| && q in ParentPaths(files, decode, out[i]) :: q in out[..i]
  }

  /** A set can be ordered exactly if each of its operations is named by 128 hex digits, is on disk, decodes
      with parent ids of the right length, and the operations can be listed parents first. */
  lemma OrderableByListing(files: map<Path, Bytes>, decode: Decoder, s: set<Path>)
    ensures Orderable(files, decode, s) <==>
              && (forall p | p in s && "op_store/operations/" <= p :: HexIdValid(p[20..]) && Parses(files, decode, p))
              && exists out :: Distinct(out) && Elems(out) == Ops(s) && ParentsFirst(files, decode, out)
  {
    assert |OP_PREFIX| == 20 && forall p :: p in Ops(s) <==> p in s && "op_store/operations/" <= p;
    if Orderable(files, decode, s) {
      var out := ListedParentsFirst(files, decode, s);
    }
    if (forall p | p in Ops(s) :: HexIdValid(p[20..]) && Parses(files, decode, p))
       && exists out :: Distinct(out) && Elems(out) == Ops(s) && ParentsFirst(files, decode, out) {
      var out :| Distinct(out) && Elems(out) == Ops(s) && ParentsFirst(files, decode, out);
      ListingIsOrder(files, decode, s, out);
    }
  }

  lemma ListedParentsFirst(files: map<Path, Bytes>, decode: Decoder, s: set<Path>) returns (out: seq<Path>)
    requires Orderable(files, decode, s)
    ensures Distinct(out) && Elems(out) == Ops(s) && ParentsFirst(files, decode, out)
  {
    var edges := ParentEdges(files, decode, s);
    LexKahnCorrect(Ops(s), edges);
    out := LexKahn(Ops(s), edges);
    forall i, q | 0 <= i < |out| && q in ParentPaths(files, decode, out[i]) ensures q in out[..i] {
      assert out[i] in Elems(out);
      assert ValidOperation(files, decode, s, out[i]);
      assert Edge(q, out[i]) in edges && q in Ops(s);
      LexKahnPredecessors(Ops(s), edges, i, q);
    }
  }

  lemma ListingIsOrder(files: map<Path, Bytes>, decode: Decoder, s: set<Path>, out: seq<Path>)
    requires Distinct(out) && Elems(out) == Ops(s) && ParentsFirst(files, decode, out)
    ensures forall p | p in Ops(s) :: ParentPaths(files, decode, p) <= s
    ensures Acyclic(Ops(s), ParentEdges(files, decode, s))
  {
    var edges := ParentEdges(files, decode, s);
    forall p, q | p in Ops(s) && q in ParentPaths(files, decode, p) ensures q in s {
      assert p in Elems(out);
      var i :| 0 <= i < |out| && out[i] == p;
      assert q in out[..i];
      assert q in Elems(out);
    }
    forall i, j | 0 <= i <= j < |out| ensures Edge(out[j], out[i]) !in edges {
      assert out[j] !in out[..i];
      assert out[j] !in ParentPaths(files, decode, out[i]);
    }
    TopologicalIsAcyclic(Ops(s), edges, out);
  }

  // ---- prefixes ----

  lemma {:induction false} OrderUpToCongruent(edges: set<Edge>, s: set<Path>, t: set<Path>, k: nat)
    requires forall l | 0 <= l < k :: InLayer(s, l) == InLayer(t, l)
    ensures OrderUpTo(edges, s, k) == OrderUpTo(edges, t, k)
  {
    if k > 0 {
      OrderUpToCongruent(edges, s, t, k - 1);
    }
  }

  lemma PrefixSplits(edges: set<Edge>, s: set<Path>, k: nat, n: nat)
    requires k > 0 && n <= |OrderUpTo(edges, s, k)|
    ensures var a, b := OrderUpTo(edges, s, k - 1), LexKahn(InLayer(s, k - 1), edges);
            OrderUpTo(edges, s, k)[..n] == if n <= |a| then a[..n] else a + b[..n - |a|]
  {
  }

  /** The first `n` paths, ordered again, come out as they are. */
  ghost predicate PrefixHolds(edges: set<Edge>, s: set<Path>, k: nat, n: nat)
    requires n <= |OrderUpTo(edges, s, k)|
  {
    OrderUpTo(edges, Elems(OrderUpTo(edges, s, k)[..n]), k) == OrderUpTo(edges, s, k)[..n]
  }

  lemma PrefixOfLower(edges: set<Edge>, s: set<Path>, k: nat, n: nat)
    requires k > 0 && n <= |OrderUpTo(edges, s, k - 1)| && PrefixHolds(edges, s, k - 1, n)
    ensures n <= |OrderUpTo(edges, s, k)| && PrefixHolds(edges, s, k, n)
  {
    PrefixSplits(edges, s, k, n);
    EmptyLastLayer(edges, s, k, n);
  }

  lemma WholePrefix(edges: set<Edge>, s: set<Path>, k: nat)
    requires PrefixHolds(edges, s, k, |OrderUpTo(edges, s, k)|)
    ensures OrderUpTo(edges, Elems(OrderUpTo(edges, s, k)), k) == OrderUpTo(edges, s, k)
  {
    var a := OrderUpTo(edges, s, k);
    assert a[..|a|] == a;
  }

  lemma PrefixIs(edges: set<Edge>, s: set<Path>, k: nat, n: nat, out: seq<Path>)
    requires n <= |OrderUpTo(edges, s, k)| && OrderUpTo(edges, s, k)[..n] == out
    requires OrderUpTo(edges, Elems(out), k) == out
    ensures PrefixHolds(edges, s, k, n)
  {
  }

  lemma PrefixOfUpper(edges: set<Edge>, s: set<Path>, k: nat, n: nat)
    requires k > 0 && |OrderUpTo(edges, s, k - 1)| < n <= |OrderUpTo(edges, s, k)|
    requires PrefixHolds(edges, s, k - 1, |OrderUpTo(edges, s, k - 1)|)
    ensures PrefixHolds(edges, s, k, n)
  {
    var a, layer := OrderUpTo(edges, s, k - 1), LexKahn(InLayer(s, k - 1), edges);
    WholePrefix(edges, s, k - 1);
    PrefixSplits(edges, s, k, n);
    var b := layer[..n - |a|];
    PrefixOfLastLayer(edges, s, k, a, b);
    PrefixIs(edges, s, k, n, a + b);
  }

  lemma {:induction false} OrderUpToPrefix(edges: set<Edge>, s: set<Path>, k: nat, n: nat)
    requires n <= |OrderUpTo(edges, s, k)|
    ensures PrefixHolds(edges, s, k, n)
    decreases k
  {
    if k > 0 {
      var size := |OrderUpTo(edges, s, k - 1)|;
      if n <= size {
        OrderUpToPrefix(edges, s, k - 1, n);
        PrefixOfLower(edges, s, k, n);
      } else {
        OrderUpToPrefix(edges, s, k - 1, size);
        PrefixOfUpper(edges, s, k, n);
      }
    }
  }

  lemma EmptyLastLayer(edges: set<Edge>, s: set<Path>, k: nat, n: nat)
    requires k > 0 && n <= |OrderUpTo(edges, s, k - 1)|
    ensures var t := Elems(OrderUpTo(edges, s, k - 1)[..n]); OrderUpTo(edges, t, k) == OrderUpTo(edges, t, k - 1)
  {
    var t := Elems(OrderUpTo(edges, s, k - 1)[..n]);
    OrderUpToElems(edges, s, k - 1);
    assert InLayer(t, k - 1) == {};
    assert LexKahn({}, edges) == [];
  }

  lemma OrderFromParts(edges: set<Edge>, s: set<Path>, k: nat, a: seq<Path>, b: seq<Path>)
    requires k > 0 && OrderUpTo(edges, s, k - 1) == a && LexKahn(InLayer(s, k - 1), edges) == b
    ensures OrderUpTo(edges, s, k) == a + b
  {
  }

  lemma PrefixOfLastLayer(edges: set<Edge>, s: set<Path>, k: nat, a: seq<Path>, b: seq<Path>)
    requires k > 0 && a == OrderUpTo(edges, s, k - 1) && b <= LexKahn(InLayer(s, k - 1), edges)
    requires OrderUpTo(edges, Elems(a), k - 1) == a
    ensures OrderUpTo(edges, Elems(a + b), k) == a + b
  {
    var t := Elems(a + b);
    PrefixEarlier(edges, s, k, a, b);
    PrefixLast(edges, s, k, a, b);
    OrderFromParts(edges, t, k, a, b);
  }

  lemma PrefixEarlier(edges: set<Edge>, s: set<Path>, k: nat, a: seq<Path>, b: seq<Path>)
    requires k > 0 && a == OrderUpTo(edges, s, k - 1) && b <= LexKahn(InLayer(s, k - 1), edges)
    ensures OrderUpTo(edges, Elems(a + b), k - 1) == OrderUpTo(edges, Elems(a), k - 1)
  {
    PrefixRanks(edges, s, k, a, b);
    PrefixLayers(k, a, b);
    OrderUpToCongruent(edges, Elems(a + b), Elems(a), k - 1);
  }

  lemma PrefixLast(edges: set<Edge>, s: set<Path>, k: nat, a: seq<Path>, b: seq<Path>)
    requires k > 0 && a == OrderUpTo(edges, s, k - 1) && b <= LexKahn(InLayer(s, k - 1), edges)
    ensures LexKahn(InLayer(Elems(a + b), k - 1), edges) == b
  {
    PrefixRanks(edges, s, k, a, b);
    PrefixLayers(k, a, b);
    assert b == LexKahn(InLayer(s, k - 1), edges)[..|b|];
    LexKahnPrefix(InLayer(s, k - 1), edges, |b|);
  }

  lemma PrefixRanks(edges: set<Edge>, s: set<Path>, k: nat, a: seq<Path>, b: seq<Path>)
    requires k > 0 && a == OrderUpTo(edges, s, k - 1) && b <= LexKahn(InLayer(s, k - 1), edges)
    ensures forall p | p in a :: PathRank(p) < k - 1
    ensures forall p | p in b :: PathRank(p) == k - 1
  {
    OrderUpToElems(edges, s, k - 1);
    LexKahnElems(InLayer(s, k - 1), edges);
    forall p | p in b ensures PathRank(p) == k - 1 {
      assert p in Elems(LexKahn(InLayer(s, k - 1), edges));
    }
  }

  lemma PrefixLayers(k: nat, a: seq<Path>, b: seq<Path>)
    requires k > 0 && (forall p | p in a :: PathRank(p) < k - 1) && (forall p | p in b :: PathRank(p) == k - 1)
    ensures InLayer(Elems(a + b), k - 1) == Elems(b)
    ensures forall l | 0 <= l < k - 1 :: InLayer(Elems(a + b), l) == InLayer(Elems(a), l)
  {
    ElemsConcat(a, b);
  }

  lemma ApplyOrderEdges(e1: set<Edge>, e2: set<Edge>, s: set<Path>, k: nat)
    requires forall u, v | u in s && v in s :: Edge(u, v) in e1 <==> Edge(u, v) in e2
    ensures OrderUpTo(e1, s, k) == OrderUpTo(e2, s, k)
  {
    if k > 0 {
      ApplyOrderEdges(e1, e2, s, k - 1);
      LexKahnEdges(InLayer(s, k - 1), e1, e2);
    }
  }

  /** Position of a parent: an operation's parents in `s` come earlier in the result. */
  lemma {:induction false} ParentsEarlier(edges: set<Edge>, s: set<Path>, k: nat, i: nat, u: Path)
    requires i < |OrderUpTo(edges, s, k)| && u in s && Edge(u, OrderUpTo(edges, s, k)[i]) in edges
    requires PathRank(u) == PathRank(OrderUpTo(edges, s, k)[i])
    ensures u in OrderUpTo(edges, s, k)[..i]
  {
    var a, b := OrderUpTo(edges, s, k - 1), LexKahn(InLayer(s, k - 1), edges);
    if i < |a| {
      ParentsEarlier(edges, s, k - 1, i, u);
      EarlierInBoth(a, b, i, u);
    } else {
      ParentEarlierInLayer(edges, s, k - 1, i - |a|, u);
      EarlierInBoth(a, b, i, u);
    }
  }

  lemma EarlierInBoth(a: seq<Path>, b: seq<Path>, i: nat, u: Path)
    requires i < |a| + |b|
    requires if i < |a| then u in a[..i] else u in b[..i - |a|]
    ensures u in (a + b)[..i]
  {
    if i < |a| {
      assert (a + b)[..i] == a[..i];
    } else {
      assert (a + b)[..i] == a + b[..i - |a|];
    }
  }

  lemma ParentEarlierInLayer(edges: set<Edge>, s: set<Path>, l: nat, i: nat, u: Path)
    requires i < |LexKahn(InLayer(s, l), edges)| && u in s && Edge(u, LexKahn(InLayer(s, l), edges)[i]) in edges
    requires PathRank(u) == PathRank(LexKahn(InLayer(s, l), edges)[i])
    ensures u in LexKahn(InLayer(s, l), edges)[..i]
  {
    LexKahnElems(InLayer(s, l), edges);
    assert LexKahn(InLayer(s, l), edges)[i] in Elems(LexKahn(InLayer(s, l), edges));
    LexKahnPredecessors(InLayer(s, l), edges, i, u);
  }

  /** Every prefix of an apply order is orderable, and its apply order is that prefix: the live
      manifest of an upload that stopped halfway can always be built. */
  lemma PrefixStable(files: map<Path, Bytes>, decode: Decoder, s: set<Path>, n: nat)
    requires Orderable(files, decode, s) && n <= |ApplyOrder(files, decode, s)|
    ensures var prefix := ApplyOrder(files, decode, s)[..n];
            && Orderable(files, decode, Elems(prefix))
            && ApplyOrder(files, decode, Elems(prefix)) == prefix
  {
    var edges := ParentEdges(files, decode, s);
    var out := ApplyOrder(files, decode, s);
    var t := Elems(out[..n]);
    ApplyOrderPermutes(files, decode, s);
    assert t <= s;
    var edges' := ParentEdges(files, decode, t);
    OrderUpToPrefix(edges, s, |LAYERS|, n);
    ApplyOrderEdges(edges, edges', t, |LAYERS|);
    forall p | p in Ops(t) ensures ValidOperation(files, decode, t, p) {
      assert p in Ops(s);
      var i :| 0 <= i < n && out[i] == p;
      forall q | q in ParentPaths(files, decode, p) ensures q in t {
        KindRanks(p);
        KindRanks(q);
        assert Edge(q, p) in edges;
        ParentsEarlier(edges, s, |LAYERS|, i, q);
      }
    }
    forall c: seq<Path> ensures !IsCycle(Ops(t), edges', c) {
      if IsCycle(Ops(t), edges', c) {
        assert IsCycle(Ops(s), edges, c);
      }
    }
  }

  /** Two trees that agree on the operations of `s` order `s` alike: client and server compute the same order. */
  lemma ApplyOrderAgrees(f1: map<Path, Bytes>, f2: map<Path, Bytes>, decode: Decoder, s: set<Path>)
    requires forall p | p in Ops(s) :: p in f1 && p in f2 && f1[p] == f2[p]
    ensures Orderable(f1, decode, s) <==> Orderable(f2, decode, s)
    ensures ApplyOrder(f1, decode, s) == ApplyOrder(f2, decode, s)
  {
    assert forall p | p in Ops(s) :: ParentPaths(f1, decode, p) == ParentPaths(f2, decode, p);
    assert ParentEdges(f1, decode, s) == ParentEdges(f2, decode, s);
    assert forall p | p in Ops(s) :: ValidOperation(f1, decode, s, p) <==> ValidOperation(f2, decode, s, p);
  }

  // ---- the loops of the program ----

  ghost predicate ParentsUsable(ops: set<Path>, child: Path, op: Operation) {
    Sound(op) && ParentsOf(op) <= ops && child !in ParentsOf(op)
  }

  /** `edges` holds one edge for each non-zero parent id in `seen`. */
  ghost predicate EdgesFor(ops: set<Path>, child: Path, seen: seq<Bytes>, unique: set<Bytes>, edges: seq<Edge>) {
    && unique == (set id | id in seen && !AllZero(id))
    && (forall id | id in unique :: OpPath(id) in ops && OpPath(id) != child)
    && EdgeSet(edges) == (set id | id in unique :: Edge(OpPath(id), child))
    && Distinct(edges)
  }

  lemma AddEdge(ops: set<Path>, child: Path, seen: seq<Bytes>, unique: set<Bytes>, edges: seq<Edge>, id: Bytes)
    requires EdgesFor(ops, child, seen, unique, edges)
    requires !AllZero(id) && id !in unique && OpPath(id) in ops && OpPath(id) != child
    ensures EdgesFor(ops, child, seen + [id], unique + {id}, edges + [Edge(OpPath(id), child)])
  {
    var e := Edge(OpPath(id), child);
    if e in EdgeSet(edges) {
      var other :| other in unique && Edge(OpPath(other), child) == e;
      OpPathInjective(other, id);
      assert false;
    }
    DistinctConcat(edges, [e]);
    assert EdgeSet(edges + [e]) == EdgeSet(edges) + {e};
  }

  lemma NoEdge(ops: set<Path>, child: Path, seen: seq<Bytes>, unique: set<Bytes>, edges: seq<Edge>, id: Bytes)
    requires EdgesFor(ops, child, seen, unique, edges) && (AllZero(id) || id in unique)
    ensures EdgesFor(ops, child, seen + [id], unique, edges)
  {
  }

  lemma EdgesForAll(ops: set<Path>, child: Path, op: Operation, unique: set<Bytes>, edges: seq<Edge>)
    requires EdgesFor(ops, child, op.parents, unique, edges)
    ensures EdgeSet(edges) == (set q | q in ParentsOf(op) :: Edge(q, child)) && Distinct(edges)
    ensures ParentsOf(op) <= ops && child !in ParentsOf(op)
  {
    assert ParentsOf(op) == set id | id in unique :: OpPath(id);
  }

  /** The edges into one child, each parent once. */
  method ChildEdges(ops: set<Path>, child: Path, op: Operation) returns (r: Result<seq<Edge>, OrderError>)
    ensures r.Success? <==> ParentsUsable(ops, child, op)
    ensures r.Success? ==> EdgeSet(r.value) == (set q | q in ParentsOf(op) :: Edge(q, child)) && Distinct(r.value)
    ensures r.Failure? ==> match r.error
                           case BadParentLength(p) => p == child && !Sound(op)
                           case MissingParent(p, q) => p == child && q in ParentsOf(op) && q !in ops
                           case OwnParent(p) => p == child && child in ParentsOf(op)
                           case _ => false
  {
    var edges: seq<Edge> := [];
    var unique: set<Bytes> := {};
    for i := 0 to |op.parents|
      invariant forall id | id in op.parents[..i] :: |id| == OPERATION_ID_BYTES
      invariant EdgesFor(ops, child, op.parents[..i], unique, edges)
    {
      var parent := op.parents[i];
      assert parent in op.parents;
      assert op.parents[..i + 1] == op.parents[..i] + [parent];
      if |parent| != OPERATION_ID_BYTES {
        return Failure(BadParentLength(child));
      }
      if AllZero(parent) || parent in unique {
        NoEdge(ops, child, op.parents[..i], unique, edges, parent);
        continue;
      }
      var parentPath := OpPath(parent);
      assert parentPath in ParentsOf(op);
      if parentPath !in ops {
        return Failure(MissingParent(child, parentPath));
      }
      if parentPath == child {
        return Failure(OwnParent(child));
      }
      AddEdge(ops, child, op.parents[..i], unique, edges, parent);
      edges := edges + [Edge(parentPath, child)];
      unique := unique + {parent};
    }
    assert op.parents[..|op.parents|] == op.parents;
    EdgesForAll(ops, child, op, unique, edges);
    return Success(edges);
  }

  ghost predicate UsableOperation(files: map<Path, Bytes>, decode: Decoder, ops: set<Path>, p: Path) {
    Parses(files, decode, p) && ParentPaths(files, decode, p) <= ops && p !in ParentPaths(files, decode, p)
  }

  /** Whether the error names a defect that is really there. */
  ghost predicate Justified(files: map<Path, Bytes>, decode: Decoder, s: set<Path>, e: OrderError) {
    match e
    case InvalidOperationId(p) => p in Ops(s) && !HexIdValid(p[|OP_PREFIX|..])
    case Unreadable(p) => p in Ops(s) && p !in files
    case BadProto(p) => p in Ops(s) && p in files && decode(files[p]).None?
    case BadParentLength(p) => p in Ops(s) && p in files && decode(files[p]).Some? && !Sound(decode(files[p]).value)
    case MissingParent(p, q) => p in Ops(s) && p in files && decode(files[p]).Some? && q in ParentsOf(decode(files[p]).value) && q !in s
    case OwnParent(p) => p in Ops(s) && p in files && decode(files[p]).Some? && p in ParentsOf(decode(files[p]).value)
    case Cyclic => !Acyclic(Ops(s), ParentEdges(files, decode, s))
  }

  method OperationParentEdges(files: map<Path, Bytes>, decode: Decoder, opPaths: seq<Path>)
    returns (r: Result<seq<Edge>, OrderError>)
    requires forall p | p in opPaths :: IsOp(p)
    ensures r.Success? <==> forall p | p in opPaths :: UsableOperation(files, decode, Elems(opPaths), p)
    ensures r.Success? ==> EdgeSet(r.value) == ParentEdges(files, decode, Elems(opPaths))
    ensures r.Failure? ==> !r.error.InvalidOperationId? && !r.error.Cyclic? && Justified(files, decode, Elems(opPaths), r.error)
  {
    var ops := Elems(opPaths);
    var edges: seq<Edge> := [];
    for i := 0 to |opPaths|
      invariant forall p | p in opPaths[..i] :: UsableOperation(files, decode, ops, p)
      invariant EdgeSet(edges) == ParentEdges(files, decode, Elems(opPaths[..i]))
    {
      var child := opPaths[i];
      ghost var done := opPaths[..i];
      assert opPaths[..i + 1] == done + [child];
      ElemsConcat(done, [child]);
      assert child in opPaths;
      if child !in files {
        assert !UsableOperation(files, decode, ops, child);
        return Failure(Unreadable(child));
      }
      var op := decode(files[child]);
      if op.None? {
        assert !UsableOperation(files, decode, ops, child);
        return Failure(BadProto(child));
      }
      var added := ChildEdges(ops, child, op.value);
      if added.Failure? {
        assert !UsableOperation(files, decode, ops, child);
        return Failure(added.error);
      }
      assert EdgeSet(edges + added.value) == EdgeSet(edges) + EdgeSet(added.value);
      assert Ops(Elems(done + [child])) == Ops(Elems(done)) + {child};
      edges := edges + added.value;
    }
    assert opPaths[..|opPaths|] == opPaths;
    return Success(edges);
  }

  /** Selects the paths of a layer and sorts them. */
  method SortedPathsInLayer(paths: seq<Path>, l: Layer) returns (v: seq<Path>)
    ensures v == Sorted(InLayer(Elems(paths), LayerRank(l)))
    ensures StrictlySorted(v)
  {
    v := Filter(paths, InLayer(Elems(paths), LayerRank(l)));
    SortedCorrect(Elems(v));
    assert Elems(v) == InLayer(Elems(paths), LayerRank(l));
    v := Sorted(Elems(v));
  }

  /** The operations layer: validate the names, read the parent links, sort topologically. */
  method OrderOperations(files: map<Path, Bytes>, decode: Decoder, paths: seq<Path>)
    returns (r: Result<seq<Path>, OrderError>)
    requires Distinct(paths)
    ensures r.Success? <==> Orderable(files, decode, Elems(paths))
    ensures r.Success? ==> r.value == LexKahn(InLayer(Elems(paths), 3), ParentEdges(files, decode, Elems(paths)))
    ensures r.Failure? ==> Justified(files, decode, Elems(paths), r.error)
  {
    ghost var s := Elems(paths);
    OpsAreLayer3(s);
    var ops := Ops(Elems(paths));
    var opPaths := Filter(paths, ops);
    assert Elems(opPaths) == ops == Ops(ops);
    FilterDistinct(paths, ops);
    for i := 0 to |opPaths|
      invariant forall p | p in opPaths[..i] :: p in ops && HexIdValid(p[|OP_PREFIX|..])
    {
      var p := opPaths[i];
      assert p in Elems(opPaths);
      if !HexIdValid(p[|OP_PREFIX|..]) {
        return Failure(InvalidOperationId(p));
      }
      assert opPaths[..i + 1] == opPaths[..i] + [p];
    }
    assert opPaths[..|opPaths|] == opPaths;
    if opPaths == [] {
      assert Elems(opPaths) == {};
      AcyclicLexKahnEmpty(ParentEdges(files, decode, s));
      return Success([]);
    }
    var edges := OperationParentEdges(files, decode, opPaths);
    assert ParentEdges(files, decode, ops) == ParentEdges(files, decode, s);
    if edges.Failure? {
      UnusableNotOrderable(files, decode, s, opPaths);
      return Failure(edges.error);
    }
    forall p | p in ops ensures ValidOperation(files, decode, s, p) {
      assert p in opPaths;
      assert UsableOperation(files, decode, ops, p);
    }
    forall e | e in edges.value ensures e.tail in ops && e.head in ops {
      assert e in EdgeSet(edges.value);
      assert UsableOperation(files, decode, ops, e.head);
    }
    var sorted := KahnToposort(ops, edges.value);
    if sorted.Failure? {
      return Failure(Cyclic);
    }
    return Success(sorted.value);
  }

  lemma UnusableNotOrderable(files: map<Path, Bytes>, decode: Decoder, s: set<Path>, opPaths: seq<Path>)
    requires Elems(opPaths) == Ops(s)
    requires exists p | p in opPaths :: !UsableOperation(files, decode, Ops(s), p)
    ensures !Orderable(files, decode, s)
  {
    var p :| p in opPaths && !UsableOperation(files, decode, Ops(s), p);
    assert p in Ops(s);
    if ValidOperation(files, decode, s, p) {
      assert ParentPaths(files, decode, p) <= Ops(s);
      assert p in ParentPaths(files, decode, p);
      assert Edge(p, p) in ParentEdges(files, decode, s);
      assert IsCycle(Ops(s), ParentEdges(files, decode, s), [p, p]);
    }
  }

  lemma AcyclicLexKahnEmpty(edges: set<Edge>)
    ensures Acyclic({}, edges) && LexKahn({}, edges) == []
  {
    forall c: seq<Path> ensures !IsCycle({}, edges, c) {
      assert |c| > 0 ==> c[0] in c;
    }
  }

  /** One layer of the result; only the operations layer can fail. */
  method OrderLayer(files: map<Path, Bytes>, decode: Decoder, paths: seq<Path>, layer: Layer)
    returns (r: Result<seq<Path>, OrderError>)
    requires Distinct(paths)
    ensures r.Success? <==> (layer == Operations ==> Orderable(files, decode, Elems(paths)))
    ensures r.Success? ==> r.value == LexKahn(InLayer(Elems(paths), LayerRank(layer)), ParentEdges(files, decode, Elems(paths)))
    ensures r.Failure? ==> Justified(files, decode, Elems(paths), r.error)
  {
    if layer == Operations {
      r := OrderOperations(files, decode, paths);
    } else {
      var v := SortedPathsInLayer(paths, layer);
      NonOperationLayerSorted(files, decode, Elems(paths), LayerRank(layer));
      return Success(v);
    }
  }

  /** The full pull sequence for `paths`, or the defect that prevents one. */
  method ComputeMirrorApplyOrder(files: map<Path, Bytes>, decode: Decoder, paths: seq<Path>)
    returns (r: Result<seq<Path>, OrderError>)
    requires Distinct(paths)
    ensures r.Success? <==> Orderable(files, decode, Elems(paths))
    ensures r.Success? ==> r.value == ApplyOrder(files, decode, Elems(paths))
    ensures r.Success? ==> multiset(r.value) == multiset(paths)
    ensures r.Failure? ==> Justified(files, decode, Elems(paths), r.error)
  {
    var out: seq<Path> := [];
    for k := 0 to 8
      invariant out == OrderUpTo(ParentEdges(files, decode, Elems(paths)), Elems(paths), k)
      invariant k > 3 ==> Orderable(files, decode, Elems(paths))
    {
      assert LayerRank(LAYERS[k]) == k;
      var layer := OrderLayer(files, decode, paths, LAYERS[k]);
      if layer.Failure? {
        return Failure(layer.error);
      }
      out := out + layer.value;
    }
    ApplyOrderPermutes(files, decode, Elems(paths));
    DistinctMultisets(out, paths);
    return Success(out);
  }
}
