/** What a well-formed jj repository is, and which operations its heads keep in history. */
module JjRepo {
  import opened Paths
  import opened MirrorPath
  import opened OperationStore
  import opened Toposort
  import opened MirrorApplyOrder
  import opened OperationExpand

  /** The facts about jj that sync relies on: the decoder, the content that a content-addressed path
      stands for, a rank that shows operations never are their own ancestors, and what the extra table
      holds that a head marker of `store/extra` names. */
  datatype World = World(decode: Decoder, canon: Path -> Bytes, rank: Path -> nat, rows: Path -> set<Bytes>)

  /** Paths whose content follows from their name. */
  predicate Addressed(p: Path) {
    IsOp(p) || IsView(p) || IsHead(p)
  }

  /** Addressed paths that nobody ever deletes. */
  predicate Durable(p: Path) {
    IsOp(p) || IsView(p)
  }

  const MARKER_PREFIX: Path := "store/extra/heads/"

  /** Head markers of the extra table: empty files that name a table. */
  predicate IsMarker(p: Path) {
    MARKER_PREFIX <= p
  }

  lemma MarkersAreNotAddressed(p: Path)
    requires IsMarker(p)
    ensures !Addressed(p)
  {
    assert p[0] == MARKER_PREFIX[0] == 's';
  }

  lemma BelowThree(rel: Rel, a: string, b: string, c: string, prefix: Path)
    requires Slashless(rel) && Slashless([a, b, c]) && prefix == a + "/" + b + "/" + c + "/"
    ensures prefix <= Slash(rel) <==> |rel| > 3 && rel[0] == a && rel[1] == b && rel[2] == c
  {
    var dir := [a, b, c];
    SlashOfThree(a, b, c);
    assert Slash(dir) + "/" == prefix;
    BeginsWithSegments(rel, dir);
    if |rel| > 3 {
      FirstThree(rel, a, b, c);
    }
  }

  lemma FirstThree(rel: Rel, a: string, b: string, c: string)
    requires |rel| > 3
    ensures rel[..3] == [a, b, c] <==> rel[0] == a && rel[1] == b && rel[2] == c
  {
    assert rel[..3] == [rel[0], rel[1], rel[2]];
  }

  lemma MarkerDirectory()
    ensures MARKER_PREFIX == "store" + "/" + "extra" + "/" + "heads" + "/"
    ensures '/' !in "store" && '/' !in "extra" && '/' !in "heads"
  {
  }

  /** Markers are exactly the paths below `store/extra/heads`. */
  lemma MarkersBySegments(rel: Rel)
    requires Slashless(rel)
    ensures IsMarker(Slash(rel)) <==> |rel| > 3 && rel[0] == "store" && rel[1] == "extra" && rel[2] == "heads"
  {
    MarkerDirectory();
    BelowThree(rel, "store", "extra", "heads", MARKER_PREFIX);
  }

  function WorldParents(w: World, p: Path): (r: set<Path>)
    ensures forall q | q in r :: IsOp(q)
  {
    ParentsIn(w.decode, w.canon(p))
  }

  /** What has to exist before `p` may: parents and view of an operation, the operation of a head. */
  function Deps(w: World, p: Path): (r: set<Path>) {
    if IsOp(p) then
      var op := Parse(w.decode, w.canon(p));
      if op.Some? then ParentsOf(op.value) + {ViewPath(op.value.view)} else {}
    else if IsHead(p) then {HeadOp(p)}
    else {}
  }

  lemma DepsDurable(w: World, p: Path)
    ensures forall d | d in Deps(w, p) :: Durable(d)
    ensures IsOp(p) ==> WorldParents(w, p) <= Deps(w, p)
  {
    if IsHead(p) {
      KindsAreDisjoint(p);
    }
  }

  ghost predicate WellFormed(w: World, p: Path, content: Bytes) {
    && (Addressed(p) ==> content == w.canon(p))
    && (IsMarker(p) ==> content == [])
    && (IsOp(p) ==> && HexIdValid(p[|OP_PREFIX|..])
                    && Parse(w.decode, content).Some?
                    && forall q | q in WorldParents(w, p) :: w.rank(q) < w.rank(p))
  }

  /** No operation without its parents and view, no head without its operation. */
  ghost predicate Closed(w: World, keys: set<Path>) {
    forall p | p in keys :: Deps(w, p) <= keys
  }

  ghost predicate RepoOk(w: World, files: map<Path, Bytes>) {
    && (forall p | p in files :: WellFormed(w, p, files[p]))
    && Closed(w, files.Keys)
  }

  lemma WriteKeepsRepoOk(w: World, files: map<Path, Bytes>, p: Path, content: Bytes)
    requires RepoOk(w, files) && WellFormed(w, p, content) && Deps(w, p) <= files.Keys
    ensures RepoOk(w, files[p := content])
  {
    assert files[p := content].Keys == files.Keys + {p};
  }

  lemma RemoveKeepsRepoOk(w: World, files: map<Path, Bytes>, p: Path)
    requires RepoOk(w, files) && !Durable(p)
    ensures RepoOk(w, files - {p})
  {
    forall q | q in files - {p} ensures Deps(w, q) <= (files - {p}).Keys && WellFormed(w, q, (files - {p})[q]) {
      DepsDurable(w, q);
      assert Deps(w, q) <= files.Keys && WellFormed(w, q, files[q]);
    }
  }

  lemma OperationDeps(w: World, p: Path, content: Bytes)
    requires WellFormed(w, p, content) && IsOp(p)
    ensures w.decode(content).Some?
    ensures Deps(w, p) == ParentsOf(w.decode(content).value) + {ViewPath(w.decode(content).value.view)}
  {
  }

  /** What closure means on disk: with an operation there is its view. */
  lemma ViewIsThere(w: World, files: map<Path, Bytes>, p: Path)
    requires RepoOk(w, files) && p in files && IsOp(p)
    ensures w.decode(files[p]).Some? && "op_store/views/" + HexEncode(w.decode(files[p]).value.view) in files
  {
    OperationDeps(w, p, files[p]);
    assert Deps(w, p) <= files.Keys;
    assert ViewPath(w.decode(files[p]).value.view) in Deps(w, p);
  }

  /** With an operation there are its parents, save the root. */
  lemma ParentIsThere(w: World, files: map<Path, Bytes>, p: Path, id: Bytes, i: nat)
    requires RepoOk(w, files) && p in files && IsOp(p)
    requires w.decode(files[p]).Some? && id in w.decode(files[p]).value.parents && i < |id| && id[i] != 0
    ensures "op_store/operations/" + HexEncode(id) in files
  {
    OperationDeps(w, p, files[p]);
    assert id[i] in id;
    assert OpPath(id) in ParentsOf(w.decode(files[p]).value);
    assert Deps(w, p) <= files.Keys;
  }

  /** And with a head marker there is the operation of the same name. */
  lemma HeadIsComplete(w: World, files: map<Path, Bytes>, name: string)
    requires RepoOk(w, files) && "op_heads/heads/" + name in files
    ensures "op_store/operations/" + name in files
  {
    var h := "op_heads/heads/" + name;
    HeadNamesOperation(name);
    KindsAreDisjoint(h);
    assert Deps(w, h) <= files.Keys && HeadOp(h) in Deps(w, h);
  }

  // ---- history ----

  ghost function Links(w: World): LinkFn {
    p => WorldParents(w, p)
  }

  /** `q` is an operation that some head in `keys` keeps alive. */
  ghost predicate InHistory(w: World, keys: set<Path>, q: Path) {
    exists h | h in keys && IsHead(h) :: Reaches(Links(w), HeadOp(h), q)
  }

  ghost predicate HistoryGrows(w: World, before: set<Path>, after: set<Path>) {
    forall q: Path :: InHistory(w, before, q) ==> InHistory(w, after, q)
  }

  lemma HistoryMonotone(w: World, a: set<Path>, b: set<Path>)
    requires forall h | h in a && IsHead(h) :: h in b
    ensures HistoryGrows(w, a, b)
  {
  }

  /** It suffices that each head's own operation is in history. */
  lemma HistoryFromHeads(w: World, a: set<Path>, b: set<Path>)
    requires forall h | h in a && IsHead(h) :: InHistory(w, b, HeadOp(h))
    ensures HistoryGrows(w, a, b)
  {
    forall q: Path | InHistory(w, a, q) ensures InHistory(w, b, q) {
      var h :| h in a && IsHead(h) && Reaches(Links(w), HeadOp(h), q);
      var g :| g in b && IsHead(g) && Reaches(Links(w), HeadOp(g), HeadOp(h));
      ReachesTransitive(Links(w), HeadOp(g), HeadOp(h), q);
    }
  }

  lemma HeadInHistory(w: World, keys: set<Path>, h: Path)
    requires h in keys && IsHead(h)
    ensures InHistory(w, keys, HeadOp(h))
  {
    ReachesSelf(Links(w), HeadOp(h));
  }

  /** In a closed repository the whole history is on disk. */
  lemma HistoryOnDisk(w: World, keys: set<Path>, q: Path)
    requires Closed(w, keys) && InHistory(w, keys, q)
    ensures q in keys && IsOp(q)
  {
    var h :| h in keys && IsHead(h) && Reaches(Links(w), HeadOp(h), q);
    DepsDurable(w, h);
    KindsAreDisjoint(h);
    var ops := Ops(keys);
    forall p | p in ops ensures Links(w)(p) <= ops {
      DepsDurable(w, p);
      assert Deps(w, p) <= keys;
    }
    assert HeadOp(h) in Deps(w, h);
    ReachesInside(Links(w), ops, HeadOp(h), q);
  }

  // ---- rank: operations are acyclic ----

  ghost predicate Ranked(w: World, ops: set<Path>) {
    forall p | p in ops :: WorldParents(w, p) <= ops && forall q | q in WorldParents(w, p) :: w.rank(q) < w.rank(p)
  }

  lemma RepoRanked(w: World, files: map<Path, Bytes>)
    requires RepoOk(w, files)
    ensures Ranked(w, Ops(files.Keys))
  {
    forall p | p in Ops(files.Keys) ensures WorldParents(w, p) <= Ops(files.Keys) {
      DepsDurable(w, p);
      assert Deps(w, p) <= files.Keys;
    }
  }

  lemma {:induction false} DescentLowersRank(w: World, ops: set<Path>, d: seq<Path>)
    requires Ranked(w, ops) && IsDescent(Links(w), d) && d[0] in ops
    ensures d[|d| - 1] in ops && w.rank(d[|d| - 1]) + |d| <= w.rank(d[0]) + 1
    decreases |d|
  {
    if |d| > 1 {
      var front := d[..|d| - 1];
      DescentLowersRank(w, ops, front);
      assert d[|d| - 1] in Links(w)(d[|d| - 2]);
    }
  }

  lemma AncestorRank(w: World, ops: set<Path>, from: Path, to: Path)
    requires Ranked(w, ops) && from in ops && Reaches(Links(w), from, to)
    ensures to == from || w.rank(to) < w.rank(from)
  {
    var d :| DescentBetween(Links(w), d, from, to);
    DescentLowersRank(w, ops, d);
  }

  // ---- the ordering engine never fails on a well-formed repository ----

  lemma DiskParents(w: World, files: map<Path, Bytes>, p: Path)
    requires RepoOk(w, files) && p in files && IsOp(p)
    ensures ParentPaths(files, w.decode, p) == WorldParents(w, p)
    ensures Parses(files, w.decode, p)
    ensures WorldParents(w, p) <= files.Keys
  {
    assert WellFormed(w, p, files[p]);
    DepsDurable(w, p);
    assert Deps(w, p) <= files.Keys;
  }

  lemma {:induction false} WalkRaisesRank(w: World, files: map<Path, Bytes>, s: set<Path>, c: seq<Path>, k: nat)
    requires RepoOk(w, files) && s <= files.Keys
    requires IsWalk(Ops(s), ParentEdges(files, w.decode, s), c) && k < |c|
    ensures w.rank(c[0]) + k <= w.rank(c[k])
  {
    if k > 0 {
      WalkRaisesRank(w, files, s, c, k - 1);
      assert Edge(c[k - 1], c[k]) in ParentEdges(files, w.decode, s);
      assert c[k] in Ops(s);
      DiskParents(w, files, c[k]);
      assert WellFormed(w, c[k], files[c[k]]);
    }
  }

  lemma RepoOrderable(w: World, files: map<Path, Bytes>, s: set<Path>)
    requires RepoOk(w, files) && s <= files.Keys
    requires forall p | p in Ops(s) :: WorldParents(w, p) <= s
    ensures Orderable(files, w.decode, s)
  {
    forall p | p in Ops(s) ensures ValidOperation(files, w.decode, s, p) {
      DiskParents(w, files, p);
      assert WellFormed(w, p, files[p]);
    }
    forall c: seq<Path> ensures !IsCycle(Ops(s), ParentEdges(files, w.decode, s), c) {
      if IsCycle(Ops(s), ParentEdges(files, w.decode, s), c) {
        WalkRaisesRank(w, files, s, c, |c| - 1);
        assert false;
      }
    }
  }

  lemma RepoExpandable(w: World, files: map<Path, Bytes>, seeds: set<Path>)
    requires RepoOk(w, files) && seeds <= files.Keys
    ensures Expandable(files, w.decode, seeds)
    ensures ParentClosure(files, w.decode, seeds) <= files.Keys
    ensures Orderable(files, w.decode, ParentClosure(files, w.decode, seeds))
  {
    forall p | p in Ops(files.Keys) ensures ParentPaths(files, w.decode, p) <= files.Keys {
      DiskParents(w, files, p);
    }
    forall q: Path | FromSeeds(files, w.decode, seeds, q) ensures Parses(files, w.decode, q) {
      FromSeedsStays(files, w.decode, seeds, files.Keys, q);
      DiskParents(w, files, q);
    }
    var c := ParentClosure(files, w.decode, seeds);
    ClosureIsLeastFixpoint(files, w.decode, seeds, c);
    forall p | p in Ops(c) ensures WorldParents(w, p) <= c {
      DiskParents(w, files, p);
    }
    RepoOrderable(w, files, c);
  }

  // ---- dependency order ----

  /** Whatever an element needs from the list comes earlier in the list. */
  ghost predicate DepsFirst(w: World, order: seq<Path>) {
    forall i, d | 0 <= i < |order| && d in Deps(w, order[i]) && d in Elems(order) :: d in order[..i]
  }

  /** `todo` can be written one by one on top of `have` without ever breaking closure. */
  ghost predicate DepOrdered(w: World, have: set<Path>, todo: seq<Path>)
    decreases |todo|
  {
    todo == [] || (Deps(w, todo[0]) <= have && DepOrdered(w, have + {todo[0]}, todo[1..]))
  }

  lemma {:induction false} DepOrderedMonotone(w: World, have: set<Path>, more: set<Path>, todo: seq<Path>)
    requires DepOrdered(w, have, todo)
    requires forall p | p in have && Durable(p) :: p in more
    ensures DepOrdered(w, more, todo)
    decreases |todo|
  {
    if todo != [] {
      DepsDurable(w, todo[0]);
      DepOrderedMonotone(w, have + {todo[0]}, more + {todo[0]}, todo[1..]);
    }
  }

  /** The engine's order puts parents, views and head targets first. */
  lemma ApplyOrderDepsFirst(w: World, files: map<Path, Bytes>, s: set<Path>)
    requires RepoOk(w, files) && s <= files.Keys && Orderable(files, w.decode, s)
    ensures DepsFirst(w, ApplyOrder(files, w.decode, s))
  {
    var edges := ParentEdges(files, w.decode, s);
    var order := ApplyOrder(files, w.decode, s);
    ApplyOrderPermutes(files, w.decode, s);
    forall i, d | 0 <= i < |order| && d in Deps(w, order[i]) && d in Elems(order) ensures d in order[..i] {
      var p := order[i];
      assert p in Elems(order);
      KindRanks(p);
      KindRanks(d);
      if IsOp(p) && IsOp(d) {
        ParentDepIsParent(w, p, d);
        DiskParents(w, files, p);
        assert Edge(d, p) in edges;
        ParentsEarlier(edges, s, |LAYERS|, i, d);
      } else {
        DepsDurable(w, p);
        KindsAreDisjoint(p);
        var j :| 0 <= j < |order| && order[j] == d;
        if j >= i {
          OrderUpToLayered(edges, s, |LAYERS|, i, j);
        }
      }
    }
  }

  lemma ParentDepIsParent(w: World, p: Path, d: Path)
    requires IsOp(p) && IsOp(d) && d in Deps(w, p)
    ensures d in WorldParents(w, p)
  {
    KindsAreDisjoint(d);
  }

  /** Each dependency of `p` is there already or selected from the list. */
  ghost predicate Covered(w: World, order: seq<Path>, keep: set<Path>, have: set<Path>, p: Path) {
    Deps(w, p) <= have + Elems(order) * keep
  }

  ghost function Written(order: seq<Path>, n: nat, keep: set<Path>, have: set<Path>): set<Path>
    requires n <= |order|
  {
    have + Elems(order[..n]) * keep
  }

  lemma WrittenNext(order: seq<Path>, n: nat, keep: set<Path>, have: set<Path>)
    requires n < |order|
    ensures Written(order, n + 1, keep, have) == Written(order, n, keep, have) + (if order[n] in keep then {order[n]} else {})
    ensures Filter(order[n..], keep) == (if order[n] in keep then [order[n]] else []) + Filter(order[n + 1..], keep)
  {
    assert order[n..] == [order[n]] + order[n + 1..];
    assert order[..n + 1] == order[..n] + [order[n]];
    ElemsConcat(order[..n], [order[n]]);
  }

  lemma {:induction false} FilterDepOrdered(w: World, order: seq<Path>, n: nat, keep: set<Path>, have: set<Path>)
    requires n <= |order| && DepsFirst(w, order)
    requires forall p | p in order && p in keep :: Covered(w, order, keep, have, p)
    ensures DepOrdered(w, Written(order, n, keep, have), Filter(order[n..], keep))
    decreases |order| - n
  {
    if n < |order| {
      var p := order[n];
      FilterDepOrdered(w, order, n + 1, keep, have);
      WrittenNext(order, n, keep, have);
      if p in keep {
        assert Covered(w, order, keep, have, p);
        assert Deps(w, p) <= Written(order, n, keep, have);
        assert ([p] + Filter(order[n + 1..], keep))[1..] == Filter(order[n + 1..], keep);
      } else {
        assert [] + Filter(order[n + 1..], keep) == Filter(order[n + 1..], keep);
        assert Written(order, n, keep, have) + {} == Written(order, n, keep, have);
      }
    }
  }

  /** Uploading or pulling only part of an ordered list is safe when the skipped dependencies are there. */
  lemma PlanDepOrdered(w: World, order: seq<Path>, keep: set<Path>, have: set<Path>)
    requires DepsFirst(w, order)
    requires forall p | p in order && p in keep :: Covered(w, order, keep, have, p)
    ensures DepOrdered(w, have, Filter(order, keep))
  {
    FilterDepOrdered(w, order, 0, keep, have);
    assert order[0..] == order;
    assert Written(order, 0, keep, have) == have;
  }

  // ---- head reduction ----

  /** The heads that are not ancestors of other heads. */
  ghost function MaximalHeads(w: World, keys: set<Path>): set<Path> {
    set h | h in keys && IsHead(h)
            && forall g | g in keys && IsHead(g) && g != h :: !Reaches(Links(w), HeadOp(g), HeadOp(h))
  }

  lemma HeadAbove(w: World, files: map<Path, Bytes>, h: Path) returns (g: Path)
    requires RepoOk(w, files) && h in files && IsHead(h) && h !in MaximalHeads(w, files.Keys)
    ensures g in files && IsHead(g) && Reaches(Links(w), HeadOp(g), HeadOp(h))
    ensures w.rank(HeadOp(g)) > w.rank(HeadOp(h))
  {
    g :| g in files && IsHead(g) && g != h && Reaches(Links(w), HeadOp(g), HeadOp(h));
    RepoRanked(w, files);
    HeadsOnDisk(w, files.Keys, g);
    AncestorRank(w, Ops(files.Keys), HeadOp(g), HeadOp(h));
    if HeadOp(g) == HeadOp(h) {
      HeadOpInjective(g, h);
      assert false;
    }
  }

  lemma {:induction false} MaximalAbove(w: World, files: map<Path, Bytes>, h: Path) returns (top: Path)
    requires RepoOk(w, files) && h in files && IsHead(h)
    ensures top in MaximalHeads(w, files.Keys) && Reaches(Links(w), HeadOp(top), HeadOp(h))
    decreases |HigherHeads(w, files.Keys, h)|
  {
    if h in MaximalHeads(w, files.Keys) {
      ReachesSelf(Links(w), HeadOp(h));
      top := h;
    } else {
      var g := HeadAbove(w, files, h);
      assert HigherHeads(w, files.Keys, g) <= HigherHeads(w, files.Keys, h) - {g};
      SubsetSize(HigherHeads(w, files.Keys, g), HigherHeads(w, files.Keys, h) - {g});
      top := MaximalAbove(w, files, g);
      ReachesTransitive(Links(w), HeadOp(top), HeadOp(g), HeadOp(h));
    }
  }

  ghost function HigherHeads(w: World, keys: set<Path>, h: Path): set<Path>
    requires IsHead(h)
  {
    set g | g in keys && IsHead(g) && w.rank(HeadOp(g)) > w.rank(HeadOp(h))
  }

  lemma HeadsOnDisk(w: World, keys: set<Path>, h: Path)
    requires Closed(w, keys) && h in keys && IsHead(h)
    ensures HeadOp(h) in Ops(keys)
  {
    KindsAreDisjoint(h);
    assert HeadOp(h) in Deps(w, h);
  }
}
