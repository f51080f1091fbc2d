/** Closing a set of paths under the parent links of the operations on disk. */
module OperationExpand {
  import opened Results
  import opened Paths
  import opened OperationStore
  import opened Toposort
  import opened MirrorApplyOrder

  type LinkFn = Path -> set<Path>

  // ---- reachability ----

  ghost predicate IsDescent(parents: LinkFn, w: seq<Path>) {
    |w| > 0 && forall i | 0 < i < |w| :: w[i] in parents(w[i - 1])
  }

  ghost predicate DescentBetween(parents: LinkFn, w: seq<Path>, from: Path, to: Path) {
    IsDescent(parents, w) && w[0] == from && w[|w| - 1] == to
  }

  /** `to` is `from` or one of its ancestors. */
  ghost predicate Reaches(parents: LinkFn, from: Path, to: Path) {
    exists w: seq<Path> :: DescentBetween(parents, w, from, to)
  }

  lemma ReachesSelf(parents: LinkFn, p: Path)
    ensures Reaches(parents, p, p)
  {
    assert DescentBetween(parents, [p], p, p);
  }

  lemma ReachesParent(parents: LinkFn, from: Path, mid: Path, to: Path)
    requires Reaches(parents, from, mid) && to in parents(mid)
    ensures Reaches(parents, from, to)
  {
    var w :| DescentBetween(parents, w, from, mid);
    assert DescentBetween(parents, w + [to], from, to);
  }

  lemma {:induction false} WalkStaysInside(parents: LinkFn, s: set<Path>, w: seq<Path>)
    requires IsDescent(parents, w) && w[0] in s
    requires forall p | p in s :: parents(p) <= s
    ensures w[|w| - 1] in s
    decreases |w|
  {
    if |w| > 1 {
      var front := w[..|w| - 1];
      assert IsDescent(parents, front);
      WalkStaysInside(parents, s, front);
      assert w[|w| - 1] in parents(w[|w| - 2]);
    }
  }

  /** A set closed under parents contains the ancestors of its members. */
  lemma ReachesInside(parents: LinkFn, s: set<Path>, from: Path, to: Path)
    requires from in s && (forall p | p in s :: parents(p) <= s) && Reaches(parents, from, to)
    ensures to in s
  {
    var w :| DescentBetween(parents, w, from, to);
    WalkStaysInside(parents, s, w);
  }

  lemma ReachesTransitive(parents: LinkFn, a: Path, b: Path, c: Path)
    requires Reaches(parents, a, b) && Reaches(parents, b, c)
    ensures Reaches(parents, a, c)
  {
    var u :| DescentBetween(parents, u, a, b);
    var v :| DescentBetween(parents, v, b, c);
    var w := u + v[1..];
    forall i | 0 < i < |w| ensures w[i] in parents(w[i - 1]) {
      if i < |u| {
        assert w[i] == u[i] && w[i - 1] == u[i - 1];
      } else {
        assert w[i] == v[i - |u| + 1] && w[i - 1] == v[i - |u|];
      }
    }
    assert DescentBetween(parents, w, a, c);
  }

  // ---- the closure ----

  ghost function DiskLinks(files: map<Path, Bytes>, decode: Decoder): LinkFn {
    p => ParentPaths(files, decode, p)
  }

  /** `q` is an operation among the seeds, or an ancestor of one. */
  ghost predicate FromSeeds(files: map<Path, Bytes>, decode: Decoder, seeds: set<Path>, q: Path) {
    exists seed | seed in seeds && IsOp(seed) :: Reaches(DiskLinks(files, decode), seed, q)
  }

  /** Every operation that the closure touches is readable. */
  ghost predicate Expandable(files: map<Path, Bytes>, decode: Decoder, seeds: set<Path>) {
    forall q: Path :: FromSeeds(files, decode, seeds, q) ==> Parses(files, decode, q)
  }

  ghost function ParentClosure(files: map<Path, Bytes>, decode: Decoder, seeds: set<Path>): set<Path> {
    seeds + set p | p in files.Keys && FromSeeds(files, decode, seeds, p)
  }

  ghost predicate ClosedOnDisk(files: map<Path, Bytes>, decode: Decoder, s: set<Path>) {
    forall p | p in Ops(s) :: Parses(files, decode, p) && ParentPaths(files, decode, p) <= s
  }

  lemma FromSeedsStays(files: map<Path, Bytes>, decode: Decoder, seeds: set<Path>, s: set<Path>, q: Path)
    requires seeds <= s && (forall p | p in Ops(s) :: ParentPaths(files, decode, p) <= s)
    requires FromSeeds(files, decode, seeds, q)
    ensures q in Ops(s)
  {
    var seed :| seed in seeds && IsOp(seed) && Reaches(DiskLinks(files, decode), seed, q);
    var w :| DescentBetween(DiskLinks(files, decode), w, seed, q);
    WalkStaysInside(DiskLinks(files, decode), Ops(s), w);
  }

  /** The closure is closed, and least among the closed sets that hold the seeds. */
  lemma ClosureIsLeastFixpoint(files: map<Path, Bytes>, decode: Decoder, seeds: set<Path>, t: set<Path>)
    requires Expandable(files, decode, seeds)
    ensures ClosedOnDisk(files, decode, ParentClosure(files, decode, seeds))
    ensures seeds <= t && ClosedOnDisk(files, decode, t) ==> ParentClosure(files, decode, seeds) <= t
  {
    var links := DiskLinks(files, decode);
    var c := ParentClosure(files, decode, seeds);
    forall p | p in Ops(c) ensures Parses(files, decode, p) && ParentPaths(files, decode, p) <= c {
      if p in seeds {
        ReachesSelf(links, p);
      }
      var seed :| seed in seeds && IsOp(seed) && Reaches(links, seed, p);
      forall q | q in ParentPaths(files, decode, p) ensures q in c {
        ReachesParent(links, seed, p, q);
        assert FromSeeds(files, decode, seeds, q);
      }
    }
    if seeds <= t && ClosedOnDisk(files, decode, t) {
      forall p | p in c ensures p in t {
        if p !in seeds {
          FromSeedsStays(files, decode, seeds, t, p);
        }
      }
    }
  }

  /** Ordering a closure cannot fail for a missing or unreadable parent: only a bad seed name or a
      cycle is left. */
  lemma ClosureOrderable(files: map<Path, Bytes>, decode: Decoder, seeds: set<Path>)
    requires Expandable(files, decode, seeds)
    ensures var c := ParentClosure(files, decode, seeds);
            Orderable(files, decode, c)
            <==> (forall p | p in Ops(seeds) :: HexIdValid(p[|OP_PREFIX|..]))
                 && Acyclic(Ops(c), ParentEdges(files, decode, c))
  {
    var c := ParentClosure(files, decode, seeds);
    ClosureIsLeastFixpoint(files, decode, seeds, c);
    assert forall p | p in Ops(seeds) :: p in Ops(c);
    if forall p | p in Ops(seeds) :: HexIdValid(p[|OP_PREFIX|..]) {
      forall p | p in Ops(c) ensures HexIdValid(p[|OP_PREFIX|..]) {
        if p !in seeds {
          var seed :| seed in seeds && IsOp(seed) && Reaches(DiskLinks(files, decode), seed, p);
          var w :| DescentBetween(DiskLinks(files, decode), w, seed, p);
          assert |w| > 1;
          assert p in ParentPaths(files, decode, w[|w| - 2]);
          ParentNamesValid(files, decode, w[|w| - 2], p);
        }
      }
    }
  }

  lemma ParentNamesValid(files: map<Path, Bytes>, decode: Decoder, c: Path, p: Path)
    requires p in ParentPaths(files, decode, c)
    ensures IsOp(p) && HexIdValid(p[|OP_PREFIX|..])
  {
    var op := Parse(decode, files[c]).value;
    var id :| id in op.parents && !AllZero(id) && p == OpPath(id);
    assert p[|OP_PREFIX|..] == HexEncode(id);
    assert |id| == OPERATION_ID_BYTES;
  }

  // ---- the worklist of the program ----

  datatype ExpandError =
    | SeedUnreadable(path: Path)
    | ProtoInvalid(path: Path)
    | ParentLengthInvalid(path: Path)
    | ParentNotOnDisk(path: Path, parent: Path)

  ghost predicate AllSized(ids: seq<Bytes>) {
    forall id | id in ids :: |id| == OPERATION_ID_BYTES
  }

  ghost function NonZero(ids: seq<Bytes>): set<Bytes> {
    set id | id in ids && !AllZero(id)
  }

  lemma SeenOneMore(ids: seq<Bytes>, i: nat)
    requires i < |ids|
    ensures NonZero(ids[..i + 1]) == NonZero(ids[..i]) + (if AllZero(ids[i]) then {} else {ids[i]})
    ensures AllSized(ids[..i + 1]) <==> AllSized(ids[..i]) && |ids[i]| == OPERATION_ID_BYTES
  {
    assert ids[..i + 1] == ids[..i] + [ids[i]];
  }

  lemma SeenAll(op: Operation)
    ensures op.parents[..|op.parents|] == op.parents
    ensures PathsOf(NonZero(op.parents)) == ParentsOf(op)
    ensures AllSized(op.parents) <==> Sound(op)
  {
  }

  function PathsOf(ids: set<Bytes>): set<Path> {
    set id | id in ids :: OpPath(id)
  }

  /** The parents named by `unique` have been collected; the new ones wait on the stack. */
  ghost predicate Pushed(files: set<Path>, all0: set<Path>, stack0: seq<Path>, unique: set<Bytes>, all: set<Path>, stack: seq<Path>) {
    && all == all0 + PathsOf(unique)
    && all <= all0 + files
    && stack0 <= stack
    && Elems(stack) == Elems(stack0) + (all - all0)
    && (all == all0 ==> stack == stack0)
  }

  lemma PushOne(files: set<Path>, all0: set<Path>, stack0: seq<Path>, unique: set<Bytes>, all: set<Path>, stack: seq<Path>, id: Bytes)
    requires Pushed(files, all0, stack0, unique, all, stack)
    ensures OpPath(id) in all ==> Pushed(files, all0, stack0, unique + {id}, all, stack)
    ensures OpPath(id) !in all && OpPath(id) in files
            ==> Pushed(files, all0, stack0, unique + {id}, all + {OpPath(id)}, stack + [OpPath(id)])
  {
    assert PathsOf(unique + {id}) == PathsOf(unique) + {OpPath(id)};
    ElemsConcat(stack, [OpPath(id)]);
  }

  lemma PushedAll(files: set<Path>, op: Operation, all0: set<Path>, stack0: seq<Path>, all: set<Path>, stack: seq<Path>)
    requires AllSized(op.parents) && Pushed(files, all0, stack0, NonZero(op.parents), all, stack)
    ensures Sound(op) && ParentsOf(op) <= all0 + files
    ensures all == all0 + ParentsOf(op)
    ensures stack0 <= stack && Elems(stack) == Elems(stack0) + (ParentsOf(op) - all0)
    ensures ParentsOf(op) <= all0 ==> stack == stack0
  {
    SeenAll(op);
  }

  /** Puts the unseen parents of one operation on the stack. */
  method PushParents(files: map<Path, Bytes>, child: Path, op: Operation, all0: set<Path>, stack0: seq<Path>)
    returns (r: Result<(set<Path>, seq<Path>), ExpandError>)
    ensures r.Success? <==> Sound(op) && ParentsOf(op) <= all0 + files.Keys
    ensures r.Success? ==> r.value.0 == all0 + ParentsOf(op)
    ensures r.Success? ==> stack0 <= r.value.1 && Elems(r.value.1) == Elems(stack0) + (ParentsOf(op) - all0)
    ensures r.Success? && ParentsOf(op) <= all0 ==> r.value.1 == stack0
    ensures r.Failure? ==> match r.error
                           case ParentLengthInvalid(p) => p == child && !Sound(op)
                           case ParentNotOnDisk(p, q) => p == child && q in ParentsOf(op) && q !in all0 + files.Keys
                           case _ => false
  {
    var all, stack := all0, stack0;
    var unique: set<Bytes> := {};
    for i := 0 to |op.parents|
      invariant AllSized(op.parents[..i])
      invariant unique == NonZero(op.parents[..i])
      invariant Pushed(files.Keys, all0, stack0, unique, all, stack)
    {
      var parent := op.parents[i];
      assert parent in op.parents;
      SeenOneMore(op.parents, i);
      if |parent| != OPERATION_ID_BYTES {
        return Failure(ParentLengthInvalid(child));
      }
      if AllZero(parent) || parent in unique {
        continue;
      }
      var parentPath := OpPath(parent);
      assert parentPath in ParentsOf(op);
      PushOne(files.Keys, all0, stack0, unique, all, stack, parent);
      unique := unique + {parent};
      if parentPath in all {
        continue;
      }
      if parentPath !in files {
        return Failure(ParentNotOnDisk(child, parentPath));
      }
      all := all + {parentPath};
      stack := stack + [parentPath];
    }
    assert op.parents[..|op.parents|] == op.parents;
    PushedAll(files.Keys, op, all0, stack0, all, stack);
    return Success((all, stack));
  }

  /** Operations already taken off the stack are readable and their parents are collected. */
  ghost predicate Collected(files: map<Path, Bytes>, decode: Decoder, all: set<Path>, stack: seq<Path>) {
    forall p | p in Ops(all) && p !in Elems(stack) :: Parses(files, decode, p) && ParentPaths(files, decode, p) <= all
  }

  /** The state of the worklist: all that is collected comes from the seeds, and what is off the stack is done. */
  ghost predicate Expanding(files: map<Path, Bytes>, decode: Decoder, seeds: set<Path>, all: set<Path>, stack: seq<Path>) {
    && seeds <= all
    && Elems(stack) <= Ops(all)
    && (forall p | p in Ops(all) :: FromSeeds(files, decode, seeds, p))
    && (forall p | p in all :: p in seeds || (IsOp(p) && p in files))
    && Collected(files, decode, all, stack)
  }

  lemma ExpandBegins(files: map<Path, Bytes>, decode: Decoder, seeds: seq<Path>)
    ensures Expanding(files, decode, Elems(seeds), Elems(seeds), Filter(seeds, Ops(Elems(seeds))))
  {
    forall p | p in Ops(Elems(seeds)) ensures FromSeeds(files, decode, Elems(seeds), p) {
      ReachesSelf(DiskLinks(files, decode), p);
    }
  }

  lemma TopOfStack(files: map<Path, Bytes>, decode: Decoder, seeds: set<Path>, all: set<Path>, rest: seq<Path>, child: Path)
    requires Expanding(files, decode, seeds, all, rest + [child])
    ensures child in Ops(all) && FromSeeds(files, decode, seeds, child)
    ensures Elems(rest) <= Ops(all)
    ensures forall p | p in Ops(all) && p !in Elems(rest) && p != child :: Parses(files, decode, p) && ParentPaths(files, decode, p) <= all
  {
    ElemsConcat(rest, [child]);
    assert child in Elems(rest + [child]);
  }

  /** Taking one readable operation off the stack and collecting its parents. */
  lemma ExpandNext(files: map<Path, Bytes>, decode: Decoder, seeds: set<Path>, all: set<Path>, rest: seq<Path>, child: Path, all': set<Path>, stack: seq<Path>)
    requires Expanding(files, decode, seeds, all, rest + [child])
    requires Parses(files, decode, child) && ParentPaths(files, decode, child) <= all + files.Keys
    requires all' == all + ParentPaths(files, decode, child)
    requires Elems(stack) == Elems(rest) + (ParentPaths(files, decode, child) - all)
    ensures Expanding(files, decode, seeds, all', stack)
  {
    TopOfStack(files, decode, seeds, all, rest, child);
    forall q | q in ParentPaths(files, decode, child) ensures FromSeeds(files, decode, seeds, q) && IsOp(q) {
      ChildFromSeeds(files, decode, seeds, child, q);
      ParentNamesValid(files, decode, child, q);
    }
    forall p | p in Ops(all') && p !in Elems(stack) ensures Parses(files, decode, p) && ParentPaths(files, decode, p) <= all' {
    }
  }

  /** An unreadable operation on the stack, or one whose parent is not on disk, rules the closure out. */
  lemma ExpandFails(files: map<Path, Bytes>, decode: Decoder, seeds: set<Path>, all: set<Path>, rest: seq<Path>, child: Path)
    requires Expanding(files, decode, seeds, all, rest + [child])
    requires !Parses(files, decode, child) || exists q | q in ParentPaths(files, decode, child) :: q !in files
    ensures !Expandable(files, decode, seeds)
  {
    TopOfStack(files, decode, seeds, all, rest, child);
    if Parses(files, decode, child) {
      var q :| q in ParentPaths(files, decode, child) && q !in files;
      ChildFromSeeds(files, decode, seeds, child, q);
    }
  }

  lemma ExpandDone(files: map<Path, Bytes>, decode: Decoder, seeds: set<Path>, all: set<Path>)
    requires Expanding(files, decode, seeds, all, [])
    ensures Expandable(files, decode, seeds) && all == ParentClosure(files, decode, seeds)
  {
    forall q | FromSeeds(files, decode, seeds, q) ensures q in Ops(all) && Parses(files, decode, q) {
      FromSeedsStays(files, decode, seeds, all, q);
    }
  }

  /** `seeds` and every operation reachable from them through parent links on disk, sorted. */
  method ExpandOperationParentClosure(files: map<Path, Bytes>, decode: Decoder, seeds: seq<Path>)
    returns (r: Result<seq<Path>, ExpandError>)
    ensures r.Success? <==> Expandable(files, decode, Elems(seeds))
    ensures r.Success? ==> StrictlySorted(r.value)
    ensures r.Success? ==> Elems(r.value) == ParentClosure(files, decode, Elems(seeds))
    ensures r.Success? ==> r.value == Sorted(ParentClosure(files, decode, Elems(seeds)))
  {
    var all := Elems(seeds);
    var stack := Filter(seeds, Ops(Elems(seeds)));
    ExpandBegins(files, decode, seeds);
    while stack != []
      invariant Expanding(files, decode, Elems(seeds), all, stack)
      decreases files.Keys - all, |stack|
    {
      var child := stack[|stack| - 1];
      var rest := stack[..|stack| - 1];
      assert stack == rest + [child];
      if child !in files {
        ExpandFails(files, decode, Elems(seeds), all, rest, child);
        return Failure(SeedUnreadable(child));
      }
      var op := decode(files[child]);
      if op.None? {
        ExpandFails(files, decode, Elems(seeds), all, rest, child);
        return Failure(ProtoInvalid(child));
      }
      var pushed := PushParents(files, child, op.value, all, rest);
      if pushed.Failure? {
        ExpandFails(files, decode, Elems(seeds), all, rest, child);
        return Failure(pushed.error);
      }
      ExpandNext(files, decode, Elems(seeds), all, rest, child, pushed.value.0, pushed.value.1);
      all, stack := pushed.value.0, pushed.value.1;
    }
    ExpandDone(files, decode, Elems(seeds), all);
    SortedCorrect(all);
    return Success(Sorted(all));
  }

  lemma ChildFromSeeds(files: map<Path, Bytes>, decode: Decoder, seeds: set<Path>, child: Path, q: Path)
    requires FromSeeds(files, decode, seeds, child) && q in ParentPaths(files, decode, child)
    ensures FromSeeds(files, decode, seeds, q)
  {
    var links := DiskLinks(files, decode);
    var seed :| seed in seeds && IsOp(seed) && Reaches(links, seed, child);
    ReachesParent(links, seed, child, q);
  }
}
