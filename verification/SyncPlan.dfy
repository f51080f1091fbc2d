/** The decisions of a sync round as functions of the local tree and a manifest, and the server's
    normalize and publish steps. */
module SyncPlan {
  import opened Paths
  import opened OperationStore
  import opened MirrorApplyOrder
  import opened OperationExpand
  import opened MirrorPath
  import opened MirrorExclude
  import opened Manifests
  import opened JjRepo

  type Files = map<Path, Bytes>

  // ---- client ----

  /** Local files that take part in sync: what the scan and hash index lists. */
  function LocalIndex(files: Files): map<Path, Entry> {
    map p | p in files && !HostLocal(p) :: EntryOf(files[p])
  }

  /** The scan's rule for names. It looks at every file outside `.dojjo`, also at those that never travel,
      and one path that may not be placed under `mirror/` makes it fail. */
  predicate Scans(files: Files) {
    forall p | p in files && !UnderDojjo(p) :: Acceptable(p)
  }

  /** No shared path has white space around it. The upload of such a path would end up under another name. */
  predicate PlainNames(files: Files) {
    forall p | p in LocalIndex(files) :: Trim(p) == p
  }

  lemma PlainScansSafe(files: Files)
    requires Scans(files) && PlainNames(files)
    ensures forall p | p in LocalIndex(files) :: SafePath(p)
  {
    forall p | p in LocalIndex(files) ensures SafePath(p) {
      assert Acceptable(p) && Trim(p) == p;
      StoredAsItself(p);
    }
  }

  lemma SafeWriteScans(files: Files, p: Path, content: Bytes)
    requires SafePath(p) && Scans(files)
    ensures Scans(files[p := content])
  {
    StoredAsItself(p);
  }

  /** A file that never travels can make the scan fail: here the loose ref of a tag. */
  lemma HostLocalNameFailsScan() returns (files: Files)
    ensures (forall p | p in files :: MachineLocal(p)) && LocalIndex(files) == map[]
    ensures !Scans(files)
  {
    var p := "store/git/" + "refs/tags/v1+x";
    files := map[p := []];
    assert p[22] == '+';
    OddCharRefused(p, '+');
    assert !UnderDojjo(p) by { assert p[0] == 's'; }
  }

  function PushSet(files: Files, man: Manifest): set<Path> {
    set p | p in LocalIndex(files) && (p !in man.entries || man.entries[p].sha256 != LocalIndex(files)[p].sha256)
  }

  /** What is uploaded, in upload order: the changed files, picked from the order of their parent closure. */
  ghost function UploadPlan(decode: Decoder, files: Files, man: Manifest): seq<Path> {
    var push := PushSet(files, man);
    Filter(ApplyOrder(files, decode, ParentClosure(files, decode, push)), push)
  }

  function PullSet(files: Files, man: Manifest): set<Path> {
    set p | p in man.entries && !MachineLocal(p)
            && (p !in LocalIndex(files) || LocalIndex(files)[p].sha256 != man.entries[p].sha256)
  }

  function PullPlan(files: Files, man: Manifest): seq<Path> {
    Filter(man.order, PullSet(files, man))
  }

  function PruneSet(files: Files, man: Manifest): set<Path> {
    set p | p in LocalIndex(files) && p !in man.entries
  }

  /** The final check of a round, both directions. */
  ghost predicate Verified(files: Files, man: Manifest) {
    && (forall p | p in man.entries && !MachineLocal(p) :: p in LocalIndex(files) && LocalIndex(files)[p] == man.entries[p])
    && (forall p | p in LocalIndex(files) :: p in man.entries)
  }

  /** The final check in terms of files: everything that the manifest lists and that is not machine-local is
      here with the size and the hash listed, and everything here that travels is listed. */
  lemma VerifiedByContent(files: Files, man: Manifest)
    requires RowsHonest(man) && forall p | p in man.entries :: !UnderDojjo(p)
    ensures Verified(files, man) <==>
              && (forall p | p in man.entries && !MachineLocal(p) ::
                    p in files && |files[p]| == man.entries[p].size && files[p] == man.entries[p].sha256.content)
              && (forall p | p in files && !MachineLocal(p) && !UnderDojjo(p) :: p in man.entries)
  {
    forall p | p in files && p in man.entries && !HostLocal(p)
      ensures LocalIndex(files)[p] == man.entries[p] <==> |files[p]| == man.entries[p].size && files[p] == man.entries[p].sha256.content
    {
      assert man.entries[p] == EntryOf(man.entries[p].sha256.content);
    }
  }

  // ---- server ----

  /** Mirror files that a manifest lists. */
  function Listed(mirror: Files): Files {
    map p | p in mirror && !MachineLocal(p) :: mirror[p]
  }

  /** The server's scan looks at the names of what it keeps. */
  predicate ServerScans(mirror: Files) {
    forall p | p in Listed(mirror) :: SafePath(p)
  }

  function ManifestOf(decode: Decoder, mirror: Files): Manifest {
    Manifest(map p | p in Listed(mirror) :: EntryOf(mirror[p]), ApplyOrder(mirror, decode, Listed(mirror).Keys))
  }

  /** What jj's head resolution comes back with: one surviving head, or a new merge operation. */
  datatype Resolution = Kept(head: Path) | Merged(op: Path)

  /** Jj resolves the heads of `keys`: ancestors of other heads go, and when several heads remain a
      fresh operation with exactly those parents takes their place. Fails without any head. */
  ghost predicate Resolves(w: World, keys: set<Path>, res: Resolution) {
    match res
    case Kept(h) => MaximalHeads(w, keys) == {h}
    case Merged(f) =>
      && MaximalHeads(w, keys) != {} && (forall h: Path :: MaximalHeads(w, keys) != {h})
      && IsOp(f) && f !in keys && WellFormed(w, f, w.canon(f))
      && WorldParents(w, f) == set h | h in MaximalHeads(w, keys) :: HeadOp(h)
  }

  ghost function ViewOf(w: World, op: Path): (v: Path)
    requires WellFormed(w, op, w.canon(op)) && IsOp(op)
    ensures IsView(v) && Deps(w, op) == WorldParents(w, op) + {v}
  {
    ViewPath(Parse(w.decode, w.canon(op)).value.view)
  }

  /** The addressed paths that normalize leaves. */
  ghost function ResolvedKeys(w: World, keys: set<Path>, res: Resolution): set<Path>
    requires Resolves(w, keys, res)
  {
    (set p | p in keys && Durable(p))
    + match res
      case Kept(h) => {h}
      case Merged(f) => {f, ViewOf(w, f), HeadPath(f)}
  }

  /** `normalize_mirror_repo`: heads are resolved, operations and views stay. Files that are neither
      (index caches, extra tables, the server's own `git_target`) may change freely. */
  ghost predicate Normalizes(w: World, mirror: Files, res: Resolution, mirror': Files) {
    && Resolves(w, mirror.Keys, res)
    && (forall p | Addressed(p) :: p in mirror' <==> p in ResolvedKeys(w, mirror.Keys, res))
    && (forall p | p in mirror' && Addressed(p) :: mirror'[p] == w.canon(p))
    && (forall p | p in mirror' :: !UnderDojjo(p) && (IsMarker(p) ==> mirror'[p] == []))
    && (ServerScans(mirror) ==> ServerScans(mirror'))
  }

  ghost predicate MirrorOk(w: World, mirror: Files) {
    RepoOk(w, mirror) && ServerScans(mirror) && forall p | p in mirror :: !UnderDojjo(p)
  }

  lemma ResolvedKeysAddressed(w: World, keys: set<Path>, res: Resolution)
    requires Resolves(w, keys, res)
    ensures forall p | p in ResolvedKeys(w, keys, res) :: Addressed(p)
    ensures forall p | p in keys && Durable(p) :: p in ResolvedKeys(w, keys, res)
  {
    match res
    case Kept(h) => assert h in MaximalHeads(w, keys);
    case Merged(f) =>
  }

  lemma NormalizeKeepsOk(w: World, mirror: Files, res: Resolution, mirror': Files)
    requires MirrorOk(w, mirror) && Normalizes(w, mirror, res, mirror')
    ensures MirrorOk(w, mirror')
  {
    NormalizeKeepsRepo(w, mirror, res, mirror');
  }

  lemma NormalizeKeepsRepo(w: World, mirror: Files, res: Resolution, mirror': Files)
    requires RepoOk(w, mirror) && Normalizes(w, mirror, res, mirror')
    ensures RepoOk(w, mirror')
  {
    forall p | p in mirror' ensures WellFormed(w, p, mirror'[p]) && Deps(w, p) <= mirror'.Keys {
      if Addressed(p) {
        NormalizedFileOk(w, mirror, res, mirror', p);
      }
    }
  }

  lemma NormalizedFileOk(w: World, mirror: Files, res: Resolution, mirror': Files, p: Path)
    requires RepoOk(w, mirror) && Normalizes(w, mirror, res, mirror') && p in mirror' && Addressed(p)
    ensures WellFormed(w, p, mirror'[p]) && Deps(w, p) <= mirror'.Keys
  {
    var keys := ResolvedKeys(w, mirror.Keys, res);
    ResolvedKeysAddressed(w, mirror.Keys, res);
    ResolvedFileOk(w, mirror, res, p);
    ResolvedDepsThere(w, keys, mirror', p);
  }

  lemma ResolvedDepsThere(w: World, keys: set<Path>, mirror': Files, p: Path)
    requires Deps(w, p) <= keys && forall d | d in keys && Durable(d) :: d in mirror'
    ensures Deps(w, p) <= mirror'.Keys
  {
    DepsDurable(w, p);
  }

  lemma ResolvedFileOk(w: World, mirror: Files, res: Resolution, p: Path)
    requires RepoOk(w, mirror) && Resolves(w, mirror.Keys, res) && p in ResolvedKeys(w, mirror.Keys, res)
    ensures WellFormed(w, p, w.canon(p))
    ensures Deps(w, p) <= ResolvedKeys(w, mirror.Keys, res)
  {
    if p in mirror {
      KeptFileOk(w, mirror, res, p);
    } else {
      NewFile(w, mirror.Keys, res, p);
      MergedFileOk(w, mirror, res.op, p);
    }
  }

  lemma NewFile(w: World, keys: set<Path>, res: Resolution, p: Path)
    requires Resolves(w, keys, res) && p in ResolvedKeys(w, keys, res) && p !in keys
    ensures res.Merged? && p in {res.op, ViewOf(w, res.op), HeadPath(res.op)}
  {
    if res.Kept? {
      HeadIsOnMirror(w, keys, res.head);
    }
  }

  lemma HeadIsOnMirror(w: World, keys: set<Path>, h: Path)
    requires MaximalHeads(w, keys) == {h}
    ensures h in keys && IsHead(h)
  {
    assert h in MaximalHeads(w, keys);
  }

  lemma KeptFileOk(w: World, mirror: Files, res: Resolution, p: Path)
    requires RepoOk(w, mirror) && Resolves(w, mirror.Keys, res)
    requires p in ResolvedKeys(w, mirror.Keys, res) && p in mirror
    ensures WellFormed(w, p, w.canon(p))
    ensures Deps(w, p) <= ResolvedKeys(w, mirror.Keys, res)
  {
    DepsDurable(w, p);
    ResolvedKeysAddressed(w, mirror.Keys, res);
    assert WellFormed(w, p, mirror[p]);
    assert Deps(w, p) <= mirror.Keys;
  }

  lemma MergedFileOk(w: World, mirror: Files, f: Path, p: Path)
    requires RepoOk(w, mirror) && Resolves(w, mirror.Keys, Merged(f))
    requires p in {f, ViewOf(w, f), HeadPath(f)}
    ensures WellFormed(w, p, w.canon(p))
    ensures Deps(w, p) <= ResolvedKeys(w, mirror.Keys, Merged(f))
  {
    MergedFileWellFormed(w, mirror.Keys, f, p);
    MergedFileDeps(w, mirror.Keys, f, p);
  }

  lemma MergedFileWellFormed(w: World, keys: set<Path>, f: Path, p: Path)
    requires Resolves(w, keys, Merged(f)) && p in {f, ViewOf(w, f), HeadPath(f)}
    ensures WellFormed(w, p, w.canon(p))
  {
    if p != f {
      KindsAreDisjoint(p);
      if IsMarker(p) {
        MarkersAreNotAddressed(p);
      }
    }
  }

  lemma MergedFileDeps(w: World, keys: set<Path>, f: Path, p: Path)
    requires Closed(w, keys) && Resolves(w, keys, Merged(f)) && p in {f, ViewOf(w, f), HeadPath(f)}
    ensures Deps(w, p) <= ResolvedKeys(w, keys, Merged(f))
  {
    MergeParentsOnDisk(w, keys, f);
    KindsAreDisjoint(p);
    if p == f {
      assert Deps(w, p) == WorldParents(w, f) + {ViewOf(w, f)};
    } else {
      assert Deps(w, p) <= {f};
    }
  }

  lemma MergeParentsOnDisk(w: World, keys: set<Path>, f: Path)
    requires Closed(w, keys) && Resolves(w, keys, Merged(f))
    ensures WorldParents(w, f) <= ResolvedKeys(w, keys, Merged(f))
  {
    forall q | q in WorldParents(w, f) ensures q in keys && Durable(q) {
      var h :| h in MaximalHeads(w, keys) && q == HeadOp(h);
      HeadsOnDisk(w, keys, h);
    }
  }

  /** Head reduction loses no operation and adds at most the merge operation. */
  lemma NormalizeKeepsHistory(w: World, mirror: Files, res: Resolution, mirror': Files)
    requires MirrorOk(w, mirror) && Normalizes(w, mirror, res, mirror')
    ensures HistoryGrows(w, mirror.Keys, mirror'.Keys)
    ensures forall q: Path | InHistory(w, mirror'.Keys, q) :: InHistory(w, mirror.Keys, q) || res == Merged(q)
  {
    forall h | h in mirror.Keys && IsHead(h) ensures InHistory(w, mirror'.Keys, HeadOp(h)) {
      var top := MaximalAbove(w, mirror, h);
      match res
      case Kept(k) =>
        assert top == k;
      case Merged(f) =>
        ReachesSelf(Links(w), f);
        assert HeadOp(top) in Links(w)(f);
        ReachesParent(Links(w), f, f, HeadOp(top));
        ReachesTransitive(Links(w), f, HeadOp(top), HeadOp(h));
        assert HeadPath(f) in mirror' && HeadOp(HeadPath(f)) == f;
    }
    HistoryFromHeads(w, mirror.Keys, mirror'.Keys);
    forall q: Path | InHistory(w, mirror'.Keys, q) ensures InHistory(w, mirror.Keys, q) || res == Merged(q) {
      var h :| h in mirror'.Keys && IsHead(h) && Reaches(Links(w), HeadOp(h), q);
      SurvivingHead(w, mirror, res, h);
      if res.Merged? && q != res.op {
        BelowMerge(w, mirror, res.op, q);
      }
    }
  }

  lemma SurvivingHead(w: World, mirror: Files, res: Resolution, h: Path)
    requires Resolves(w, mirror.Keys, res) && h in ResolvedKeys(w, mirror.Keys, res) && IsHead(h)
    ensures res.Kept? ==> h == res.head && h in mirror
    ensures res.Merged? ==> h == HeadPath(res.op) && HeadOp(h) == res.op
  {
    KindsAreDisjoint(h);
    match res
    case Kept(k) => HeadIsOnMirror(w, mirror.Keys, k);
    case Merged(f) => MergedHead(w, mirror.Keys, f, h);
  }

  lemma MergedHead(w: World, keys: set<Path>, f: Path, h: Path)
    requires Resolves(w, keys, Merged(f)) && h in ResolvedKeys(w, keys, Merged(f)) && IsHead(h)
    ensures h == HeadPath(f) && HeadOp(h) == f
  {
    KindsAreDisjoint(h);
    KindsAreDisjoint(f);
    KindsAreDisjoint(ViewOf(w, f));
    assert h !in {f, ViewOf(w, f)} && !Durable(h);
  }

  lemma BelowMerge(w: World, mirror: Files, f: Path, q: Path)
    requires Resolves(w, mirror.Keys, Merged(f)) && Reaches(Links(w), f, q) && q != f
    ensures InHistory(w, mirror.Keys, q)
  {
    var d :| DescentBetween(Links(w), d, f, q);
    assert d[1] in Links(w)(d[0]);
    var h :| h in MaximalHeads(w, mirror.Keys) && d[1] == HeadOp(h);
    DescentTail(Links(w), d);
    assert DescentBetween(Links(w), d[1..], HeadOp(h), q);
  }

  lemma DescentTail(parents: LinkFn, d: seq<Path>)
    requires IsDescent(parents, d) && |d| > 1
    ensures IsDescent(parents, d[1..]) && d[1] in parents(d[0])
  {
    forall i | 0 < i < |d[1..]| ensures d[1..][i] in parents(d[1..][i - 1]) {
      assert d[i + 1] in parents(d[i]);
    }
  }

  // ---- manifests ----

  /** A manifest that describes a closed mirror: canonical rows, dependencies included and listed first. */
  ghost predicate ManifestOk(w: World, man: Manifest) {
    && (forall p | p in man.entries :: !HostLocal(p) && SafePath(p) && (Addressed(p) ==> man.entries[p] == EntryOf(w.canon(p))))
    && Closed(w, man.entries.Keys)
    && RowsHonest(man)
    && CoversOnce(man)
    && DepsFirst(w, man.order)
  }

  /** Rows carry the size of the content they hash. */
  ghost predicate RowsHonest(man: Manifest) {
    forall p | p in man.entries :: man.entries[p] == EntryOf(man.entries[p].sha256.content)
  }

  lemma ListedIsOk(w: World, mirror: Files)
    requires MirrorOk(w, mirror)
    ensures RepoOk(w, Listed(mirror))
    ensures forall p | p in mirror && Addressed(p) :: p in Listed(mirror)
    ensures forall q: Path :: InHistory(w, mirror.Keys, q) <==> InHistory(w, Listed(mirror).Keys, q)
  {
    forall p | p in mirror && Addressed(p) ensures p in Listed(mirror) {
      ProtocolPathsTravel(p);
    }
    forall p | p in Listed(mirror) ensures Deps(w, p) <= Listed(mirror).Keys {
      DepsDurable(w, p);
      assert Deps(w, p) <= mirror.Keys;
    }
    assert forall p | p in Listed(mirror) :: WellFormed(w, p, mirror[p]);
  }

  /** The live manifest of a closed mirror can always be built, and is in order. */
  lemma LiveManifestOk(w: World, mirror: Files)
    requires MirrorOk(w, mirror)
    ensures Orderable(mirror, w.decode, Listed(mirror).Keys)
    ensures ManifestOk(w, ManifestOf(w.decode, mirror))
  {
    var keys := Listed(mirror).Keys;
    ListedIsOk(w, mirror);
    forall p | p in Ops(keys) ensures WorldParents(w, p) <= keys {
      DepsDurable(w, p);
      assert Deps(w, p) <= keys;
    }
    RepoOrderable(w, mirror, keys);
    ApplyOrderPermutes(mirror, w.decode, keys);
    ApplyOrderDepsFirst(w, mirror, keys);
    var man := ManifestOf(w.decode, mirror);
    forall p | p in man.entries ensures !HostLocal(p) && SafePath(p) && (Addressed(p) ==> man.entries[p] == EntryOf(w.canon(p))) {
      assert WellFormed(w, p, mirror[p]);
    }
    assert man.entries.Keys == keys;
  }

  // ---- plans ----

  lemma UploadPlanElems(w: World, files: Files, man: Manifest)
    requires RepoOk(w, files)
    ensures Elems(UploadPlan(w.decode, files, man)) == PushSet(files, man)
    ensures Expandable(files, w.decode, PushSet(files, man))
    ensures Orderable(files, w.decode, ParentClosure(files, w.decode, PushSet(files, man)))
  {
    var push := PushSet(files, man);
    RepoExpandable(w, files, push);
    var closure := ParentClosure(files, w.decode, push);
    ApplyOrderPermutes(files, w.decode, closure);
    assert closure * push == push;
  }

  /** The dependencies of an uploaded file are uploaded too or are on the mirror already. */
  lemma UploadCovered(w: World, files: Files, man: Manifest, mirror: Files, order: seq<Path>, p: Path)
    requires RepoOk(w, files)
    requires forall p | p in man.entries && Durable(p) :: p in mirror
    requires p in order && p in PushSet(files, man) && PushSet(files, man) <= Elems(order) && DepsFirst(w, order)
    ensures Covered(w, order, PushSet(files, man), mirror.Keys, p)
  {
    DepsDurable(w, p);
    assert Deps(w, p) <= files.Keys;
    forall d | d in Deps(w, p) ensures d in mirror.Keys + Elems(order) * PushSet(files, man) {
      ProtocolPathsTravel(d);
    }
  }

  /** A partial upload never leaves the mirror without a dependency, provided that what the manifest
      lists is still on the mirror. */
  lemma UploadPlanSafe(w: World, files: Files, man: Manifest, mirror: Files)
    requires RepoOk(w, files)
    requires forall p | p in man.entries && Durable(p) :: p in mirror
    ensures DepOrdered(w, mirror.Keys, UploadPlan(w.decode, files, man))
  {
    var push := PushSet(files, man);
    RepoExpandable(w, files, push);
    var closure := ParentClosure(files, w.decode, push);
    var order := ApplyOrder(files, w.decode, closure);
    ApplyOrderPermutes(files, w.decode, closure);
    ApplyOrderDepsFirst(w, files, closure);
    forall p | p in order && p in push ensures Covered(w, order, push, mirror.Keys, p) {
      UploadCovered(w, files, man, mirror, order, p);
    }
    PlanDepOrdered(w, order, push, mirror.Keys);
  }

  lemma PullPlanSafe(w: World, files: Files, man: Manifest)
    requires ManifestOk(w, man)
    ensures DepOrdered(w, files.Keys, PullPlan(files, man))
    ensures Elems(PullPlan(files, man)) == PullSet(files, man)
  {
    var pull := PullSet(files, man);
    forall p | p in man.order && p in pull ensures Covered(w, man.order, pull, files.Keys, p) {
      DepsDurable(w, p);
      assert Deps(w, p) <= man.entries.Keys;
      forall d | d in Deps(w, p) ensures d in files.Keys + Elems(man.order) * pull {
        ProtocolPathsTravel(d);
      }
    }
    PlanDepOrdered(w, man.order, pull, files.Keys);
  }
}
