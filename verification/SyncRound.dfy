/** One client's sync round against a server that nobody else talks to meanwhile: the loops that upload,
    pull, prune and verify. */
module SyncRound {
  import opened Results
  import opened Paths
  import opened OperationStore
  import opened Toposort
  import opened MirrorApplyOrder
  import opened OperationExpand
  import opened MirrorPath
  import opened MirrorExclude
  import opened Manifests
  import opened SyncPlan

  // ---- what the loops compute ----

  /** The mirror after every changed file has been uploaded. */
  function Uploaded(files: Files, man: Manifest, mirror: Files): Files {
    mirror + map p | p in PushSet(files, man) :: files[p]
  }

  /** The files of `from` on top of `files`. */
  function Overlay(files: Files, from: Files, paths: set<Path>): Files
    requires paths <= from.Keys
  {
    files + map p | p in paths :: from[p]
  }

  lemma OverlayNext(files: Files, from: Files, order: seq<Path>, i: nat, keep: set<Path>)
    requires i < |order| && Distinct(order) && Elems(order[..i]) * keep <= from.Keys
    requires order[i] in keep ==> order[i] in from
    ensures Elems(order[..i + 1]) * keep == Elems(order[..i]) * keep + (if order[i] in keep then {order[i]} else {})
    ensures Elems(order[..i + 1]) * keep <= from.Keys
    ensures order[i] !in Elems(order[..i])
    ensures var before := Overlay(files, from, Elems(order[..i]) * keep);
            Overlay(files, from, Elems(order[..i + 1]) * keep)
            == if order[i] in keep then before[order[i] := from[order[i]]] else before
  {
    assert order[..i + 1] == order[..i] + [order[i]];
    ElemsConcat(order[..i], [order[i]]);
    if order[i] !in keep {
      assert Elems(order[..i + 1]) * keep == Elems(order[..i]) * keep;
    }
  }

  /** The part of a tree that sync shares. */
  function Shared(files: Files): Files {
    map p | p in files && !HostLocal(p) :: files[p]
  }

  /** A round leaves the client with its own host-local files and the server's listed ones. */
  function Adopted(files: Files, mirror: Files): Files {
    (map p | p in files && HostLocal(p) :: files[p]) + Listed(mirror)
  }

  ghost predicate NoneUnderDojjo(files: Files) {
    forall p | p in files :: !UnderDojjo(p)
  }

  /** The server's scan passes and its paths can be ordered. */
  ghost predicate Buildable(decode: Decoder, mirror: Files) {
    ServerScans(mirror) && Orderable(mirror, decode, Listed(mirror).Keys)
  }

  ghost predicate ManifestAvailable(decode: Decoder, mirror: Files, published: Option<Manifest>) {
    published.Some? || Buildable(decode, mirror)
  }

  function VisibleManifest(decode: Decoder, mirror: Files, published: Option<Manifest>): Manifest {
    match published
    case Some(man) => man
    case None => ManifestOf(decode, mirror)
  }

  /** What an upload does file by file: a shared file that the manifest lacks or shows with other content
      lands on the mirror, every other path of the mirror stays as it is. */
  lemma UploadedByFile(files: Files, man: Manifest, mirror: Files, p: Path)
    ensures var goes := p in files && !HostLocal(p) && (p !in man.entries || man.entries[p].sha256.content != files[p]);
            && (p in Uploaded(files, man, mirror) <==> goes || p in mirror)
            && (p in Uploaded(files, man, mirror) ==> Uploaded(files, man, mirror)[p] == if goes then files[p] else mirror[p])
  {
  }

  /** With the current manifest, an upload puts the client's shared files on top of the listed ones. */
  lemma UploadedListed(decode: Decoder, files: Files, mirror: Files)
    ensures Listed(Uploaded(files, ManifestOf(decode, mirror), mirror)) == Listed(mirror) + Shared(files)
  {
    var man := ManifestOf(decode, mirror);
    var left, right := Listed(Uploaded(files, man, mirror)), Listed(mirror) + Shared(files);
    forall p ensures (p in left <==> p in right) && (p in left ==> left[p] == right[p]) {
      if p in files && !HostLocal(p) && p !in PushSet(files, man) {
        assert p in man.entries;
      }
    }
  }

  // ---- the two sides ----

  class LocalRepo {
    var files: Files

    constructor (files: Files)
      ensures this.files == files
    {
      this.files := files;
    }
  }

  class SyncServer {
    var mirror: Files
    var published: Option<Manifest>

    constructor (mirror: Files)
      ensures this.mirror == mirror && published == None
    {
      this.mirror := mirror;
      published := None;
    }

    /** The published manifest, or one built on the spot before the first publication. */
    method GetMirrorManifest(decode: Decoder) returns (r: Result<Manifest, ManifestError>)
      ensures r.Success? <==> ManifestAvailable(decode, mirror, published)
      ensures r.Success? ==> r.value == VisibleManifest(decode, mirror, published)
    {
      if published.Some? {
        return Success(published.value);
      }
      r := BuildManifestBody(decode);
    }

    /** Scans the mirror and orders its paths; either may fail. */
    method BuildManifestBody(decode: Decoder) returns (r: Result<Manifest, ManifestError>)
      ensures r.Success? <==> Buildable(decode, mirror)
      ensures r.Success? ==> r.value == ManifestOf(decode, mirror)
    {
      if !ServerScans(mirror) {
        return Failure(UnsafeMirrorPath);
      }
      var paths := Sorted(Listed(mirror).Keys);
      SortedCorrect(Listed(mirror).Keys);
      var order := ComputeMirrorApplyOrder(mirror, decode, paths);
      if order.Failure? {
        return Failure(Unorderable(order.error));
      }
      return Success(Manifest(map p | p in Listed(mirror) :: EntryOf(mirror[p]), order.value));
    }

    /** Publishes the manifest of the mirror as it is; nothing is published when it cannot be built. */
    method PublishMirrorManifest(decode: Decoder) returns (r: Result<Manifest, ManifestError>)
      modifies this`published
      ensures r.Success? <==> Buildable(decode, mirror)
      ensures r.Success? ==> r.value == ManifestOf(decode, mirror) && published == Some(r.value)
      ensures r.Failure? ==> published == old(published)
    {
      r := BuildManifestBody(decode);
      if r.Success? {
        published := Some(r.value);
      }
    }

    /** Normalize, then publish, as one step. `normalize` stands for jj-lib. */
    method PostMirrorSyncComplete(decode: Decoder, normalize: Files -> Option<Files>) returns (r: Result<Manifest, SyncError>)
      modifies this
      ensures var norm := normalize(old(mirror));
              && (r.Success? <==> norm.Some? && Buildable(decode, norm.value))
              && (norm.Some? ==> mirror == norm.value)
              && (norm.None? ==> mirror == old(mirror))
              && (r.Success? ==> published == Some(ManifestOf(decode, norm.value)) && r.value == ManifestOf(decode, norm.value))
              && (r.Failure? ==> published == old(published))
    {
      var norm := normalize(mirror);
      if norm.None? {
        return Failure(NormalizeFailed);
      }
      mirror := norm.value;
      var body := PublishMirrorManifest(decode);
      if body.Failure? {
        return Failure(PublishFailed(body.error));
      }
      return Success(body.value);
    }
  }

  datatype ManifestError = UnsafeMirrorPath | Unorderable(order: OrderError)

  datatype SyncError =
    | ManifestFailed(cause: ManifestError)
    | ScanFailed
    | ExpandFailed(expand: ExpandError)
    | OrderFailed(order: OrderError)
    | NormalizeFailed
    | PublishFailed(cause: ManifestError)
    | GetFailed(path: Path)
    | UnsafePath(path: Path)
    | VerifyFailed(path: Path)

  // ---- push ----

  /** The changed paths, sorted. */
  method ChangedPaths(files: Files, man: Manifest) returns (push: seq<Path>)
    ensures push == Sorted(PushSet(files, man)) && Distinct(push) && Elems(push) == PushSet(files, man)
  {
    var index := LocalIndex(files);
    var todo := index.Keys;
    var found: set<Path> := {};
    while todo != {}
      invariant todo <= index.Keys
      invariant found == set p | p in PushSet(files, man) && p !in todo
      decreases |todo|
    {
      var p :| p in todo;
      todo := todo - {p};
      if p !in man.entries {
        found := found + {p};
      } else if man.entries[p].sha256 != index[p].sha256 {
        found := found + {p};
      }
    }
    assert found == PushSet(files, man);
    SortedCorrect(found);
    push := Sorted(found);
  }

  ghost predicate Pushable(decode: Decoder, files: Files, man: Manifest) {
    && Expandable(files, decode, PushSet(files, man))
    && Orderable(files, decode, ParentClosure(files, decode, PushSet(files, man)))
  }

  lemma ChangedAreSafe(files: Files, man: Manifest)
    requires Scans(files) && PlainNames(files)
    ensures PushSet(files, man) <= files.Keys && forall p | p in PushSet(files, man) :: SafePath(p)
  {
    PlainScansSafe(files);
  }

  /** The order of the parent closure of the changed files. */
  method OrderUpload(files: Files, decode: Decoder, man: Manifest, push: seq<Path>) returns (r: Result<seq<Path>, SyncError>)
    requires Distinct(push) && Elems(push) == PushSet(files, man)
    ensures r.Success? <==> Pushable(decode, files, man)
    ensures r.Success? ==> Distinct(r.value) && PushSet(files, man) <= Elems(r.value)
  {
    var expanded := ExpandOperationParentClosure(files, decode, push);
    if expanded.Failure? {
      return Failure(ExpandFailed(expanded.error));
    }
    ghost var closure := ParentClosure(files, decode, PushSet(files, man));
    SortedDistinct(expanded.value);
    var order := ComputeMirrorApplyOrder(files, decode, expanded.value);
    if order.Failure? {
      return Failure(OrderFailed(order.error));
    }
    ApplyOrderPermutes(files, decode, closure);
    return Success(order.value);
  }

  /** Uploads the changed files in dependency order; a plan that cannot be made uploads nothing. */
  method PushChanges(repo: LocalRepo, server: SyncServer, decode: Decoder, man: Manifest) returns (r: Result<nat, SyncError>)
    requires Scans(repo.files) && PlainNames(repo.files)
    modifies server`mirror
    ensures r.Success? <==> Pushable(decode, repo.files, man)
    ensures r.Success? ==> server.mirror == Uploaded(repo.files, man, old(server.mirror))
    ensures r.Success? ==> r.value == |PushSet(repo.files, man)|
    ensures r.Failure? ==> server.mirror == old(server.mirror)
  {
    var push := ChangedPaths(repo.files, man);
    if push == [] {
      assert Elems(push) == {};
      EmptyPushable(decode, repo.files, PushSet(repo.files, man));
      assert Uploaded(repo.files, man, server.mirror) == server.mirror;
      return Success(0);
    }
    var needed := Elems(push);
    var order := OrderUpload(repo.files, decode, man, push);
    if order.Failure? {
      return Failure(order.error);
    }
    assert Elems(order.value) * needed == needed;
    ChangedAreSafe(repo.files, man);
    var count := UploadInOrder(repo, server, order.value, needed);
    return Success(count);
  }

  /** One upload per needed path, in the given order; each lands where the server's path rule puts it. */
  method UploadInOrder(repo: LocalRepo, server: SyncServer, order: seq<Path>, needed: set<Path>) returns (count: nat)
    requires Distinct(order) && needed <= repo.files.Keys && forall p | p in needed :: SafePath(p)
    modifies server`mirror
    ensures server.mirror == Overlay(old(server.mirror), repo.files, Elems(order) * needed)
    ensures count == |Elems(order) * needed|
  {
    count := 0;
    ghost var files, mirror0 := repo.files, server.mirror;
    assert Elems(order[..0]) * needed == {};
    for i := 0 to |order|
      invariant server.mirror == Overlay(mirror0, files, Elems(order[..i]) * needed)
      invariant count == |Elems(order[..i]) * needed|
    {
      OverlayNext(mirror0, files, order, i, needed);
      if order[i] !in needed {
        continue;
      }
      StoredAsItself(order[i]);
      var dest := ParseSafeMirrorRel(order[i]).value;
      server.mirror := server.mirror[dest := repo.files[order[i]]];
      count := count + 1;
    }
    assert order[..|order|] == order;
  }

  lemma SortedDistinct(xs: seq<Path>)
    requires StrictlySorted(xs)
    ensures Distinct(xs)
  {
  }

  lemma EmptyPushable(decode: Decoder, files: Files, none: set<Path>)
    requires none == {}
    ensures Expandable(files, decode, none) && Orderable(files, decode, ParentClosure(files, decode, none))
  {
    var c := ParentClosure(files, decode, none);
    assert c == {};
    AcyclicLexKahnEmpty(ParentEdges(files, decode, c));
    assert Ops(c) == {};
  }

  // ---- pull ----

  /** Every row that differs can be downloaded as listed. */
  predicate Downloadable(files: Files, man: Manifest, mirror: Files) {
    forall p | p in PullSet(files, man) :: p in mirror && EntryOf(mirror[p]) == man.entries[p]
  }

  /** One download from a mirror that stands still: it succeeds exactly when the file is there as listed. */
  method Download(mirror: Files, man: Manifest, rel: Path) returns (bytes: Option<Bytes>)
    requires rel in man.entries
    ensures bytes.Some? <==> rel in mirror && EntryOf(mirror[rel]) == man.entries[rel]
    ensures bytes.Some? ==> bytes.value == mirror[rel]
  {
    var answer := if rel in mirror then Content(mirror[rel]) else NotFound;
    var env := Server(n => answer, n => Some(man));
    var o, _, tries := GetMirrorObjectBytes(env, rel, man);
    assert env.get(tries) == answer && env.refetch(tries) == Some(man);
    bytes := if o.Got? then Some(o.bytes) else None;
  }

  ghost predicate PulledTo(files0: Files, mirror: Files, man: Manifest, k: nat, files: Files)
    requires k <= |man.order|
  {
    var got := Elems(man.order[..k]) * PullSet(files0, man);
    got <= mirror.Keys && files == Overlay(files0, mirror, got)
  }

  /** Downloads the differing files in manifest order. A failed download leaves the ones before it. */
  method PullChanges(repo: LocalRepo, server: SyncServer, man: Manifest) returns (r: Result<(), SyncError>)
    requires server.published == Some(man) && CoversOnce(man)
    modifies repo`files
    ensures r.Success? <==> Downloadable(old(repo.files), man, server.mirror)
    ensures r.Success? ==> repo.files == Overlay(old(repo.files), server.mirror, PullSet(old(repo.files), man))
    ensures exists k | 0 <= k <= |man.order| :: PulledTo(old(repo.files), server.mirror, man, k, repo.files)
  {
    ghost var files0 := repo.files;
    var pull := PullSet(repo.files, man);
    assert Elems(man.order[..0]) * pull == {};
    for i := 0 to |man.order|
      invariant forall p | p in Elems(man.order[..i]) * pull :: p in server.mirror && EntryOf(server.mirror[p]) == man.entries[p]
      invariant PulledTo(files0, server.mirror, man, i, repo.files)
    {
      var rel := man.order[i];
      if rel !in pull {
        OverlayNext(files0, server.mirror, man.order, i, pull);
        continue;
      }
      var bytes := Download(server.mirror, man, rel);
      if bytes.None? {
        assert rel in pull;
        return Failure(GetFailed(rel));
      }
      OverlayNext(files0, server.mirror, man.order, i, pull);
      repo.files := repo.files[rel := bytes.value];
    }
    assert man.order[..|man.order|] == man.order;
    assert Elems(man.order) * pull == pull;
    return Success(());
  }

  // ---- prune ----

  /** Scans the tree and removes the shared files that the manifest does not list. */
  method PruneLocal(repo: LocalRepo, man: Manifest) returns (r: Result<nat, SyncError>)
    modifies repo`files
    ensures r.Success? <==> Scans(old(repo.files))
    ensures r.Success? ==> repo.files == old(repo.files) - PruneSet(old(repo.files), man)
    ensures r.Success? ==> r.value == |PruneSet(old(repo.files), man)|
    ensures r.Failure? ==> repo.files == old(repo.files)
  {
    if !Scans(repo.files) {
      return Failure(ScanFailed);
    }
    var pruned := RemoveUnlisted(repo, LocalIndex(repo.files), man);
    return Success(pruned);
  }

  /** The unlisted files outside `todo` are gone, `n` of them. */
  ghost predicate PrunedBut(files0: Files, prune: set<Path>, todo: set<Path>, files: Files, n: nat) {
    files == files0 - (prune - todo) && n == |prune - todo|
  }

  lemma PruneNext(files0: Files, prune: set<Path>, todo: set<Path>, files: Files, n: nat, p: Path)
    requires PrunedBut(files0, prune, todo, files, n) && p in todo
    ensures if p in prune then PrunedBut(files0, prune, todo - {p}, files - {p}, n + 1) else PrunedBut(files0, prune, todo - {p}, files, n)
  {
    if p in prune {
      assert prune - (todo - {p}) == (prune - todo) + {p};
      assert files0 - ((prune - todo) + {p}) == files - {p};
    } else {
      assert prune - (todo - {p}) == prune - todo;
    }
  }

  /** The loop over the index, in no particular order. */
  method RemoveUnlisted(repo: LocalRepo, index: map<Path, Entry>, man: Manifest) returns (pruned: nat)
    requires index == LocalIndex(repo.files)
    modifies repo`files
    ensures repo.files == old(repo.files) - PruneSet(old(repo.files), man)
    ensures pruned == |PruneSet(old(repo.files), man)|
  {
    ghost var files0, prune := repo.files, PruneSet(repo.files, man);
    var todo := index.Keys;
    pruned := 0;
    assert prune - todo == {} && files0 - {} == files0;
    while todo != {}
      invariant todo <= index.Keys && PrunedBut(files0, prune, todo, repo.files, pruned)
      decreases |todo|
    {
      var p :| p in todo;
      PruneNext(files0, prune, todo, repo.files, pruned, p);
      if p !in man.entries {
        repo.files := repo.files - {p};
        pruned := pruned + 1;
      }
      todo := todo - {p};
    }
    assert prune - {} == prune;
  }

  // ---- verify ----

  /** The rows outside `todo` agree with the local index. */
  predicate RowsHold(index: map<Path, Entry>, man: Manifest, todo: set<Path>) {
    forall p | p in man.entries && p !in todo && !MachineLocal(p) :: p in index && index[p] == man.entries[p]
  }

  predicate PathsKnown(index: map<Path, Entry>, man: Manifest, todo: set<Path>) {
    forall p | p in index && p !in todo :: p in man.entries
  }

  /** The final check: one more scan, then row by row and path by path. */
  method VerifyLocalMatchesManifest(files: Files, man: Manifest) returns (r: Result<(), SyncError>)
    ensures r.Success? <==> Scans(files) && Verified(files, man)
  {
    if !Scans(files) {
      return Failure(ScanFailed);
    }
    var index := LocalIndex(files);
    var todo := man.entries.Keys;
    while todo != {}
      invariant todo <= man.entries.Keys
      invariant RowsHold(index, man, todo)
      decreases |todo|
    {
      var p :| p in todo;
      if !MachineLocal(p) {
        if p !in index || index[p] != man.entries[p] {
          return Failure(VerifyFailed(p));
        }
      }
      todo := todo - {p};
    }
    todo := index.Keys;
    while todo != {}
      invariant todo <= index.Keys
      invariant PathsKnown(index, man, todo)
      decreases |todo|
    {
      var p :| p in todo;
      if p !in man.entries {
        return Failure(VerifyFailed(p));
      }
      todo := todo - {p};
    }
    return Success(());
  }

  // ---- pull, prune and verify against the manifest just published ----

  lemma PublishedDownloadable(decode: Decoder, files: Files, mirror: Files)
    ensures Downloadable(files, ManifestOf(decode, mirror), mirror)
  {
  }

  lemma AdoptedByPullAndPrune(decode: Decoder, files: Files, mirror: Files)
    ensures var man := ManifestOf(decode, mirror);
            var pulled := Overlay(files, mirror, PullSet(files, man));
            pulled - PruneSet(pulled, man) == Adopted(files, mirror)
  {
    var man := ManifestOf(decode, mirror);
    var pulled := Overlay(files, mirror, PullSet(files, man));
    var left, want := pulled - PruneSet(pulled, man), Adopted(files, mirror);
    forall p ensures (p in left <==> p in want) && (p in left ==> left[p] == want[p]) {
      if p in PullSet(files, man) {
      } else if p in man.entries && p in files {
      }
    }
  }

  /** Pull and prune establish the final check, unless the server lists a path that clients do not scan. */
  lemma AdoptedVerifies(decode: Decoder, files: Files, mirror: Files)
    ensures Verified(Adopted(files, mirror), ManifestOf(decode, mirror)) <==> NoneUnderDojjo(Listed(mirror))
  {
    var man, mine := ManifestOf(decode, mirror), Adopted(files, mirror);
    if NoneUnderDojjo(Listed(mirror)) {
      forall p | p in man.entries ensures p in LocalIndex(mine) && LocalIndex(mine)[p] == man.entries[p] {
        assert p in Listed(mirror);
      }
    } else {
      var p :| p in Listed(mirror) && UnderDojjo(p);
      assert p in man.entries && p !in LocalIndex(mine);
    }
  }

  /** Listed files of a mirror that the server can scan never spoil the client's scan. */
  lemma AdoptingKeepsScans(files: Files, mirror: Files, paths: set<Path>)
    requires Scans(files) && ServerScans(mirror) && paths <= Listed(mirror).Keys
    ensures Scans(Overlay(files, mirror, paths)) && Scans(Adopted(files, mirror))
  {
    forall p | p in Listed(mirror) ensures Acceptable(p) {
      StoredAsItself(p);
    }
  }

  // ---- the whole round ----

  /** What the two git commands of a round make of the repository directory. */
  datatype GitTransport = GitTransport(push: Files -> Files, fetch: Files -> Files)

  /** What a round leaves behind, however far it came. Nothing is touched without a manifest or when the
      first scan fails, and only git has run before the upload. A failed normalize leaves the upload, a
      failed publication the normalized mirror. From the publication on pull and prune go through, unless
      git fetched a file on which the scan fails, even if the final check then fails. */
  ghost predicate RoundLeaves(decode: Decoder, normalize: Files -> Option<Files>, git: GitTransport,
                              files: Files, mirror: Files, published: Option<Manifest>,
                              files': Files, mirror': Files, published': Option<Manifest>) {
    var man, pushed := VisibleManifest(decode, mirror, published), git.push(files);
    var up := Uploaded(pushed, man, mirror);
    if !ManifestAvailable(decode, mirror, published) || !Scans(files) then
      files' == files && mirror' == mirror && published' == published
    else if !Scans(pushed) || !Pushable(decode, pushed, man) then
      files' == pushed && mirror' == mirror && published' == published
    else match normalize(up)
      case None => files' == pushed && mirror' == up && published' == published
      case Some(norm) =>
        && mirror' == norm
        && if !Buildable(decode, norm) then published' == published && files' == pushed
           else
             var fetched := git.fetch(pushed);
             published' == Some(ManifestOf(decode, norm)) && files' == if Scans(fetched) then Adopted(fetched, norm) else fetched
  }

  /** A round can go through on this tree. */
  ghost predicate RoundSucceeds(decode: Decoder, normalize: Files -> Option<Files>, git: GitTransport,
                                files: Files, mirror: Files, published: Option<Manifest>) {
    var man, pushed := VisibleManifest(decode, mirror, published), git.push(files);
    var norm := normalize(Uploaded(pushed, man, mirror));
    && ManifestAvailable(decode, mirror, published)
    && Scans(files) && Scans(pushed) && Scans(git.fetch(pushed))
    && Pushable(decode, pushed, man)
    && norm.Some? && Buildable(decode, norm.value)
    && NoneUnderDojjo(Listed(norm.value))
  }

  /** One round. It succeeds exactly when a manifest is available, every scan of the tree passes, the upload
      can be planned, jj normalizes the uploaded mirror, the server can scan and order the result, and no
      listed path is invisible to clients. */
  method RunForDojoHome(repo: LocalRepo, server: SyncServer, decode: Decoder, normalize: Files -> Option<Files>, git: GitTransport)
    returns (r: Result<Manifest, SyncError>)
    requires PlainNames(git.push(repo.files))
    modifies repo, server
    ensures r.Success? <==> RoundSucceeds(decode, normalize, git, old(repo.files), old(server.mirror), old(server.published))
    ensures r.Success? ==> server.published == Some(r.value)
    ensures RoundLeaves(decode, normalize, git, old(repo.files), old(server.mirror), old(server.published),
                        repo.files, server.mirror, server.published)
  {
    var fetched := server.GetMirrorManifest(decode);
    if fetched.Failure? {
      return Failure(ManifestFailed(fetched.error));
    }
    var man0 := fetched.value;
    if !Scans(repo.files) {
      return Failure(ScanFailed);
    }
    repo.files := git.push(repo.files);
    if !Scans(repo.files) {
      return Failure(ScanFailed);
    }
    var pushed := PushChanges(repo, server, decode, man0);
    if pushed.Failure? {
      return Failure(pushed.error);
    }
    var published := server.PostMirrorSyncComplete(decode, normalize);
    if published.Failure? {
      return Failure(published.error);
    }
    repo.files := git.fetch(repo.files);
    if !Scans(repo.files) {
      return Failure(ScanFailed);
    }
    r := PullPruneVerify(repo, server, decode, published.value);
  }

  lemma SecondHalfGoesThrough(decode: Decoder, files: Files, mirror: Files)
    requires Scans(files) && Buildable(decode, mirror)
    ensures var man := ManifestOf(decode, mirror);
            var pulled := Overlay(files, mirror, PullSet(files, man));
            && CoversOnce(man) && Downloadable(files, man, mirror)
            && Scans(pulled) && pulled - PruneSet(pulled, man) == Adopted(files, mirror)
            && Scans(Adopted(files, mirror))
            && (Verified(Adopted(files, mirror), man) <==> NoneUnderDojjo(Listed(mirror)))
  {
    var man := ManifestOf(decode, mirror);
    ApplyOrderPermutes(mirror, decode, Listed(mirror).Keys);
    assert man.entries.Keys == Listed(mirror).Keys;
    PublishedDownloadable(decode, files, mirror);
    AdoptedByPullAndPrune(decode, files, mirror);
    AdoptedVerifies(decode, files, mirror);
    AdoptingKeepsScans(files, mirror, PullSet(files, man));
  }

  /** The second half of a round: everything that differs is pulled from the mirror just published, what is
      not listed is pruned, and the result is checked. */
  method PullPruneVerify(repo: LocalRepo, server: SyncServer, decode: Decoder, man: Manifest) returns (r: Result<Manifest, SyncError>)
    requires Scans(repo.files) && Buildable(decode, server.mirror)
    requires man == ManifestOf(decode, server.mirror) && server.published == Some(man)
    modifies repo`files
    ensures repo.files == Adopted(old(repo.files), server.mirror)
    ensures r.Success? <==> NoneUnderDojjo(Listed(server.mirror))
    ensures r.Success? ==> r.value == man
  {
    SecondHalfGoesThrough(decode, repo.files, server.mirror);
    var pulled := PullChanges(repo, server, man);
    assert pulled.Success?;
    var pruned := PruneLocal(repo, man);
    assert pruned.Success?;
    var verified := VerifyLocalMatchesManifest(repo.files, man);
    if verified.Failure? {
      return Failure(verified.error);
    }
    return Success(man);
  }
}
