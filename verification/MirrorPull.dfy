/** The cold join: pulling a whole mirror into an empty repository, and which paths it accepts. */
module MirrorPull {
  import opened Results
  import opened Paths
  import opened MirrorPath
  import opened MirrorExclude
  import opened Manifests
  import opened SyncPlan
  import opened SyncRound

  // ---- accepted paths ----

  predicate HasDotDot(path: Path) {
    exists i | 0 <= i < |path| - 1 :: path[i] == '.' && path[i + 1] == '.'
  }

  predicate PlainSegment(seg: string) {
    seg != "" && seg != "." && seg != ".."
  }

  predicate ColdJoinAccepts(path: Path) {
    && path != "" && path[0] != '/' && '\\' !in path && !HasDotDot(path)
    && forall seg | seg in Split(path) :: PlainSegment(seg)
  }

  lemma SafeIsPlain(seg: string)
    requires SafeSegment(seg)
    ensures PlainSegment(seg)
  {
  }

  /** Of the paths that a mirror can hold, the cold join refuses exactly those with two dots in a row. */
  lemma ColdJoinRefusesDots(path: Path)
    requires SafePath(path)
    ensures ColdJoinAccepts(path) <==> !HasDotDot(path)
  {
    SafePathChars(path);
    forall seg | seg in Split(path) ensures PlainSegment(seg) {
      SafeIsPlain(seg);
    }
  }

  /** A path is accepted exactly if it joins names that are neither empty nor a dot entry and have no
      backslash, and has no two dots in a row. */
  lemma ColdJoinAcceptsJoins(path: Path)
    ensures ColdJoinAccepts(path) <==>
              && (exists rel :: JoinOfNames(rel, path))
              && forall i | 0 <= i < |path| - 1 :: !(path[i] == '.' && path[i + 1] == '.')
  {
    SplitSlash(path);
    SplitCovers(path);
    var segs := Split(path);
    if ColdJoinAccepts(path) {
      SplitIsSlashless(path);
      forall seg, c | seg in segs && c in seg ensures c != '\\' {
        SplitWithin(path, seg, c);
      }
      assert JoinOfNames(segs, path);
    }
    if rel :| JoinOfNames(rel, path) {
      SlashSplit(rel);
      assert segs == rel && segs[0] in segs;
      assert path != "" ==> path[0] != '/';
      forall c | c in path ensures c != '\\' {
      }
    }
  }

  ghost predicate JoinOfNames(rel: Rel, path: Path) {
    Slashless(rel) && Slash(rel) == path && forall seg | seg in rel :: PlainSegment(seg) && '\\' !in seg
  }

  lemma LocalByInitial(path: Path)
    requires path != "" && path[0] == 'a'
    ensures !MachineLocal(path)
  {
    forall lock | lock in JJ_REPO_FILE_LOCK_PATHS ensures lock[0] != 'a' {
    }
  }

  /** Two letters with two dots between them make one safe segment. */
  lemma DottedIsSafe(path: string)
    requires |path| == 4 && path[0] == 'a' && path[1] == '.' && path[2] == '.' && path[3] == 'b'
    ensures SafeSegment(path) && HasDotDot(path)
  {
  }

  /** Such a path exists: an upload is finalized there, and the cold join refuses it. */
  lemma DottedPathIsStored() returns (path: Path)
    ensures ParseSafeMirrorRel(path) == Some(path) && !MachineLocal(path)
    ensures !ColdJoinAccepts(path)
  {
    path := ['a', '.', '.', 'b'];
    DottedIsSafe(path);
    SafeJoin([path]);
    StoredAsItself(path);
    LocalByInitial(path);
  }

  datatype PathError = EmptyPath | Absolute | Backslash | DotDot | EmptySegment | DotSegment

  /** The checks in their order, segment by segment at the end. */
  method AssertSafeMirrorRelPath(path: Path) returns (r: Result<(), PathError>)
    ensures r.Success? <==> ColdJoinAccepts(path)
    ensures r == Failure(DotDot) <==> path != "" && path[0] != '/' && '\\' !in path && HasDotDot(path)
  {
    if path == "" { return Failure(EmptyPath); }
    if path[0] == '/' { return Failure(Absolute); }
    if '\\' in path { return Failure(Backslash); }
    if HasDotDot(path) { return Failure(DotDot); }
    var segs := Split(path);
    for i := 0 to |segs|
      invariant forall seg | seg in segs[..i] :: PlainSegment(seg)
    {
      assert segs[i] in segs;
      if segs[i] == "" { return Failure(EmptySegment); }
      if segs[i] == "." || segs[i] == ".." { return Failure(DotSegment); }
      assert segs[..i + 1] == segs[..i] + [segs[i]];
    }
    assert segs[..|segs|] == segs;
    return Success(());
  }

  // ---- the pull ----

  /** The listed paths that a cold join writes. */
  function JoinSet(man: Manifest): set<Path> {
    set p | p in man.entries && !MachineLocal(p)
  }

  predicate Joinable(man: Manifest, mirror: Files) {
    forall p | p in JoinSet(man) :: ColdJoinAccepts(p) && p in mirror && EntryOf(mirror[p]) == man.entries[p]
  }

  ghost predicate JoinedTo(files0: Files, mirror: Files, man: Manifest, k: nat, files: Files)
    requires k <= |man.order|
  {
    var got := Elems(man.order[..k]) * JoinSet(man);
    && got <= mirror.Keys && files == Overlay(files0, mirror, got)
    && forall p | p in got :: ColdJoinAccepts(p) && EntryOf(mirror[p]) == man.entries[p]
  }

  lemma JoinStart(files0: Files, mirror: Files, man: Manifest)
    ensures JoinedTo(files0, mirror, man, 0, files0) && Elems(man.order[..0]) * JoinSet(man) == {}
  {
  }

  lemma JoinEnd(files0: Files, mirror: Files, man: Manifest, files: Files)
    requires CoversOnce(man) && JoinedTo(files0, mirror, man, |man.order|, files)
    ensures Elems(man.order[..|man.order|]) * JoinSet(man) == JoinSet(man)
    ensures Joinable(man, mirror) && files == Overlay(files0, mirror, JoinSet(man))
  {
    assert man.order[..|man.order|] == man.order;
  }

  /** A listed file that does not take part. */
  lemma JoinSkips(files0: Files, mirror: Files, man: Manifest, k: nat, files: Files)
    requires CoversOnce(man) && k < |man.order| && JoinedTo(files0, mirror, man, k, files) && man.order[k] !in JoinSet(man)
    ensures JoinedTo(files0, mirror, man, k + 1, files)
    ensures Elems(man.order[..k + 1]) * JoinSet(man) == Elems(man.order[..k]) * JoinSet(man)
  {
    OverlayNext(files0, mirror, man.order, k, JoinSet(man));
  }

  /** A listed file that is written. */
  lemma JoinWrites(files0: Files, mirror: Files, man: Manifest, k: nat, files: Files)
    requires CoversOnce(man) && k < |man.order| && JoinedTo(files0, mirror, man, k, files) && man.order[k] in JoinSet(man)
    requires ColdJoinAccepts(man.order[k]) && man.order[k] in mirror
    requires EntryOf(mirror[man.order[k]]) == man.entries[man.order[k]]
    ensures JoinedTo(files0, mirror, man, k + 1, files[man.order[k] := mirror[man.order[k]]])
    ensures |Elems(man.order[..k + 1]) * JoinSet(man)| == |Elems(man.order[..k]) * JoinSet(man)| + 1
  {
    OverlayNext(files0, mirror, man.order, k, JoinSet(man));
  }

  /** Writes every listed file in manifest order, each after its path was checked. Without concurrent
      changes it succeeds exactly when every path is accepted and every file is there as listed; then
      the repository holds all of them. A failure leaves a prefix of the order written. */
  method PullMirrorIntoRepo(repo: LocalRepo, server: SyncServer, man: Manifest) returns (r: Result<nat, SyncError>)
    requires CoversOnce(man)
    modifies repo`files
    ensures r.Success? <==> Joinable(man, server.mirror)
    ensures r.Success? ==> repo.files == Overlay(old(repo.files), server.mirror, JoinSet(man)) && r.value == |JoinSet(man)|
    ensures exists k | 0 <= k <= |man.order| :: JoinedTo(old(repo.files), server.mirror, man, k, repo.files)
  {
    ghost var files0 := repo.files;
    var pulled: nat := 0;
    JoinStart(files0, server.mirror, man);
    for i := 0 to |man.order|
      invariant JoinedTo(files0, server.mirror, man, i, repo.files)
      invariant pulled == |Elems(man.order[..i]) * JoinSet(man)|
    {
      var rel := man.order[i];
      if MachineLocal(rel) {
        JoinSkips(files0, server.mirror, man, i, repo.files);
        continue;
      }
      assert rel in JoinSet(man);
      var safe := AssertSafeMirrorRelPath(rel);
      if safe.Failure? {
        return Failure(UnsafePath(rel));
      }
      var bytes := Download(server.mirror, man, rel);
      if bytes.None? {
        return Failure(GetFailed(rel));
      }
      JoinWrites(files0, server.mirror, man, i, repo.files);
      repo.files := repo.files[rel := bytes.value];
      pulled := pulled + 1;
    }
    JoinEnd(files0, server.mirror, man, repo.files);
    return Success(pulled);
  }
}
