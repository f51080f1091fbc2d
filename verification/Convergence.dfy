/** What one whole round of a client does to the files that everybody shares, and three rounds after which
    two clients still disagree. */
module Convergence {
  import opened Results
  import opened Paths
  import opened OperationStore
  import opened MirrorApplyOrder
  import opened OperationExpand
  import opened MirrorPath
  import opened MirrorExclude
  import opened Manifests
  import opened JjRepo
  import opened SyncPlan
  import opened SyncRound

  // ---- what normalize does outside the operation store ----

  predicate IsSide(p: Path) {
    !Addressed(p) && !MachineLocal(p)
  }

  /** The listed files outside the operation store are the same. */
  ghost predicate SidesUntouched(mirror: Files, mirror': Files) {
    forall p | IsSide(p) :: (p in mirror' <==> p in mirror) && (p in mirror' ==> mirror'[p] == mirror[p])
  }

  /** Some marker on the mirror names a table with all the rows of the one that `p` names. */
  ghost predicate Absorbed(w: World, mirror: Files, p: Path) {
    exists m :: m in mirror && IsMarker(m) && w.rows(p) <= w.rows(m)
  }

  /** No listed file outside the operation store is lost or overwritten, save that a marker may be merged
      into another one; new files may appear. */
  ghost predicate SidesKept(w: World, mirror: Files, mirror': Files) {
    && (forall p | p in mirror && IsSide(p) && !IsMarker(p) :: p in mirror' && mirror'[p] == mirror[p])
    && (forall p | p in mirror && IsMarker(p) :: Absorbed(w, mirror', p))
  }

  /** An upload on top of `mirror` that brings nothing new outside the operation store: at most markers
      which an earlier normalize has merged away. */
  ghost predicate BringsNothing(w: World, mirror: Files, up: Files) {
    forall p | p in up && IsSide(p) :: (p in mirror && up[p] == mirror[p]) || (IsMarker(p) && Absorbed(w, mirror, p))
  }

  /** What jj's normalize does to files outside the operation store: it may add merged tables, their markers
      and caches, and remove markers whose table it merged into another one. It adds nothing, and removes
      stale markers again, when it has been there before: `mirror` is the tree it published last, the upload
      brought nothing new, and the head it settled on is still the same. */
  ghost predicate SidesNormalized(w: World, mirror: Files, published: Option<Manifest>, up: Files, res: Resolution, mirror': Files) {
    && SidesKept(w, up, mirror')
    && (published == Published(w, mirror) && BringsNothing(w, mirror, up) && res.Kept? && res.head in mirror
        ==> SidesUntouched(mirror, mirror'))
  }

  ghost predicate Ready(files: Files) {
    Scans(files) && PlainNames(files)
  }

  /** A whole round of one client, as `RunForDojoHome` computes it, with jj's normalize as assumed. */
  ghost predicate Round(w: World, files: Files, mirror: Files, published: Option<Manifest>, res: Resolution, files': Files, mirror': Files) {
    var up := Uploaded(files, VisibleManifest(w.decode, mirror, published), mirror);
    && Ready(files)
    && Normalizes(w, up, res, mirror')
    && SidesNormalized(w, mirror, published, up, res, mirror')
    && files' == Adopted(files, mirror')
  }

  ghost function Published(w: World, mirror: Files): Option<Manifest> {
    Some(ManifestOf(w.decode, mirror))
  }

  lemma MarkersTravel(p: Path)
    requires IsMarker(p)
    ensures !HostLocal(p) && !Addressed(p)
  {
    MarkersAreNotAddressed(p);
    assert p[0] == 's' && p[6] == 'e' && p[12] == 'h';
  }

  // ---- what a round does to the listed files ----

  lemma UploadedOk(w: World, files: Files, man: Manifest, mirror: Files)
    requires RepoOk(w, files) && Ready(files) && MirrorOk(w, mirror)
    requires forall p | p in man.entries && Durable(p) :: p in mirror
    ensures MirrorOk(w, Uploaded(files, man, mirror))
  {
    UploadedRepoOk(w, files, man, mirror);
    PlainScansSafe(files);
  }

  lemma UploadedRepoOk(w: World, files: Files, man: Manifest, mirror: Files)
    requires RepoOk(w, files) && RepoOk(w, mirror)
    requires forall p | p in man.entries && Durable(p) :: p in mirror
    ensures RepoOk(w, Uploaded(files, man, mirror))
  {
    var up := Uploaded(files, man, mirror);
    forall p | p in up ensures WellFormed(w, p, up[p]) && Deps(w, p) <= up.Keys {
      DepsDurable(w, p);
      if p in PushSet(files, man) {
        assert WellFormed(w, p, files[p]);
        assert Deps(w, p) <= files.Keys;
        forall d | d in Deps(w, p) ensures d in up {
          ProtocolPathsTravel(d);
        }
      } else {
        assert WellFormed(w, p, mirror[p]);
        assert Deps(w, p) <= mirror.Keys;
      }
    }
  }

  lemma AdoptedShared(files: Files, mirror: Files)
    requires NoneUnderDojjo(mirror)
    ensures Shared(Adopted(files, mirror)) == Listed(mirror)
  {
  }

  /** Of a file outside the operation store that a client has, its own version ends up on the server and
      stays with the client, if it is uploaded or there already. Otherwise the server's version, which the
      manifest does not show, replaces the client's own. */
  lemma OwnVersionWins(w: World, files: Files, mirror: Files, published: Option<Manifest>, res: Resolution, files': Files, mirror': Files, p: Path)
    requires Round(w, files, mirror, published, res, files', mirror')
    requires p in Shared(files) && !Addressed(p) && !IsMarker(p)
    ensures var pushed := p in PushSet(files, VisibleManifest(w.decode, mirror, published));
            && (pushed || (p in mirror && mirror[p] == files[p])
                ==> p in mirror' && mirror'[p] == files[p] && p in files' && files'[p] == files[p])
            && (!pushed && p in mirror && mirror[p] != files[p]
                ==> p in mirror' && mirror'[p] != files[p] && p in files' && files'[p] == mirror[p])
    ensures published == Published(w, mirror)
            ==> p in PushSet(files, VisibleManifest(w.decode, mirror, published)) || (p in mirror && mirror[p] == files[p])
  {
    var up := Uploaded(files, VisibleManifest(w.decode, mirror, published), mirror);
    if p in up {
      assert p in mirror' && mirror'[p] == up[p];
      assert p in Listed(mirror');
    }
  }

  // ---- stale heads ----

  /** Uploading again a head that an earlier normalize removed changes nothing: normalize removes it again. */
  lemma StaleHeadRemovedAgain(w: World, mirror: Files, stale: set<Path>, up: Files, res: Resolution, mirror': Files, top: Path)
    requires MirrorOk(w, mirror) && MirrorOk(w, up) && MaximalHeads(w, mirror.Keys) == {top}
    requires forall h | h in mirror && IsHead(h) :: h == top
    requires forall p | Addressed(p) :: p in up <==> p in mirror || p in stale
    requires forall h | h in stale :: IsHead(h) && InHistory(w, mirror.Keys, HeadOp(h))
    requires Normalizes(w, up, res, mirror')
    ensures res == Kept(top) && top in mirror
    ensures forall p | Addressed(p) :: p in mirror' <==> p in mirror
  {
    forall h | h in up && IsHead(h) ensures Reaches(Links(w), HeadOp(top), HeadOp(h)) {
      if h in stale {
        OnlyHeadReaches(w, mirror.Keys, top, HeadOp(h));
      } else {
        assert h == top;
        ReachesSelf(Links(w), HeadOp(top));
      }
    }
    assert top in MaximalHeads(w, mirror.Keys);
    OnlyTopIsMaximal(w, up, top);
    assert res == Kept(top);
    ResolvedKeysOfKept(w, up.Keys, mirror.Keys, stale, top);
  }

  lemma OnlyHeadReaches(w: World, keys: set<Path>, top: Path, q: Path)
    requires IsHead(top) && (forall h | h in keys && IsHead(h) :: h == top) && InHistory(w, keys, q)
    ensures Reaches(Links(w), HeadOp(top), q)
  {
  }

  lemma ResolvedKeysOfKept(w: World, up: set<Path>, mirror: set<Path>, stale: set<Path>, top: Path)
    requires Resolves(w, up, Kept(top)) && top in mirror && IsHead(top)
    requires forall h | h in mirror && IsHead(h) :: h == top
    requires forall h | h in stale :: IsHead(h)
    requires forall p | Addressed(p) :: p in up <==> p in mirror || p in stale
    ensures forall p | Addressed(p) :: p in ResolvedKeys(w, up, Kept(top)) <==> p in mirror
  {
    forall p | Addressed(p) ensures p in ResolvedKeys(w, up, Kept(top)) <==> p in mirror {
      KindsAreDisjoint(p);
    }
  }

  lemma OnlyTopIsMaximal(w: World, up: Files, top: Path)
    requires RepoOk(w, up) && top in up && IsHead(top)
    requires forall h | h in up && IsHead(h) :: Reaches(Links(w), HeadOp(top), HeadOp(h))
    ensures MaximalHeads(w, up.Keys) == {top}
  {
    var m := MaximalAbove(w, up, top);
    if m != top {
      assert false;
    }
    forall h | h in MaximalHeads(w, up.Keys) ensures h == top {
      if h != top {
        assert false;
      }
    }
  }

  /** After normalize the mirror has one head, and nothing else is maximal. */
  lemma OneHeadLeft(w: World, up: Files, res: Resolution, mirror: Files) returns (top: Path)
    requires MirrorOk(w, up) && Normalizes(w, up, res, mirror)
    ensures MirrorOk(w, mirror) && top in mirror && IsHead(top)
    ensures forall h | h in mirror && IsHead(h) :: h == top
    ensures MaximalHeads(w, mirror.Keys) == {top}
  {
    NormalizeKeepsOk(w, up, res, mirror);
    ResolvedKeysAddressed(w, up.Keys, res);
    match res {
      case Kept(h) =>
        assert h in MaximalHeads(w, up.Keys);
        top := h;
      case Merged(f) =>
        top := HeadPath(f);
    }
    assert top in ResolvedKeys(w, up.Keys, res);
    forall h | h in mirror && IsHead(h) ensures h == top {
      SurvivingHead(w, up, res, h);
    }
    forall h | h in mirror && IsHead(h) ensures Reaches(Links(w), HeadOp(top), HeadOp(h)) {
      ReachesSelf(Links(w), HeadOp(top));
    }
    OnlyTopIsMaximal(w, mirror, top);
  }

  // ---- what is known after a round ----

  ghost predicate OneHead(w: World, mirror: Files, top: Path) {
    top in mirror && IsHead(top) && MaximalHeads(w, mirror.Keys) == {top} && forall h | h in mirror && IsHead(h) :: h == top
  }

  /** Everything known after one completed round: the server's files, one head, published, and a client
      in step with it. */
  ghost predicate Settled(w: World, files: Files, mirror: Files) {
    && MirrorOk(w, mirror) && RepoOk(w, files)
    && Shared(files) == Listed(mirror)
    && exists top :: OneHead(w, mirror, top)
  }

  lemma AdoptedOk(w: World, files: Files, mirror: Files)
    requires RepoOk(w, files) && MirrorOk(w, mirror)
    ensures RepoOk(w, Adopted(files, mirror)) && Shared(Adopted(files, mirror)) == Listed(mirror)
  {
    var mine := Adopted(files, mirror);
    AdoptedShared(files, mirror);
    ListedIsOk(w, mirror);
    forall p | p in mine ensures WellFormed(w, p, mine[p]) && Deps(w, p) <= mine.Keys {
      DepsDurable(w, p);
      if p in Listed(mirror) {
        assert WellFormed(w, p, mirror[p]);
        assert Deps(w, p) <= Listed(mirror).Keys;
      } else if Addressed(p) {
        ProtocolPathsTravel(p);
        assert false;
      } else {
        assert Deps(w, p) == {};
      }
    }
  }

  /** A round that goes through leaves client and server in step, whatever normalize does outside the
      operation store. */
  lemma RoundSettles(w: World, files: Files, mirror: Files, published: Option<Manifest>, res: Resolution, files': Files, mirror': Files)
    requires RepoOk(w, files) && Ready(files) && MirrorOk(w, mirror)
    requires forall p | p in VisibleManifest(w.decode, mirror, published).entries && Durable(p) :: p in mirror
    requires Normalizes(w, Uploaded(files, VisibleManifest(w.decode, mirror, published), mirror), res, mirror')
    requires files' == Adopted(files, mirror')
    ensures Settled(w, files', mirror')
    ensures var up := Uploaded(files, VisibleManifest(w.decode, mirror, published), mirror);
            MirrorOk(w, up) && HistoryGrows(w, up.Keys, mirror'.Keys)
  {
    var up := Uploaded(files, VisibleManifest(w.decode, mirror, published), mirror);
    UploadedOk(w, files, VisibleManifest(w.decode, mirror, published), mirror);
    var top := OneHeadLeft(w, up, res, mirror');
    assert OneHead(w, mirror', top);
    NormalizeKeepsHistory(w, up, res, mirror');
    AdoptedOk(w, files, mirror');
  }

  lemma CurrentManifestBacked(w: World, mirror: Files)
    ensures forall p | p in VisibleManifest(w.decode, mirror, Published(w, mirror)).entries && Durable(p) :: p in mirror
  {
  }

  /** Mirrors with the same addressed paths and untouched sides list the same files. */
  lemma SameListed(w: World, mirror: Files, mirror': Files)
    requires RepoOk(w, mirror) && (forall p | p in mirror' && Addressed(p) :: mirror'[p] == w.canon(p))
    requires forall p | Addressed(p) :: p in mirror' <==> p in mirror
    requires SidesUntouched(mirror, mirror')
    ensures Listed(mirror') == Listed(mirror)
  {
    forall p ensures (p in Listed(mirror') <==> p in Listed(mirror)) && (p in Listed(mirror') ==> Listed(mirror')[p] == Listed(mirror)[p]) {
      if p in mirror && Addressed(p) {
        assert WellFormed(w, p, mirror[p]);
      }
    }
  }

  lemma SameManifest(w: World, mirror: Files, mirror': Files)
    requires Listed(mirror') == Listed(mirror)
    ensures ManifestOf(w.decode, mirror') == ManifestOf(w.decode, mirror)
  {
    forall p | p in Ops(Listed(mirror).Keys) ensures p in mirror && p in mirror' && mirror[p] == mirror'[p] {
      assert Listed(mirror)[p] == Listed(mirror')[p];
    }
    ApplyOrderAgrees(mirror, mirror', w.decode, Listed(mirror).Keys);
    forall p | p in Listed(mirror) ensures mirror[p] == mirror'[p] {
      assert Listed(mirror)[p] == Listed(mirror')[p];
    }
  }

  /** On a well-formed repository and a closed mirror nothing but the scan can stop a round in which jj
      normalizes: it succeeds exactly if the scan passes before git, after git push and after git fetch. */
  lemma RoundSucceedsByScans(w: World, normalize: Files -> Option<Files>, git: GitTransport,
                             files: Files, mirror: Files, published: Option<Manifest>, res: Resolution)
    requires RepoOk(w, git.push(files)) && PlainNames(git.push(files)) && MirrorOk(w, mirror)
    requires forall p | p in VisibleManifest(w.decode, mirror, published).entries && Durable(p) :: p in mirror
    requires var up := Uploaded(git.push(files), VisibleManifest(w.decode, mirror, published), mirror);
             normalize(up).Some? && Normalizes(w, up, res, normalize(up).value)
    ensures RoundSucceeds(w.decode, normalize, git, files, mirror, published) <==>
              Scans(files) && Scans(git.push(files)) && Scans(git.fetch(git.push(files)))
  {
    if Scans(git.push(files)) {
      OnlyScansMatter(w, normalize, git, files, mirror, published, res);
    }
  }

  lemma OnlyScansMatter(w: World, normalize: Files -> Option<Files>, git: GitTransport,
                        files: Files, mirror: Files, published: Option<Manifest>, res: Resolution)
    requires RepoOk(w, git.push(files)) && Ready(git.push(files)) && MirrorOk(w, mirror)
    requires forall p | p in VisibleManifest(w.decode, mirror, published).entries && Durable(p) :: p in mirror
    requires var up := Uploaded(git.push(files), VisibleManifest(w.decode, mirror, published), mirror);
             normalize(up).Some? && Normalizes(w, up, res, normalize(up).value)
    ensures ManifestAvailable(w.decode, mirror, published)
    ensures Pushable(w.decode, git.push(files), VisibleManifest(w.decode, mirror, published))
    ensures var norm := normalize(Uploaded(git.push(files), VisibleManifest(w.decode, mirror, published), mirror)).value;
            Buildable(w.decode, norm) && NoneUnderDojjo(Listed(norm))
  {
    var pushed, man := git.push(files), VisibleManifest(w.decode, mirror, published);
    ManifestIsThere(w, mirror, published);
    UploadPlanElems(w, pushed, man);
    NormalizedIsBuildable(w, pushed, man, mirror, res, normalize(Uploaded(pushed, man, mirror)).value);
  }

  lemma ManifestIsThere(w: World, mirror: Files, published: Option<Manifest>)
    requires MirrorOk(w, mirror)
    ensures ManifestAvailable(w.decode, mirror, published)
  {
    LiveManifestOk(w, mirror);
  }

  lemma NormalizedIsBuildable(w: World, files: Files, man: Manifest, mirror: Files, res: Resolution, norm: Files)
    requires RepoOk(w, files) && Ready(files) && MirrorOk(w, mirror)
    requires forall p | p in man.entries && Durable(p) :: p in mirror
    requires Normalizes(w, Uploaded(files, man, mirror), res, norm)
    ensures Buildable(w.decode, norm) && NoneUnderDojjo(Listed(norm))
  {
    UploadedOk(w, files, man, mirror);
    NormalizeKeepsOk(w, Uploaded(files, man, mirror), res, norm);
    LiveManifestOk(w, norm);
  }

  // ---- clients that have nothing new to say ----

  /** The server knows this file of a client: a head whose history it has, a marker whose table it has
      merged, or the same file. */
  ghost predicate Known(w: World, files: Files, mirror: Files, p: Path)
    requires p in files
  {
    if IsHead(p) then InHistory(w, mirror.Keys, HeadOp(p))
    else if IsMarker(p) then Absorbed(w, mirror, p)
    else p in mirror && mirror[p] == files[p]
  }

  ghost predicate Behind(w: World, files: Files, mirror: Files) {
    forall p | p in Shared(files) :: Known(w, files, mirror, p)
  }

  lemma SharedMeansBehind(w: World, files: Files, mirror: Files)
    requires Shared(files) == Listed(mirror)
    ensures Behind(w, files, mirror)
  {
    forall p | p in Shared(files) ensures Known(w, files, mirror, p) {
      assert p in Listed(mirror) && Shared(files)[p] == Listed(mirror)[p];
      if IsHead(p) {
        HeadInHistory(w, mirror.Keys, p);
      }
    }
  }

  lemma PushedIsStale(w: World, files: Files, mirror: Files, p: Path)
    requires Behind(w, files, mirror) && p in PushSet(files, ManifestOf(w.decode, mirror))
    ensures (IsHead(p) && InHistory(w, mirror.Keys, HeadOp(p))) || (IsMarker(p) && Absorbed(w, mirror, p))
  {
    assert p in Shared(files) && Known(w, files, mirror, p);
    assert p in Listed(mirror) ==> p in ManifestOf(w.decode, mirror).entries;
  }

  /** The upload of such a client brings stale heads and stale markers at most. */
  lemma BehindUpload(w: World, files: Files, mirror: Files)
    requires Behind(w, files, mirror)
    ensures BringsNothing(w, mirror, Uploaded(files, ManifestOf(w.decode, mirror), mirror))
  {
    forall p | p in PushSet(files, ManifestOf(w.decode, mirror)) && IsSide(p) ensures IsMarker(p) && Absorbed(w, mirror, p) {
      PushedIsStale(w, files, mirror, p);
    }
  }

  lemma BehindHeads(w: World, files: Files, mirror: Files, stale: set<Path>)
    requires Behind(w, files, mirror)
    requires stale == set h | h in PushSet(files, ManifestOf(w.decode, mirror)) && IsHead(h)
    ensures forall h | h in stale :: InHistory(w, mirror.Keys, HeadOp(h))
    ensures forall p | Addressed(p) :: p in Uploaded(files, ManifestOf(w.decode, mirror), mirror) <==> p in mirror || p in stale
  {
    forall p | p in PushSet(files, ManifestOf(w.decode, mirror)) && Addressed(p) ensures IsHead(p) && InHistory(w, mirror.Keys, HeadOp(p)) {
      PushedIsStale(w, files, mirror, p);
      if IsMarker(p) {
        MarkersTravel(p);
      }
    }
  }

  /** The round of a client with nothing new changes no listed file of the server, and brings the client
      in step. */
  lemma BehindRound(w: World, files: Files, mirror: Files, top: Path, res: Resolution, files': Files, mirror': Files)
    requires RepoOk(w, files) && MirrorOk(w, mirror) && OneHead(w, mirror, top) && Behind(w, files, mirror)
    requires Round(w, files, mirror, Published(w, mirror), res, files', mirror')
    ensures Listed(mirror') == Listed(mirror) && ManifestOf(w.decode, mirror') == ManifestOf(w.decode, mirror)
  {
    var stale := set h | h in PushSet(files, ManifestOf(w.decode, mirror)) && IsHead(h);
    CurrentManifestBacked(w, mirror);
    UploadedOk(w, files, ManifestOf(w.decode, mirror), mirror);
    BehindUpload(w, files, mirror);
    BehindHeads(w, files, mirror, stale);
    StaleHeadRemovedAgain(w, mirror, stale, Uploaded(files, ManifestOf(w.decode, mirror), mirror), res, mirror', top);
    SameListed(w, mirror, mirror');
    SameManifest(w, mirror, mirror');
  }

  /** A client in step with the server has a quiet round: nothing to upload, nothing to pull, nothing to
      prune, and the manifest is published again unchanged. */
  lemma QuietRound(w: World, files: Files, mirror: Files, res: Resolution, files': Files, mirror': Files)
    requires Settled(w, files, mirror)
    requires Round(w, files, mirror, Published(w, mirror), res, files', mirror')
    ensures PushSet(files, ManifestOf(w.decode, mirror)) == {}
    ensures Listed(mirror') == Listed(mirror) && ManifestOf(w.decode, mirror') == ManifestOf(w.decode, mirror)
    ensures PullSet(files, ManifestOf(w.decode, mirror')) == {} && PruneSet(files, ManifestOf(w.decode, mirror')) == {}
    ensures files' == files
  {
    var top :| OneHead(w, mirror, top);
    NothingToPush(files, mirror, w.decode);
    SharedMeansBehind(w, files, mirror);
    BehindRound(w, files, mirror, top, res, files', mirror');
    ShareNothingToMove(files, mirror', w.decode);
    AdoptsOwn(files, mirror');
  }

  lemma NothingToPush(files: Files, mirror: Files, decode: Decoder)
    requires Shared(files) == Listed(mirror)
    ensures PushSet(files, ManifestOf(decode, mirror)) == {}
    ensures Uploaded(files, ManifestOf(decode, mirror), mirror) == mirror
  {
    forall p | p in LocalIndex(files) ensures p in Listed(mirror) && files[p] == mirror[p] {
      assert p in Shared(files) && Shared(files)[p] == Listed(mirror)[p];
    }
    assert PushSet(files, ManifestOf(decode, mirror)) == {};
  }

  lemma ShareNothingToMove(files: Files, mirror: Files, decode: Decoder)
    requires Shared(files) == Listed(mirror)
    ensures PullSet(files, ManifestOf(decode, mirror)) == {} && PruneSet(files, ManifestOf(decode, mirror)) == {}
  {
    forall p | p in Listed(mirror) ensures p in LocalIndex(files) && files[p] == mirror[p] {
      assert Shared(files)[p] == Listed(mirror)[p];
    }
    forall p | p in LocalIndex(files) ensures p in Listed(mirror) {
      assert p in Shared(files);
    }
  }

  lemma AdoptsOwn(files: Files, mirror: Files)
    requires Shared(files) == Listed(mirror)
    ensures Adopted(files, mirror) == files
  {
    forall p ensures (p in Adopted(files, mirror) <==> p in files) && (p in files ==> Adopted(files, mirror)[p] == files[p]) {
      assert p in Shared(files) <==> p in Listed(mirror);
      if p in Listed(mirror) {
        assert Shared(files)[p] == Listed(mirror)[p];
      }
    }
  }

  // ---- conflicts ----

  /** A client's upload replaces no row of the manifest: the guard that finds a changed hash never fires. */
  ghost predicate NoConflict(filesB: Files, man: Manifest) {
    forall p | p in LocalIndex(filesB) && p in man.entries :: LocalIndex(filesB)[p].sha256 == man.entries[p].sha256
  }

  /** Without a conflict, a round keeps every listed file of the mirror with its content, save heads and
      markers that normalize resolved, and keeps what these stood for. */
  lemma KeepsUnlessConflict(w: World, b0: Files, m1: Files, r2: Resolution, b1: Files, m2: Files)
    requires RepoOk(w, b0) && MirrorOk(w, m1)
    requires Round(w, b0, m1, Published(w, m1), r2, b1, m2)
    requires NoConflict(b0, ManifestOf(w.decode, m1))
    ensures forall p | p in Listed(m1) && !IsHead(p) && !IsMarker(p) :: p in m2 && m2[p] == m1[p]
    ensures forall p | p in m1 && IsMarker(p) :: Absorbed(w, m2, p)
    ensures HistoryGrows(w, m1.Keys, m2.Keys)
  {
    var up := Uploaded(b0, ManifestOf(w.decode, m1), m1);
    CurrentManifestBacked(w, m1);
    RoundSettles(w, b0, m1, Published(w, m1), r2, b1, m2);
    HistoryMonotone(w, m1.Keys, up.Keys);
    forall p | p in Listed(m1) && !IsHead(p) && !IsMarker(p) ensures p in m2 && m2[p] == m1[p] {
      if Addressed(p) {
        KeepsDurable(w, m1, up, r2, m2, p);
      } else {
        UploadKeepsSide(w, b0, m1, p);
      }
    }
  }

  lemma KeepsDurable(w: World, m1: Files, up: Files, res: Resolution, m2: Files, p: Path)
    requires RepoOk(w, m1) && RepoOk(w, m2) && m1.Keys <= up.Keys && Normalizes(w, up, res, m2)
    requires p in m1 && Durable(p)
    ensures p in m2 && m2[p] == m1[p]
  {
    ResolvedKeysAddressed(w, up.Keys, res);
    assert WellFormed(w, p, m1[p]);
    assert WellFormed(w, p, m2[p]);
  }

  lemma UploadKeepsSide(w: World, b0: Files, m1: Files, p: Path)
    requires p in Listed(m1) && NoConflict(b0, ManifestOf(w.decode, m1))
    ensures var up := Uploaded(b0, ManifestOf(w.decode, m1), m1); p in up && up[p] == m1[p]
  {
    assert p in ManifestOf(w.decode, m1).entries;
  }

  /** A client with nothing new stays so while another one has a round without a conflict. */
  lemma StaysBehind(w: World, files: Files, b0: Files, m1: Files, r2: Resolution, b1: Files, m2: Files)
    requires RepoOk(w, b0) && MirrorOk(w, m1) && Behind(w, files, m1)
    requires Round(w, b0, m1, Published(w, m1), r2, b1, m2)
    requires NoConflict(b0, ManifestOf(w.decode, m1))
    ensures Behind(w, files, m2)
  {
    KeepsUnlessConflict(w, b0, m1, r2, b1, m2);
    forall p | p in Shared(files) ensures Known(w, files, m2, p) {
      assert Known(w, files, m1, p);
      if IsMarker(p) && !IsHead(p) {
        var m :| m in m1 && IsMarker(m) && w.rows(p) <= w.rows(m);
        var m' :| m' in m2 && IsMarker(m') && w.rows(m) <= w.rows(m');
        assert w.rows(p) <= w.rows(m');
      }
    }
  }

  lemma SameListedStaysBehind(w: World, files: Files, mirror: Files, mirror': Files)
    requires Behind(w, files, mirror) && Listed(mirror') == Listed(mirror)
    ensures Behind(w, files, mirror')
  {
    forall p | p in mirror && (Addressed(p) || IsMarker(p)) ensures p in Listed(mirror) && p in mirror' {
      if IsMarker(p) {
        MarkersTravel(p);
      } else {
        ProtocolPathsTravel(p);
      }
    }
    HistoryMonotone(w, mirror.Keys, mirror'.Keys);
    forall p | p in Shared(files) ensures Known(w, files, mirror', p) {
      assert Known(w, files, mirror, p);
      if !IsHead(p) && !IsMarker(p) {
        assert p in Listed(mirror) && Listed(mirror)[p] == Listed(mirror')[p];
      }
    }
  }

  // ---- when they never agree ----

  ghost predicate InStep(a: Files, b: Files, mirror: Files) {
    Shared(a) == Listed(mirror) && Shared(b) == Listed(mirror)
  }

  const INDEX_FILE: Path := "index/type"

  /** The id of the example's view. */
  const EXAMPLE_VIEW: Bytes := seq(OPERATION_ID_BYTES, i => 1)

  /** One operation without parents, its view, its head marker, and an index file. */
  ghost function ExampleTree(w: World, op: Path, content: Bytes): Files
    requires IsOp(op)
  {
    var view := ViewPath(EXAMPLE_VIEW);
    map[op := w.canon(op), HeadPath(op) := w.canon(HeadPath(op)), view := w.canon(view), INDEX_FILE := content]
  }

  ghost predicate ExampleWorld(w: World, op: Path) {
    && IsOp(op) && HexIdValid(op[|OP_PREFIX|..])
    && w.decode(w.canon(op)) == Some(Operation([], EXAMPLE_VIEW))
  }

  /** Two concrete clients that differ in one index file: three rounds run, and they do not converge. */
  lemma ConvergenceCanFail(w: World, op: Path, x: Bytes, y: Bytes)
    requires ExampleWorld(w, op) && x != y
    ensures var a0, b0, kept := ExampleTree(w, op, x), ExampleTree(w, op, y), Kept(HeadPath(op));
            && RepoOk(w, a0) && RepoOk(w, b0)
            && Round(w, a0, map[], None, kept, a0, a0)
            && Round(w, b0, a0, Published(w, a0), kept, b0, b0)
            && Round(w, a0, b0, Published(w, b0), kept, a0, a0)
            && !InStep(a0, b0, a0)
  {
    ExampleTreeOk(w, op, x);
    ExampleTreeOk(w, op, y);
    ExampleRound(w, op, x, map[], None);
    ExampleRound(w, op, y, ExampleTree(w, op, x), Published(w, ExampleTree(w, op, x)));
    ExampleRound(w, op, x, ExampleTree(w, op, y), Published(w, ExampleTree(w, op, y)));
    ExampleDiffers(w, op, x, y);
  }

  /** Such a world exists: the operation file holds just the view id, as field 1 of the message. */
  lemma ExampleWorldExists() returns (w: World, op: Path)
    ensures ExampleWorld(w, op)
  {
    op := ExampleOp();
    var message: Bytes := [10, 64] + EXAMPLE_VIEW;
    w := World(content => if content == message then Some(Operation([], EXAMPLE_VIEW)) else None,
               p => if p == op then message else [],
               p => 0,
               p => {});
  }

  lemma ExampleOp() returns (op: Path)
    ensures IsOp(op) && HexIdValid(op[|OP_PREFIX|..])
  {
    var name := seq(OPERATION_ID_HEX_CHARS, i => 'a');
    op := OP_PREFIX + name;
    assert op[|OP_PREFIX|..] == name;
  }

  lemma ExampleDiffers(w: World, op: Path, x: Bytes, y: Bytes)
    requires IsOp(op) && x != y
    ensures !InStep(ExampleTree(w, op, x), ExampleTree(w, op, y), ExampleTree(w, op, x))
  {
    ExampleKinds(op, INDEX_FILE);
    assert Shared(ExampleTree(w, op, y))[INDEX_FILE] == y;
    assert Listed(ExampleTree(w, op, x))[INDEX_FILE] == x;
  }

  lemma ExampleKinds(op: Path, p: Path)
    requires IsOp(op) && p in {op, HeadPath(op), ViewPath(EXAMPLE_VIEW), INDEX_FILE}
    ensures !HostLocal(p) && !IsMarker(p)
    ensures IsOp(p) <==> p == op
    ensures IsHead(p) <==> p == HeadPath(op)
    ensures Addressed(p) <==> p != INDEX_FILE
    ensures INDEX_FILE !in {op, HeadPath(op), ViewPath(EXAMPLE_VIEW)}
  {
    assert MARKER_PREFIX[0] == 's' && INDEX_FILE[0] == 'i' && op[0] == 'o' && HeadPath(op)[0] == 'o' && ViewPath(EXAMPLE_VIEW)[0] == 'o';
    if p != INDEX_FILE {
      KindsAreDisjoint(op);
      KindsAreDisjoint(HeadPath(op));
      KindsAreDisjoint(ViewPath(EXAMPLE_VIEW));
      ProtocolPathsTravel(p);
    }
  }

  lemma ExampleEntries(w: World, op: Path, content: Bytes)
    requires IsOp(op)
    ensures ExampleTree(w, op, content).Keys == {op, HeadPath(op), ViewPath(EXAMPLE_VIEW), INDEX_FILE}
    ensures forall p | p in ExampleTree(w, op, content) :: ExampleTree(w, op, content)[p] == if p == INDEX_FILE then content else w.canon(p)
  {
    ExampleKinds(op, INDEX_FILE);
  }

  lemma ExampleOpDeps(w: World, op: Path)
    requires ExampleWorld(w, op)
    ensures WellFormed(w, op, w.canon(op)) && Deps(w, op) == {ViewPath(EXAMPLE_VIEW)}
  {
    assert Parse(w.decode, w.canon(op)) == Some(Operation([], EXAMPLE_VIEW));
    assert ParentsOf(Operation([], EXAMPLE_VIEW)) == {};
    ExampleKinds(op, op);
  }

  lemma ExampleFileOk(w: World, op: Path, content: Bytes, p: Path)
    requires ExampleWorld(w, op) && p in ExampleTree(w, op, content)
    ensures WellFormed(w, p, ExampleTree(w, op, content)[p])
    ensures Deps(w, p) <= ExampleTree(w, op, content).Keys
    ensures !HostLocal(p)
  {
    ExampleEntries(w, op, content);
    ExampleKinds(op, p);
    ExampleOpDeps(w, op);
    if p == INDEX_FILE {
      assert p[0] == 'i';
    }
  }

  lemma HexIsSafe(hex: string)
    requires |hex| == OPERATION_ID_HEX_CHARS && forall c | c in hex :: IsHexDigit(c)
    ensures SafeSegment(hex)
  {
  }

  lemma SafeStoreFile(store: string, dir: string, hex: string)
    requires SafeSegment(store) && SafeSegment(dir) && |store| + |dir| < 100
    requires |hex| == OPERATION_ID_HEX_CHARS && forall c | c in hex :: IsHexDigit(c)
    ensures SafePath(store + "/" + dir + "/" + hex)
  {
    HexIsSafe(hex);
    SlashOfThree(store, dir, hex);
    SafeJoin([store, dir, hex]);
  }

  lemma SafeNames()
    ensures SafeSegment("op_store") && SafeSegment("operations") && SafeSegment("views")
    ensures SafeSegment("op_heads") && SafeSegment("heads")
    ensures SafeSegment("index") && SafeSegment("type")
  {
  }

  lemma OpAndHeadSafe(op: Path)
    requires IsOp(op) && HexIdValid(op[|OP_PREFIX|..])
    ensures SafePath(op) && SafePath(HeadPath(op))
  {
    var hex := op[|OP_PREFIX|..];
    SafeNames();
    SafeStoreFile("op_store", "operations", hex);
    SafeStoreFile("op_heads", "heads", hex);
    assert op == "op_store" + "/" + "operations" + "/" + hex;
    assert HeadPath(op) == "op_heads" + "/" + "heads" + "/" + hex;
  }

  lemma ViewSafe(id: Bytes)
    requires |id| == OPERATION_ID_BYTES
    ensures SafePath(ViewPath(id))
  {
    SafeNames();
    SafeStoreFile("op_store", "views", HexEncode(id));
    assert ViewPath(id) == "op_store" + "/" + "views" + "/" + HexEncode(id);
  }

  lemma IndexFileSafe()
    ensures SafePath(INDEX_FILE)
  {
    SafeNames();
    SlashOfTwo("index", "type");
    SafeJoin(["index", "type"]);
    assert INDEX_FILE == "index" + "/" + "type";
  }

  /** Every file of the example can exist: its path is one that scans list and uploads accept. */
  lemma ExampleFileSafe(w: World, op: Path, content: Bytes, p: Path)
    requires ExampleWorld(w, op) && p in ExampleTree(w, op, content)
    ensures SafePath(p)
  {
    ExampleEntries(w, op, content);
    OpAndHeadSafe(op);
    ViewSafe(EXAMPLE_VIEW);
    IndexFileSafe();
  }

  lemma ExampleReady(w: World, op: Path, content: Bytes)
    requires ExampleWorld(w, op)
    ensures Ready(ExampleTree(w, op, content)) && ServerScans(ExampleTree(w, op, content))
  {
    var t := ExampleTree(w, op, content);
    forall p | p in t ensures SafePath(p) && Acceptable(p) && Trim(p) == p {
      ExampleFileSafe(w, op, content, p);
      StoredAsItself(p);
    }
  }

  lemma ExampleRepoOk(w: World, op: Path, content: Bytes)
    requires ExampleWorld(w, op)
    ensures RepoOk(w, ExampleTree(w, op, content)) && NoneUnderDojjo(ExampleTree(w, op, content))
  {
    var t := ExampleTree(w, op, content);
    forall p | p in t ensures WellFormed(w, p, t[p]) && Deps(w, p) <= t.Keys && !UnderDojjo(p) {
      ExampleFileOk(w, op, content, p);
    }
  }

  lemma ExampleHeads(w: World, op: Path, content: Bytes)
    requires IsOp(op)
    ensures var t := ExampleTree(w, op, content); HeadPath(op) in t && forall h | h in t && IsHead(h) :: h == HeadPath(op)
  {
    ExampleEntries(w, op, content);
    forall h | h in ExampleTree(w, op, content) && IsHead(h) ensures h == HeadPath(op) {
      ExampleKinds(op, h);
    }
  }

  lemma SingleHeadIsMaximal(w: World, keys: set<Path>, top: Path)
    requires top in keys && IsHead(top) && forall h | h in keys && IsHead(h) :: h == top
    ensures MaximalHeads(w, keys) == {top}
  {
  }

  lemma ExampleTreeOk(w: World, op: Path, content: Bytes)
    requires ExampleWorld(w, op)
    ensures MirrorOk(w, ExampleTree(w, op, content))
    ensures MaximalHeads(w, ExampleTree(w, op, content).Keys) == {HeadPath(op)}
    ensures forall h | h in ExampleTree(w, op, content) && IsHead(h) :: h == HeadPath(op)
  {
    var t := ExampleTree(w, op, content);
    ExampleReady(w, op, content);
    ExampleRepoOk(w, op, content);
    ExampleHeads(w, op, content);
    SingleHeadIsMaximal(w, t.Keys, HeadPath(op));
  }

  lemma AlreadyNormal(w: World, t: Files, top: Path)
    requires MirrorOk(w, t) && MaximalHeads(w, t.Keys) == {top}
    requires forall h | h in t && IsHead(h) :: h == top
    ensures Normalizes(w, t, Kept(top), t)
  {
    assert top in MaximalHeads(w, t.Keys);
    forall p | Addressed(p) ensures p in t <==> p in ResolvedKeys(w, t.Keys, Kept(top)) {
      KindsAreDisjoint(p);
    }
    forall p | p in t && Addressed(p) ensures t[p] == w.canon(p) {
      assert WellFormed(w, p, t[p]);
    }
  }

  lemma AdoptsItself(t: Files)
    requires forall p | p in t :: !HostLocal(p)
    ensures Adopted(t, t) == t
  {
    assert forall p | p in t :: !MachineLocal(p);
  }

  lemma NormalRound(w: World, t: Files, mirror: Files, published: Option<Manifest>, top: Path)
    requires Normalizes(w, t, Kept(top), t) && Ready(t) && forall p | p in t :: !HostLocal(p) && !IsMarker(p)
    requires Uploaded(t, VisibleManifest(w.decode, mirror, published), mirror) == t
    ensures Round(w, t, mirror, published, Kept(top), t, t)
  {
    AdoptsItself(t);
    assert forall p | p in mirror :: p in Uploaded(t, VisibleManifest(w.decode, mirror, published), mirror);
    NothingToNormalize(w, t, mirror);
  }

  lemma NothingToNormalize(w: World, t: Files, mirror: Files)
    requires mirror.Keys <= t.Keys && forall p | p in t :: !IsMarker(p)
    ensures SidesKept(w, t, t) && (BringsNothing(w, mirror, t) ==> SidesUntouched(mirror, t))
  {
  }

  lemma ExampleShared(w: World, op: Path, content: Bytes)
    requires IsOp(op)
    ensures forall p | p in ExampleTree(w, op, content) :: !HostLocal(p) && !IsMarker(p)
  {
    ExampleEntries(w, op, content);
    forall p | p in ExampleTree(w, op, content) ensures !HostLocal(p) && !IsMarker(p) {
      ExampleKinds(op, p);
    }
  }

  lemma ExampleRound(w: World, op: Path, content: Bytes, mirror: Files, published: Option<Manifest>)
    requires ExampleWorld(w, op)
    requires || (mirror == map[] && published == None)
             || (exists other :: mirror == ExampleTree(w, op, other) && published == Published(w, mirror))
    ensures var t := ExampleTree(w, op, content); Round(w, t, mirror, published, Kept(HeadPath(op)), t, t)
  {
    var t := ExampleTree(w, op, content);
    ExampleTreeOk(w, op, content);
    AlreadyNormal(w, t, HeadPath(op));
    ExampleUpload(w, op, content, mirror, published);
    ExampleReady(w, op, content);
    ExampleShared(w, op, content);
    NormalRound(w, t, mirror, published, HeadPath(op));
  }

  lemma ExampleUpload(w: World, op: Path, content: Bytes, mirror: Files, published: Option<Manifest>)
    requires IsOp(op)
    requires || (mirror == map[] && published == None)
             || (exists other :: mirror == ExampleTree(w, op, other) && published == Published(w, mirror))
    ensures var t := ExampleTree(w, op, content); Uploaded(t, VisibleManifest(w.decode, mirror, published), mirror) == t
  {
    var t := ExampleTree(w, op, content);
    assert VisibleManifest(w.decode, mirror, published) == ManifestOf(w.decode, mirror);
    ExampleEntries(w, op, content);
    forall p | p in t ensures !HostLocal(p) {
      ExampleKinds(op, p);
    }
    if mirror != map[] {
      var other :| mirror == ExampleTree(w, op, other);
      ExampleEntries(w, op, other);
    }
    FullUpload(w, t, mirror);
  }

  lemma NotPushedMeansSame(w: World, t: Files, mirror: Files, p: Path)
    requires p in t && !HostLocal(p) && p !in PushSet(t, ManifestOf(w.decode, mirror))
    ensures p in mirror && mirror[p] == t[p]
  {
    var entries := ManifestOf(w.decode, mirror).entries;
    assert entries == map q | q in Listed(mirror) :: EntryOf(mirror[q]);
    assert p in entries && entries[p].sha256 == LocalIndex(t)[p].sha256;
  }

  /** A client whose tree covers the mirror leaves its own tree there. */
  lemma FullUpload(w: World, t: Files, mirror: Files)
    requires mirror.Keys <= t.Keys && forall p | p in t :: !HostLocal(p)
    ensures Uploaded(t, ManifestOf(w.decode, mirror), mirror) == t
  {
    var man := ManifestOf(w.decode, mirror);
    var push := PushSet(t, man);
    forall p | p in t && p !in push ensures p in mirror && mirror[p] == t[p] {
      NotPushedMeansSame(w, t, mirror, p);
    }
    assert push <= t.Keys;
    assert (mirror + map p | p in push :: t[p]) == t;
  }
}
