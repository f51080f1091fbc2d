/** The two scans and the sync plan speak of the same files: slash paths on one side, walks over a
    directory tree on the other. */
module ScanIndex {
  import opened Paths
  import opened MirrorPath
  import opened MirrorExclude
  import opened SyncPlan
  import opened TreeWalk

  /** The slash paths of the files that `keep` accepts. */
  ghost function PathsUnder(keep: Rel -> bool, entries: seq<DirEntry>): set<Path> {
    set f | f in FilesUnder(keep, [], entries) :: Slash(f)
  }

  /** A file that no rule excludes by its own path, below a directory with the path of an excluded file. */
  predicate Undercut(f: Rel) {
    !MachineLocal(Slash(f)) && exists k | 1 <= k < |f| :: ExactlyExcluded(Slash(f[..k]))
  }

  lemma DojjoByFirstName(f: Rel)
    requires f != [] && forall s | s in f :: IsName(s)
    ensures f[0] == ".dojjo" <==> UnderDojjo(Slash(f))
  {
    DojjoBySegments(f);
  }

  lemma ClientKeepsByPath(f: Rel)
    requires f != [] && forall s | s in f :: IsName(s)
    ensures ClientKeeps(f) <==> !HostLocal(Slash(f))
  {
    DojjoByFirstName(f);
  }

  lemma ServerKeepsByPath(f: Rel)
    requires f != []
    ensures ServerKeeps(f) <==> !MachineLocal(Slash(f)) && !Undercut(f)
  {
    assert f[..|f|] == f;
    if !MachineLocal(Slash(f)) && !ServerKeeps(f) {
      NotKeptIsUndercut(f);
    }
    if Undercut(f) {
      var k :| 1 <= k < |f| && ExactlyExcluded(Slash(f[..k]));
      assert MachineLocal(Slash(f[..k]));
    }
  }

  lemma NotKeptIsUndercut(f: Rel)
    requires f != [] && !MachineLocal(Slash(f)) && !ServerKeeps(f)
    ensures Undercut(f)
  {
    var k :| 1 <= k <= |f| && MachineLocal(Slash(f[..k]));
    assert f[..|f|] == f;
    SlashPrefix(f, k);
    if !ExactlyExcluded(Slash(f[..k])) {
      SubtreeExcluded(Slash(f[..k]), Slash(f));
    }
  }

  /** The files of a tree have proper names. */
  lemma FileNames(entries: seq<DirEntry>, f: Rel)
    requires NamesOk(entries) && f in FilesUnder(Any, [], entries)
    ensures f != [] && forall s | s in f :: IsName(s)
  {
    FilesBelow(Any, [], entries, f);
    FilesNamed(Any, [], entries, f);
  }

  /** On the client the index that the plan works with is just what the scan lists. */
  lemma ClientScanIsIndex(entries: seq<DirEntry>, files: Files)
    requires NamesOk(entries) && files.Keys == PathsUnder(Any, entries)
    ensures LocalIndex(files).Keys == PathsUnder(ClientKeeps, entries)
  {
    forall p ensures p in LocalIndex(files) <==> p in PathsUnder(ClientKeeps, entries) {
      if p in LocalIndex(files) {
        var f :| f in FilesUnder(Any, [], entries) && Slash(f) == p;
        FileNames(entries, f);
        ClientKeepsByPath(f);
        KeptIffKeep(ClientKeeps, [], entries, f);
      }
      if p in PathsUnder(ClientKeeps, entries) {
        var f :| f in FilesUnder(ClientKeeps, [], entries) && Slash(f) == p;
        KeptIffKeep(ClientKeeps, [], entries, f);
        FileNames(entries, f);
        ClientKeepsByPath(f);
      }
    }
  }

  /** No special file in the way of the client's walk. */
  ghost predicate NoSpecials(rel: Rel, entries: seq<DirEntry>)
    decreases entries
  {
    entries == [] || (NotSpecial(rel, entries[0]) && NoSpecials(rel, entries[1..]))
  }

  ghost predicate NotSpecial(rel: Rel, e: DirEntry)
    decreases e
  {
    || (rel == [] && e.name == ".dojjo")
    || (!e.node.Special? && (e.node.Dir? ==> NoSpecials(rel + [e.name], e.node.entries)))
  }

  predicate NameAccepted(f: Rel) {
    (f != [] && f[0] == ".dojjo") || Acceptable(Slash(f))
  }

  ghost predicate NamesAccepted(rel: Rel, entries: seq<DirEntry>) {
    forall f: Rel | f in FilesUnder(Any, rel, entries) :: NameAccepted(f)
  }

  ghost predicate EntryAccepted(rel: Rel, e: DirEntry) {
    forall f: Rel | f in FilesOf(Any, rel + [e.name], e.node) :: NameAccepted(f)
  }

  lemma NamesAcceptedNext(rel: Rel, entries: seq<DirEntry>)
    requires entries != []
    ensures NamesAccepted(rel, entries) <==> EntryAccepted(rel, entries[0]) && NamesAccepted(rel, entries[1..])
  {
    var e := entries[0];
    assert FilesUnder(Any, rel, entries) == FilesOf(Any, rel + [e.name], e.node) + FilesUnder(Any, rel, entries[1..]);
    forall f: Rel | f in FilesOf(Any, rel + [e.name], e.node) || f in FilesUnder(Any, rel, entries[1..])
      ensures f in FilesUnder(Any, rel, entries)
    {
    }
  }

  /** The client's walk passes exactly if there is no special file and every file outside a top-level
      `.dojjo` has an acceptable name. */
  lemma {:induction false} ClientOkByFiles(rel: Rel, entries: seq<DirEntry>)
    requires Scannable(rel)
    ensures ClientOk(rel, entries) <==> NoSpecials(rel, entries) && NamesAccepted(rel, entries)
    decreases entries
  {
    if entries != [] {
      ClientOkByFiles(rel, entries[1..]);
      EntryOkByFiles(rel, entries[0]);
      NamesAcceptedNext(rel, entries);
    }
  }

  lemma {:induction false} EntryOkByFiles(rel: Rel, e: DirEntry)
    requires Scannable(rel)
    ensures ClientEntryOk(rel, e) <==> NotSpecial(rel, e) && EntryAccepted(rel, e)
    decreases e
  {
    var child := rel + [e.name];
    if rel == [] && e.name == ".dojjo" {
      forall f: Rel | f in FilesOf(Any, child, e.node) ensures NameAccepted(f) {
        FilesOfBelow(Any, child, e.node, f);
        assert f[0] == child[0];
      }
    } else if e.node.Dir? {
      assert Scannable(child);
      ClientOkByFiles(child, e.node.entries);
      assert FilesOf(Any, child, e.node) == FilesUnder(Any, child, e.node.entries);
    } else if e.node.File? {
      assert child in FilesOf(Any, child, e.node);
    }
  }

  /** The plan's test of names is the test that the walk makes: apart from special files and the limit on
      entries, the client's scan fails exactly when `Scans` is false. */
  lemma ClientScanPasses(entries: seq<DirEntry>, files: Files)
    requires NamesOk(entries) && files.Keys == PathsUnder(Any, entries)
    ensures ClientOk([], entries) <==> NoSpecials([], entries) && Scans(files)
  {
    ClientOkByFiles([], entries);
    forall f: Rel | f in FilesUnder(Any, [], entries) ensures NameAccepted(f) <==> UnderDojjo(Slash(f)) || Acceptable(Slash(f)) {
      FileNames(entries, f);
      DojjoByFirstName(f);
    }
    forall f: Rel | f in FilesUnder(Any, [], entries) ensures Slash(f) in files {
    }
  }

  lemma {:induction false} ServerFilesSafe(rel: Rel, entries: seq<DirEntry>, f: Rel)
    requires ServerOk(rel, entries) && f in FilesUnder(ServerKeeps, rel, entries)
    ensures SafeRel(f)
    decreases entries
  {
    var e := entries[0];
    var child := rel + [e.name];
    if f in FilesUnder(ServerKeeps, rel, entries[1..]) {
      ServerFilesSafe(rel, entries[1..], f);
    } else if e.node.Dir? {
      if MachineLocal(Slash(child)) {
        ServerPrunes(child, e.node.entries);
      } else {
        ServerFilesSafe(child, e.node.entries, f);
      }
    }
  }

  /** Where the server's walk passes and no file is undercut, the listed files have safe paths. */
  lemma ServerScanPasses(entries: seq<DirEntry>, mirror: Files)
    requires NamesOk(entries) && mirror.Keys == PathsUnder(Any, entries)
    requires ServerOk([], entries) && forall f: Rel | f in FilesUnder(Any, [], entries) :: !Undercut(f)
    ensures ServerScans(mirror)
  {
    ServerScanIsList(entries, mirror);
    forall p | p in Listed(mirror) ensures SafePath(p) {
      var f :| f in FilesUnder(ServerKeeps, [], entries) && Slash(f) == p;
      ServerFilesSafe([], entries, f);
      SafeJoin(f);
    }
  }

  lemma ServerScanWithin(entries: seq<DirEntry>, mirror: Files)
    requires NamesOk(entries) && mirror.Keys == PathsUnder(Any, entries)
    ensures PathsUnder(ServerKeeps, entries) <= Listed(mirror).Keys
  {
    forall p | p in PathsUnder(ServerKeeps, entries) ensures p in Listed(mirror) {
      var f :| f in FilesUnder(ServerKeeps, [], entries) && Slash(f) == p;
      KeptIffKeep(ServerKeeps, [], entries, f);
      FileNames(entries, f);
      ServerKeepsByPath(f);
    }
  }

  /** On the server the plan's list is what the scan finds if and only if no file is undercut. */
  lemma ServerScanIsList(entries: seq<DirEntry>, mirror: Files)
    requires NamesOk(entries) && mirror.Keys == PathsUnder(Any, entries)
    ensures Listed(mirror).Keys == PathsUnder(ServerKeeps, entries)
            <==> forall f: Rel | f in FilesUnder(Any, [], entries) :: !Undercut(f)
  {
    ServerScanWithin(entries, mirror);
    if forall f: Rel | f in FilesUnder(Any, [], entries) :: !Undercut(f) {
      forall p | p in Listed(mirror) ensures p in PathsUnder(ServerKeeps, entries) {
        var f :| f in FilesUnder(Any, [], entries) && Slash(f) == p;
        FileNames(entries, f);
        ServerKeepsByPath(f);
        KeptIffKeep(ServerKeeps, [], entries, f);
      }
    } else {
      var f: Rel :| f in FilesUnder(Any, [], entries) && Undercut(f);
      UndercutIsMissed(entries, f);
      assert Slash(f) in Listed(mirror);
    }
  }

  lemma UndercutIsMissed(entries: seq<DirEntry>, f: Rel)
    requires NamesOk(entries) && f in FilesUnder(Any, [], entries) && Undercut(f)
    ensures Slash(f) !in PathsUnder(ServerKeeps, entries)
  {
    FileNames(entries, f);
    ServerKeepsByPath(f);
    forall g | g in FilesUnder(ServerKeeps, [], entries) ensures Slash(g) != Slash(f) {
      KeptIffKeep(ServerKeeps, [], entries, g);
      FileNames(entries, g);
      if Slash(g) == Slash(f) {
        SlashInjective(g, f);
      }
    }
  }
}
