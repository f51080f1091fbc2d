/** The two directory walks, with explicit stacks: the client's scan of its repository and the server's
    scan of its mirror. */
module TreeWalk {
  import opened Results
  import opened Paths
  import opened Toposort
  import opened MirrorPath
  import opened MirrorExclude

  /** A directory tree as `read_dir` shows it; `entries` come in whatever order the system lists them. */
  datatype Node = File(size: nat) | Dir(entries: seq<DirEntry>) | Symlink | Special
  datatype DirEntry = DirEntry(name: string, node: Node)

  const MAX_MANIFEST_ENTRIES: nat := 100_000
  const MAX_REPO_ENTRIES: nat := 200_000
  const MAX_MIRROR_BLOB_BYTES: nat := 64 * 1024 * 1024

  ghost predicate NamesOk(entries: seq<DirEntry>)
    decreases entries
  {
    && (forall i | 0 <= i < |entries| :: IsName(entries[i].name))
    && (forall i, j | 0 <= i < j < |entries| :: entries[i].name != entries[j].name)
    && (forall i | 0 <= i < |entries| && entries[i].node.Dir? :: NamesOk(entries[i].node.entries))
  }

  // ---- what is listed ----

  /** The regular files below `rel` that `keep` accepts, each as often as the tree has it. */
  ghost function FilesUnder(keep: Rel -> bool, rel: Rel, entries: seq<DirEntry>): multiset<Rel>
    decreases entries
  {
    if entries == [] then multiset{}
    else FilesOf(keep, rel + [entries[0].name], entries[0].node) + FilesUnder(keep, rel, entries[1..])
  }

  ghost function FilesOf(keep: Rel -> bool, child: Rel, node: Node): multiset<Rel>
    decreases node
  {
    match node
    case File(_) => if keep(child) then multiset{child} else multiset{}
    case Dir(entries) => FilesUnder(keep, child, entries)
    case Symlink => multiset{}
    case Special => multiset{}
  }

  predicate Any(rel: Rel) {
    true
  }

  /** The client filters file by file; it skips a top-level `.dojjo`. */
  predicate ClientKeeps(rel: Rel) {
    rel != [] && rel[0] != ".dojjo" && !MachineLocal(Slash(rel))
  }

  /** The server also leaves out whole directories. */
  predicate ServerKeeps(rel: Rel) {
    rel != [] && forall k | 1 <= k <= |rel| :: !MachineLocal(Slash(rel[..k]))
  }

  ghost predicate IsPrefix(a: Rel, b: Rel) {
    a <= b
  }

  lemma {:induction false} FilesBelow(keep: Rel -> bool, rel: Rel, entries: seq<DirEntry>, f: Rel)
    requires f in FilesUnder(keep, rel, entries)
    ensures |f| > |rel| && rel <= f && keep(f) && exists i | 0 <= i < |entries| :: entries[i].name == f[|rel|]
    decreases entries
  {
    var e := entries[0];
    if f in FilesOf(keep, rel + [e.name], e.node) {
      FilesOfBelow(keep, rel + [e.name], e.node, f);
      assert f[..|rel|] == (rel + [e.name])[..|rel|];
      assert entries[0].name == f[|rel|];
    } else {
      FilesBelow(keep, rel, entries[1..], f);
      var i :| 0 <= i < |entries[1..]| && entries[1..][i].name == f[|rel|];
      assert entries[i + 1].name == f[|rel|];
    }
  }

  lemma {:induction false} FilesOfBelow(keep: Rel -> bool, child: Rel, node: Node, f: Rel)
    requires f in FilesOf(keep, child, node)
    ensures child <= f && keep(f)
    decreases node
  {
    if node.Dir? {
      FilesBelow(keep, child, node.entries, f);
    }
  }

  lemma FilesOfName(keep: Rel -> bool, rel: Rel, e: DirEntry, f: Rel)
    requires f in FilesOf(keep, rel + [e.name], e.node)
    ensures |f| > |rel| && f[|rel|] == e.name
  {
    FilesOfBelow(keep, rel + [e.name], e.node, f);
    assert (rel + [e.name])[|rel|] == f[|rel|];
  }

  /** No file is listed twice. */
  lemma {:induction false} FilesOnce(keep: Rel -> bool, rel: Rel, entries: seq<DirEntry>, f: Rel)
    requires NamesOk(entries)
    ensures FilesUnder(keep, rel, entries)[f] <= 1
    decreases entries
  {
    if entries != [] {
      var e := entries[0];
      var here, rest := FilesOf(keep, rel + [e.name], e.node), FilesUnder(keep, rel, entries[1..]);
      assert forall i | 0 <= i < |entries[1..]| :: entries[1..][i] == entries[i + 1];
      FilesOnce(keep, rel, entries[1..], f);
      if e.node.Dir? {
        FilesOnce(keep, rel + [e.name], e.node.entries, f);
      }
      if f in here && f in rest {
        FilesOfName(keep, rel, e, f);
        FilesBelow(keep, rel, entries[1..], f);
        assert false;
      }
    }
  }

  lemma {:induction false} FilesNamed(keep: Rel -> bool, rel: Rel, entries: seq<DirEntry>, f: Rel)
    requires NamesOk(entries) && (forall s | s in rel :: IsName(s)) && f in FilesUnder(keep, rel, entries)
    ensures forall s | s in f :: IsName(s)
    decreases entries
  {
    var e := entries[0];
    assert forall i | 0 <= i < |entries[1..]| :: entries[1..][i] == entries[i + 1];
    if f in FilesUnder(keep, rel, entries[1..]) {
      FilesNamed(keep, rel, entries[1..], f);
    } else if e.node.Dir? {
      FilesNamed(keep, rel + [e.name], e.node.entries, f);
    }
  }

  /** A directory below which nothing is kept contributes nothing. */
  lemma {:induction false} NothingKept(keep: Rel -> bool, rel: Rel, entries: seq<DirEntry>)
    requires forall f: Rel | IsPrefix(rel, f) :: !keep(f)
    ensures FilesUnder(keep, rel, entries) == multiset{}
    decreases entries
  {
    if entries != [] {
      var child := rel + [entries[0].name];
      assert IsPrefix(rel, child);
      forall f: Rel | IsPrefix(child, f) ensures !keep(f) {
        assert rel <= f;
        assert IsPrefix(rel, f);
      }
      if entries[0].node.Dir? {
        NothingKept(keep, child, entries[0].node.entries);
      }
      NothingKept(keep, rel, entries[1..]);
    }
  }

  // ---- when the two walks agree ----

  /** The excluded paths that match exactly, not as a prefix. */
  predicate ExactlyExcluded(p: Path) {
    p == "store/git_target" || p == "config.toml" || p == "config-id" || p in JJ_REPO_FILE_LOCK_PATHS
  }

  /** For one file: the walks differ exactly under `.dojjo`, and below a directory that sits at an
      exactly matched path. */
  lemma KeepsAgree(rel: Rel)
    requires rel != [] && forall s | s in rel :: IsName(s)
    ensures ServerKeeps(rel) ==> ClientKeeps(rel) || rel[0] == ".dojjo"
    ensures ClientKeeps(rel) ==> ServerKeeps(rel) || exists k | 1 <= k < |rel| :: ExactlyExcluded(Slash(rel[..k]))
  {
    assert rel[..|rel|] == rel;
    if ClientKeeps(rel) && !ServerKeeps(rel) {
      var k :| 1 <= k <= |rel| && MachineLocal(Slash(rel[..k]));
      assert k < |rel|;
      var p := Slash(rel[..k]);
      SlashPrefix(rel, k);
      assert p + "/" <= Slash(rel);
      if !ExactlyExcluded(p) {
        SubtreeExcluded(p, Slash(rel));
        assert false;
      }
    }
  }

  /** Other exclusions cover the whole subtree. */
  lemma SubtreeExcluded(p: Path, q: Path)
    requires MachineLocal(p) && !ExactlyExcluded(p) && p + "/" <= q
    ensures MachineLocal(q)
  {
    if p == "workspace_store" {
      assert "workspace_store/" == p + "/";
    } else if "workspace_store/" <= p {
      assert "workspace_store/" <= q;
    } else if p == "store/git" {
      assert "store/git/" == p + "/";
    } else {
      assert "store/git/" <= q;
    }
  }

  lemma {:induction false} SameKeepSameFiles(k1: Rel -> bool, k2: Rel -> bool, rel: Rel, entries: seq<DirEntry>)
    requires forall f: Rel | f in FilesUnder(Any, rel, entries) :: k1(f) == k2(f)
    ensures FilesUnder(k1, rel, entries) == FilesUnder(k2, rel, entries)
    decreases entries
  {
    if entries != [] {
      var child := rel + [entries[0].name];
      assert FilesUnder(Any, rel, entries) == FilesOf(Any, child, entries[0].node) + FilesUnder(Any, rel, entries[1..]);
      forall f: Rel | f in FilesUnder(Any, rel, entries[1..]) ensures k1(f) == k2(f) {
        assert f in FilesUnder(Any, rel, entries);
      }
      SameKeepSameFiles(k1, k2, rel, entries[1..]);
      if entries[0].node.Dir? {
        SameKeepSameFiles(k1, k2, child, entries[0].node.entries);
      }
    }
  }

  lemma {:induction false} KeptIffKeep(keep: Rel -> bool, rel: Rel, entries: seq<DirEntry>, f: Rel)
    ensures f in FilesUnder(keep, rel, entries) <==> f in FilesUnder(Any, rel, entries) && keep(f)
    decreases entries
  {
    if entries != [] {
      KeptIffKeep(keep, rel, entries[1..], f);
      if entries[0].node.Dir? {
        KeptIffKeep(keep, rel + [entries[0].name], entries[0].node.entries, f);
      }
    }
  }

  /** What keeps the walks apart on a file. */
  predicate Contested(rel: Rel) {
    || (rel != [] && rel[0] == ".dojjo" && ServerKeeps(rel))
    || (ClientKeeps(rel) && exists k | 1 <= k < |rel| :: ExactlyExcluded(Slash(rel[..k])))
  }

  /** Both walks list the same files if and only if the tree has no file that the server would keep
      under a top-level `.dojjo` and none that the client would keep below a directory at an exactly
      matched path. */
  lemma WalksAgree(entries: seq<DirEntry>)
    requires NamesOk(entries)
    ensures FilesUnder(ClientKeeps, [], entries) == FilesUnder(ServerKeeps, [], entries)
            <==> forall f: Rel | f in FilesUnder(Any, [], entries) :: !Contested(f)
  {
    forall f: Rel | f in FilesUnder(Any, [], entries)
      ensures Contested(f) <==> ClientKeeps(f) != ServerKeeps(f)
    {
      FilesBelow(Any, [], entries, f);
      FilesNamed(Any, [], entries, f);
      KeepsAgree(f);
      if Contested(f) && ClientKeeps(f) {
        var k :| 1 <= k < |f| && ExactlyExcluded(Slash(f[..k]));
        assert MachineLocal(Slash(f[..k]));
      }
    }
    if forall f: Rel | f in FilesUnder(Any, [], entries) :: !Contested(f) {
      SameKeepSameFiles(ClientKeeps, ServerKeeps, [], entries);
    } else {
      var f: Rel :| f in FilesUnder(Any, [], entries) && Contested(f);
      KeptIffKeep(ClientKeeps, [], entries, f);
      KeptIffKeep(ServerKeeps, [], entries, f);
    }
  }

  /** Such a tree: a file below a directory with the name of an excluded file. The client would list it,
      the server's walk does not. */
  lemma WalksCanDiffer() returns (entries: seq<DirEntry>, f: Rel)
    ensures NamesOk(entries)
    ensures f in FilesUnder(ClientKeeps, [], entries) && f !in FilesUnder(ServerKeeps, [], entries)
  {
    var dir, name := "config-id", "x";
    entries := [DirEntry(dir, Dir([DirEntry(name, File(0))]))];
    f := [dir, name];
    BelowConfigId();
    OneFileBelow(ClientKeeps, dir, name);
    OneFileBelow(ServerKeeps, dir, name);
    assert IsName(dir) && IsName(name);
    NestedNamesOk(dir, name);
  }

  lemma NestedNamesOk(dir: string, name: string)
    requires IsName(dir) && IsName(name)
    ensures NamesOk([DirEntry(dir, Dir([DirEntry(name, File(0))]))])
  {
    assert NamesOk([DirEntry(name, File(0))]);
  }

  lemma BelowConfigId()
    ensures ClientKeeps(["config-id", "x"]) && !ServerKeeps(["config-id", "x"])
  {
    var f := ["config-id", "x"];
    assert f[..1] == ["config-id"];
    assert Slash(f[..1]) == "config-id" && MachineLocal(Slash(f[..1]));
    assert Slash(f) == "config-id/x";
    assert Slash(f)[0] == 'c' && Slash(f)[6] == '-' && |Slash(f)| == 11;
  }

  lemma OneFileBelow(keep: Rel -> bool, dir: string, name: string)
    ensures FilesUnder(keep, [], [DirEntry(dir, Dir([DirEntry(name, File(0))]))]) == if keep([dir, name]) then multiset{[dir, name]} else multiset{}
  {
    var inner := [DirEntry(name, File(0))];
    assert [] + [dir] == [dir] && [dir] + [name] == [dir, name];
    assert FilesUnder(keep, [dir], inner) == FilesOf(keep, [dir, name], File(0)) + FilesUnder(keep, [dir], inner[1..]);
    assert inner[1..] == [];
    var outer := [DirEntry(dir, Dir(inner))];
    assert outer[1..] == [];
    assert FilesUnder(keep, [], outer) == FilesOf(keep, [dir], Dir(inner)) + FilesUnder(keep, [], outer[1..]);
  }

  // ---- the walks ----

  /** Directories waiting to be read; the last one is read next. */
  type Stack = seq<(Rel, seq<DirEntry>)>

  ghost function StackFiles(keep: Rel -> bool, stack: Stack): multiset<Rel> {
    if stack == [] then multiset{}
    else StackFiles(keep, stack[..|stack| - 1]) + FilesUnder(keep, stack[|stack| - 1].0, stack[|stack| - 1].1)
  }

  ghost function Size(entries: seq<DirEntry>): nat
    decreases entries
  {
    if entries == [] then 0
    else 1 + (if entries[0].node.Dir? then Size(entries[0].node.entries) else 0) + Size(entries[1..])
  }

  ghost function StackSize(stack: Stack): nat {
    if stack == [] then 0 else StackSize(stack[..|stack| - 1]) + 1 + Size(stack[|stack| - 1].1)
  }

  datatype WalkError = TooManyEntries | SymlinkFound | UnsafeName | TooLarge | UnsupportedType

  // -- server --

  ghost predicate ServerOk(rel: Rel, entries: seq<DirEntry>)
    decreases entries
  {
    entries == [] || (ServerEntryOk(rel + [entries[0].name], entries[0].name, entries[0].node) && ServerOk(rel, entries[1..]))
  }

  ghost predicate ServerEntryOk(child: Rel, name: string, node: Node)
    decreases node
  {
    && SafeSegment(name)
    && match node
       case File(size) => size <= MAX_MIRROR_BLOB_BYTES && SafeRel(child)
       case Dir(entries) => MachineLocal(Slash(child)) || ServerOk(child, entries)
       case Symlink => false
       case Special => false
  }

  /** How many directory entries the server looks at. */
  ghost function ServerSeen(rel: Rel, entries: seq<DirEntry>): nat
    decreases entries
  {
    if entries == [] then 0
    else
      var child := rel + [entries[0].name];
      1 + (if entries[0].node.Dir? && !MachineLocal(Slash(child)) then ServerSeen(child, entries[0].node.entries) else 0)
      + ServerSeen(rel, entries[1..])
  }

  ghost predicate ServerStackOk(stack: Stack) {
    forall d | d in stack :: ServerOk(d.0, d.1)
  }

  ghost function ServerStackSeen(stack: Stack): nat {
    if stack == [] then 0 else ServerStackSeen(stack[..|stack| - 1]) + ServerSeen(stack[|stack| - 1].0, stack[|stack| - 1].1)
  }

  lemma ServerPrunes(child: Rel, entries: seq<DirEntry>)
    requires child != [] && MachineLocal(Slash(child))
    ensures FilesUnder(ServerKeeps, child, entries) == multiset{}
  {
    forall f: Rel | IsPrefix(child, f) ensures !ServerKeeps(f) {
      assert f[..|child|] == child;
    }
    NothingKept(ServerKeeps, child, entries);
  }

  /** A file in a directory that was not pruned is kept exactly when its own path is not excluded. */
  ghost predicate Unpruned(rel: Rel) {
    forall k | 1 <= k <= |rel| :: !MachineLocal(Slash(rel[..k]))
  }

  lemma UnprunedChild(rel: Rel, name: string)
    requires Unpruned(rel)
    ensures ServerKeeps(rel + [name]) <==> !MachineLocal(Slash(rel + [name]))
    ensures Unpruned(rel + [name]) <==> !MachineLocal(Slash(rel + [name]))
  {
    var child := rel + [name];
    assert child[..|child|] == child;
    forall k | 1 <= k <= |rel| ensures child[..k] == rel[..k] {
    }
  }

  lemma PushDir(keep: Rel -> bool, stack: Stack, rel: Rel, entries: seq<DirEntry>)
    ensures StackFiles(keep, stack + [(rel, entries)]) == StackFiles(keep, stack) + FilesUnder(keep, rel, entries)
    ensures StackSize(stack + [(rel, entries)]) == StackSize(stack) + 1 + Size(entries)
  {
    assert (stack + [(rel, entries)])[..|stack|] == stack;
  }

  lemma PushServer(stack: Stack, rel: Rel, entries: seq<DirEntry>)
    ensures ServerStackOk(stack + [(rel, entries)]) <==> ServerStackOk(stack) && ServerOk(rel, entries)
    ensures ServerStackSeen(stack + [(rel, entries)]) == ServerStackSeen(stack) + ServerSeen(rel, entries)
  {
    var pushed := stack + [(rel, entries)];
    assert pushed[..|stack|] == stack;
    assert pushed[|stack|] in pushed;
    forall d | d in stack ensures d in pushed {
    }
  }

  lemma PushClient(stack: Stack, rel: Rel, entries: seq<DirEntry>)
    ensures ClientStackOk(stack + [(rel, entries)]) <==> ClientStackOk(stack) && ClientOk(rel, entries)
    ensures ClientStackSeen(stack + [(rel, entries)]) == ClientStackSeen(stack) + ClientSeen(rel, entries)
  {
    var pushed := stack + [(rel, entries)];
    assert pushed[..|stack|] == stack;
    assert pushed[|stack|] in pushed;
    forall d | d in stack ensures d in pushed {
    }
  }

  lemma ServerOkNext(rel: Rel, rest: seq<DirEntry>)
    requires rest != []
    ensures var e, child := rest[0], rel + [rest[0].name];
            ServerOk(rel, rest) <==> && SafeSegment(e.name) && !e.node.Symlink? && !e.node.Special?
                                     && (e.node.File? ==> e.node.size <= MAX_MIRROR_BLOB_BYTES && SafeRel(child))
                                     && (e.node.Dir? ==> MachineLocal(Slash(child)) || ServerOk(child, e.node.entries))
                                     && ServerOk(rel, rest[1..])
  {
  }

  lemma ClientOkNext(rel: Rel, rest: seq<DirEntry>)
    requires rest != []
    ensures var e, child := rest[0], rel + [rest[0].name];
            ClientOk(rel, rest) <==> && (|| (rel == [] && e.name == ".dojjo")
                                         || (&& !e.node.Special?
                                             && (e.node.File? ==> Acceptable(Slash(child)))
                                             && (e.node.Dir? ==> ClientOk(child, e.node.entries))))
                                     && ClientOk(rel, rest[1..])
  {
  }

  /** What a walk has to account for in total. */
  datatype Total = Total(files: multiset<Rel>, seen: nat, ok: bool)

  ghost function ServerTotal(entries: seq<DirEntry>): Total {
    Total(FilesUnder(ServerKeeps, [], entries), ServerSeen([], entries), ServerOk([], entries))
  }

  /** Found so far, plus what waits on the stack, plus the rest of the directory being read, is everything. */
  ghost predicate ServerLedger(t: Total, rel: Rel, rest: seq<DirEntry>, stack: Stack, found: seq<Rel>, seen: nat) {
    && Unpruned(rel) && (forall d | d in stack :: Unpruned(d.0))
    && multiset(found) + StackFiles(ServerKeeps, stack) + FilesUnder(ServerKeeps, rel, rest) == t.files
    && seen + ServerStackSeen(stack) + ServerSeen(rel, rest) == t.seen
    && (t.ok <==> ServerStackOk(stack) && ServerOk(rel, rest))
  }

  lemma Regroup(a: multiset<Rel>, b: multiset<Rel>, x: multiset<Rel>, r: multiset<Rel>)
    ensures a + b + (x + r) == (a + x) + b + r
    ensures a + b + (x + r) == a + (b + x) + r
    ensures a + (b + x) + multiset{} == a + b + x
    ensures x == multiset{} ==> a + b + (x + r) == a + b + r
  {
  }

  lemma ServerTakesFile(t: Total, rel: Rel, rest: seq<DirEntry>, stack: Stack, found: seq<Rel>, seen: nat)
    requires rest != [] && rest[0].node.File? && ServerEntryOk(rel + [rest[0].name], rest[0].name, rest[0].node)
    requires ServerLedger(t, rel, rest, stack, found, seen)
    ensures var child := rel + [rest[0].name];
            ServerLedger(t, rel, rest[1..], stack, if MachineLocal(Slash(child)) then found else found + [child], seen + 1)
  {
    var child := rel + [rest[0].name];
    UnprunedChild(rel, rest[0].name);
    ServerOkNext(rel, rest);
    assert multiset(found + [child]) == multiset(found) + multiset{child};
    Regroup(multiset(found), StackFiles(ServerKeeps, stack), FilesOf(ServerKeeps, child, rest[0].node), FilesUnder(ServerKeeps, rel, rest[1..]));
  }

  lemma ServerTakesDir(t: Total, rel: Rel, rest: seq<DirEntry>, stack: Stack, found: seq<Rel>, seen: nat)
    requires rest != [] && rest[0].node.Dir? && SafeSegment(rest[0].name)
    requires ServerLedger(t, rel, rest, stack, found, seen)
    ensures var child := rel + [rest[0].name];
            var stack' := if MachineLocal(Slash(child)) then stack else stack + [(child, rest[0].node.entries)];
            && ServerLedger(t, rel, rest[1..], stack', found, seen + 1)
            && StackSize(stack') + Size(rest[1..]) <= StackSize(stack) + Size(rest)
  {
    var child := rel + [rest[0].name];
    UnprunedChild(rel, rest[0].name);
    ServerOkNext(rel, rest);
    Regroup(multiset(found), StackFiles(ServerKeeps, stack), FilesOf(ServerKeeps, child, rest[0].node), FilesUnder(ServerKeeps, rel, rest[1..]));
    if MachineLocal(Slash(child)) {
      ServerPrunes(child, rest[0].node.entries);
    } else {
      PushDir(ServerKeeps, stack, child, rest[0].node.entries);
      PushServer(stack, child, rest[0].node.entries);
      forall d | d in stack + [(child, rest[0].node.entries)] ensures Unpruned(d.0) {
      }
    }
  }

  /** The checks on one entry; symlinks, odd names, huge files and special files end the walk. */
  method ServerCheckEntry(child: Rel, e: DirEntry) returns (error: Option<WalkError>)
    ensures error.None? <==> && SafeSegment(e.name) && !e.node.Symlink? && !e.node.Special?
                             && (e.node.File? ==> e.node.size <= 67_108_864 && SafeRel(child))
  {
    if e.node.Symlink? {
      return Some(SymlinkFound);
    }
    if !SafeSegment(e.name) {
      return Some(UnsafeName);
    }
    match e.node
    case File(size) =>
      if size > MAX_MIRROR_BLOB_BYTES {
        return Some(TooLarge);
      }
      if !SafeRel(child) {
        return Some(UnsafeName);
      }
      return None;
    case Dir(_) => return None;
    case Special => return Some(UnsupportedType);
  }

  /** Reads one directory of the mirror: files are found, subdirectories wait, excluded ones do not. */
  method ServerReadDir(ghost t: Total, rel: Rel, entries: seq<DirEntry>, stack0: Stack, found0: seq<Rel>, seen0: nat)
    returns (r: Result<(Stack, seq<Rel>, nat), WalkError>)
    requires ServerLedger(t, rel, entries, stack0, found0, seen0) && seen0 <= MAX_MANIFEST_ENTRIES
    ensures r.Success? ==> var (stack, found, seen) := r.value;
                           && ServerLedger(t, rel, [], stack, found, seen) && seen <= MAX_MANIFEST_ENTRIES
                           && StackSize(stack) <= StackSize(stack0) + Size(entries)
    ensures r.Failure? ==> !t.ok || t.seen > MAX_MANIFEST_ENTRIES
  {
    var stack, found := stack0, found0;
    var seen: nat := seen0;
    assert entries[0..] == entries;
    for i := 0 to |entries|
      invariant ServerLedger(t, rel, entries[i..], stack, found, seen) && seen <= MAX_MANIFEST_ENTRIES
      invariant StackSize(stack) + Size(entries[i..]) <= StackSize(stack0) + Size(entries)
    {
      var e := entries[i];
      var child := rel + [e.name];
      assert entries[i..][0] == e && entries[i..][1..] == entries[i + 1..];
      seen := seen + 1;
      if seen > MAX_MANIFEST_ENTRIES {
        return Failure(TooManyEntries);
      }
      var bad := ServerCheckEntry(child, e);
      if bad.Some? {
        ServerOkNext(rel, entries[i..]);
        return Failure(bad.value);
      }
      if e.node.File? {
        ServerTakesFile(t, rel, entries[i..], stack, found, seen - 1);
        if !MachineLocal(Slash(child)) {
          found := found + [child];
        }
      } else {
        ServerTakesDir(t, rel, entries[i..], stack, found, seen - 1);
        if !MachineLocal(Slash(child)) {
          stack := stack + [(child, e.node.entries)];
        }
      }
    }
    assert entries[|entries|..] == [];
    return Success((stack, found, seen));
  }

  lemma PopServer(t: Total, rel: Rel, front: Stack, dir: Rel, entries: seq<DirEntry>, found: seq<Rel>, seen: nat)
    requires ServerLedger(t, rel, [], front + [(dir, entries)], found, seen)
    ensures ServerLedger(t, dir, entries, front, found, seen)
    ensures StackSize(front) + Size(entries) < StackSize(front + [(dir, entries)])
  {
    var stack := front + [(dir, entries)];
    PushDir(ServerKeeps, front, dir, entries);
    PushServer(front, dir, entries);
    Regroup(multiset(found), StackFiles(ServerKeeps, front), FilesUnder(ServerKeeps, dir, entries), multiset{});
    assert FilesUnder(ServerKeeps, rel, []) == multiset{} && ServerSeen(rel, []) == 0 && ServerOk(rel, []);
    assert stack[|front|] in stack;
    forall d | d in front ensures d in stack {
    }
  }

  lemma ServerStarts(entries: seq<DirEntry>)
    ensures ServerLedger(ServerTotal(entries), [], [], [([], entries)], [], 0)
  {
    PushDir(ServerKeeps, [], [], entries);
    PushServer([], [], entries);
    var stack: Stack := [([], entries)];
    assert [] + stack == stack;
  }

  lemma ServerEnds(entries: seq<DirEntry>, found: seq<Rel>, seen: nat)
    requires ServerLedger(ServerTotal(entries), [], [], [], found, seen)
    ensures ServerOk([], entries) && ServerSeen([], entries) == seen
    ensures multiset(found) == FilesUnder(ServerKeeps, [], entries)
  {
  }

  /** Lists the mirror. Succeeds exactly on a clean tree within the entry limit, and then lists every
      file that the rules keep exactly once. */
  method ScanMirrorTree(entries: seq<DirEntry>) returns (r: Result<seq<Rel>, WalkError>)
    ensures r.Success? <==> ServerOk([], entries) && ServerSeen([], entries) <= 100_000
    ensures r.Success? ==> multiset(r.value) == FilesUnder(ServerKeeps, [], entries)
  {
    ghost var t := ServerTotal(entries);
    var stack: Stack := [([], entries)];
    var found: seq<Rel> := [];
    var seen: nat := 0;
    ServerStarts(entries);
    while stack != []
      invariant ServerLedger(t, [], [], stack, found, seen) && seen <= MAX_MANIFEST_ENTRIES
      decreases StackSize(stack)
    {
      var top := stack[|stack| - 1];
      assert stack == stack[..|stack| - 1] + [(top.0, top.1)];
      PopServer(t, [], stack[..|stack| - 1], top.0, top.1, found, seen);
      var read := ServerReadDir(t, top.0, top.1, stack[..|stack| - 1], found, seen);
      if read.Failure? {
        return Failure(read.error);
      }
      stack, found, seen := read.value.0, read.value.1, read.value.2;
    }
    ServerEnds(entries, found, seen);
    return Success(found);
  }

  /** The server's walk comes to `node` under the path `child`: there is such an entry, and no directory above it
      is excluded. */
  ghost predicate Visits(rel: Rel, entries: seq<DirEntry>, child: Rel, node: Node)
    decreases entries
  {
    entries != [] && (VisitsAt(rel + [entries[0].name], entries[0].node, child, node) || Visits(rel, entries[1..], child, node))
  }

  ghost predicate VisitsAt(here: Rel, e: Node, child: Rel, node: Node)
    decreases e
  {
    || (child == here && node == e)
    || (e.Dir? && !MachineLocal(Slash(here)) && Visits(here, e.entries, child, node))
  }

  ghost predicate Clean(child: Rel, node: Node) {
    && child != [] && SafeSegment(child[|child| - 1]) && !node.Symlink? && !node.Special?
    && (node.File? ==> node.size <= 67_108_864 && SafeRel(child))
  }

  ghost predicate AllClean(rel: Rel, entries: seq<DirEntry>) {
    forall child: Rel, node: Node | Visits(rel, entries, child, node) :: Clean(child, node)
  }

  ghost predicate EntryClean(here: Rel, e: Node) {
    forall child: Rel, node: Node | VisitsAt(here, e, child, node) :: Clean(child, node)
  }

  lemma AllCleanNext(rel: Rel, entries: seq<DirEntry>)
    requires entries != []
    ensures AllClean(rel, entries) <==> EntryClean(rel + [entries[0].name], entries[0].node) && AllClean(rel, entries[1..])
  {
    forall child: Rel, node: Node | VisitsAt(rel + [entries[0].name], entries[0].node, child, node) || Visits(rel, entries[1..], child, node)
      ensures Visits(rel, entries, child, node)
    {
    }
  }

  lemma EntryCleanDir(here: Rel, e: Node)
    requires e.Dir? && !MachineLocal(Slash(here))
    ensures EntryClean(here, e) <==> Clean(here, e) && AllClean(here, e.entries)
  {
    assert VisitsAt(here, e, here, e);
    forall child: Rel, node: Node | Visits(here, e.entries, child, node) ensures VisitsAt(here, e, child, node) {
    }
  }

  /** A tree is clean for the server exactly if everything that the walk comes to has a safe name and is a
      directory or a file of at most 64 MiB with a safe path. */
  lemma {:induction false} ServerOkByVisits(rel: Rel, entries: seq<DirEntry>)
    ensures ServerOk(rel, entries) <==> AllClean(rel, entries)
    decreases entries
  {
    if entries != [] {
      ServerOkByVisits(rel, entries[1..]);
      EntryOkByVisits(rel + [entries[0].name], entries[0].name, entries[0].node);
      AllCleanNext(rel, entries);
    }
  }

  lemma {:induction false} EntryOkByVisits(here: Rel, name: string, e: Node)
    requires here != [] && here[|here| - 1] == name
    ensures ServerEntryOk(here, name, e) <==> EntryClean(here, e)
    decreases e
  {
    assert VisitsAt(here, e, here, e);
    if e.Dir? && !MachineLocal(Slash(here)) {
      ServerOkByVisits(here, e.entries);
      EntryCleanDir(here, e);
    } else {
      assert forall child: Rel, node: Node :: VisitsAt(here, e, child, node) <==> child == here && node == e;
    }
  }

  /** Where no directory is pruned, the server looks at every entry there is. */
  lemma {:induction false} ServerSeesAll(rel: Rel, entries: seq<DirEntry>)
    requires NothingPruned(rel, entries)
    ensures ServerSeen(rel, entries) == Size(entries)
    decreases entries
  {
    if entries != [] {
      ServerSeesAll(rel, entries[1..]);
      if entries[0].node.Dir? {
        ServerSeesAll(rel + [entries[0].name], entries[0].node.entries);
      }
    }
  }

  ghost predicate NothingPruned(rel: Rel, entries: seq<DirEntry>)
    decreases entries
  {
    entries == [] ||
      (var e, child := entries[0], rel + [entries[0].name];
       (e.node.Dir? ==> !MachineLocal(Slash(child)) && NothingPruned(child, e.node.entries)) && NothingPruned(rel, entries[1..]))
  }

  // -- client --

  ghost predicate ClientOk(rel: Rel, entries: seq<DirEntry>)
    decreases entries
  {
    entries == [] || (ClientEntryOk(rel, entries[0]) && ClientOk(rel, entries[1..]))
  }

  ghost predicate ClientEntryOk(rel: Rel, e: DirEntry)
    decreases e
  {
    || (rel == [] && e.name == ".dojjo")
    || match e.node
       case File(_) => Acceptable(Slash(rel + [e.name]))
       case Dir(entries) => ClientOk(rel + [e.name], entries)
       case Symlink => true
       case Special => false
  }

  ghost function ClientSeen(rel: Rel, entries: seq<DirEntry>): nat
    decreases entries
  {
    if entries == [] then 0
    else
      var e := entries[0];
      1 + (if e.node.Dir? && !(rel == [] && e.name == ".dojjo") then ClientSeen(rel + [e.name], e.node.entries) else 0)
      + ClientSeen(rel, entries[1..])
  }

  ghost predicate ClientStackOk(stack: Stack) {
    forall d | d in stack :: ClientOk(d.0, d.1)
  }

  ghost function ClientStackSeen(stack: Stack): nat {
    if stack == [] then 0 else ClientStackSeen(stack[..|stack| - 1]) + ClientSeen(stack[|stack| - 1].0, stack[|stack| - 1].1)
  }

  ghost predicate Scannable(rel: Rel) {
    rel == [] || rel[0] != ".dojjo"
  }

  /** The client goes into every directory but a top-level `.dojjo`. */
  predicate Enters(rel: Rel, e: DirEntry) {
    e.node.Dir? && !(rel == [] && e.name == ".dojjo")
  }

  /** What reading one directory puts on the stack. */
  ghost function SubDirs(rel: Rel, entries: seq<DirEntry>): (r: Stack)
    ensures forall d | d in r :: Size(d.1) < Size(entries)
  {
    if entries == [] then []
    else (if Enters(rel, entries[0]) then [(rel + [entries[0].name], entries[0].node.entries)] else []) + SubDirs(rel, entries[1..])
  }

  /** How many entries the directory has that the walk reads last: the stack is emptied from its end, so
      this is found by following first subdirectories. */
  ghost function LastRead(rel: Rel, entries: seq<DirEntry>): nat
    decreases Size(entries)
  {
    var sub := SubDirs(rel, entries);
    if sub == [] then |entries| else assert sub[0] in sub; LastRead(sub[0].0, sub[0].1)
  }

  lemma {:induction false} StackSeenCons(d: (Rel, seq<DirEntry>), rest: Stack)
    ensures ClientStackSeen([d] + rest) == ClientSeen(d.0, d.1) + ClientStackSeen(rest)
    decreases |rest|
  {
    var whole: Stack := [d] + rest;
    if rest == [] {
      var none: Stack := [];
      PushClient(none, d.0, d.1);
      assert none + [(d.0, d.1)] == whole;
    } else {
      assert whole[..|whole| - 1] == [d] + rest[..|rest| - 1];
      StackSeenCons(d, rest[..|rest| - 1]);
    }
  }

  /** The entries of a directory are its own and those of its subdirectories. */
  lemma {:induction false} SeenSplits(rel: Rel, entries: seq<DirEntry>)
    ensures ClientSeen(rel, entries) == |entries| + ClientStackSeen(SubDirs(rel, entries))
    decreases |entries|
  {
    if entries != [] {
      SeenSplits(rel, entries[1..]);
      if Enters(rel, entries[0]) {
        StackSeenCons((rel + [entries[0].name], entries[0].node.entries), SubDirs(rel, entries[1..]));
      } else {
        assert SubDirs(rel, entries) == SubDirs(rel, entries[1..]);
      }
    }
  }

  lemma FirstOnStack(stack: Stack)
    requires stack != []
    ensures ClientStackSeen(stack) >= ClientSeen(stack[0].0, stack[0].1)
  {
    StackSeenCons(stack[0], stack[1..]);
    assert stack == [stack[0]] + stack[1..];
  }

  lemma {:induction false} LastReadSeen(rel: Rel, entries: seq<DirEntry>)
    ensures LastRead(rel, entries) <= ClientSeen(rel, entries)
    decreases Size(entries)
  {
    var sub := SubDirs(rel, entries);
    SeenSplits(rel, entries);
    if sub != [] {
      assert sub[0] in sub;
      LastReadSeen(sub[0].0, sub[0].1);
      FirstOnStack(sub);
    }
  }

  /** The entries up to `i` have been read: their subdirectories are on the stack. */
  ghost predicate Stacked(rel: Rel, entries: seq<DirEntry>, i: nat, stack0: Stack, stack: Stack)
    requires i <= |entries|
  {
    stack + SubDirs(rel, entries[i..]) == stack0 + SubDirs(rel, entries)
  }

  lemma StackedNext(rel: Rel, entries: seq<DirEntry>, i: nat, stack0: Stack, stack: Stack)
    requires i < |entries| && Stacked(rel, entries, i, stack0, stack)
    ensures var e := entries[i];
            Stacked(rel, entries, i + 1, stack0, if Enters(rel, e) then stack + [(rel + [e.name], e.node.entries)] else stack)
  {
    var e, rest := entries[i], SubDirs(rel, entries[i + 1..]);
    assert entries[i..][0] == e && entries[i..][1..] == entries[i + 1..];
    if Enters(rel, e) {
      var d := (rel + [e.name], e.node.entries);
      assert stack + ([d] + rest) == (stack + [d]) + rest;
    } else {
      assert [] + rest == rest;
    }
  }

  lemma StackedAll(rel: Rel, entries: seq<DirEntry>, stack0: Stack, stack: Stack)
    requires Stacked(rel, entries, |entries|, stack0, stack)
    ensures stack == stack0 + SubDirs(rel, entries)
  {
    assert entries[|entries|..] == [];
    assert stack + [] == stack;
  }

  lemma ClientSkips(entries: seq<DirEntry>)
    ensures FilesUnder(ClientKeeps, [".dojjo"], entries) == multiset{}
  {
    forall f: Rel | IsPrefix([".dojjo"], f) ensures !ClientKeeps(f) {
    }
    NothingKept(ClientKeeps, [".dojjo"], entries);
  }

  ghost function ClientTotal(entries: seq<DirEntry>): Total {
    Total(FilesUnder(ClientKeeps, [], entries), ClientSeen([], entries), ClientOk([], entries))
  }

  ghost predicate ClientLedger(t: Total, rel: Rel, rest: seq<DirEntry>, stack: Stack, found: seq<Rel>, seen: nat) {
    && Scannable(rel) && (forall d | d in stack :: Scannable(d.0))
    && multiset(found) + StackFiles(ClientKeeps, stack) + FilesUnder(ClientKeeps, rel, rest) == t.files
    && seen + ClientStackSeen(stack) + ClientSeen(rel, rest) == t.seen
    && (t.ok <==> ClientStackOk(stack) && ClientOk(rel, rest))
  }

  /** An entry that is skipped, or a file, found unless its path is excluded. */
  lemma ClientTakes(t: Total, rel: Rel, rest: seq<DirEntry>, stack: Stack, found: seq<Rel>, seen: nat)
    requires rest != [] && ClientLedger(t, rel, rest, stack, found, seen) && ClientEntryOk(rel, rest[0])
    requires (rel == [] && rest[0].name == ".dojjo") || !rest[0].node.Dir?
    ensures var child := rel + [rest[0].name];
            var take := rest[0].node.File? && !(rel == [] && rest[0].name == ".dojjo") && !MachineLocal(Slash(child));
            ClientLedger(t, rel, rest[1..], stack, if take then found + [child] else found, seen + 1)
  {
    var child := rel + [rest[0].name];
    assert multiset(found + [child]) == multiset(found) + multiset{child};
    Regroup(multiset(found), StackFiles(ClientKeeps, stack), FilesOf(ClientKeeps, child, rest[0].node), FilesUnder(ClientKeeps, rel, rest[1..]));
    if rel == [] && rest[0].name == ".dojjo" {
      assert child == [".dojjo"];
      if rest[0].node.Dir? {
        ClientSkips(rest[0].node.entries);
      }
    }
  }

  lemma ClientTakesDir(t: Total, rel: Rel, rest: seq<DirEntry>, stack: Stack, found: seq<Rel>, seen: nat)
    requires rest != [] && ClientLedger(t, rel, rest, stack, found, seen) && rest[0].node.Dir?
    requires !(rel == [] && rest[0].name == ".dojjo")
    ensures var stack' := stack + [(rel + [rest[0].name], rest[0].node.entries)];
            && ClientLedger(t, rel, rest[1..], stack', found, seen + 1)
            && StackSize(stack') + Size(rest[1..]) <= StackSize(stack) + Size(rest)
  {
    var child := rel + [rest[0].name];
    PushDir(ClientKeeps, stack, child, rest[0].node.entries);
    PushClient(stack, child, rest[0].node.entries);
    ClientOkNext(rel, rest);
    Regroup(multiset(found), StackFiles(ClientKeeps, stack), FilesOf(ClientKeeps, child, rest[0].node), FilesUnder(ClientKeeps, rel, rest[1..]));
    assert Scannable(child);
    forall d | d in stack + [(child, rest[0].node.entries)] ensures Scannable(d.0) {
    }
  }

  /** Reads one entry that is not a directory to go into. */
  method ClientReadEntry(ghost t: Total, rel: Rel, entries: seq<DirEntry>, i: nat, ghost stack: Stack, found0: seq<Rel>, ghost seen: nat)
    returns (r: Result<seq<Rel>, WalkError>)
    requires i < |entries| && !Enters(rel, entries[i]) && ClientLedger(t, rel, entries[i..], stack, found0, seen)
    ensures r.Success? ==> ClientLedger(t, rel, entries[i + 1..], stack, r.value, seen + 1)
    ensures r.Failure? ==> !t.ok
  {
    var e := entries[i];
    var child := rel + [e.name];
    assert entries[i..][0] == e && entries[i..][1..] == entries[i + 1..];
    if (rel == [] && e.name == ".dojjo") || e.node.Symlink? {
      ClientTakes(t, rel, entries[i..], stack, found0, seen);
      return Success(found0);
    }
    ClientOkNext(rel, entries[i..]);
    if !e.node.File? {
      return Failure(UnsupportedType);
    }
    if ParseSafeMirrorRel(Slash(child)).None? {
      return Failure(UnsafeName);
    }
    ClientTakes(t, rel, entries[i..], stack, found0, seen);
    return Success(if MachineLocal(Slash(child)) then found0 else found0 + [child]);
  }

  /** Reads one directory of the client's repository. */
  method ClientReadDir(ghost t: Total, rel: Rel, entries: seq<DirEntry>, stack0: Stack, found0: seq<Rel>, seen0: nat)
    returns (r: Result<(Stack, seq<Rel>, nat), WalkError>)
    requires ClientLedger(t, rel, entries, stack0, found0, seen0)
    ensures r.Success? ==> var (stack, found, seen) := r.value;
                           && ClientLedger(t, rel, [], stack, found, seen)
                           && StackSize(stack) <= StackSize(stack0) + Size(entries)
                           && stack == stack0 + SubDirs(rel, entries) && seen == seen0 + |entries|
    ensures r.Failure? ==> !t.ok
  {
    var stack, found := stack0, found0;
    var seen: nat := seen0;
    assert entries[0..] == entries;
    for i := 0 to |entries|
      invariant ClientLedger(t, rel, entries[i..], stack, found, seen)
      invariant StackSize(stack) + Size(entries[i..]) <= StackSize(stack0) + Size(entries)
      invariant Stacked(rel, entries, i, stack0, stack) && seen == seen0 + i
    {
      var e := entries[i];
      assert entries[i..][0] == e && entries[i..][1..] == entries[i + 1..];
      StackedNext(rel, entries, i, stack0, stack);
      if e.node.Dir? && !(rel == [] && e.name == ".dojjo") {
        ClientTakesDir(t, rel, entries[i..], stack, found, seen);
        stack := stack + [(rel + [e.name], e.node.entries)];
      } else {
        var read := ClientReadEntry(t, rel, entries, i, stack, found, seen);
        if read.Failure? {
          return Failure(read.error);
        }
        found := read.value;
      }
      seen := seen + 1;
    }
    assert entries[|entries|..] == [];
    StackedAll(rel, entries, stack0, stack);
    return Success((stack, found, seen));
  }

  lemma PopClient(t: Total, rel: Rel, front: Stack, dir: Rel, entries: seq<DirEntry>, found: seq<Rel>, seen: nat)
    requires ClientLedger(t, rel, [], front + [(dir, entries)], found, seen)
    ensures ClientLedger(t, dir, entries, front, found, seen)
    ensures StackSize(front) + Size(entries) < StackSize(front + [(dir, entries)])
  {
    var stack := front + [(dir, entries)];
    PushDir(ClientKeeps, front, dir, entries);
    PushClient(front, dir, entries);
    Regroup(multiset(found), StackFiles(ClientKeeps, front), FilesUnder(ClientKeeps, dir, entries), multiset{});
    assert FilesUnder(ClientKeeps, rel, []) == multiset{} && ClientSeen(rel, []) == 0 && ClientOk(rel, []);
    assert stack[|front|] in stack;
    forall d | d in front ensures d in stack {
    }
  }

  /** The slash paths of a list of files. */
  function Slashed(files: seq<Rel>): seq<Path> {
    seq(|files|, i requires 0 <= i < |files| => Slash(files[i]))
  }

  lemma FilesDistinct(keep: Rel -> bool, entries: seq<DirEntry>, files: seq<Rel>)
    requires NamesOk(entries) && multiset(files) == FilesUnder(keep, [], entries)
    ensures Distinct(Slashed(files))
  {
    forall i, j | 0 <= i < j < |files| ensures Slash(files[i]) != Slash(files[j]) {
      assert files[i] in multiset(files) && files[j] in multiset(files);
      FilesBelow(keep, [], entries, files[i]);
      FilesBelow(keep, [], entries, files[j]);
      FilesNamed(keep, [], entries, files[i]);
      FilesNamed(keep, [], entries, files[j]);
      if files[i] == files[j] {
        FilesOnce(keep, [], entries, files[i]);
        TwiceCounted(files, i, j);
        assert false;
      }
      if Slash(files[i]) == Slash(files[j]) {
        SlashInjective(files[i], files[j]);
      }
    }
  }

  lemma TwiceCounted(files: seq<Rel>, i: nat, j: nat)
    requires i < j < |files| && files[i] == files[j]
    ensures multiset(files)[files[i]] >= 2
  {
    assert files == files[..j] + [files[j]] + files[j + 1..];
    assert files[i] == files[..j][i];
    assert files[i] in multiset(files[..j]);
  }

  lemma ClientStarts(entries: seq<DirEntry>)
    ensures ClientLedger(ClientTotal(entries), [], [], [([], entries)], [], 0)
  {
    PushDir(ClientKeeps, [], [], entries);
    PushClient([], [], entries);
    var stack: Stack := [([], entries)];
    assert [] + stack == stack;
  }

  lemma ClientEnds(entries: seq<DirEntry>, found: seq<Rel>, seen: nat)
    requires NamesOk(entries) && ClientLedger(ClientTotal(entries), [], [], [], found, seen)
    ensures ClientOk([], entries) && ClientSeen([], entries) == seen
    ensures multiset(found) == FilesUnder(ClientKeeps, [], entries)
    ensures StrictlySorted(Sorted(Elems(Slashed(found)))) && |Sorted(Elems(Slashed(found)))| == |found|
  {
    FilesDistinct(ClientKeeps, entries, found);
    DistinctSize(Slashed(found));
    SortedCorrect(Elems(Slashed(found)));
    DistinctSize(Sorted(Elems(Slashed(found))));
  }

  /** When the limit is hit, everything up to the directory read last is already too much. */
  lemma ClientOverflow(t: Total, stack: Stack, found: seq<Rel>, seen: nat, last: nat)
    requires ClientLedger(t, [], [], stack, found, seen) && BottomIs(stack, last) && stack != []
    ensures seen + last <= t.seen
  {
    FirstOnStack(stack);
    LastReadSeen(stack[0].0, stack[0].1);
  }

  /** The directory at the bottom of the stack leads to the one that is read last. */
  ghost predicate BottomIs(stack: Stack, last: nat) {
    stack != [] ==> LastRead(stack[0].0, stack[0].1) == last
  }

  lemma BottomNext(front: Stack, rel: Rel, entries: seq<DirEntry>, last: nat)
    requires BottomIs(front + [(rel, entries)], last)
    ensures BottomIs(front + SubDirs(rel, entries), last)
    ensures front + SubDirs(rel, entries) == [] ==> last == |entries|
  {
    var stack: Stack := front + [(rel, entries)];
    if front == [] {
      assert stack[0] == (rel, entries);
    } else {
      assert stack[0] == front[0];
    }
  }

  /** Lists the repository, sorted, every file that the rules keep exactly once. It succeeds exactly when
      nothing in the tree is a special file or has an unsafe path, and the entries of all directories
      other than the one read last stay below the limit, which is tested before each directory. */
  method ScanRepoFiles(entries: seq<DirEntry>) returns (r: Result<seq<Path>, WalkError>)
    requires NamesOk(entries)
    ensures r.Success? <==> ClientOk([], entries) && ClientSeen([], entries) - LastRead([], entries) < 200_000
    ensures r.Success? ==> exists files :: multiset(files) == FilesUnder(ClientKeeps, [], entries) && r.value == Sorted(Elems(Slashed(files)))
                                           && |r.value| == |files|
    ensures r.Success? ==> StrictlySorted(r.value)
  {
    ghost var t := ClientTotal(entries);
    ghost var last := LastRead([], entries);
    var stack: Stack := [([], entries)];
    var found: seq<Rel> := [];
    var seen: nat := 0;
    ClientStarts(entries);
    while stack != []
      invariant Walking(t, last, stack, found, seen)
      decreases StackSize(stack)
    {
      if seen >= MAX_REPO_ENTRIES {
        ClientOverflow(t, stack, found, seen, last);
        return Failure(TooManyEntries);
      }
      var top, front := stack[|stack| - 1], stack[..|stack| - 1];
      NextDirectory(t, last, stack, found, seen);
      var read := ClientReadDir(t, top.0, top.1, front, found, seen);
      if read.Failure? {
        return Failure(read.error);
      }
      stack, found, seen := read.value.0, read.value.1, read.value.2;
    }
    ClientEnds(entries, found, seen);
    return Success(Sorted(Elems(Slashed(found))));
  }

  /** Between two directories; when none is left, only the one read last was free of the limit. */
  ghost predicate Walking(t: Total, last: nat, stack: Stack, found: seq<Rel>, seen: nat) {
    ClientLedger(t, [], [], stack, found, seen) && BottomIs(stack, last) && (stack == [] ==> seen - last < MAX_REPO_ENTRIES)
  }

  lemma NextDirectory(t: Total, last: nat, stack: Stack, found: seq<Rel>, seen: nat)
    requires stack != [] && Walking(t, last, stack, found, seen)
    ensures var top, front := stack[|stack| - 1], stack[..|stack| - 1];
            && ClientLedger(t, top.0, top.1, front, found, seen)
            && StackSize(front) + Size(top.1) < StackSize(stack)
            && BottomIs(front + SubDirs(top.0, top.1), last)
            && (front + SubDirs(top.0, top.1) == [] ==> last == |top.1|)
  {
    var top := stack[|stack| - 1];
    assert stack == stack[..|stack| - 1] + [(top.0, top.1)];
    PopClient(t, [], stack[..|stack| - 1], top.0, top.1, found, seen);
    BottomNext(stack[..|stack| - 1], top.0, top.1, last);
  }
}
