/** Paths under `.jj/repo` that belong to one machine and never travel through the mirror. */
module MirrorExclude {
  import opened Paths
  import opened MirrorPath
  import opened OperationStore

  /** Ephemeral lock files, listed one by one. */
  const JJ_REPO_FILE_LOCK_PATHS: seq<Path> := [
    "git_import_export.lock",
    "op_heads/lock",
    "store/extra/lock",
    "workspace_store/index.lock"
  ]

  predicate ExcludedFromMirror(rel: Path) {
    || rel == "workspace_store"
    || "workspace_store/" <= rel
    || rel == "store/git_target"
    || rel == "config.toml"
    || rel == "config-id"
    || rel in JJ_REPO_FILE_LOCK_PATHS
  }

  predicate ExcludedFromGitFileMirror(rel: Path) {
    rel == "store/git" || "store/git/" <= rel
  }

  /** What manifests, pulls and the finalize step leave out. */
  predicate MachineLocal(rel: Path) {
    ExcludedFromMirror(rel) || ExcludedFromGitFileMirror(rel)
  }

  /** The subtree that only the client's scan skips. */
  predicate UnderDojjo(rel: Path) {
    rel == ".dojjo" || ".dojjo/" <= rel
  }

  /** What a client never uploads, compares or prunes. */
  predicate HostLocal(rel: Path) {
    MachineLocal(rel) || UnderDojjo(rel)
  }

  /** Operations, views and head markers always travel. */
  lemma ProtocolPathsTravel(p: Path)
    requires IsOp(p) || IsView(p) || IsHead(p)
    ensures !HostLocal(p)
  {
    assert p[0] == 'o';
    if IsHead(p) {
      assert p[9] == 'h';
    } else {
      assert p[3] == 's';
    }
  }

  // ---- the same by segments ----

  /** A file by its path, and by its segments. */
  lemma FileBySegments(rel: Rel, file: Rel, p: Path)
    requires Slashless(rel) && Slashless(file) && Slash(file) == p
    ensures Slash(rel) == p <==> rel == file
  {
    SamePathSameSegments(rel, file);
  }

  /** A directory and what is below it. */
  lemma TreeBySegments(rel: Rel, dir: Rel, p: Path)
    requires Slashless(rel) && Slashless(dir) && Slash(dir) == p
    ensures Slash(rel) == p || p + "/" <= Slash(rel) <==> |dir| <= |rel| && rel[..|dir|] == dir
  {
    SamePathSameSegments(rel, dir);
    BeginsWithSegments(rel, dir);
    if |dir| == |rel| {
      assert rel[..|dir|] == rel;
    }
  }

  lemma OpHeadsLock(rel: Rel)
    requires Slashless(rel)
    ensures Slash(rel) == "op_heads/lock" <==> rel == ["op_heads", "lock"]
  {
    SlashOfTwo("op_heads", "lock");
    FileBySegments(rel, ["op_heads", "lock"], "op_heads" + "/" + "lock");
  }

  lemma ExtraLock(rel: Rel)
    requires Slashless(rel)
    ensures Slash(rel) == "store/extra/lock" <==> rel == ["store", "extra", "lock"]
  {
    SlashOfThree("store", "extra", "lock");
    FileBySegments(rel, ["store", "extra", "lock"], "store" + "/" + "extra" + "/" + "lock");
  }

  lemma IndexLock(rel: Rel)
    requires Slashless(rel) && Slash(rel) == "workspace_store/index.lock"
    ensures rel[0] == "workspace_store"
  {
    SlashOfTwo("workspace_store", "index.lock");
    FileBySegments(rel, ["workspace_store", "index.lock"], "workspace_store" + "/" + "index.lock");
  }

  lemma GitTarget(rel: Rel)
    requires Slashless(rel)
    ensures Slash(rel) == "store/git_target" <==> rel == ["store", "git_target"]
  {
    SlashOfTwo("store", "git_target");
    FileBySegments(rel, ["store", "git_target"], "store" + "/" + "git_target");
  }

  lemma TopLevelFile(rel: Rel, name: string)
    requires Slashless(rel) && '/' !in name
    ensures Slash(rel) == name <==> rel == [name]
  {
    FileBySegments(rel, [name], name);
  }

  lemma LockPaths(p: Path)
    ensures p in JJ_REPO_FILE_LOCK_PATHS <==>
              || p == "git_import_export.lock" || p == "op_heads/lock" || p == "store/extra/lock" || p == "workspace_store/index.lock"
  {
    var l := JJ_REPO_FILE_LOCK_PATHS;
    assert p in l <==> p == l[0] || p == l[1] || p == l[2] || p == l[3];
  }

  lemma LocksBySegments(rel: Rel)
    requires Slashless(rel)
    ensures Slash(rel) in JJ_REPO_FILE_LOCK_PATHS ==>
              rel[0] == "workspace_store" || rel == ["git_import_export.lock"] || rel == ["op_heads", "lock"] || rel == ["store", "extra", "lock"]
    ensures rel == ["git_import_export.lock"] || rel == ["op_heads", "lock"] || rel == ["store", "extra", "lock"] ==>
              Slash(rel) in JJ_REPO_FILE_LOCK_PATHS
  {
    LockPaths(Slash(rel));
    TopLevelFile(rel, "git_import_export.lock");
    OpHeadsLock(rel);
    ExtraLock(rel);
    if Slash(rel) == "workspace_store/index.lock" {
      IndexLock(rel);
    }
  }

  lemma WorkspaceStoreBySegments(rel: Rel)
    requires Slashless(rel)
    ensures Slash(rel) == "workspace_store" || "workspace_store/" <= Slash(rel) <==> rel[0] == "workspace_store"
  {
    TreeBySegments(rel, ["workspace_store"], "workspace_store");
    assert "workspace_store" + "/" == "workspace_store/";
    assert rel[..1] == [rel[0]];
  }

  lemma BelowTwo(rel: Rel, a: string, b: string, prefix: Path)
    requires Slashless(rel) && '/' !in a && '/' !in b && prefix == a + "/" + b + "/"
    ensures prefix <= Slash(rel) <==> |rel| > 2 && rel[0] == a && rel[1] == b
  {
    SlashOfTwo(a, b);
    BeginsWithSegments(rel, [a, b]);
    assert |rel| > 2 ==> rel[..2] == [rel[0], rel[1]];
  }

  lemma TwoNames(rel: Rel, a: string, b: string)
    ensures rel == [a, b] <==> |rel| == 2 && rel[0] == a && rel[1] == b
  {
  }

  lemma PathOfTwo(rel: Rel, a: string, b: string, p: Path)
    requires Slashless(rel) && '/' !in a && '/' !in b && p == a + "/" + b
    ensures Slash(rel) == p <==> |rel| == 2 && rel[0] == a && rel[1] == b
  {
    SlashOfTwo(a, b);
    FileBySegments(rel, [a, b], p);
    TwoNames(rel, a, b);
  }

  lemma GitStoreItself(rel: Rel)
    requires Slashless(rel)
    ensures Slash(rel) == "store/git" <==> |rel| == 2 && rel[0] == "store" && rel[1] == "git"
  {
    var path := GitStorePath();
    PathOfTwo(rel, "store", "git", path);
  }

  lemma GitStorePath() returns (path: Path)
    ensures path == "store/git" && path == "store" + "/" + "git" && '/' !in "store" && '/' !in "git"
  {
    path := "store/git";
  }

  lemma GitStorePrefix() returns (below: Path)
    ensures below == "store/git/" && below == "store" + "/" + "git" + "/" && '/' !in "store" && '/' !in "git"
  {
    below := "store/git/";
  }

  lemma BelowGitStore(rel: Rel)
    requires Slashless(rel)
    ensures "store/git/" <= Slash(rel) <==> |rel| > 2 && rel[0] == "store" && rel[1] == "git"
  {
    var below := GitStorePrefix();
    BelowTwo(rel, "store", "git", below);
  }

  lemma GitStoreBySegments(rel: Rel)
    requires Slashless(rel)
    ensures ExcludedFromGitFileMirror(Slash(rel)) <==> |rel| >= 2 && rel[0] == "store" && rel[1] == "git"
  {
    GitStoreItself(rel);
    BelowGitStore(rel);
  }

  lemma ExcludedBySegments(rel: Rel)
    requires Slashless(rel)
    ensures ExcludedFromMirror(Slash(rel)) <==>
              || rel[0] == "workspace_store"
              || rel == ["store", "git_target"] || rel == ["config.toml"] || rel == ["config-id"]
              || rel == ["git_import_export.lock"] || rel == ["op_heads", "lock"] || rel == ["store", "extra", "lock"]
  {
    WorkspaceStoreBySegments(rel);
    GitTarget(rel);
    TopLevelFile(rel, "config.toml");
    TopLevelFile(rel, "config-id");
    LocksBySegments(rel);
  }

  /** What stays on its machine, segment by segment: everything in `workspace_store` and `store/git`, and six
      single files. */
  lemma MachineLocalBySegments(rel: Rel)
    requires Slashless(rel)
    ensures MachineLocal(Slash(rel)) <==>
              || rel[0] == "workspace_store"
              || (|rel| >= 2 && rel[0] == "store" && rel[1] == "git")
              || rel == ["store", "git_target"] || rel == ["config.toml"] || rel == ["config-id"]
              || rel == ["git_import_export.lock"] || rel == ["op_heads", "lock"] || rel == ["store", "extra", "lock"]
  {
    ExcludedBySegments(rel);
    GitStoreBySegments(rel);
  }

  lemma KindNames()
    ensures OP_PREFIX == "op_store" + "/" + "operations" + "/"
    ensures VIEW_PREFIX == "op_store" + "/" + "views" + "/"
    ensures HEAD_PREFIX == "op_heads" + "/" + "heads" + "/"
    ensures '/' !in "op_store" && '/' !in "operations" && '/' !in "views" && '/' !in "op_heads" && '/' !in "heads"
  {
  }

  lemma OperationBySegments(rel: Rel)
    requires Slashless(rel)
    ensures IsOp(Slash(rel)) <==> |rel| > 2 && rel[0] == "op_store" && rel[1] == "operations"
  {
    KindNames();
    BelowTwo(rel, "op_store", "operations", OP_PREFIX);
  }

  lemma ViewBySegments(rel: Rel)
    requires Slashless(rel)
    ensures IsView(Slash(rel)) <==> |rel| > 2 && rel[0] == "op_store" && rel[1] == "views"
  {
    KindNames();
    BelowTwo(rel, "op_store", "views", VIEW_PREFIX);
  }

  lemma HeadBySegments(rel: Rel)
    requires Slashless(rel)
    ensures IsHead(Slash(rel)) <==> |rel| > 2 && rel[0] == "op_heads" && rel[1] == "heads"
  {
    KindNames();
    BelowTwo(rel, "op_heads", "heads", HEAD_PREFIX);
  }

  /** The subtree that only the client skips is the top-level directory `.dojjo`. */
  lemma DojjoBySegments(rel: Rel)
    requires Slashless(rel)
    ensures UnderDojjo(Slash(rel)) <==> rel[0] == ".dojjo"
  {
    TreeBySegments(rel, [".dojjo"], ".dojjo");
    assert ".dojjo" + "/" == ".dojjo/";
    assert rel[..1] == [rel[0]];
  }
}
