/** Runs of `dojjo create` that crash in each of its three delicate windows, and one that is refused late. */
module CreateCrashes {
  import opened Results
  import opened SyncPlan
  import opened CreateResume

  // ---- building runs ----

  ghost predicate EndsAt(pr: Project, b: seq<Machine>, m: Machine) {
    Run(pr, b) && b[|b| - 1] == m
  }

  ghost predicate Reachable(pr: Project, m: Machine) {
    exists b: seq<Machine> :: EndsAt(pr, b, m)
  }

  lemma Extend(pr: Project, m: Machine, m': Machine)
    requires Reachable(pr, m) && StepOrCrash(pr, m, m')
    ensures Reachable(pr, m')
  {
    var b :| EndsAt(pr, b, m);
    var longer := b + [m'];
    forall i | 0 < i < |longer| ensures StepAt(pr, longer, i) {
      if i < |b| {
        RunStep(pr, b, i);
      }
    }
    assert EndsAt(pr, longer, m');
  }

  lemma Advance(pr: Project, d: Disk, pc: Pc, d': Disk, pc': Pc)
    requires Reachable(pr, Machine(d, pc)) && Step(pr, d, pc) == (d', pc')
    ensures Reachable(pr, Machine(d', pc'))
  {
    Extend(pr, Machine(d, pc), Machine(d', pc'));
  }

  lemma Crash(pr: Project, d: Disk, pc: Pc)
    requires Reachable(pr, Machine(d, pc))
    ensures Reachable(pr, Machine(d, Start))
  {
    Extend(pr, Machine(d, pc), Machine(d, Start));
  }

  // ---- the first create on a machine ----

  const UNTOUCHED: Disk := Disk(UserFolder, None, true, NoSentinel, map[], 0, map[])

  /** The disk while dojo 0 is being created. */
  function Creating(user: UserRepo, named: bool, sentinel: Sentinel, h: Home, dojo: Dojo): Disk {
    Disk(user, Some(0), !named, sentinel, map[0 := h], 1, map[0 := dojo])
  }

  const EMPTY_DOJO: Dojo := Dojo(false, map[])

  function Registered0(repo: HostRepo): Home {
    Home(Some(ServerRegistered), false, false, repo)
  }

  lemma ReachUntouched(pr: Project)
    ensures Reachable(pr, Machine(UNTOUCHED, Start))
  {
    assert EndsAt(pr, [Machine(UNTOUCHED, Start)], Machine(UNTOUCHED, Start));
  }

  lemma ReachLinked(pr: Project)
    ensures Reachable(pr, Machine(Creating(UserFolder, false, NoSentinel, Home(None, false, false, HostAbsent), EMPTY_DOJO), Linked(0)))
  {
    ReachUntouched(pr);
    var d1 := UNTOUCHED.(registered := 1, dojos := map[0 := EMPTY_DOJO]);
    assert FindResumable(UNTOUCHED) == NoCreate;
    assert map[][0 := EMPTY_DOJO] == map[0 := EMPTY_DOJO];
    Advance(pr, UNTOUCHED, Start, d1, Registered(0));
    var d2 := d1.(homes := map[0 := Home(None, false, false, HostAbsent)]);
    Advance(pr, d1, Registered(0), d2, HomeMade(0));
    Advance(pr, d2, HomeMade(0), d2.(link := Some(0)), Linked(0));
  }

  lemma HomeReplaced(user: UserRepo, named: bool, sentinel: Sentinel, h: Home, dojo: Dojo, h': Home)
    ensures SetHome(Creating(user, named, sentinel, h, dojo), 0, h') == Creating(user, named, sentinel, h', dojo)
    ensures HomeOf(Creating(user, named, sentinel, h, dojo), 0) == h
    ensures DojoOf(Creating(user, named, sentinel, h, dojo), 0) == dojo
  {
    assert map[0 := h][0 := h'] == map[0 := h'];
  }

  lemma ReachRename(pr: Project)
    ensures Reachable(pr, Machine(Creating(UserFolder, false, NoSentinel, Registered0(HostAbsent), EMPTY_DOJO), RenameUser(0)))
  {
    ReachLinked(pr);
    var d := Creating(UserFolder, false, NoSentinel, Home(None, false, false, HostAbsent), EMPTY_DOJO);
    var d' := Creating(UserFolder, false, NoSentinel, Registered0(HostAbsent), EMPTY_DOJO);
    HomeReplaced(UserFolder, false, NoSentinel, Home(None, false, false, HostAbsent), EMPTY_DOJO, Registered0(HostAbsent));
    Advance(pr, d, Linked(0), d', Resume(0, ServerRegistered));
    Advance(pr, d', Resume(0, ServerRegistered), d', Ensure(0));
    Advance(pr, d', Ensure(0), d', RenameUser(0));
  }

  lemma ReachFreeze(pr: Project)
    ensures Reachable(pr, Machine(Creating(UserFolder, true, Added, Registered0(HostPointer), EMPTY_DOJO), FreezeSentinel(0)))
  {
    ReachRename(pr);
    var d := Creating(UserFolder, false, NoSentinel, Registered0(HostAbsent), EMPTY_DOJO);
    var d' := Creating(UserFolder, true, NoSentinel, Registered0(HostAbsent), EMPTY_DOJO);
    Advance(pr, d, RenameUser(0), d', AddSentinel(0));
    HomeReplaced(UserFolder, true, NoSentinel, Registered0(HostAbsent), EMPTY_DOJO, Registered0(HostPointer));
    Advance(pr, d', AddSentinel(0), Creating(UserFolder, true, Added, Registered0(HostPointer), EMPTY_DOJO), FreezeSentinel(0));
  }

  lemma ReachMove(pr: Project)
    ensures Reachable(pr, Machine(Creating(UserFolder, true, Frozen, Registered0(HostAbsent), EMPTY_DOJO), MoveRepo(0)))
  {
    ReachFreeze(pr);
    var d := Creating(UserFolder, true, Added, Registered0(HostPointer), EMPTY_DOJO);
    var d' := Creating(UserFolder, true, Frozen, Registered0(HostPointer), EMPTY_DOJO);
    Advance(pr, d, FreezeSentinel(0), d', ClearDest(0));
    HomeReplaced(UserFolder, true, Frozen, Registered0(HostPointer), EMPTY_DOJO, Registered0(HostAbsent));
    Advance(pr, d', ClearDest(0), Creating(UserFolder, true, Frozen, Registered0(HostAbsent), EMPTY_DOJO), MoveRepo(0));
  }

  lemma ReachPointer(pr: Project)
    ensures Reachable(pr, Machine(Creating(UserAbsent, true, Frozen, Registered0(HostFolder), EMPTY_DOJO), WritePointer(0)))
  {
    ReachMove(pr);
    HomeReplaced(UserFolder, true, Frozen, Registered0(HostAbsent), EMPTY_DOJO, Registered0(HostFolder));
    Advance(pr, Creating(UserFolder, true, Frozen, Registered0(HostAbsent), EMPTY_DOJO), MoveRepo(0),
            Creating(UserAbsent, true, Frozen, Registered0(HostFolder), EMPTY_DOJO), WritePointer(0));
  }

  lemma ReachPush(pr: Project)
    ensures Reachable(pr, Machine(Creating(UserPointer(0), true, Frozen, Home(Some(Rehomed), false, false, HostFolder), EMPTY_DOJO), PushGit(0)))
  {
    ReachPointer(pr);
    var d := Creating(UserPointer(0), true, Frozen, Registered0(HostFolder), EMPTY_DOJO);
    Advance(pr, Creating(UserAbsent, true, Frozen, Registered0(HostFolder), EMPTY_DOJO), WritePointer(0), d, SaveRehomed(0));
    HomeReplaced(UserPointer(0), true, Frozen, Registered0(HostFolder), EMPTY_DOJO, Home(Some(Rehomed), false, false, HostFolder));
    Advance(pr, d, SaveRehomed(0), Creating(UserPointer(0), true, Frozen, Home(Some(Rehomed), false, false, HostFolder), EMPTY_DOJO), PushGit(0));
  }

  const PUSHED: Home := Home(Some(GitPushed), false, false, HostFolder)

  lemma ReachFetch(pr: Project)
    ensures Reachable(pr, Machine(Uploaded0(map[]), FetchBase(0)))
  {
    ReachPush(pr);
    var h := Home(Some(Rehomed), false, false, HostFolder);
    var d := Creating(UserPointer(0), true, Frozen, h, EMPTY_DOJO);
    var d1 := Creating(UserPointer(0), true, Frozen, h, Dojo(true, map[]));
    HomeReplaced(UserPointer(0), true, Frozen, h, EMPTY_DOJO, PUSHED);
    assert map[0 := EMPTY_DOJO][0 := Dojo(true, map[])] == map[0 := Dojo(true, map[])];
    Advance(pr, d, PushGit(0), d1, SaveGitPushed(0));
    HomeReplaced(UserPointer(0), true, Frozen, h, Dojo(true, map[]), PUSHED);
    Advance(pr, d1, SaveGitPushed(0), Uploaded0(map[]), FetchBase(0));
  }

  lemma ReachUploading(pr: Project)
    requires Publishable(pr)
    ensures Reachable(pr, Machine(Uploaded0(map[]), Uploading(0, map[], 0)))
  {
    ReachFetch(pr);
    HomeReplaced(UserPointer(0), true, Frozen, PUSHED, Dojo(true, map[]), PUSHED);
    Advance(pr, Uploaded0(map[]), FetchBase(0), Uploaded0(map[]), Uploading(0, map[], 0));
  }

  function Uploaded0(mirror: Files): Disk {
    Creating(UserPointer(0), true, Frozen, PUSHED, Dojo(true, mirror))
  }

  lemma UploadNext(pr: Project, mirror: Files, i: nat)
    requires Publishable(pr) && i < |Order(pr)|
    ensures Order(pr)[i] in pr.files
    ensures Step(pr, Uploaded0(mirror), Uploading(0, map[], i))
            == (Uploaded0(mirror[Order(pr)[i] := pr.files[Order(pr)[i]]]), Uploading(0, map[], i + 1))
  {
    FirstFilesNext(pr, i);
    var next := Dojo(true, mirror[Order(pr)[i] := pr.files[Order(pr)[i]]]);
    assert map[0 := Dojo(true, mirror)][0 := next] == map[0 := next];
  }

  lemma {:induction false} ReachConfig(pr: Project, mirror0: Files, i: nat) returns (mirror: Files)
    requires Publishable(pr) && i <= |Order(pr)| && Reachable(pr, Machine(Uploaded0(mirror0), Uploading(0, map[], i)))
    ensures Reachable(pr, Machine(Uploaded0(mirror), SaveConfig(0)))
    decreases |Order(pr)| - i
  {
    if i == |Order(pr)| {
      mirror := mirror0;
      Advance(pr, Uploaded0(mirror), Uploading(0, map[], i), Uploaded0(mirror), SaveConfig(0));
    } else {
      UploadNext(pr, mirror0, i);
      var next := mirror0[Order(pr)[i] := pr.files[Order(pr)[i]]];
      Advance(pr, Uploaded0(mirror0), Uploading(0, map[], i), Uploaded0(next), Uploading(0, map[], i + 1));
      mirror := ReachConfig(pr, next, i + 1);
    }
  }

  // ---- the three crashes ----

  /** A run that crashes between the directory rename and the pointer write. */
  lemma LostRepoIsReachable(pr: Project) returns (b: seq<Machine>)
    ensures Run(pr, b) && b[|b| - 1].disk.user == UserAbsent && b[|b| - 1].pc == Start
  {
    var d := Creating(UserAbsent, true, Frozen, Registered0(HostFolder), EMPTY_DOJO);
    ReachPointer(pr);
    Crash(pr, d, WritePointer(0));
    b :| EndsAt(pr, b, Machine(d, Start));
  }

  /** A run that crashes between the two commands that make the sentinel. */
  lemma HalfAddedIsReachable(pr: Project) returns (b: seq<Machine>)
    ensures Run(pr, b) && b[|b| - 1].pc == Start && HalfAdded(b[|b| - 1])
  {
    var d := Creating(UserFolder, true, Added, Registered0(HostPointer), EMPTY_DOJO);
    ReachFreeze(pr);
    Crash(pr, d, FreezeSentinel(0));
    b :| EndsAt(pr, b, Machine(d, Start));
  }

  /** A run that crashes right after the config file and whose re-run reports success without having saved
      the sync state or cleared the progress file. */
  lemma UnsavedSuccessIsReachable(pr: Project) returns (b: seq<Machine>)
    requires Publishable(pr)
    ensures Run(pr, b) && |b| >= 2
    ensures b[|b| - 2].pc == Start && b[|b| - 1].pc.Finished?
    ensures var h := HomeOf(b[|b| - 1].disk, b[|b| - 1].pc.id); h.config && !h.saved && h.progress.Some?
  {
    ReachUploading(pr);
    var mirror := ReachConfig(pr, map[], 0);
    var h := PUSHED.(config := true);
    var d := Creating(UserPointer(0), true, Frozen, h, Dojo(true, mirror));
    HomeReplaced(UserPointer(0), true, Frozen, PUSHED, Dojo(true, mirror), h);
    Advance(pr, Uploaded0(mirror), SaveConfig(0), d, WriteLink(0));
    Crash(pr, d, WriteLink(0));
    var a :| EndsAt(pr, a, Machine(d, Start));
    HomeReplaced(UserPointer(0), true, Frozen, h, Dojo(true, mirror), h);
    assert Step(pr, d, Start) == (d, Finished(0));
    b := a + [Machine(d, Finished(0))];
    forall i | 0 < i < |b| ensures StepAt(pr, b, i) {
      if i < |a| {
        RunStep(pr, a, i);
      }
    }
  }

  /** A project that cannot be published is found out late: here is a run that fails when the workspace has
      been renamed, the repository moved and git pushed. */
  lemma RefusedAfterRehoming(pr: Project) returns (b: seq<Machine>)
    requires !Publishable(pr)
    ensures Run(pr, b) && b[|b| - 1].pc == Erred
    ensures var d := b[|b| - 1].disk; Level(d, 0) == 3 && d.user == UserPointer(0) && !d.userIsDefault && DojoOf(d, 0).git
  {
    ReachFetch(pr);
    HomeReplaced(UserPointer(0), true, Frozen, PUSHED, Dojo(true, map[]), PUSHED);
    Advance(pr, Uploaded0(map[]), FetchBase(0), Uploaded0(map[]), Erred);
    b :| EndsAt(pr, b, Machine(Uploaded0(map[]), Erred));
  }
}
