/** `dojjo create` as a machine over the disk and the server: one atomic effect per step, a crash
    possible before every step, and a re-run that starts again from what is on disk. */
module CreateResume {
  import opened Results
  import opened Paths
  import opened OperationStore
  import opened Toposort
  import opened MirrorApplyOrder
  import opened MirrorExclude
  import opened Manifests
  import opened SyncPlan

  /** The project being published; its repository does not change while create runs. */
  datatype Project = Project(files: Files, decode: Decoder)

  datatype CreatePhase = ServerRegistered | Rehomed | GitPushed

  /** The entry `.jj/repo`: missing, the physical directory, or a pointer file. */
  datatype UserRepo = UserAbsent | UserFolder | UserPointer(dojo: nat)
  datatype HostRepo = HostAbsent | HostFolder | HostPointer

  /** The jj workspace named `default` that create adds as a sentinel. */
  datatype Sentinel = NoSentinel | Added | Frozen

  /** The directory of one dojo on this machine. */
  datatype Home = Home(progress: Option<CreatePhase>, config: bool, saved: bool, repo: HostRepo)

  /** One dojo on the server. */
  datatype Dojo = Dojo(git: bool, mirror: Files)

  datatype Disk = Disk(
    user: UserRepo,
    link: Option<nat>,
    userIsDefault: bool,
    sentinel: Sentinel,
    homes: map<nat, Home>,
    registered: nat,
    dojos: map<nat, Dojo>)

  /** Where a run of the program stands; lost in a crash. */
  datatype Pc =
    | Start
    | Registered(id: nat)
    | HomeMade(id: nat)
    | Linked(id: nat)
    | Resume(id: nat, phase: CreatePhase)
    | Ensure(id: nat)
    | RenameUser(id: nat)
    | AddSentinel(id: nat)
    | FreezeSentinel(id: nat)
    | ClearDest(id: nat)
    | MoveRepo(id: nat)
    | WritePointer(id: nat)
    | SaveRehomed(id: nat)
    | PushGit(id: nat)
    | SaveGitPushed(id: nat)
    | FetchBase(id: nat)
    | Uploading(id: nat, base: Files, i: nat)
    | SaveConfig(id: nat)
    | WriteLink(id: nat)
    | Verify(id: nat)
    | SaveState(id: nat)
    | ClearProgress(id: nat)
    | Finished(id: nat)
    | Erred

  // ---- the upload order ----

  function Scanned(pr: Project): set<Path> {
    set p | p in pr.files && !HostLocal(p)
  }

  function Order(pr: Project): seq<Path> {
    ApplyOrder(pr.files, pr.decode, Scanned(pr))
  }

  /** The scan of the repository passes and its apply order can be computed. */
  ghost predicate Publishable(pr: Project) {
    Scans(pr.files) && Orderable(pr.files, pr.decode, Scanned(pr))
  }

  /** The first `k` files in upload order. */
  function FirstFiles(pr: Project, k: nat): Files {
    if k <= |Order(pr)| then map p | p in Elems(Order(pr)[..k]) && p in pr.files :: pr.files[p] else map[]
  }

  ghost predicate FullyUploaded(pr: Project, mirror: Files) {
    forall p | p in Scanned(pr) :: p in mirror && mirror[p] == pr.files[p]
  }

  // ---- finding the create to resume ----

  datatype Found = NoCreate | Create(id: nat) | Broken

  predicate InProgress(d: Disk, id: nat) {
    id in d.homes && !d.homes[id].config && d.homes[id].progress.Some?
  }

  function HostRepoOf(d: Disk, id: nat): HostRepo {
    if id in d.homes then d.homes[id].repo else HostAbsent
  }

  /** By the link file first, then by scanning the homes for progress of this workspace. */
  function FindResumable(d: Disk): Found {
    match d.link
    case Some(id) =>
      if id in d.homes && (d.homes[id].config || d.homes[id].progress.Some?) then Create(id)
      else if d.user.UserPointer? && HostRepoOf(d, id) == HostAbsent then Broken
      else if HostRepoOf(d, id) == HostPointer then Broken
      else if d.user == UserPointer(id) || HostRepoOf(d, id) == HostFolder then Create(id)
      else ScanHomes(d)
    case None => ScanHomes(d)
  }

  function ScanHomes(d: Disk): Found {
    ScanFrom(d, d.registered)
  }

  /** Any home with progress will do; there is never more than one. */
  function ScanFrom(d: Disk, below: nat): Found {
    if below == 0 then NoCreate
    else if InProgress(d, below - 1) then Create(below - 1)
    else ScanFrom(d, below - 1)
  }

  /** The saved phase, or what the layout on disk shows when none was saved. */
  function ResumePhase(d: Disk, id: nat): CreatePhase {
    if id in d.homes && d.homes[id].progress.Some? then d.homes[id].progress.value
    else if d.user == UserPointer(id) && HostRepoOf(d, id) == HostFolder then Rehomed
    else ServerRegistered
  }

  // ---- one step ----

  function SetHome(d: Disk, id: nat, h: Home): Disk {
    d.(homes := d.homes[id := h])
  }

  function HomeOf(d: Disk, id: nat): Home {
    if id in d.homes then d.homes[id] else Home(None, false, false, HostAbsent)
  }

  function DojoOf(d: Disk, id: nat): Dojo {
    if id in d.dojos then d.dojos[id] else Dojo(false, map[])
  }

  ghost function Step(pr: Project, d: Disk, pc: Pc): (Disk, Pc) {
    match pc
    case Start => StartStep(d)
    case Registered(id) => (SetHome(d, id, HomeOf(d, id)), HomeMade(id))
    case HomeMade(id) => (d.(link := Some(id)), Linked(id))
    case Linked(id) => (SetHome(d, id, HomeOf(d, id).(progress := Some(ServerRegistered))), Resume(id, ServerRegistered))
    case Resume(id, phase) =>
      if phase == ServerRegistered then (d, Ensure(id))
      else if HostRepoOf(d, id) != HostFolder then (d, Erred)
      else if phase == Rehomed then (d, PushGit(id))
      else (d, FetchBase(id))
    case Ensure(id) =>
      if d.user == UserPointer(id) && HostRepoOf(d, id) == HostFolder then (d, SaveRehomed(id))
      else if d.user == UserFolder then (d, RenameUser(id))
      else (d, Erred)
    case RenameUser(id) => (d.(userIsDefault := false), AddSentinel(id))
    case AddSentinel(id) =>
      if d.sentinel == NoSentinel
      then (SetHome(d, id, HomeOf(d, id).(repo := HostPointer)).(sentinel := Added), FreezeSentinel(id))
      else (d, ClearDest(id))
    case FreezeSentinel(id) => (d.(sentinel := Frozen), ClearDest(id))
    case ClearDest(id) => (SetHome(d, id, HomeOf(d, id).(repo := HostAbsent)), MoveRepo(id))
    case MoveRepo(id) =>
      if d.user != UserFolder then (d, Erred)
      else (SetHome(d, id, HomeOf(d, id).(repo := HostFolder)).(user := UserAbsent), WritePointer(id))
    case WritePointer(id) => (d.(user := UserPointer(id)), SaveRehomed(id))
    case SaveRehomed(id) => (SetHome(d, id, HomeOf(d, id).(progress := Some(Rehomed))), PushGit(id))
    case PushGit(id) => (d.(dojos := d.dojos[id := DojoOf(d, id).(git := true)]), SaveGitPushed(id))
    case SaveGitPushed(id) => (SetHome(d, id, HomeOf(d, id).(progress := Some(GitPushed))), FetchBase(id))
    case FetchBase(id) => if Publishable(pr) then (d, Uploading(id, DojoOf(d, id).mirror, 0)) else (d, Erred)
    case Uploading(id, base, i) => UploadStep(pr, d, id, base, i)
    case SaveConfig(id) => (SetHome(d, id, HomeOf(d, id).(config := true)), WriteLink(id))
    case WriteLink(id) => (d.(link := Some(id)), Verify(id))
    case Verify(id) => (d, if Matches(pr, DojoOf(d, id).mirror, |Order(pr)|) then SaveState(id) else Erred)
    case SaveState(id) => (SetHome(d, id, HomeOf(d, id).(saved := true)), ClearProgress(id))
    case ClearProgress(id) => (SetHome(d, id, HomeOf(d, id).(progress := None)), Finished(id))
    case Finished(_) => (d, pc)
    case Erred => (d, pc)
  }

  function StartStep(d: Disk): (Disk, Pc) {
    if d.user == UserAbsent then (d, Erred)
    else match FindResumable(d)
      case Broken => (d, Erred)
      case Create(id) => (d, if HomeOf(d, id).config then Finished(id) else Resume(id, ResumePhase(d, id)))
      case NoCreate =>
        var id := d.registered;
        (d.(registered := id + 1, dojos := d.dojos[id := Dojo(false, map[])]), Registered(id))
  }

  /** Skips a file that the manifest fetched beforehand lists with the same content. */
  function UploadStep(pr: Project, d: Disk, id: nat, base: Files, i: nat): (Disk, Pc) {
    if i >= |Order(pr)| then (d, SaveConfig(id))
    else
      var rel := Order(pr)[i];
      if rel !in pr.files then (d, Erred)
      else if rel in base && EntryOf(base[rel]) == EntryOf(pr.files[rel]) then (d, Uploading(id, base, i + 1))
      else
        var dojo := DojoOf(d, id);
        (d.(dojos := d.dojos[id := dojo.(mirror := dojo.mirror[rel := pr.files[rel]])]), Uploading(id, base, i + 1))
  }

  /** The check after the upload: every file is listed with its size and hash. */
  predicate Matches(pr: Project, mirror: Files, k: nat)
    requires k <= |Order(pr)|
  {
    forall p | p in Order(pr)[..k] :: p in pr.files && p in mirror && EntryOf(mirror[p]) == EntryOf(pr.files[p])
  }

  // ---- the invariant of the disk ----

  /** How far a dojo has come; it never goes back. */
  function Level(d: Disk, id: nat): nat {
    if id !in d.homes then 0
    else if d.homes[id].config then 4
    else match d.homes[id].progress
      case None => 0
      case Some(ServerRegistered) => 1
      case Some(Rehomed) => 2
      case Some(GitPushed) => 3
  }

  /** The repository was moved for `id` before progress was saved anywhere: what an older version leaves. */
  predicate Legacy(d: Disk, id: nat) {
    Level(d, id) == 0 && d.link == Some(id) && d.user == UserPointer(id) && HostRepoOf(d, id) == HostFolder
  }

  ghost predicate HomeInv(pr: Project, d: Disk, id: nat)
  {
    var level := Level(d, id);
    && id < d.registered && id in d.dojos
    && (level >= 1 ==> d.link == Some(id))
    && (level >= 2 ==> d.user == UserPointer(id) && HostRepoOf(d, id) == HostFolder)
    && (level >= 3 ==> DojoOf(d, id).git)
    && (level == 4 ==> FullyUploaded(pr, DojoOf(d, id).mirror))
    && (HostRepoOf(d, id) == HostPointer ==> level == 1 && d.user == UserFolder)
    && (HostRepoOf(d, id) == HostFolder ==> && (d.user == UserPointer(id) || (d.user == UserAbsent && level == 1))
                                            && (level >= 1 || Legacy(d, id)))
    && (d.user == UserPointer(id) ==> HostRepoOf(d, id) == HostFolder)
  }

  /** The mirror holds the first files of the upload order and nothing else. */
  ghost predicate PartialUpload(pr: Project, mirror: Files) {
    exists k | 0 <= k <= |Order(pr)| :: mirror == FirstFiles(pr, k)
  }

  ghost predicate DojosInv(pr: Project, d: Disk) {
    forall id | id in d.dojos :: id < d.registered && PartialUpload(pr, d.dojos[id].mirror)
  }

  ghost predicate DiskInv(pr: Project, d: Disk) {
    && (forall id | id in d.homes :: HomeInv(pr, d, id))
    && DojosInv(pr, d)
    && (d.user.UserPointer? ==> d.user.dojo in d.homes && d.link == Some(d.user.dojo))
    && (d.user == UserAbsent ==> d.link.Some? && d.link.value in d.homes && HostRepoOf(d, d.link.value) == HostFolder)
  }

  /** What a run knows at each of its steps. */
  ghost predicate PcInv(pr: Project, d: Disk, pc: Pc) {
    match pc
    case Start => true
    case Registered(id) => Fresh(d, id) && id !in d.homes
    case HomeMade(id) => Fresh(d, id) && id in d.homes && d.homes[id] == Home(None, false, false, HostAbsent)
    case Linked(id) => Fresh(d, id) && id in d.homes && d.homes[id] == Home(None, false, false, HostAbsent) && d.link == Some(id)
    case Resume(id, phase) => id in d.homes && Current(d, id) && phase == ResumePhase(d, id) && d.user != UserAbsent
    case Ensure(id) => id in d.homes && Level(d, id) == 1 && d.user != UserAbsent
    case RenameUser(id) => Moving(d, id)
    case AddSentinel(id) => Moving(d, id)
    case FreezeSentinel(id) => Moving(d, id)
    case ClearDest(id) => Moving(d, id)
    case MoveRepo(id) => Moving(d, id)
    case WritePointer(id) => id in d.homes && Level(d, id) == 1 && d.user == UserAbsent && HostRepoOf(d, id) == HostFolder
    case SaveRehomed(id) => id in d.homes && Level(d, id) == 1 && d.user == UserPointer(id)
    case PushGit(id) => id in d.homes && Level(d, id) < 4 && d.user == UserPointer(id)
    case SaveGitPushed(id) => id in d.homes && Level(d, id) < 4 && d.user == UserPointer(id) && DojoOf(d, id).git
    case FetchBase(id) => id in d.homes && Level(d, id) == 3
    case Uploading(id, base, i) =>
      Publishable(pr) && id in d.homes && Level(d, id) == 3 && i <= |Order(pr)| && UploadInv(pr, DojoOf(d, id).mirror, base, i)
    case SaveConfig(id) => Publishable(pr) && id in d.homes && Level(d, id) == 3 && FullyUploaded(pr, DojoOf(d, id).mirror)
    case WriteLink(id) => Publishable(pr) && id in d.homes && Level(d, id) == 4
    case Verify(id) => Publishable(pr) && id in d.homes && Level(d, id) == 4
    case SaveState(id) => id in d.homes && Level(d, id) == 4
    case ClearProgress(id) => id in d.homes && Level(d, id) == 4
    case Finished(id) => id in d.homes && Level(d, id) == 4
    case Erred => d.user == UserAbsent || !Publishable(pr)
  }

  predicate Current(d: Disk, id: nat) {
    (1 <= Level(d, id) <= 3) || Legacy(d, id)
  }

  predicate Moving(d: Disk, id: nat) {
    id in d.homes && Level(d, id) == 1 && d.user == UserFolder
  }

  /** A dojo just registered, on a machine where no create is under way. */
  ghost predicate Fresh(d: Disk, id: nat) {
    && id < d.registered && id in d.dojos && d.user == UserFolder
    && forall other | other in d.homes :: Level(d, other) == 0 && HostRepoOf(d, other) == HostAbsent
  }

  ghost predicate Inv(pr: Project, d: Disk, pc: Pc) {
    DiskInv(pr, d) && PcInv(pr, d, pc)
  }

  // ---- uploads are prefixes ----

  lemma OrderElems(pr: Project)
    requires Publishable(pr)
    ensures Distinct(Order(pr)) && Elems(Order(pr)) == Scanned(pr)
  {
    ApplyOrderPermutes(pr.files, pr.decode, Scanned(pr));
  }

  lemma FirstFilesGrow(pr: Project, order: seq<Path>, i: nat)
    requires order == Order(pr) && Distinct(order) && Elems(order) <= pr.files.Keys && i < |order|
    ensures order[i] in pr.files
    ensures FirstFiles(pr, i + 1) == FirstFiles(pr, i)[order[i] := pr.files[order[i]]]
    ensures forall k: nat | k <= |order| :: order[i] in FirstFiles(pr, k) <==> i < k
  {
    assert order[i] in Elems(order);
    assert order[..i + 1] == order[..i] + [order[i]];
    ElemsConcat(order[..i], [order[i]]);
    assert forall k: nat | k <= |order| :: order[i] in order[..k] <==> i < k;
  }

  lemma FirstFilesNext(pr: Project, i: nat)
    requires Publishable(pr) && i < |Order(pr)|
    ensures Order(pr)[i] in pr.files
    ensures FirstFiles(pr, i + 1) == FirstFiles(pr, i)[Order(pr)[i] := pr.files[Order(pr)[i]]]
    ensures forall k: nat | k <= |Order(pr)| :: Order(pr)[i] in FirstFiles(pr, k) <==> i < k
  {
    OrderElems(pr);
    FirstFilesGrow(pr, Order(pr), i);
  }

  lemma AllFiles(pr: Project, k: nat)
    requires Publishable(pr) && k == |Order(pr)|
    ensures FullyUploaded(pr, FirstFiles(pr, k))
    ensures forall mirror | FullyUploaded(pr, mirror) :: Matches(pr, mirror, k)
  {
    OrderElems(pr);
    assert Order(pr)[..k] == Order(pr);
    forall p | p in Scanned(pr) ensures p in FirstFiles(pr, k) && FirstFiles(pr, k)[p] == pr.files[p] {
      assert p in Elems(Order(pr));
    }
    forall mirror, p | FullyUploaded(pr, mirror) && p in Order(pr) ensures p in pr.files && p in mirror && mirror[p] == pr.files[p] {
      assert p in Elems(Order(pr));
    }
  }

  /** The live manifest of a partial upload can always be built, whenever the upload stopped, if no name has
      white space around it. */
  lemma LiveManifestOfPartialUpload(pr: Project, k: nat)
    requires Publishable(pr) && k <= |Order(pr)|
    ensures var mirror := FirstFiles(pr, k);
            && Listed(mirror).Keys == Elems(Order(pr)[..k])
            && Orderable(mirror, pr.decode, Listed(mirror).Keys)
            && (PlainNames(pr.files) ==> ServerScans(mirror))
            && ManifestOf(pr.decode, mirror).order == Order(pr)[..k]
  {
    OrderElems(pr);
    var mirror := FirstFiles(pr, k);
    var keys := Elems(Order(pr)[..k]);
    forall p | p in keys ensures p in LocalIndex(pr.files) && !MachineLocal(p) {
      assert p in Elems(Order(pr));
    }
    if PlainNames(pr.files) {
      PlainScansSafe(pr.files);
    }
    assert Listed(mirror).Keys == keys;
    PrefixStable(pr.files, pr.decode, Scanned(pr), k);
    ApplyOrderAgrees(pr.files, mirror, pr.decode, keys);
  }

  // ---- every step keeps the invariant ----

  lemma {:induction false} ScanFromNone(d: Disk, below: nat)
    ensures ScanFrom(d, below) == NoCreate <==> forall id: nat | id < below :: !InProgress(d, id)
    ensures ScanFrom(d, below).Create? ==> ScanFrom(d, below).id < below && InProgress(d, ScanFrom(d, below).id)
    ensures !ScanFrom(d, below).Broken?
  {
    if below > 0 {
      ScanFromNone(d, below - 1);
    }
  }

  /** A create is found exactly when one is under way or finished, and then it is the linked one. */
  lemma FoundIsLinked(pr: Project, d: Disk)
    requires DiskInv(pr, d) && d.user != UserAbsent
    ensures match FindResumable(d)
            case Broken => false
            case Create(id) => id in d.homes && (Level(d, id) == 4 || Current(d, id))
            case NoCreate => d.user == UserFolder && forall id | id in d.homes :: Level(d, id) == 0 && HostRepoOf(d, id) == HostAbsent
  {
    ScanFromNone(d, d.registered);
    forall id | id in d.homes ensures HomeInv(pr, d, id) {
    }
    if d.link.Some? && d.link.value in d.homes {
      assert HomeInv(pr, d, d.link.value);
    }
    match FindResumable(d)
    case Create(id) =>
    case Broken =>
    case NoCreate =>
      forall id | id in d.homes ensures Level(d, id) == 0 && HostRepoOf(d, id) == HostAbsent {
        assert HomeInv(pr, d, id);
      }
  }

  lemma StartKeepsInv(pr: Project, d: Disk)
    requires DiskInv(pr, d)
    ensures Inv(pr, StartStep(d).0, StartStep(d).1)
    ensures forall id :: Level(StartStep(d).0, id) == Level(d, id)
  {
    if d.user != UserAbsent {
      FoundIsLinked(pr, d);
      var d' := StartStep(d).0;
      match FindResumable(d)
      case Create(id) =>
      case NoCreate =>
        assert Order(pr)[..0] == [];
        assert PartialUpload(pr, map[]) by { assert FirstFiles(pr, 0) == map[]; }
        forall id | id in d'.homes ensures HomeInv(pr, d', id) {
          assert HomeInv(pr, d, id);
        }
    }
  }

  /** Only the home of `id` changes. */
  lemma HomeStep(pr: Project, d: Disk, id: nat, d': Disk)
    requires DiskInv(pr, d) && id in d'.homes
    requires d'.homes == d.homes[id := d'.homes[id]] && d'.dojos == d.dojos && d'.registered == d.registered
    requires d'.link == d.link || (forall other | other in d.homes :: Level(d, other) == 0 && HostRepoOf(d, other) == HostAbsent)
    requires d'.user == d.user || ((d.user == UserFolder || d.user == UserAbsent) && forall other | other in d.homes && other != id :: HostRepoOf(d, other) == HostAbsent && Level(d, other) == 0)
    requires HomeInv(pr, d', id)
    requires d'.user.UserPointer? ==> d'.user.dojo in d'.homes && d'.link == Some(d'.user.dojo)
    requires d'.user == UserAbsent ==> d'.link.Some? && d'.link.value in d'.homes && HostRepoOf(d', d'.link.value) == HostFolder
    requires d'.user.UserPointer? && d'.user != d.user ==> d'.user.dojo == id
    ensures DiskInv(pr, d')
    ensures forall other | other != id :: Level(d', other) == Level(d, other)
  {
    forall other | other in d'.homes ensures HomeInv(pr, d', other) {
      if other != id {
        assert HomeInv(pr, d, other);
      }
    }
  }

  /** Only the server's copy of dojo `id` changes. */
  lemma DojoStep(pr: Project, d: Disk, id: nat, dojo: Dojo, d': Disk)
    requires DiskInv(pr, d) && id in d.homes && d' == d.(dojos := d.dojos[id := dojo])
    requires DojoOf(d, id).git ==> dojo.git
    requires PartialUpload(pr, dojo.mirror)
    requires Level(d, id) < 4
    ensures DiskInv(pr, d')
    ensures forall other :: Level(d', other) == Level(d, other)
  {
    assert HomeInv(pr, d, id);
    forall other | other in d'.homes ensures HomeInv(pr, d', other) {
      assert HomeInv(pr, d, other);
    }
  }

  /** Homes other than the one being created are idle and empty. */
  lemma OthersIdle(pr: Project, d: Disk, id: nat)
    requires DiskInv(pr, d) && id in d.homes && (Level(d, id) >= 1 || Legacy(d, id))
    ensures forall other | other in d.homes && other != id :: Level(d, other) == 0 && HostRepoOf(d, other) == HostAbsent
  {
    assert HomeInv(pr, d, id);
    forall other | other in d.homes && other != id ensures Level(d, other) == 0 && HostRepoOf(d, other) == HostAbsent {
      assert HomeInv(pr, d, other);
    }
  }

  /** `base` is what was there before the loop, and the mirror holds at least the first `i` files. */
  ghost predicate UploadInv(pr: Project, mirror: Files, base: Files, i: nat) {
    exists k | 0 <= k <= |Order(pr)| :: base == FirstFiles(pr, k) && mirror == FirstFiles(pr, if k < i then i else k)
  }

  lemma UploadInvEnd(pr: Project, mirror: Files, base: Files, i: nat)
    requires Publishable(pr) && UploadInv(pr, mirror, base, i) && i == |Order(pr)|
    ensures FullyUploaded(pr, mirror)
  {
    AllFiles(pr, i);
    var k :| 0 <= k <= |Order(pr)| && base == FirstFiles(pr, k) && mirror == FirstFiles(pr, if k < i then i else k);
    assert (if k < i then i else k) == i;
  }

  lemma UploadInvNext(pr: Project, mirror: Files, base: Files, i: nat)
    requires Publishable(pr) && UploadInv(pr, mirror, base, i) && i < |Order(pr)|
    ensures var rel := Order(pr)[i];
            && rel in pr.files
            && (rel in base ==> base[rel] == pr.files[rel] && UploadInv(pr, mirror, base, i + 1))
            && (rel !in base ==> UploadInv(pr, mirror[rel := pr.files[rel]], base, i + 1)
                                 && PartialUpload(pr, mirror[rel := pr.files[rel]]))
  {
    var k :| 0 <= k <= |Order(pr)| && base == FirstFiles(pr, k) && mirror == FirstFiles(pr, if k < i then i else k);
    FirstFilesNext(pr, i);
    if i < k {
      assert (if k < i then i else k) == k && (if k < i + 1 then i + 1 else k) == k;
    } else {
      assert (if k < i then i else k) == i && (if k < i + 1 then i + 1 else k) == i + 1;
    }
  }

  lemma UploadKeepsInv(pr: Project, d: Disk, id: nat, base: Files, i: nat)
    requires Inv(pr, d, Uploading(id, base, i))
    ensures var r := UploadStep(pr, d, id, base, i); Inv(pr, r.0, r.1) && forall other :: Level(r.0, other) == Level(d, other)
  {
    assert HomeInv(pr, d, id);
    if i == |Order(pr)| {
      UploadInvEnd(pr, DojoOf(d, id).mirror, base, i);
    } else {
      UploadInvNext(pr, DojoOf(d, id).mirror, base, i);
      if Order(pr)[i] !in base {
        UploadNewFile(pr, d, id, base, i);
      }
    }
  }

  lemma UploadNewFile(pr: Project, d: Disk, id: nat, base: Files, i: nat)
    requires Publishable(pr) && DiskInv(pr, d) && id in d.homes && Level(d, id) == 3
    requires i < |Order(pr)| && Order(pr)[i] in pr.files && Order(pr)[i] !in base
    requires var filled := DojoOf(d, id).mirror[Order(pr)[i] := pr.files[Order(pr)[i]]];
             UploadInv(pr, filled, base, i + 1) && PartialUpload(pr, filled)
    ensures var r := UploadStep(pr, d, id, base, i); Inv(pr, r.0, r.1) && forall other :: Level(r.0, other) == Level(d, other)
  {
    var rel, dojo := Order(pr)[i], DojoOf(d, id);
    UploadFileStep(pr, d, id, base, i);
    FilledKeepsInv(pr, d, id, base, i, dojo.(mirror := dojo.mirror[rel := pr.files[rel]]));
  }

  lemma UploadFileStep(pr: Project, d: Disk, id: nat, base: Files, i: nat)
    requires i < |Order(pr)| && Order(pr)[i] in pr.files && Order(pr)[i] !in base
    ensures var dojo := DojoOf(d, id);
            UploadStep(pr, d, id, base, i)
            == (d.(dojos := d.dojos[id := dojo.(mirror := dojo.mirror[Order(pr)[i] := pr.files[Order(pr)[i]]])]), Uploading(id, base, i + 1))
  {
  }

  lemma FilledKeepsInv(pr: Project, d: Disk, id: nat, base: Files, i: nat, filled: Dojo)
    requires Publishable(pr) && DiskInv(pr, d) && id in d.homes && Level(d, id) == 3 && i < |Order(pr)|
    requires DojoOf(d, id).git ==> filled.git
    requires UploadInv(pr, filled.mirror, base, i + 1) && PartialUpload(pr, filled.mirror)
    ensures Inv(pr, d.(dojos := d.dojos[id := filled]), Uploading(id, base, i + 1))
    ensures forall other :: Level(d.(dojos := d.dojos[id := filled]), other) == Level(d, other)
  {
    var d' := d.(dojos := d.dojos[id := filled]);
    DojoStep(pr, d, id, filled, d');
    assert DojoOf(d', id) == filled;
  }

  lemma RegisteredKeepsInv(pr: Project, d: Disk, id: nat)
    requires Inv(pr, d, Registered(id))
    ensures var r := Step(pr, d, Registered(id)); Inv(pr, r.0, r.1) && forall other :: Level(r.0, other) >= Level(d, other)
  {
    var d' := SetHome(d, id, HomeOf(d, id));
    assert HomeInv(pr, d', id);
    HomeStep(pr, d, id, d');
  }

  lemma HomeMadeKeepsInv(pr: Project, d: Disk, id: nat)
    requires Inv(pr, d, HomeMade(id))
    ensures var r := Step(pr, d, HomeMade(id)); Inv(pr, r.0, r.1) && forall other :: Level(r.0, other) >= Level(d, other)
  {
    var d' := d.(link := Some(id));
    assert HomeInv(pr, d, id);
    assert HomeInv(pr, d', id);
    assert d'.homes == d.homes[id := d'.homes[id]];
    HomeStep(pr, d, id, d');
  }

  lemma LinkedKeepsInv(pr: Project, d: Disk, id: nat)
    requires Inv(pr, d, Linked(id))
    ensures var r := Step(pr, d, Linked(id)); Inv(pr, r.0, r.1) && forall other :: Level(r.0, other) >= Level(d, other)
  {
    var d' := SetHome(d, id, HomeOf(d, id).(progress := Some(ServerRegistered)));
    assert HomeInv(pr, d, id);
    assert HomeInv(pr, d', id);
    HomeStep(pr, d, id, d');
  }

  lemma ResumeKeepsInv(pr: Project, d: Disk, id: nat, phase: CreatePhase)
    requires Inv(pr, d, Resume(id, phase))
    ensures var r := Step(pr, d, Resume(id, phase)); Inv(pr, r.0, r.1) && r.0 == d
  {
    assert HomeInv(pr, d, id);
  }

  lemma EnsureKeepsInv(pr: Project, d: Disk, id: nat)
    requires Inv(pr, d, Ensure(id))
    ensures var r := Step(pr, d, Ensure(id)); Inv(pr, r.0, r.1) && r.0 == d
  {
    assert HomeInv(pr, d, id);
  }

  lemma SentinelKeepsInv(pr: Project, d: Disk, pc: Pc)
    requires Inv(pr, d, pc)
    requires pc.RenameUser? || pc.AddSentinel? || pc.FreezeSentinel?
    ensures var r := Step(pr, d, pc); Inv(pr, r.0, r.1) && forall other :: Level(r.0, other) >= Level(d, other)
  {
    var r := Step(pr, d, pc);
    assert HomeInv(pr, d, pc.id);
    OthersIdle(pr, d, pc.id);
    assert r.0.homes == d.homes[pc.id := r.0.homes[pc.id]];
    HomeStep(pr, d, pc.id, r.0);
  }

  lemma MoveKeepsInv(pr: Project, d: Disk, pc: Pc)
    requires Inv(pr, d, pc)
    requires pc.ClearDest? || pc.MoveRepo?
    ensures var r := Step(pr, d, pc); Inv(pr, r.0, r.1) && forall other :: Level(r.0, other) >= Level(d, other)
  {
    var r := Step(pr, d, pc);
    assert HomeInv(pr, d, pc.id);
    OthersIdle(pr, d, pc.id);
    assert r.0.homes == d.homes[pc.id := r.0.homes[pc.id]];
    HomeStep(pr, d, pc.id, r.0);
  }

  lemma PointerKeepsInv(pr: Project, d: Disk, pc: Pc)
    requires Inv(pr, d, pc)
    requires pc.WritePointer? || pc.SaveRehomed?
    ensures var r := Step(pr, d, pc); Inv(pr, r.0, r.1) && forall other :: Level(r.0, other) >= Level(d, other)
  {
    var r := Step(pr, d, pc);
    assert HomeInv(pr, d, pc.id);
    OthersIdle(pr, d, pc.id);
    assert r.0.homes == d.homes[pc.id := r.0.homes[pc.id]];
    HomeStep(pr, d, pc.id, r.0);
  }

  lemma GitKeepsInv(pr: Project, d: Disk, id: nat)
    requires Inv(pr, d, PushGit(id))
    ensures var r := Step(pr, d, PushGit(id)); Inv(pr, r.0, r.1) && forall other :: Level(r.0, other) == Level(d, other)
  {
    assert HomeInv(pr, d, id);
    assert PartialUpload(pr, DojoOf(d, id).mirror);
    var d' := d.(dojos := d.dojos[id := DojoOf(d, id).(git := true)]);
    DojoStep(pr, d, id, DojoOf(d, id).(git := true), d');
  }

  lemma FetchKeepsInv(pr: Project, d: Disk, id: nat)
    requires Publishable(pr) && Inv(pr, d, FetchBase(id))
    ensures PcInv(pr, d, Uploading(id, DojoOf(d, id).mirror, 0))
  {
    assert HomeInv(pr, d, id);
    assert PartialUpload(pr, DojoOf(d, id).mirror);
    var k :| 0 <= k <= |Order(pr)| && DojoOf(d, id).mirror == FirstFiles(pr, k);
    assert (if k < 0 then 0 else k) == k;
  }

  lemma VerifyKeepsInv(pr: Project, d: Disk, id: nat)
    requires Inv(pr, d, Verify(id))
    ensures Step(pr, d, Verify(id)) == (d, SaveState(id)) && Inv(pr, d, SaveState(id))
  {
    assert HomeInv(pr, d, id);
    AllFiles(pr, |Order(pr)|);
  }

  /** The checkpoints of the last phases each replace one file of the home. */
  function Checkpoint(h: Home, pc: Pc): (Home, Pc)
    requires pc.SaveGitPushed? || pc.SaveConfig? || pc.SaveState? || pc.ClearProgress?
  {
    match pc
    case SaveGitPushed(id) => (h.(progress := Some(GitPushed)), FetchBase(id))
    case SaveConfig(id) => (h.(config := true), WriteLink(id))
    case SaveState(id) => (h.(saved := true), ClearProgress(id))
    case ClearProgress(id) => (h.(progress := None), Finished(id))
  }

  lemma CheckpointStep(pr: Project, d: Disk, pc: Pc)
    requires pc.SaveGitPushed? || pc.SaveConfig? || pc.SaveState? || pc.ClearProgress?
    requires pc.id in d.homes
    ensures Step(pr, d, pc) == (SetHome(d, pc.id, Checkpoint(d.homes[pc.id], pc).0), Checkpoint(d.homes[pc.id], pc).1)
  {
  }

  /** A file of the home that neither level nor layout depends on. */
  lemma SameLayout(pr: Project, d: Disk, id: nat, h: Home)
    requires DiskInv(pr, d) && id in d.homes
    requires h.repo == d.homes[id].repo && Level(SetHome(d, id, h), id) == Level(d, id)
    ensures DiskInv(pr, SetHome(d, id, h))
    ensures forall other :: Level(SetHome(d, id, h), other) == Level(d, other)
  {
    var d' := SetHome(d, id, h);
    assert HostRepoOf(d', id) == HostRepoOf(d, id);
    assert HomeInv(pr, d, id);
    assert HomeInv(pr, d', id);
    HomeStep(pr, d, id, d');
  }

  lemma SaveGitPushedKeepsInv(pr: Project, d: Disk, id: nat, h: Home)
    requires Inv(pr, d, SaveGitPushed(id)) && h == d.homes[id].(progress := Some(GitPushed))
    ensures DiskInv(pr, SetHome(d, id, h)) && PcInv(pr, SetHome(d, id, h), FetchBase(id))
    ensures forall other :: Level(SetHome(d, id, h), other) >= Level(d, other)
  {
    var d' := SetHome(d, id, h);
    assert HomeInv(pr, d, id);
    assert HomeInv(pr, d', id);
    HomeStep(pr, d, id, d');
  }

  lemma SaveConfigKeepsInv(pr: Project, d: Disk, id: nat, h: Home)
    requires Inv(pr, d, SaveConfig(id)) && h == d.homes[id].(config := true)
    ensures DiskInv(pr, SetHome(d, id, h)) && PcInv(pr, SetHome(d, id, h), WriteLink(id))
    ensures forall other :: Level(SetHome(d, id, h), other) >= Level(d, other)
  {
    var d' := SetHome(d, id, h);
    assert HomeInv(pr, d, id);
    assert HomeInv(pr, d', id);
    HomeStep(pr, d, id, d');
  }

  lemma SaveStateKeepsInv(pr: Project, d: Disk, id: nat, h: Home)
    requires Inv(pr, d, SaveState(id)) && h == d.homes[id].(saved := true)
    ensures DiskInv(pr, SetHome(d, id, h)) && PcInv(pr, SetHome(d, id, h), ClearProgress(id))
    ensures forall other :: Level(SetHome(d, id, h), other) >= Level(d, other)
  {
    SameLayout(pr, d, id, h);
  }

  lemma ClearProgressKeepsInv(pr: Project, d: Disk, id: nat, h: Home)
    requires Inv(pr, d, ClearProgress(id)) && h == d.homes[id].(progress := None)
    ensures DiskInv(pr, SetHome(d, id, h)) && PcInv(pr, SetHome(d, id, h), Finished(id))
    ensures forall other :: Level(SetHome(d, id, h), other) >= Level(d, other)
  {
    SameLayout(pr, d, id, h);
  }

  lemma CheckpointKeepsInv(pr: Project, d: Disk, pc: Pc)
    requires pc.SaveGitPushed? || pc.SaveConfig? || pc.SaveState? || pc.ClearProgress?
    requires Inv(pr, d, pc)
    ensures var r := Step(pr, d, pc); Inv(pr, r.0, r.1) && forall other :: Level(r.0, other) >= Level(d, other)
  {
    CheckpointStep(pr, d, pc);
    var h := Checkpoint(d.homes[pc.id], pc).0;
    match pc
    case SaveGitPushed(id) => SaveGitPushedKeepsInv(pr, d, id, h);
    case SaveConfig(id) => SaveConfigKeepsInv(pr, d, id, h);
    case SaveState(id) => SaveStateKeepsInv(pr, d, id, h);
    case ClearProgress(id) => ClearProgressKeepsInv(pr, d, id, h);
  }

  lemma LinkKeepsInv(pr: Project, d: Disk, id: nat)
    requires Inv(pr, d, WriteLink(id))
    ensures Step(pr, d, WriteLink(id)) == (d, Verify(id)) && Inv(pr, d, Verify(id))
  {
    assert HomeInv(pr, d, id);
  }

  /** Every step keeps the invariant, and no dojo goes back in its phases. */
  lemma StepKeepsInv(pr: Project, d: Disk, pc: Pc)
    requires Inv(pr, d, pc)
    ensures var r := Step(pr, d, pc); Inv(pr, r.0, r.1) && forall id :: Level(r.0, id) >= Level(d, id)
  {
    if pc.Start? {
      StartKeepsInv(pr, d);
    } else if pc.Uploading? {
      UploadKeepsInv(pr, d, pc.id, pc.base, pc.i);
    } else if pc.Registered? {
      RegisteredKeepsInv(pr, d, pc.id);
    } else if pc.HomeMade? {
      HomeMadeKeepsInv(pr, d, pc.id);
    } else if pc.Linked? {
      LinkedKeepsInv(pr, d, pc.id);
    } else if pc.Resume? {
      ResumeKeepsInv(pr, d, pc.id, pc.phase);
    } else if pc.Ensure? {
      EnsureKeepsInv(pr, d, pc.id);
    } else if pc.PushGit? {
      GitKeepsInv(pr, d, pc.id);
    } else if pc.FetchBase? {
      if Publishable(pr) {
        FetchKeepsInv(pr, d, pc.id);
      }
    } else if pc.Verify? {
      VerifyKeepsInv(pr, d, pc.id);
    } else if pc.SaveGitPushed? || pc.SaveConfig? || pc.SaveState? || pc.ClearProgress? {
      CheckpointKeepsInv(pr, d, pc);
    } else if pc.WriteLink? {
      LinkKeepsInv(pr, d, pc.id);
    } else if pc.RenameUser? || pc.AddSentinel? || pc.FreezeSentinel? {
      SentinelKeepsInv(pr, d, pc);
    } else if pc.ClearDest? || pc.MoveRepo? {
      MoveKeepsInv(pr, d, pc);
    } else if pc.WritePointer? || pc.SaveRehomed? {
      PointerKeepsInv(pr, d, pc);
    }
  }

  // ---- a run without a crash ends ----

  function Rank(pr: Project, pc: Pc): nat {
    var n := |Order(pr)|;
    match pc
    case Start => n + 29
    case Registered(_) => n + 28
    case HomeMade(_) => n + 27
    case Linked(_) => n + 26
    case Resume(_, _) => n + 25
    case Ensure(_) => n + 24
    case RenameUser(_) => n + 23
    case AddSentinel(_) => n + 22
    case FreezeSentinel(_) => n + 21
    case ClearDest(_) => n + 20
    case MoveRepo(_) => n + 19
    case WritePointer(_) => n + 18
    case SaveRehomed(_) => n + 17
    case PushGit(_) => n + 16
    case SaveGitPushed(_) => n + 15
    case FetchBase(_) => n + 14
    case Uploading(_, _, i) => if i <= n then n - i + 13 else 13
    case SaveConfig(_) => 12
    case WriteLink(_) => 11
    case Verify(_) => 10
    case SaveState(_) => 9
    case ClearProgress(_) => 8
    case Finished(_) => 0
    case Erred => 0
  }

  predicate Ended(pc: Pc) {
    pc.Finished? || pc.Erred?
  }

  lemma RankDropsEarly(pr: Project, d: Disk, pc: Pc)
    requires pc.Start? || pc.Registered? || pc.HomeMade? || pc.Linked? || pc.Resume?
    ensures Rank(pr, Step(pr, d, pc).1) < Rank(pr, pc)
  {
  }

  lemma RankDropsMoving(pr: Project, d: Disk, pc: Pc)
    requires pc.Ensure? || pc.RenameUser? || pc.AddSentinel? || pc.FreezeSentinel? || pc.ClearDest? || pc.MoveRepo? || pc.WritePointer?
    ensures Rank(pr, Step(pr, d, pc).1) < Rank(pr, pc)
  {
  }

  lemma RankDropsUploading(pr: Project, d: Disk, id: nat, base: Files, i: nat)
    ensures Rank(pr, UploadStep(pr, d, id, base, i).1) < Rank(pr, Uploading(id, base, i))
  {
  }

  lemma RankDropsLate(pr: Project, d: Disk, pc: Pc)
    requires pc.SaveRehomed? || pc.PushGit? || pc.SaveGitPushed? || pc.FetchBase? || pc.SaveConfig? || pc.WriteLink? || pc.Verify? || pc.SaveState? || pc.ClearProgress?
    ensures Rank(pr, Step(pr, d, pc).1) < Rank(pr, pc)
  {
  }

  lemma RankDrops(pr: Project, d: Disk, pc: Pc)
    requires !Ended(pc)
    ensures Rank(pr, Step(pr, d, pc).1) < Rank(pr, pc)
  {
    if pc.Uploading? {
      RankDropsUploading(pr, d, pc.id, pc.base, pc.i);
    } else if pc.Start? || pc.Registered? || pc.HomeMade? || pc.Linked? || pc.Resume? {
      RankDropsEarly(pr, d, pc);
    } else if pc.Ensure? || pc.RenameUser? || pc.AddSentinel? || pc.FreezeSentinel? || pc.ClearDest? || pc.MoveRepo? || pc.WritePointer? {
      RankDropsMoving(pr, d, pc);
    } else {
      RankDropsLate(pr, d, pc);
    }
  }

  /** While a run that found the repository is under way, only the pointer write sees it missing. */
  ghost predicate OnTrack(d: Disk, pc: Pc) {
    && !pc.Erred?
    && (d.user == UserAbsent ==> pc.WritePointer?)
  }

  lemma UserAfterStep(pr: Project, d: Disk, pc: Pc)
    requires Step(pr, d, pc).0.user == UserAbsent
    ensures (d.user == UserAbsent && !pc.WritePointer?) || (pc.MoveRepo? && Step(pr, d, pc).1.WritePointer?)
  {
  }

  lemma StaysOnTrack(pr: Project, d: Disk, pc: Pc)
    requires Publishable(pr) && OnTrack(d, pc)
    requires PcInv(pr, Step(pr, d, pc).0, Step(pr, d, pc).1)
    ensures OnTrack(Step(pr, d, pc).0, Step(pr, d, pc).1)
  {
    if Step(pr, d, pc).0.user == UserAbsent {
      UserAfterStep(pr, d, pc);
    }
  }

  /** The sentinel workspace is half added only between its two jj commands. */
  ghost predicate SentinelTrack(halfAdded: bool, d: Disk, pc: Pc) {
    if halfAdded then d.sentinel == Added && !pc.FreezeSentinel? else d.sentinel == Added <==> pc.FreezeSentinel?
  }

  lemma SentinelStep(pr: Project, halfAdded: bool, d: Disk, pc: Pc)
    requires SentinelTrack(halfAdded, d, pc)
    ensures SentinelTrack(halfAdded, Step(pr, d, pc).0, Step(pr, d, pc).1)
  {
  }

  /** Once the workspace has been renamed for a move, and ever after, it is not called `default`. */
  ghost predicate NameTrack(d: Disk, pc: Pc) {
    d.user != UserFolder || pc.AddSentinel? || pc.FreezeSentinel? || pc.ClearDest? || pc.MoveRepo? || pc.WritePointer?
    ==> !d.userIsDefault
  }

  lemma NameStep(pr: Project, d: Disk, pc: Pc)
    requires NameTrack(d, pc)
    ensures NameTrack(Step(pr, d, pc).0, Step(pr, d, pc).1)
  {
  }

  lemma OneStep(pr: Project, d: Disk, pc: Pc, halfAdded: bool)
    requires Publishable(pr) && Inv(pr, d, pc) && OnTrack(d, pc) && SentinelTrack(halfAdded, d, pc) && !Ended(pc)
    ensures var r := Step(pr, d, pc);
            && Inv(pr, r.0, r.1) && OnTrack(r.0, r.1) && SentinelTrack(halfAdded, r.0, r.1)
            && Rank(pr, r.1) < Rank(pr, pc)
            && forall id :: Level(r.0, id) >= Level(d, id)
  {
    StepKeepsInv(pr, d, pc);
    StaysOnTrack(pr, d, pc);
    SentinelStep(pr, halfAdded, d, pc);
    RankDrops(pr, d, pc);
  }

  lemma EndsWell(pr: Project, d: Disk, pc: Pc, halfAdded: bool)
    requires Inv(pr, d, pc) && OnTrack(d, pc) && SentinelTrack(halfAdded, d, pc) && Ended(pc)
    ensures pc.Finished? && Level(d, pc.id) == 4 && FullyUploaded(pr, DojoOf(d, pc.id).mirror)
    ensures d.sentinel == Added <==> halfAdded
  {
    assert HomeInv(pr, d, pc.id);
  }

  ghost function Iterate(pr: Project, d: Disk, pc: Pc, n: nat): (Disk, Pc)
    decreases n
  {
    if n == 0 then (d, pc) else var r := Step(pr, d, pc); Iterate(pr, r.0, r.1, n - 1)
  }

  // ---- what a run makes of the sentinel ----

  /** Once made, the sentinel is never taken away, and a frozen one stays frozen; and nothing is moved or
      about to be moved without one. */
  predicate SentinelFirst(d: Disk, pc: Pc) {
    pc.FreezeSentinel? || pc.ClearDest? || pc.MoveRepo? || pc.WritePointer? ==> d.sentinel != NoSentinel
  }

  lemma StepKeepsSentinel(pr: Project, d: Disk, pc: Pc)
    ensures d.sentinel == Frozen ==> Step(pr, d, pc).0.sentinel == Frozen
    ensures d.sentinel != NoSentinel ==> Step(pr, d, pc).0.sentinel != NoSentinel
    ensures SentinelFirst(d, pc) ==> SentinelFirst(Step(pr, d, pc).0, Step(pr, d, pc).1)
  {
  }

  /** The sentinel after a run that goes through: one is made if the repository still has to be moved and
      there is none; otherwise it is left as it is. */
  function SentinelAfter(d: Disk): Sentinel {
    if d.user == UserFolder && d.sentinel == NoSentinel then Frozen else d.sentinel
  }

  /** How the sentinel looks on the way there, in a run that began on `d0`. */
  predicate SentinelFrom(d0: Disk, d: Disk, pc: Pc) {
    if d0.sentinel != NoSentinel then
      d.sentinel == d0.sentinel && !pc.FreezeSentinel?
    else if d0.user != UserFolder then
      d.sentinel == NoSentinel && d.user == d0.user
    else
      && (d.sentinel == Added <==> pc.FreezeSentinel?)
      && (d.sentinel == NoSentinel ==> d.user == UserFolder && !pc.ClearDest? && !pc.MoveRepo? && !pc.WritePointer?)
  }

  lemma SentinelFromStep(pr: Project, d0: Disk, d: Disk, pc: Pc)
    requires SentinelFrom(d0, d, pc) && PcInv(pr, d, pc) && d0.user != UserAbsent
    ensures SentinelFrom(d0, Step(pr, d, pc).0, Step(pr, d, pc).1)
  {
  }

  lemma {:induction false} IterateSentinel(pr: Project, d0: Disk, d: Disk, pc: Pc, n: nat)
    requires SentinelFrom(d0, d, pc) && Inv(pr, d, pc) && d0.user != UserAbsent
    ensures SentinelFrom(d0, Iterate(pr, d, pc, n).0, Iterate(pr, d, pc, n).1)
    decreases n
  {
    if n > 0 {
      SentinelFromStep(pr, d0, d, pc);
      StepKeepsInv(pr, d, pc);
      var r := Step(pr, d, pc);
      IterateSentinel(pr, d0, r.0, r.1, n - 1);
    }
  }

  lemma RunLeavesSentinel(pr: Project, d: Disk, n: nat)
    requires DiskInv(pr, d) && d.user != UserAbsent
    ensures var r := Iterate(pr, d, Start, n);
            r.1.Finished? && r.0.user.UserPointer? ==> r.0.sentinel == SentinelAfter(d)
  {
    IterateSentinel(pr, d, d, Start, n);
  }

  lemma {:induction false} IterateName(pr: Project, d: Disk, pc: Pc, n: nat)
    requires NameTrack(d, pc)
    ensures NameTrack(Iterate(pr, d, pc, n).0, Iterate(pr, d, pc, n).1)
    decreases n
  {
    if n > 0 {
      NameStep(pr, d, pc);
      var r := Step(pr, d, pc);
      IterateName(pr, r.0, r.1, n - 1);
    }
  }

  // ---- which dojo a run is about ----

  function DojoIdOf(pc: Pc): Option<nat> {
    match pc
    case Start => None
    case Erred => None
    case Registered(id) => Some(id)
    case HomeMade(id) => Some(id)
    case Linked(id) => Some(id)
    case Resume(id, _) => Some(id)
    case Ensure(id) => Some(id)
    case RenameUser(id) => Some(id)
    case AddSentinel(id) => Some(id)
    case FreezeSentinel(id) => Some(id)
    case ClearDest(id) => Some(id)
    case MoveRepo(id) => Some(id)
    case WritePointer(id) => Some(id)
    case SaveRehomed(id) => Some(id)
    case PushGit(id) => Some(id)
    case SaveGitPushed(id) => Some(id)
    case FetchBase(id) => Some(id)
    case Uploading(id, _, _) => Some(id)
    case SaveConfig(id) => Some(id)
    case WriteLink(id) => Some(id)
    case Verify(id) => Some(id)
    case SaveState(id) => Some(id)
    case ClearProgress(id) => Some(id)
    case Finished(id) => Some(id)
  }

  /** The run is about dojo `id` until it ends, and registers no other. */
  predicate About(id: nat, registered: nat, d: Disk, pc: Pc) {
    d.registered == registered && (pc.Erred? || DojoIdOf(pc) == Some(id))
  }

  lemma AboutStep(pr: Project, id: nat, registered: nat, d: Disk, pc: Pc)
    requires About(id, registered, d, pc)
    ensures About(id, registered, Step(pr, d, pc).0, Step(pr, d, pc).1)
  {
  }

  lemma {:induction false} IterateAbout(pr: Project, id: nat, registered: nat, d: Disk, pc: Pc, n: nat)
    requires About(id, registered, d, pc)
    ensures About(id, registered, Iterate(pr, d, pc, n).0, Iterate(pr, d, pc, n).1)
    decreases n
  {
    if n > 0 {
      AboutStep(pr, id, registered, d, pc);
      var r := Step(pr, d, pc);
      IterateAbout(pr, id, registered, r.0, r.1, n - 1);
    }
  }

  /** A run goes on with the create that it finds, and registers a dojo only if it finds none. */
  lemma RunGoesOn(pr: Project, d: Disk, n: nat)
    requires d.user != UserAbsent && n > 0
    ensures var r := Iterate(pr, d, Start, n);
            match FindResumable(d)
            case Create(id) => About(id, d.registered, r.0, r.1)
            case NoCreate => About(d.registered, d.registered + 1, r.0, r.1)
            case Broken => r == (d, Erred)
  {
    var first := Step(pr, d, Start);
    match FindResumable(d)
    case Create(id) => IterateAbout(pr, id, d.registered, first.0, first.1, n - 1);
    case NoCreate => IterateAbout(pr, d.registered, d.registered + 1, first.0, first.1, n - 1);
    case Broken => EndedStays(pr, first.0, first.1, n - 1);
  }

  // ---- what the last steps leave: sync state saved, progress cleared ----

  predicate Tidy(h: Home) {
    h.saved && h.progress == None
  }

  /** The home that the workspace is linked to. */
  function LinkedHome(d: Disk): Home {
    match d.link
    case Some(id) => HomeOf(d, id)
    case None => Home(None, false, false, HostAbsent)
  }

  /** A run past its beginning has saved the sync state before it clears the progress file. */
  predicate SavedTrack(d: Disk, pc: Pc) {
    match pc
    case Start => false
    case ClearProgress(id) => HomeOf(d, id).saved
    case Finished(id) => Tidy(HomeOf(d, id))
    case _ => true
  }

  lemma SavedStep(pr: Project, d: Disk, pc: Pc)
    requires SavedTrack(d, pc)
    ensures SavedTrack(Step(pr, d, pc).0, Step(pr, d, pc).1)
  {
  }

  lemma {:induction false} IterateSaves(pr: Project, d: Disk, pc: Pc, n: nat)
    requires SavedTrack(d, pc)
    ensures SavedTrack(Iterate(pr, d, pc, n).0, Iterate(pr, d, pc, n).1)
    decreases n
  {
    if n > 0 {
      SavedStep(pr, d, pc);
      var r := Step(pr, d, pc);
      IterateSaves(pr, r.0, r.1, n - 1);
    }
  }

  lemma {:induction false} EndedStays(pr: Project, d: Disk, pc: Pc, n: nat)
    requires Ended(pc)
    ensures Iterate(pr, d, pc, n) == (d, pc)
    decreases n
  {
    if n > 0 {
      EndedStays(pr, d, pc, n - 1);
    }
  }

  /** The first step looks only for a config file: it ends the run at once exactly when the linked home has one. */
  lemma FirstStep(pr: Project, d: Disk)
    requires DiskInv(pr, d) && d.user != UserAbsent
    ensures var r := Step(pr, d, Start);
            if LinkedHome(d).config then d.link.Some? && r == (d, Finished(d.link.value)) else SavedTrack(r.0, r.1)
  {
    FoundIsLinked(pr, d);
    match FindResumable(d)
    case Create(id) =>
      if HomeOf(d, id).config {
        assert HomeInv(pr, d, id);
      }
    case _ =>
  }

  /** A run that ends on an intact repository leaves the sync state saved and no progress file if and only
      if the linked home had no config file when it began, or both were so already: with a config file the
      run stops at once and changes nothing. */
  lemma RerunTidies(pr: Project, d: Disk, n: nat)
    requires Publishable(pr) && DiskInv(pr, d) && d.user != UserAbsent && Ended(Iterate(pr, d, Start, n).1)
    ensures var r := Iterate(pr, d, Start, n);
            && r.1.Finished?
            && (Tidy(HomeOf(r.0, r.1.id)) <==> !LinkedHome(d).config || Tidy(LinkedHome(d)))
            && (LinkedHome(d).config ==> r.0 == d && d.link == Some(r.1.id))
  {
    RunMeans(pr, d, n);
    RunSaves(pr, d, n);
  }

  lemma RunSaves(pr: Project, d: Disk, n: nat)
    requires DiskInv(pr, d) && d.user != UserAbsent && n > 0
    ensures var r := Iterate(pr, d, Start, n);
            if LinkedHome(d).config then d.link.Some? && r == (d, Finished(d.link.value)) else SavedTrack(r.0, r.1)
  {
    var first := Step(pr, d, Start);
    FirstStep(pr, d);
    if LinkedHome(d).config {
      EndedStays(pr, first.0, first.1, n - 1);
    } else {
      IterateSaves(pr, first.0, first.1, n - 1);
    }
  }

  lemma {:induction false} RunReachesEnd(pr: Project, d: Disk, pc: Pc, halfAdded: bool) returns (n: nat)
    requires Publishable(pr) && Inv(pr, d, pc) && OnTrack(d, pc) && SentinelTrack(halfAdded, d, pc)
    ensures var r := Iterate(pr, d, pc, n);
            && r.1.Finished? && Level(r.0, r.1.id) == 4 && FullyUploaded(pr, DojoOf(r.0, r.1.id).mirror)
            && (r.0.sentinel == Added <==> halfAdded)
    decreases Rank(pr, pc)
  {
    if Ended(pc) {
      EndsWell(pr, d, pc, halfAdded);
      n := 0;
    } else {
      OneStep(pr, d, pc, halfAdded);
      var r := Step(pr, d, pc);
      n := RunReachesEnd(pr, r.0, r.1, halfAdded);
      n := n + 1;
    }
  }

  /** The program ends in success, with the sync state saved and the progress file gone unless it stopped
      at once because it found a config file. */
  lemma RunEnds(pr: Project, d: Disk, pc: Pc, halfAdded: bool) returns (n: nat)
    requires Publishable(pr) && Inv(pr, d, pc) && OnTrack(d, pc) && SentinelTrack(halfAdded, d, pc)
    ensures var r := Iterate(pr, d, pc, n);
            && r.1.Finished? && Level(r.0, r.1.id) == 4 && FullyUploaded(pr, DojoOf(r.0, r.1.id).mirror)
            && (r.0.sentinel == Added <==> halfAdded)
            && (SavedTrack(d, pc) ==> Tidy(HomeOf(r.0, r.1.id)))
            && (pc.Start? ==> (Tidy(HomeOf(r.0, r.1.id)) <==> !LinkedHome(d).config || Tidy(LinkedHome(d))))
  {
    n := RunReachesEnd(pr, d, pc, halfAdded);
    if SavedTrack(d, pc) {
      IterateSaves(pr, d, pc, n);
    } else if pc.Start? {
      RerunTidies(pr, d, n);
    }
  }

  // ---- runs with crashes ----

  datatype Machine = Machine(disk: Disk, pc: Pc)

  /** Nothing of this project has been created yet, or an older version renamed the workspace,
      moved the repository and stopped before it recorded any progress. */
  ghost predicate Init(pr: Project, d: Disk) {
    || (d.user == UserFolder && d.link == None && d.homes == map[] && d.dojos == map[])
    || (d.user == UserPointer(0) && d.link == Some(0) && d.homes == map[0 := Home(None, false, false, HostFolder)]
        && d.registered == 1 && d.dojos == map[0 := Dojo(false, map[])] && !d.userIsDefault)
  }

  ghost predicate StepOrCrash(pr: Project, m: Machine, m': Machine) {
    || (m'.disk, m'.pc) == Step(pr, m.disk, m.pc)
    || m' == Machine(m.disk, Start)
  }

  ghost predicate Run(pr: Project, b: seq<Machine>) {
    && |b| > 0 && Init(pr, b[0].disk) && b[0].pc == Start
    && forall i | 0 < i < |b| :: StepAt(pr, b, i)
  }

  /** The machine gets from its state before `i` to its state at `i`. */
  ghost predicate StepAt(pr: Project, b: seq<Machine>, i: nat)
    requires 0 < i < |b|
  {
    StepOrCrash(pr, b[i - 1], b[i])
  }

  lemma RunStep(pr: Project, b: seq<Machine>, i: nat)
    requires Run(pr, b) && 0 < i < |b|
    ensures StepOrCrash(pr, b[i - 1], b[i])
  {
    assert StepAt(pr, b, i);
  }

  lemma InitInv(pr: Project, d: Disk)
    requires Init(pr, d)
    ensures DiskInv(pr, d)
  {
    assert FirstFiles(pr, 0) == map[];
    assert PartialUpload(pr, map[]);
    if d.link.Some? {
      assert HomeInv(pr, d, 0);
    }
  }

  lemma {:induction false} RunKeepsInv(pr: Project, b: seq<Machine>, i: nat)
    requires Run(pr, b) && i < |b|
    ensures Inv(pr, b[i].disk, b[i].pc)
  {
    if i == 0 {
      InitInv(pr, b[0].disk);
    } else {
      RunKeepsInv(pr, b, i - 1);
      RunStep(pr, b, i);
      StepKeepsInv(pr, b[i - 1].disk, b[i - 1].pc);
    }
  }

  lemma {:induction false} RunKeepsName(pr: Project, b: seq<Machine>, i: nat)
    requires Run(pr, b) && i < |b|
    ensures NameTrack(b[i].disk, b[i].pc)
  {
    if i > 0 {
      RunKeepsName(pr, b, i - 1);
      RunStep(pr, b, i);
      NameStep(pr, b[i - 1].disk, b[i - 1].pc);
    }
  }

  /** At no time, crashes or not, is the repository moved without a sentinel, and none that was made is taken
      away; a frozen one stays frozen. */
  lemma {:induction false} SentinelBeforeMove(pr: Project, b: seq<Machine>, i: nat, j: nat)
    requires Run(pr, b) && i <= j < |b|
    ensures SentinelFirst(b[j].disk, b[j].pc)
    ensures b[i].disk.sentinel == Frozen ==> b[j].disk.sentinel == Frozen
    ensures b[i].disk.sentinel != NoSentinel ==> b[j].disk.sentinel != NoSentinel
    ensures b[0].disk.user == UserFolder && b[j].disk.user != UserFolder ==> b[j].disk.sentinel != NoSentinel
    decreases j
  {
    if j > 0 {
      SentinelBeforeMove(pr, b, if i < j then i else j - 1, j - 1);
      RunStep(pr, b, j);
      StepKeepsSentinel(pr, b[j - 1].disk, b[j - 1].pc);
      MoveNeedsSentinel(pr, b[j - 1], b[j]);
    }
  }

  lemma MoveNeedsSentinel(pr: Project, m: Machine, m': Machine)
    requires StepOrCrash(pr, m, m') && SentinelFirst(m.disk, m.pc)
    ensures m'.disk.user != m.disk.user ==> m'.disk.sentinel != NoSentinel
  {
  }

  /** In every state of every run, crashes included: a config file means that every mirrored file is on
      the server with its local content; a phase from `Rehomed` on means that the repository lives in
      the dojo's home and the workspace points there under a name other than `default`; and the phase of
      a dojo never goes back. */
  lemma {:induction false} PhasesMeanWhatTheySay(pr: Project, b: seq<Machine>, i: nat, j: nat, id: nat)
    requires Run(pr, b) && i <= j < |b|
    ensures Level(b[i].disk, id) <= Level(b[j].disk, id)
    ensures Level(b[j].disk, id) == 4 ==> FullyUploaded(pr, DojoOf(b[j].disk, id).mirror)
    ensures Level(b[j].disk, id) >= 3 ==> DojoOf(b[j].disk, id).git
    ensures Level(b[j].disk, id) >= 2 ==> HostRepoOf(b[j].disk, id) == HostFolder && b[j].disk.user == UserPointer(id)
    ensures Level(b[j].disk, id) >= 2 ==> !b[j].disk.userIsDefault
    decreases j
  {
    RunKeepsInv(pr, b, j);
    RunKeepsName(pr, b, j);
    if id in b[j].disk.homes {
      assert HomeInv(pr, b[j].disk, id);
    }
    if i < j {
      PhasesMeanWhatTheySay(pr, b, i, j - 1, id);
      RunKeepsInv(pr, b, j - 1);
      StepKeepsInv(pr, b[j - 1].disk, b[j - 1].pc);
      RunStep(pr, b, j);
    }
  }

  /** What else is true of a run that goes through. */
  ghost predicate Details(d: Disk, d': Disk, pc: Pc)
    requires pc.Finished?
  {
    && d'.sentinel == SentinelAfter(d)
    && (d.user == UserFolder || !d.userIsDefault ==> !d'.userIsDefault)
    && match FindResumable(d)
       case Create(id) => pc.id == id && d'.registered == d.registered
       case _ => pc.id == d.registered && d'.registered == d.registered + 1
  }

  lemma FinishedPoints(pr: Project, d: Disk, pc: Pc)
    requires DiskInv(pr, d) && pc.Finished? && Level(d, pc.id) == 4
    ensures d.user == UserPointer(pc.id)
  {
    assert HomeInv(pr, d, pc.id);
  }

  lemma RunDetails(pr: Project, d: Disk, n: nat)
    requires DiskInv(pr, d) && d.user != UserAbsent
    requires var r := Iterate(pr, d, Start, n); r.1.Finished? && r.0.user.UserPointer?
    ensures Details(d, Iterate(pr, d, Start, n).0, Iterate(pr, d, Start, n).1)
  {
    RunLeavesSentinel(pr, d, n);
    RunGoesOn(pr, d, n);
    FoundIsLinked(pr, d);
    if d.user == UserFolder || !d.userIsDefault {
      IterateName(pr, d, Start, n);
    }
  }

  /** After a crash anywhere, running the command again finishes, unless the crash fell between moving
      the repository and writing the pointer; in that case no number of re-runs changes anything. */
  lemma RerunAfterCrash(pr: Project, b: seq<Machine>, i: nat) returns (n: nat)
    requires Publishable(pr) && Run(pr, b) && i < |b|
    ensures var d := b[i].disk;
            && (d.user != UserAbsent ==> var r := Iterate(pr, d, Start, n);
                  && r.1.Finished? && Level(r.0, r.1.id) == 4 && FullyUploaded(pr, DojoOf(r.0, r.1.id).mirror)
                  && Details(d, r.0, r.1) && !r.0.userIsDefault
                  && (Tidy(HomeOf(r.0, r.1.id)) <==> !LinkedHome(d).config || Tidy(LinkedHome(d))))
            && (d.user == UserAbsent ==> Step(pr, d, Start) == (d, Erred) && Step(pr, d, Erred) == (d, Erred))
  {
    RunKeepsInv(pr, b, i);
    var d := b[i].disk;
    n := 0;
    if d.user != UserAbsent {
      n := RunEnds(pr, d, Start, d.sentinel == Added);
      RunKeepsName(pr, b, i);
      RunMeans(pr, d, n);
      FinishedPoints(pr, Iterate(pr, d, Start, n).0, Iterate(pr, d, Start, n).1);
      RunDetails(pr, d, n);
    }
  }

  /** The repository is missing from the workspace only in that window: right after the move, before the
      pointer, or in a run that found it so. */
  lemma {:induction false} MissingOnlyInWindow(pr: Project, b: seq<Machine>, i: nat)
    requires Run(pr, b) && 0 < i < |b| && b[i].disk.user == UserAbsent
    ensures b[i - 1].disk.user == UserAbsent || (b[i - 1].pc.MoveRepo? && b[i].pc.WritePointer?)
    ensures b[i].pc in {Start, Erred} || b[i].pc.WritePointer?
  {
    RunStep(pr, b, i);
    if 0 < i - 1 && b[i - 1].disk.user == UserAbsent {
      MissingOnlyInWindow(pr, b, i - 1);
    }
    if (b[i].disk, b[i].pc) == Step(pr, b[i - 1].disk, b[i - 1].pc) {
      UserAfterStep(pr, b[i - 1].disk, b[i - 1].pc);
    }
  }

  /** The sentinel is half added only in its window too, right after `jj workspace add`. */
  lemma HalfAddedOnlyInWindow(pr: Project, b: seq<Machine>, i: nat)
    requires Run(pr, b) && 0 < i < |b| && b[i].disk.sentinel == Added
    ensures b[i - 1].disk.sentinel == Added || (b[i - 1].pc.AddSentinel? && b[i].pc.FreezeSentinel?)
  {
    RunStep(pr, b, i);
  }

  ghost predicate HalfAdded(m: Machine) {
    m.disk.sentinel == Added && !m.pc.FreezeSentinel?
  }

  lemma HalfAddedStays(pr: Project, m: Machine, m': Machine)
    requires StepOrCrash(pr, m, m') && HalfAdded(m)
    ensures HalfAdded(m')
  {
    SentinelStep(pr, true, m.disk, m.pc);
  }

  /** A run that is interrupted there leaves it half added for ever, whatever runs follow. */
  lemma {:induction false} HalfAddedForEver(pr: Project, b: seq<Machine>, i: nat, j: nat)
    requires Run(pr, b) && i <= j < |b| && HalfAdded(b[i])
    ensures HalfAdded(b[j])
    decreases j
  {
    if i < j {
      HalfAddedForEver(pr, b, i, j - 1);
      RunStep(pr, b, j);
      HalfAddedStays(pr, b[j - 1], b[j]);
    }
  }

  // ---- projects that cannot be published ----

  /** No home has a config file, and no dojo has a file. */
  ghost predicate NothingUploaded(d: Disk) {
    && (forall id | id in d.homes :: !d.homes[id].config)
    && (forall id | id in d.dojos :: d.dojos[id].mirror == map[])
  }

  ghost predicate BeforeUpload(d: Disk, pc: Pc) {
    && NothingUploaded(d)
    && !pc.Uploading? && !pc.SaveConfig? && !pc.WriteLink? && !pc.Verify? && !pc.SaveState? && !pc.ClearProgress? && !pc.Finished?
  }

  lemma StepBeforeUpload(pr: Project, d: Disk, pc: Pc)
    requires !Publishable(pr) && BeforeUpload(d, pc)
    ensures BeforeUpload(Step(pr, d, pc).0, Step(pr, d, pc).1)
  {
  }

  lemma {:induction false} IterateBeforeUpload(pr: Project, d: Disk, pc: Pc, n: nat)
    requires !Publishable(pr) && BeforeUpload(d, pc)
    ensures BeforeUpload(Iterate(pr, d, pc, n).0, Iterate(pr, d, pc, n).1)
    decreases n
  {
    if n > 0 {
      StepBeforeUpload(pr, d, pc);
      var r := Step(pr, d, pc);
      IterateBeforeUpload(pr, r.0, r.1, n - 1);
    }
  }

  lemma {:induction false} ReachesSomeEnd(pr: Project, d: Disk, pc: Pc) returns (n: nat)
    ensures Ended(Iterate(pr, d, pc, n).1)
    decreases Rank(pr, pc)
  {
    n := 0;
    if !Ended(pc) {
      RankDrops(pr, d, pc);
      var r := Step(pr, d, pc);
      n := ReachesSomeEnd(pr, r.0, r.1);
      n := n + 1;
    }
  }

  /** A project that fails the scan or cannot be ordered gets nowhere near publication: in every state of
      every run no dojo is complete and none has a file. */
  lemma {:induction false} NeverPublished(pr: Project, b: seq<Machine>, i: nat)
    requires !Publishable(pr) && Run(pr, b) && i < |b|
    ensures BeforeUpload(b[i].disk, b[i].pc)
  {
    if i > 0 {
      NeverPublished(pr, b, i - 1);
      RunStep(pr, b, i);
      StepBeforeUpload(pr, b[i - 1].disk, b[i - 1].pc);
    }
  }

  /** After any crash, on a repository that is in its place, running the command again succeeds if and only
      if the project can be published. */
  lemma RerunSucceedsIff(pr: Project, b: seq<Machine>, i: nat) returns (n: nat)
    requires Run(pr, b) && i < |b| && b[i].disk.user != UserAbsent
    ensures var r := Iterate(pr, b[i].disk, Start, n);
            && Ended(r.1) && (r.1.Finished? <==> Publishable(pr))
            && (if Publishable(pr) then FullyUploaded(pr, DojoOf(r.0, r.1.id).mirror) else NothingUploaded(r.0))
  {
    if Publishable(pr) {
      n := RerunAfterCrash(pr, b, i);
    } else {
      n := ReachesSomeEnd(pr, b[i].disk, Start);
      NeverPublished(pr, b, i);
      IterateBeforeUpload(pr, b[i].disk, Start, n);
    }
  }

  // ---- the program ----

  lemma {:induction false} IterateSnoc(pr: Project, d: Disk, pc: Pc, n: nat)
    ensures Iterate(pr, d, pc, n + 1) == Step(pr, Iterate(pr, d, pc, n).0, Iterate(pr, d, pc, n).1)
    decreases n
  {
    if n > 0 {
      var r := Step(pr, d, pc);
      IterateSnoc(pr, r.0, r.1, n - 1);
    }
  }

  ghost predicate Tracked(pr: Project, halfAdded: bool, d: Disk, pc: Pc) {
    Publishable(pr) && OnTrack(d, pc) && SentinelTrack(halfAdded, d, pc)
  }

  lemma StepTracked(pr: Project, d: Disk, pc: Pc, halfAdded: bool)
    requires Inv(pr, d, pc)
    ensures var r := Step(pr, d, pc); Inv(pr, r.0, r.1) && (Tracked(pr, halfAdded, d, pc) ==> Tracked(pr, halfAdded, r.0, r.1))
  {
    StepKeepsInv(pr, d, pc);
    if Tracked(pr, halfAdded, d, pc) {
      StaysOnTrack(pr, d, pc);
      SentinelStep(pr, halfAdded, d, pc);
    }
  }

  lemma {:induction false} IterateKeepsInv(pr: Project, d: Disk, pc: Pc, n: nat, halfAdded: bool)
    requires Inv(pr, d, pc)
    ensures var r := Iterate(pr, d, pc, n); Inv(pr, r.0, r.1) && (Tracked(pr, halfAdded, d, pc) ==> Tracked(pr, halfAdded, r.0, r.1))
    decreases n
  {
    if n > 0 {
      StepTracked(pr, d, pc, halfAdded);
      var r := Step(pr, d, pc);
      IterateKeepsInv(pr, r.0, r.1, n - 1, halfAdded);
    }
  }

  /** What one run of the command, killed or not, leaves behind. */
  lemma RunMeans(pr: Project, d: Disk, n: nat)
    requires DiskInv(pr, d)
    ensures var r := Iterate(pr, d, Start, n);
            && DiskInv(pr, r.0)
            && (Publishable(pr) && d.user != UserAbsent && Ended(r.1) ==>
                  && r.1.Finished? && Level(r.0, r.1.id) == 4 && FullyUploaded(pr, DojoOf(r.0, r.1.id).mirror)
                  && (r.0.sentinel == Added <==> d.sentinel == Added))
  {
    var r := Iterate(pr, d, Start, n);
    IterateKeepsInv(pr, d, Start, n, d.sentinel == Added);
    if Publishable(pr) && d.user != UserAbsent && Ended(r.1) {
      EndsWell(pr, r.0, r.1, d.sentinel == Added);
    }
  }

  /** What a run that began on `d` leaves: a disk from which the next run can go on. Of a publishable project,
      if it ended on an intact repository: success, everything uploaded to the dojo that was found or, if none
      was, to a new one, a sentinel made if there was none to go with the move, and the sync state saved exactly when the linked home had no config or all was saved already.
      Of any other project nothing is uploaded, and there is no success. */
  ghost predicate Leaves(pr: Project, d: Disk, d': Disk, pc: Pc) {
    && (DiskInv(pr, d) ==> DiskInv(pr, d'))
    && (Publishable(pr) && DiskInv(pr, d) && d.user != UserAbsent && Ended(pc) ==>
          && pc.Finished? && Level(d', pc.id) == 4 && FullyUploaded(pr, DojoOf(d', pc.id).mirror)
          && Details(d, d', pc)
          && (Tidy(HomeOf(d', pc.id)) <==> !LinkedHome(d).config || Tidy(LinkedHome(d))))
    && (!Publishable(pr) && NothingUploaded(d) ==> NothingUploaded(d') && !pc.Finished?)
  }

  lemma RunLeaves(pr: Project, d: Disk, n: nat)
    ensures Leaves(pr, d, Iterate(pr, d, Start, n).0, Iterate(pr, d, Start, n).1)
  {
    if DiskInv(pr, d) {
      RunMeans(pr, d, n);
      if Publishable(pr) && d.user != UserAbsent && Ended(Iterate(pr, d, Start, n).1) {
        RerunTidies(pr, d, n);
        FinishedPoints(pr, Iterate(pr, d, Start, n).0, Iterate(pr, d, Start, n).1);
        RunDetails(pr, d, n);
      }
    }
    if !Publishable(pr) && NothingUploaded(d) {
      IterateBeforeUpload(pr, d, Start, n);
    }
  }

  /** The command as a process whose effects go to the disk and the server. It is killed once `budget`
      steps are spent. */
  class CreateCommand {
    const project: Project
    var user: UserRepo
    var link: Option<nat>
    var userIsDefault: bool
    var sentinel: Sentinel
    var homes: map<nat, Home>
    var registered: nat
    var dojos: map<nat, Dojo>
    var budget: nat

    ghost function OnDisk(): Disk
      reads this
    {
      Disk(user, link, userIsDefault, sentinel, homes, registered, dojos)
    }

    /** Since `b0` steps were left on disk `d0`, the process has done just what the machine does. */
    ghost predicate Tracks(d0: Disk, b0: nat, pc: Pc)
      reads this
    {
      budget <= b0 && (OnDisk(), pc) == Iterate(project, d0, Start, b0 - budget)
    }

    constructor (project: Project, disk: Disk, budget: nat)
      ensures this.project == project && OnDisk() == disk && this.budget == budget
    {
      this.project := project;
      user, link, userIsDefault, sentinel := disk.user, disk.link, disk.userIsDefault, disk.sentinel;
      homes, registered, dojos := disk.homes, disk.registered, disk.dojos;
      this.budget := budget;
    }

    /** Accounts for one step just taken from `pc`. */
    ghost method Account(d0: Disk, b0: nat, before: Disk, pc: Pc, next: Pc)
      requires budget < b0 && (before, pc) == Iterate(project, d0, Start, b0 - budget - 1)
      requires Step(project, before, pc) == (OnDisk(), next)
      ensures Tracks(d0, b0, next)
    {
      IterateSnoc(project, d0, Start, b0 - budget - 1);
    }

    method ReadHome(id: nat) returns (h: Home)
      ensures h == HomeOf(OnDisk(), id)
    {
      h := if id in homes then homes[id] else Home(None, false, false, HostAbsent);
    }

    method ReadDojo(id: nat) returns (dojo: Dojo)
      ensures dojo == DojoOf(OnDisk(), id)
    {
      dojo := if id in dojos then dojos[id] else Dojo(false, map[]);
    }

    /** A step that only decides or reads. */
    method Look(ghost d0: Disk, ghost b0: nat, ghost pc: Pc, ghost next: Pc)
      requires budget > 0 && Tracks(d0, b0, pc) && Step(project, OnDisk(), pc) == (OnDisk(), next)
      modifies this`budget
      ensures budget == old(budget) - 1 && Tracks(d0, b0, next)
    {
      budget := budget - 1;
      Account(d0, b0, OnDisk(), pc, next);
    }

    /** Replaces one file or entry of the dojo's home directory. */
    method WriteHome(ghost d0: Disk, ghost b0: nat, ghost pc: Pc, ghost next: Pc, id: nat, h: Home)
      requires budget > 0 && Tracks(d0, b0, pc) && Step(project, OnDisk(), pc) == (SetHome(OnDisk(), id, h), next)
      modifies this`homes, this`budget
      ensures budget == old(budget) - 1 && Tracks(d0, b0, next)
      ensures homes == old(homes)[id := h]
    {
      ghost var before := OnDisk();
      homes := homes[id := h];
      budget := budget - 1;
      Account(d0, b0, before, pc, next);
    }

    /** Replaces the server's state of one dojo. */
    method WriteDojo(ghost d0: Disk, ghost b0: nat, ghost pc: Pc, ghost next: Pc, id: nat, dojo: Dojo)
      requires budget > 0 && Tracks(d0, b0, pc)
      requires Step(project, OnDisk(), pc) == (OnDisk().(dojos := dojos[id := dojo]), next)
      modifies this`dojos, this`budget
      ensures budget == old(budget) - 1 && Tracks(d0, b0, next)
      ensures dojos == old(dojos)[id := dojo]
    {
      ghost var before := OnDisk();
      dojos := dojos[id := dojo];
      budget := budget - 1;
      Account(d0, b0, before, pc, next);
    }

    /** Writes `.jj/dojjo.json`. */
    method WriteWorkspaceLink(ghost d0: Disk, ghost b0: nat, ghost pc: Pc, ghost next: Pc, id: nat)
      requires budget > 0 && Tracks(d0, b0, pc) && Step(project, OnDisk(), pc) == (OnDisk().(link := Some(id)), next)
      modifies this`link, this`budget
      ensures budget == old(budget) - 1 && Tracks(d0, b0, next)
      ensures link == Some(id)
    {
      ghost var before := OnDisk();
      link := Some(id);
      budget := budget - 1;
      Account(d0, b0, before, pc, next);
    }

    /** The rename of the repository directory into the dojo's home. */
    method RenameRepoFolder(ghost d0: Disk, ghost b0: nat, id: nat)
      requires budget > 0 && Tracks(d0, b0, MoveRepo(id)) && user == UserFolder
      modifies this`homes, this`user, this`budget
      ensures budget == old(budget) - 1 && Tracks(d0, b0, WritePointer(id))
    {
      var h := ReadHome(id);
      ghost var before := OnDisk();
      homes := homes[id := h.(repo := HostFolder)];
      user := UserAbsent;
      budget := budget - 1;
      Account(d0, b0, before, MoveRepo(id), WritePointer(id));
    }

    method WriteRepoPointer(ghost d0: Disk, ghost b0: nat, id: nat)
      requires budget > 0 && Tracks(d0, b0, WritePointer(id))
      modifies this`user, this`budget
      ensures budget == old(budget) - 1 && Tracks(d0, b0, SaveRehomed(id))
    {
      ghost var before := OnDisk();
      user := UserPointer(id);
      budget := budget - 1;
      Account(d0, b0, before, WritePointer(id), SaveRehomed(id));
    }

    /** Moves the repository directory and puts a pointer in its place: two effects, with the window
        between them. */
    method MoveRepoFolder(ghost d0: Disk, ghost b0: nat, id: nat) returns (ghost pc: Pc)
      requires Tracks(d0, b0, ClearDest(id)) && user == UserFolder
      modifies this
      ensures Tracks(d0, b0, pc) && (budget == 0 || pc == SaveRehomed(id))
    {
      pc := ClearDest(id);
      if budget == 0 { return; }
      var h := ReadHome(id);
      WriteHome(d0, b0, pc, MoveRepo(id), id, h.(repo := HostAbsent));
      pc := MoveRepo(id);
      if budget == 0 { return; }
      RenameRepoFolder(d0, b0, id);
      pc := WritePointer(id);
      if budget == 0 { return; }
      WriteRepoPointer(d0, b0, id);
      pc := SaveRehomed(id);
    }

    /** `jj workspace add`, then `jj new root()`. */
    method AddFrozenDefault(ghost d0: Disk, ghost b0: nat, id: nat) returns (ghost pc: Pc)
      requires budget > 0 && Tracks(d0, b0, AddSentinel(id)) && sentinel == NoSentinel
      modifies this`homes, this`sentinel, this`budget
      ensures Tracks(d0, b0, pc) && (budget == 0 || pc == ClearDest(id))
    {
      var h := ReadHome(id);
      ghost var before := OnDisk();
      homes := homes[id := h.(repo := HostPointer)];
      sentinel := Added;
      budget := budget - 1;
      Account(d0, b0, before, AddSentinel(id), FreezeSentinel(id));
      pc := FreezeSentinel(id);
      if budget == 0 { return; }
      before := OnDisk();
      sentinel := Frozen;
      budget := budget - 1;
      Account(d0, b0, before, pc, ClearDest(id));
      pc := ClearDest(id);
    }

    /** The user's workspace no longer carries the name `default`. */
    method RenameUserWorkspace(ghost d0: Disk, ghost b0: nat, id: nat)
      requires budget > 0 && Tracks(d0, b0, RenameUser(id))
      modifies this`userIsDefault, this`budget
      ensures budget == old(budget) - 1 && Tracks(d0, b0, AddSentinel(id))
    {
      ghost var before := OnDisk();
      userIsDefault := false;
      budget := budget - 1;
      Account(d0, b0, before, RenameUser(id), AddSentinel(id));
    }

    /** Renames the user's workspace, adds and freezes the sentinel, moves the repository. Steps that an
        earlier run completed are skipped. */
    method EnsureDojoAfterCreate(ghost d0: Disk, ghost b0: nat, id: nat) returns (ok: bool, ghost pc: Pc)
      requires Tracks(d0, b0, Ensure(id))
      modifies this
      ensures Tracks(d0, b0, pc) && (budget == 0 || pc == if ok then SaveRehomed(id) else Erred)
    {
      ok, pc := true, Ensure(id);
      if budget == 0 { return; }
      if user == UserPointer(id) && id in homes && homes[id].repo == HostFolder {
        Look(d0, b0, pc, SaveRehomed(id));
        pc := SaveRehomed(id);
        return;
      }
      if user != UserFolder {
        Look(d0, b0, pc, Erred);
        ok, pc := false, Erred;
        return;
      }
      Look(d0, b0, pc, RenameUser(id));
      pc := RenameUser(id);
      if budget == 0 { return; }
      RenameUserWorkspace(d0, b0, id);
      pc := AddSentinel(id);
      if budget == 0 { return; }
      if sentinel == NoSentinel {
        pc := AddFrozenDefault(d0, b0, id);
        if budget == 0 { return; }
      } else {
        Look(d0, b0, pc, ClearDest(id));
      }
      pc := MoveRepoFolder(d0, b0, id);
    }

    /** Uploads one file unless the manifest fetched beforehand lists it with the same content. */
    method UploadOne(ghost d0: Disk, ghost b0: nat, id: nat, base: Files, i: nat, rel: Path)
      requires budget > 0 && Tracks(d0, b0, Uploading(id, base, i))
      requires i < |Order(project)| && rel == Order(project)[i] && rel in project.files
      modifies this`dojos, this`budget
      ensures budget == old(budget) - 1 && Tracks(d0, b0, Uploading(id, base, i + 1))
    {
      if rel in base && EntryOf(base[rel]) == EntryOf(project.files[rel]) {
        Look(d0, b0, Uploading(id, base, i), Uploading(id, base, i + 1));
      } else {
        var dojo := ReadDojo(id);
        var filled := dojo.(mirror := dojo.mirror[rel := project.files[rel]]);
        WriteDojo(d0, b0, Uploading(id, base, i), Uploading(id, base, i + 1), id, filled);
      }
    }

    /** Scans the repository and orders what the scan lists. */
    method ScanAndOrder() returns (r: Option<seq<Path>>)
      ensures r.Some? <==> Publishable(project)
      ensures r.Some? ==> r.value == Order(project)
    {
      if !Scans(project.files) {
        return None;
      }
      var paths := Sorted(Scanned(project));
      SortedCorrect(Scanned(project));
      var order := ComputeMirrorApplyOrder(project.files, project.decode, paths);
      r := if order.Failure? then None else Some(order.value);
    }

    /** Uploads in order what the manifest fetched beforehand does not already list. */
    method UploadFrom(ghost d0: Disk, ghost b0: nat, id: nat, base: Files, order: seq<Path>) returns (ok: bool, ghost pc: Pc)
      requires Tracks(d0, b0, Uploading(id, base, 0)) && order == Order(project)
      modifies this`dojos, this`budget
      ensures Tracks(d0, b0, pc) && (budget == 0 || pc == if ok then Uploading(id, base, |Order(project)|) else Erred)
    {
      ok := true;
      for i := 0 to |order|
        invariant Tracks(d0, b0, Uploading(id, base, i))
      {
        pc := Uploading(id, base, i);
        if budget == 0 { return; }
        if order[i] !in project.files {
          Look(d0, b0, pc, Erred);
          ok, pc := false, Erred;
          return;
        }
        UploadOne(d0, b0, id, base, i, order[i]);
      }
      pc := Uploading(id, base, |order|);
    }

    /** Scan, order, and the manifest as it is before the upload. */
    method BeginUpload(ghost d0: Disk, ghost b0: nat, id: nat) returns (order: Option<seq<Path>>, base: Files)
      requires budget > 0 && Tracks(d0, b0, FetchBase(id))
      modifies this`budget
      ensures budget == old(budget) - 1 && Tracks(d0, b0, if order.Some? then Uploading(id, base, 0) else Erred)
      ensures order.Some? ==> order.value == Order(project)
    {
      order := ScanAndOrder();
      var dojo := ReadDojo(id);
      base := dojo.mirror;
      Look(d0, b0, FetchBase(id), if order.Some? then Uploading(id, base, 0) else Erred);
    }

    /** Nothing is uploaded when the scan fails or the order cannot be computed. */
    method UploadAll(ghost d0: Disk, ghost b0: nat, id: nat) returns (ok: bool, ghost pc: Pc)
      requires Tracks(d0, b0, FetchBase(id))
      modifies this`dojos, this`budget
      ensures Tracks(d0, b0, pc) && (budget == 0 || pc == if ok then SaveConfig(id) else Erred)
    {
      ok, pc := true, FetchBase(id);
      if budget == 0 { return; }
      var order, base := BeginUpload(d0, b0, id);
      if order.None? {
        ok, pc := false, Erred;
        return;
      }
      ok, pc := UploadFrom(d0, b0, id, base, order.value);
      if budget == 0 || !ok { return; }
      Look(d0, b0, pc, SaveConfig(id));
      pc := SaveConfig(id);
    }

    /** The check of the server's manifest. */
    method VerifyUpload(ghost d0: Disk, ghost b0: nat, id: nat) returns (ok: bool)
      requires budget > 0 && Tracks(d0, b0, Verify(id))
      modifies this`budget
      ensures budget == old(budget) - 1 && Tracks(d0, b0, if ok then SaveState(id) else Erred)
    {
      var dojo := ReadDojo(id);
      ok := Matches(project, dojo.mirror, |Order(project)|);
      Look(d0, b0, Verify(id), if ok then SaveState(id) else Erred);
    }

    /** The sync state, and only then the progress file goes. */
    method FinishCreate(ghost d0: Disk, ghost b0: nat, id: nat) returns (ghost pc: Pc)
      requires Tracks(d0, b0, SaveState(id))
      modifies this
      ensures Tracks(d0, b0, pc) && (budget == 0 || pc == Finished(id))
    {
      pc := SaveState(id);
      if budget == 0 { return; }
      var h := ReadHome(id);
      WriteHome(d0, b0, pc, ClearProgress(id), id, h.(saved := true));
      pc := ClearProgress(id);
      if budget == 0 { return; }
      h := ReadHome(id);
      WriteHome(d0, b0, pc, Finished(id), id, h.(progress := None));
      pc := Finished(id);
    }

    /** Config and link, then the rest. */
    method Complete(ghost d0: Disk, ghost b0: nat, id: nat) returns (ghost pc: Pc)
      requires Tracks(d0, b0, SaveConfig(id))
      modifies this
      ensures Tracks(d0, b0, pc) && (budget == 0 || Ended(pc))
    {
      pc := SaveConfig(id);
      if budget == 0 { return; }
      var h := ReadHome(id);
      WriteHome(d0, b0, pc, WriteLink(id), id, h.(config := true));
      pc := WriteLink(id);
      if budget == 0 { return; }
      WriteWorkspaceLink(d0, b0, pc, Verify(id), id);
      pc := Verify(id);
      if budget == 0 { return; }
      var ok := VerifyUpload(d0, b0, id);
      pc := if ok then SaveState(id) else Erred;
      if budget == 0 || !ok { return; }
      pc := FinishCreate(d0, b0, id);
    }

    /** Moves the repository and records it. */
    method Rehome(ghost d0: Disk, ghost b0: nat, id: nat) returns (ok: bool, ghost pc: Pc)
      requires Tracks(d0, b0, Ensure(id))
      modifies this
      ensures Tracks(d0, b0, pc) && (budget == 0 || pc == if ok then PushGit(id) else Erred)
    {
      ok, pc := EnsureDojoAfterCreate(d0, b0, id);
      if budget == 0 || !ok { return; }
      var h := ReadHome(id);
      WriteHome(d0, b0, pc, PushGit(id), id, h.(progress := Some(Rehomed)));
      pc := PushGit(id);
    }

    /** Pushes git and records it. */
    method PushGitRefs(ghost d0: Disk, ghost b0: nat, id: nat) returns (ghost pc: Pc)
      requires Tracks(d0, b0, PushGit(id))
      modifies this
      ensures Tracks(d0, b0, pc) && (budget == 0 || pc == FetchBase(id))
    {
      pc := PushGit(id);
      if budget == 0 { return; }
      var dojo := ReadDojo(id);
      WriteDojo(d0, b0, pc, SaveGitPushed(id), id, dojo.(git := true));
      pc := SaveGitPushed(id);
      if budget == 0 { return; }
      var h := ReadHome(id);
      WriteHome(d0, b0, pc, FetchBase(id), id, h.(progress := Some(GitPushed)));
      pc := FetchBase(id);
    }

    /** The phases that are not recorded yet, each recorded when it is done. */
    method ResumeCreate(ghost d0: Disk, ghost b0: nat, id: nat, phase: CreatePhase) returns (ghost pc: Pc)
      requires Tracks(d0, b0, Resume(id, phase))
      modifies this
      ensures Tracks(d0, b0, pc) && (budget == 0 || Ended(pc))
    {
      pc := Resume(id, phase);
      if budget == 0 { return; }
      var h := ReadHome(id);
      if phase == ServerRegistered {
        Look(d0, b0, pc, Ensure(id));
        var ok;
        ok, pc := Rehome(d0, b0, id);
        if budget == 0 || !ok { return; }
      } else if h.repo != HostFolder {
        Look(d0, b0, pc, Erred);
        pc := Erred;
        return;
      } else {
        Look(d0, b0, pc, if phase == Rehomed then PushGit(id) else FetchBase(id));
        pc := if phase == Rehomed then PushGit(id) else FetchBase(id);
      }
      if phase != GitPushed {
        pc := PushGitRefs(d0, b0, id);
        if budget == 0 { return; }
      }
      var uploaded;
      uploaded, pc := UploadAll(d0, b0, id);
      if budget == 0 || !uploaded { return; }
      pc := Complete(d0, b0, id);
    }

    /** Registers a dojo, makes its home, links the workspace and records the first phase. */
    method RegisterNew(ghost d0: Disk, ghost b0: nat) returns (ghost pc: Pc)
      requires budget > 0 && Tracks(d0, b0, Start) && user != UserAbsent && FindResumable(OnDisk()) == NoCreate
      modifies this
      ensures Tracks(d0, b0, pc) && (budget == 0 || Ended(pc))
    {
      var id := registered;
      ghost var before := OnDisk();
      registered := registered + 1;
      dojos := dojos[id := Dojo(false, map[])];
      budget := budget - 1;
      Account(d0, b0, before, Start, Registered(id));
      pc := Registered(id);
      if budget == 0 { return; }
      var h := ReadHome(id);
      WriteHome(d0, b0, pc, HomeMade(id), id, h);
      pc := HomeMade(id);
      if budget == 0 { return; }
      WriteWorkspaceLink(d0, b0, pc, Linked(id), id);
      pc := Linked(id);
      if budget == 0 { return; }
      h := ReadHome(id);
      WriteHome(d0, b0, pc, Resume(id, ServerRegistered), id, h.(progress := Some(ServerRegistered)));
      pc := ResumeCreate(d0, b0, id, ServerRegistered);
    }

    /** Resume what is under way, or register a new dojo and start. */
    method FindOrRegister() returns (ghost pc: Pc)
      modifies this
      ensures Tracks(old(OnDisk()), old(budget), pc)
      ensures budget == 0 || Ended(pc)
    {
      ghost var d0, b0 := OnDisk(), budget;
      pc := Start;
      if budget == 0 { return; }
      var disk := Disk(user, link, userIsDefault, sentinel, homes, registered, dojos);
      var found := FindResumable(disk);
      if user == UserAbsent || found.Broken? {
        Look(d0, b0, pc, Erred);
        pc := Erred;
      } else if found.Create? {
        var h := ReadHome(found.id);
        if h.config {
          Look(d0, b0, pc, Finished(found.id));
          pc := Finished(found.id);
        } else {
          Look(d0, b0, pc, Resume(found.id, ResumePhase(disk, found.id)));
          pc := ResumeCreate(d0, b0, found.id, ResumePhase(disk, found.id));
        }
      } else {
        pc := RegisterNew(d0, b0);
      }
    }

    /** `dojjo create`. Killed after `budget` steps, it leaves the disk as the machine does after that many;
        otherwise it runs to its end. */
    method Run() returns (ghost pc: Pc)
      modifies this
      ensures Tracks(old(OnDisk()), old(budget), pc)
      ensures budget == 0 || Ended(pc)
      ensures Leaves(project, old(OnDisk()), OnDisk(), pc)
    {
      ghost var d0, b0 := OnDisk(), budget;
      pc := FindOrRegister();
      RunLeaves(project, d0, b0 - budget);
    }
  }
}
