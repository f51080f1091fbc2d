/** Any number of clients and one server, interleaving step by step: one step per uploaded, pulled or
    pruned file, one for each manifest fetch and one for normalize-and-publish. A client may stop at
    any point. */
module SyncProtocol {
  import opened Results
  import opened Paths
  import opened OperationStore
  import opened MirrorApplyOrder
  import opened MirrorPath
  import opened MirrorExclude
  import opened Manifests
  import opened JjRepo
  import opened SyncPlan

  datatype Phase =
    | Idle
    | Pushing(todo: seq<Path>)
    | Completed
    | Pulling(man: Manifest, todo: seq<Path>, stable: bool)
    | Pruning(man: Manifest, stable: bool)

  /** `atStart` remembers the tree with which the round began; `stable` says that the manifest has
      not been refetched since the round began to pull. */
  datatype Client = Client(files: Files, phase: Phase, atStart: Files)

  datatype State = State(clients: map<nat, Client>, mirror: Files, published: Option<Manifest>)

  /** What a manifest request answers: the published manifest, or a live one before the first publication. */
  function Visible(w: World, s: State): Manifest {
    match s.published
    case Some(man) => man
    case None => ManifestOf(w.decode, s.mirror)
  }

  datatype Step =
    | Edit(files: Files)
    | Start
    | Upload
    | SyncComplete(res: Resolution, mirror: Files)
    | NormalizeUnpublished(res: Resolution, mirror: Files)
    | FetchPublished
    | ColdJoin
    | PullWrite
    | PullRefetch
    | PullSkip
    | PullDone
    | Prune(path: Path)
    | Finish
    | Stop

  /** Client `cl` takes `step`; the result is the new client and the new server. */
  ghost predicate ClientStep(w: World, s: State, cl: Client, step: Step, cl': Client, mirror': Files, published': Option<Manifest>) {
    var quietServer := mirror' == s.mirror && published' == s.published;
    match step
    case Edit(files) =>
      cl.phase == Idle && RepoOk(w, files) && quietServer && cl' == cl.(files := files)
    case Start =>
      && cl.phase == Idle && Scans(cl.files) && PlainNames(cl.files) && quietServer
      && cl' == Client(cl.files, Pushing(UploadPlan(w.decode, cl.files, Visible(w, s))), cl.files)
    case Upload =>
      && cl.phase.Pushing? && cl.phase.todo != [] && cl.phase.todo[0] in cl.files
      && mirror' == s.mirror[cl.phase.todo[0] := cl.files[cl.phase.todo[0]]] && published' == s.published
      && cl' == cl.(phase := Pushing(cl.phase.todo[1..]))
    case SyncComplete(res, mirror) =>
      && cl.phase == Pushing([]) && Normalizes(w, s.mirror, res, mirror)
      && mirror' == mirror && published' == Some(ManifestOf(w.decode, mirror))
      && cl' == cl.(phase := Completed)
    case NormalizeUnpublished(res, mirror) =>
      && cl.phase == Pushing([]) && Normalizes(w, s.mirror, res, mirror)
      && mirror' == mirror && published' == s.published
      && cl' == cl.(phase := Idle)
    case FetchPublished =>
      && cl.phase == Completed && Scans(cl.files) && quietServer
      && cl' == cl.(phase := Pulling(Visible(w, s), PullPlan(cl.files, Visible(w, s)), true))
    case ColdJoin =>
      && cl.phase == Idle && LocalIndex(cl.files) == map[] && quietServer
      && cl' == Client(cl.files, Pulling(Visible(w, s), PullPlan(cl.files, Visible(w, s)), true), cl.files)
    case PullWrite =>
      && cl.phase.Pulling? && cl.phase.todo != [] && quietServer
      && var p := cl.phase.todo[0];
      && p in cl.phase.man.entries && p in s.mirror && EntryOf(s.mirror[p]) == cl.phase.man.entries[p]
      && cl' == cl.(files := cl.files[p := s.mirror[p]], phase := cl.phase.(todo := cl.phase.todo[1..]))
    case PullRefetch =>
      && cl.phase.Pulling? && cl.phase.todo != [] && quietServer
      && cl.phase.todo[0] in cl.phase.man.entries && cl.phase.todo[0] !in s.mirror
      && cl' == cl.(phase := Pulling(Visible(w, s), cl.phase.todo, false))
    case PullSkip =>
      && cl.phase.Pulling? && cl.phase.todo != [] && quietServer
      && cl.phase.todo[0] !in cl.phase.man.entries
      && cl' == cl.(phase := cl.phase.(todo := cl.phase.todo[1..]))
    case PullDone =>
      && cl.phase.Pulling? && cl.phase.todo == [] && Scans(cl.files) && quietServer
      && cl' == cl.(phase := Pruning(cl.phase.man, cl.phase.stable))
    case Prune(p) =>
      && cl.phase.Pruning? && p in PruneSet(cl.files, cl.phase.man) && quietServer
      && cl' == cl.(files := cl.files - {p})
    case Finish =>
      && cl.phase.Pruning? && PruneSet(cl.files, cl.phase.man) == {} && Verified(cl.files, cl.phase.man)
      && Scans(cl.files) && quietServer && cl' == cl.(phase := Idle)
    case Stop =>
      quietServer && cl' == cl.(phase := Idle)
  }

  ghost predicate NextBy(w: World, s: State, c: nat, step: Step, s': State) {
    && c in s.clients && s'.clients.Keys == s.clients.Keys
    && ClientStep(w, s, s.clients[c], step, s'.clients[c], s'.mirror, s'.published)
    && forall d | d in s.clients && d != c :: s'.clients[d] == s.clients[d]
  }

  ghost predicate Next(w: World, s: State, s': State) {
    exists c, step :: NextBy(w, s, c, step, s')
  }

  /** Every client starts idle on a well-formed repository; the mirror is closed (for instance empty,
      or left behind by an unfinished create) and nothing has been published. */
  ghost predicate Init(w: World, s: State) {
    && (forall c | c in s.clients :: s.clients[c].phase == Idle && RepoOk(w, s.clients[c].files))
    && MirrorOk(w, s.mirror)
    && s.published == None
  }

  ghost predicate Run(w: World, b: seq<State>) {
    |b| > 0 && Init(w, b[0]) && forall i | 0 < i < |b| :: NextAt(w, b, i)
  }

  /** The step that leads to state `i`. */
  ghost predicate NextAt(w: World, b: seq<State>, i: nat)
    requires 0 < i < |b|
  {
    Next(w, b[i - 1], b[i])
  }

  lemma RunNext(w: World, b: seq<State>, i: nat)
    requires Run(w, b) && 0 < i < |b|
    ensures Next(w, b[i - 1], b[i])
  {
    assert NextAt(w, b, i);
  }

  // ---- the invariant ----

  /** Everything durable that `man` lists is on the mirror, and its history is in the mirror's history. */
  ghost predicate Backed(w: World, mirror: Files, man: Manifest) {
    && (forall p | p in man.entries && Durable(p) :: p in mirror)
    && HistoryGrows(w, man.entries.Keys, mirror.Keys)
  }

  /** `man` shows at least the durable files and the history of `before`. */
  ghost predicate Shows(w: World, before: set<Path>, man: Manifest) {
    && (forall p | p in before && Durable(p) :: p in man.entries)
    && HistoryGrows(w, before, man.entries.Keys)
  }

  ghost predicate SameHostLocal(a: Files, b: Files) {
    forall p | HostLocal(p) :: (p in a <==> p in b) && (p in a ==> a[p] == b[p])
  }

  /** What a pull and a prune leave alone of the tree that the round began with. */
  ghost predicate StartKept(start: Files, files: Files) {
    && (forall p | p in start && Durable(p) :: p in files)
    && SameHostLocal(files, start)
    && (Scans(start) ==> Scans(files))
  }

  lemma WriteKeepsStart(start: Files, files: Files, p: Path, content: Bytes)
    requires StartKept(start, files) && !HostLocal(p) && SafePath(p)
    ensures StartKept(start, files[p := content])
  {
    if Scans(start) {
      SafeWriteScans(files, p, content);
    }
  }

  lemma RemoveKeepsStart(start: Files, files: Files, p: Path)
    requires StartKept(start, files) && !HostLocal(p) && (Durable(p) ==> p !in start)
    ensures StartKept(start, files - {p})
  {
  }

  ghost predicate PushInv(w: World, mirror: Files, files: Files, todo: seq<Path>) {
    && (forall p | p in todo :: p in files && !HostLocal(p) && SafePath(p))
    && DepOrdered(w, mirror.Keys, todo)
    && (forall p | p in files && Durable(p) :: p in mirror || p in todo)
    && (forall h | h in files && IsHead(h) :: InHistory(w, mirror.Keys, HeadOp(h)) || h in todo)
  }

  ghost predicate PullInv(w: World, visible: Manifest, cl: Client, man: Manifest, todo: seq<Path>, stable: bool) {
    && ManifestOk(w, man)
    && Shows(w, man.entries.Keys, visible)
    && Shows(w, cl.atStart.Keys, man)
    && (forall p | p in cl.files && Durable(p) :: p in man.entries)
    && StartKept(cl.atStart, cl.files)
    && DepOrdered(w, cl.files.Keys, todo)
    && (forall p | p in todo :: !HostLocal(p) && (Durable(p) ==> p in man.entries))
    && (stable ==> forall p | p in man.entries && p !in todo :: p in cl.files && EntryOf(cl.files[p]) == man.entries[p])
  }

  ghost predicate ClientInv(w: World, mirror: Files, visible: Manifest, cl: Client) {
    && RepoOk(w, cl.files)
    && match cl.phase
       case Idle => true
       case Pushing(todo) => cl.files == cl.atStart && PushInv(w, mirror, cl.files, todo)
       case Completed => cl.files == cl.atStart && Shows(w, cl.files.Keys, visible)
       case Pulling(man, todo, stable) => PullInv(w, visible, cl, man, todo, stable)
       case Pruning(man, stable) => PullInv(w, visible, cl, man, [], stable)
  }

  ghost predicate ServerInv(w: World, mirror: Files, published: Option<Manifest>) {
    && MirrorOk(w, mirror)
    && (published.Some? ==> ManifestOk(w, published.value) && Backed(w, mirror, published.value))
  }

  ghost predicate Inv(w: World, s: State) {
    && ServerInv(w, s.mirror, s.published)
    && forall c | c in s.clients :: ClientInv(w, s.mirror, Visible(w, s), s.clients[c])
  }

  // ---- growth: what other clients rely on only grows ----

  ghost predicate MirrorGrows(w: World, mirror: Files, mirror': Files) {
    && (forall p | p in mirror && Durable(p) :: p in mirror')
    && HistoryGrows(w, mirror.Keys, mirror'.Keys)
  }

  ghost predicate Grows(w: World, s: State, s': State) {
    MirrorGrows(w, s.mirror, s'.mirror) && Shows(w, Visible(w, s).entries.Keys, Visible(w, s'))
  }

  lemma ClientInvStable(w: World, s: State, s': State, cl: Client)
    requires ClientInv(w, s.mirror, Visible(w, s), cl) && Grows(w, s, s')
    ensures ClientInv(w, s'.mirror, Visible(w, s'), cl)
  {
    match cl.phase
    case Idle =>
    case Pushing(todo) =>
      DepOrderedMonotone(w, s.mirror.Keys, s'.mirror.Keys, todo);
    case Completed =>
    case Pulling(man, todo, stable) =>
    case Pruning(man, stable) =>
  }

  lemma VisibleOk(w: World, s: State)
    requires ServerInv(w, s.mirror, s.published)
    ensures ManifestOk(w, Visible(w, s)) && Backed(w, s.mirror, Visible(w, s))
  {
    LiveManifestOk(w, s.mirror);
    ListedIsOk(w, s.mirror);
    var live := ManifestOf(w.decode, s.mirror);
    assert live.entries.Keys == Listed(s.mirror).Keys;
  }

  lemma LiveShows(w: World, mirror: Files)
    requires MirrorOk(w, mirror)
    ensures Shows(w, mirror.Keys, ManifestOf(w.decode, mirror))
  {
    ListedIsOk(w, mirror);
    assert ManifestOf(w.decode, mirror).entries.Keys == Listed(mirror).Keys;
  }

  lemma ShowsTransitive(w: World, a: set<Path>, b: Manifest, c: Manifest)
    requires Shows(w, a, b) && Shows(w, b.entries.Keys, c)
    ensures Shows(w, a, c)
  {
  }

  /** A new mirror with the same publication shows at least as much. */
  lemma VisibleGrows(w: World, s: State, s': State)
    requires ServerInv(w, s.mirror, s.published) && MirrorOk(w, s'.mirror)
    requires MirrorGrows(w, s.mirror, s'.mirror)
    requires s'.published == s.published || s'.published == Some(ManifestOf(w.decode, s'.mirror))
    ensures Grows(w, s, s')
    ensures ServerInv(w, s'.mirror, s'.published)
  {
    VisibleOk(w, s);
    LiveShows(w, s'.mirror);
    LiveManifestOk(w, s'.mirror);
    ListedIsOk(w, s'.mirror);
    assert ManifestOf(w.decode, s'.mirror).entries.Keys == Listed(s'.mirror).Keys;
  }

  // ---- one lemma per kind of step ----

  /** What a new upload plan holds: shared files with safe paths, and everything that the manifest lacks. */
  lemma PlanFromIndex(w: World, files: Files, man: Manifest)
    requires RepoOk(w, files) && Scans(files) && PlainNames(files)
    ensures forall p | p in UploadPlan(w.decode, files, man) :: p in files && !HostLocal(p) && SafePath(p)
    ensures forall p | p in files && Addressed(p) :: p in UploadPlan(w.decode, files, man) || p in man.entries
  {
    UploadPlanElems(w, files, man);
    PlainScansSafe(files);
    var todo := UploadPlan(w.decode, files, man);
    forall p | p in todo ensures p in files && !HostLocal(p) && SafePath(p) {
      assert p in Elems(todo) && p in LocalIndex(files);
    }
    forall p | p in files && Addressed(p) && p !in todo ensures p in man.entries {
      ProtocolPathsTravel(p);
      assert p !in Elems(todo);
    }
  }

  /** Whatever a plan leaves out is on the mirror already, or below one of its heads. */
  lemma PlanCoversRest(w: World, files: Files, man: Manifest, mirror: Files, todo: seq<Path>)
    requires Backed(w, mirror, man)
    requires forall p | p in files && Addressed(p) :: p in todo || p in man.entries
    ensures forall p | p in files && Durable(p) :: p in mirror || p in todo
    ensures forall h | h in files && IsHead(h) :: InHistory(w, mirror.Keys, HeadOp(h)) || h in todo
  {
    forall h | h in files && IsHead(h) && h !in todo ensures InHistory(w, mirror.Keys, HeadOp(h)) {
      HeadInHistory(w, man.entries.Keys, h);
    }
  }

  lemma StartStep(w: World, s: State, cl: Client, cl': Client)
    requires ServerInv(w, s.mirror, s.published) && ClientInv(w, s.mirror, Visible(w, s), cl)
    requires ClientStep(w, s, cl, Start, cl', s.mirror, s.published)
    ensures ClientInv(w, s.mirror, Visible(w, s), cl')
  {
    var man := Visible(w, s);
    VisibleOk(w, s);
    UploadPlanSafe(w, cl.files, man, s.mirror);
    PlanFromIndex(w, cl.files, man);
    PlanCoversRest(w, cl.files, man, s.mirror, UploadPlan(w.decode, cl.files, man));
  }

  lemma UploadStep(w: World, s: State, cl: Client, cl': Client, mirror': Files)
    requires ServerInv(w, s.mirror, s.published) && ClientInv(w, s.mirror, Visible(w, s), cl)
    requires ClientStep(w, s, cl, Upload, cl', mirror', s.published)
    ensures MirrorOk(w, mirror') && MirrorGrows(w, s.mirror, mirror')
    ensures RepoOk(w, cl'.files) && cl'.files == cl'.atStart && PushInv(w, mirror', cl'.files, cl'.phase.todo)
  {
    var todo := cl.phase.todo;
    var p := todo[0];
    assert mirror'.Keys == s.mirror.Keys + {p};
    assert p in todo;
    assert WellFormed(w, p, cl.files[p]);
    WriteKeepsRepoOk(w, s.mirror, p, cl.files[p]);
    HistoryMonotone(w, s.mirror.Keys, mirror'.Keys);
    assert todo == [p] + todo[1..];
    if IsHead(p) {
      HeadInHistory(w, mirror'.Keys, p);
    }
  }

  lemma CompleteStep(w: World, s: State, cl: Client, res: Resolution, cl': Client, mirror': Files)
    requires ServerInv(w, s.mirror, s.published) && ClientInv(w, s.mirror, Visible(w, s), cl)
    requires ClientStep(w, s, cl, SyncComplete(res, mirror'), cl', mirror', Some(ManifestOf(w.decode, mirror')))
    ensures MirrorOk(w, mirror') && MirrorGrows(w, s.mirror, mirror')
    ensures HistoryGrows(w, cl.atStart.Keys, mirror'.Keys)
    ensures forall p | p in cl.atStart && Durable(p) :: p in mirror'
    ensures ClientInv(w, mirror', ManifestOf(w.decode, mirror'), cl')
  {
    NormalizeKeepsOk(w, s.mirror, res, mirror');
    NormalizeKeepsHistory(w, s.mirror, res, mirror');
    ResolvedKeysAddressed(w, s.mirror.Keys, res);
    LiveShows(w, mirror');
    HistoryFromHeads(w, cl.files.Keys, s.mirror.Keys);
  }

  /** A client about to pull: what the plan leaves out is there already. */
  lemma FetchedInv(w: World, man: Manifest, files: Files)
    requires ManifestOk(w, man) && Shows(w, files.Keys, man)
    ensures var todo := PullPlan(files, man); PullInv(w, man, Client(files, Pulling(man, todo, true), files), man, todo, true)
  {
    PullPlanSafe(w, files, man);
    var todo := PullPlan(files, man);
    forall p | p in todo ensures p in PullSet(files, man) {
      assert p in Elems(todo);
    }
    forall p | p in man.entries && p !in todo ensures p in files && EntryOf(files[p]) == man.entries[p] {
      assert p !in Elems(todo);
      UnchangedRow(files, man, p);
    }
  }

  /** A repository without shared files has nothing that a manifest would have to show. */
  lemma EmptyShows(w: World, files: Files, man: Manifest)
    requires LocalIndex(files) == map[]
    ensures Shows(w, files.Keys, man)
  {
    forall p | p in files ensures !Addressed(p) {
      assert p !in LocalIndex(files);
      if IsOp(p) || IsView(p) || IsHead(p) {
        ProtocolPathsTravel(p);
      }
    }
  }

  lemma FetchStep(w: World, s: State, cl: Client, cl': Client)
    requires ServerInv(w, s.mirror, s.published) && ClientInv(w, s.mirror, Visible(w, s), cl)
    requires ClientStep(w, s, cl, FetchPublished, cl', s.mirror, s.published)
    ensures ClientInv(w, s.mirror, Visible(w, s), cl')
  {
    VisibleOk(w, s);
    FetchedInv(w, Visible(w, s), cl.files);
  }

  lemma JoinStep(w: World, s: State, cl: Client, cl': Client)
    requires ServerInv(w, s.mirror, s.published) && ClientInv(w, s.mirror, Visible(w, s), cl)
    requires ClientStep(w, s, cl, ColdJoin, cl', s.mirror, s.published)
    ensures ClientInv(w, s.mirror, Visible(w, s), cl')
  {
    VisibleOk(w, s);
    EmptyShows(w, cl.files, Visible(w, s));
    FetchedInv(w, Visible(w, s), cl.files);
  }

  lemma UnchangedRow(files: Files, man: Manifest, p: Path)
    requires p in man.entries && !HostLocal(p) && p !in PullSet(files, man)
    requires RowsHonest(man)
    ensures p in files && EntryOf(files[p]) == man.entries[p]
  {
  }

  lemma PullInvWrite(w: World, visible: Manifest, cl: Client, p: Path, content: Bytes)
    requires cl.phase.Pulling? && cl.phase.todo != [] && p == cl.phase.todo[0]
    requires PullInv(w, visible, cl, cl.phase.man, cl.phase.todo, cl.phase.stable)
    requires p in cl.phase.man.entries && EntryOf(content) == cl.phase.man.entries[p]
    ensures PullInv(w, visible, cl.(files := cl.files[p := content]), cl.phase.man, cl.phase.todo[1..], cl.phase.stable)
  {
    var todo := cl.phase.todo;
    assert todo == [p] + todo[1..];
    assert cl.files[p := content].Keys == cl.files.Keys + {p};
    assert p in todo;
    WriteKeepsStart(cl.atStart, cl.files, p, content);
  }

  lemma PullWriteOk(w: World, mirror: Files, cl: Client, p: Path)
    requires MirrorOk(w, mirror) && RepoOk(w, cl.files) && p in mirror
    requires cl.phase.Pulling? && cl.phase.todo != [] && p == cl.phase.todo[0]
    requires DepOrdered(w, cl.files.Keys, cl.phase.todo)
    ensures RepoOk(w, cl.files[p := mirror[p]])
  {
    assert WellFormed(w, p, mirror[p]);
    WriteKeepsRepoOk(w, cl.files, p, mirror[p]);
  }

  lemma PullWriteStep(w: World, s: State, cl: Client, cl': Client)
    requires ServerInv(w, s.mirror, s.published) && ClientInv(w, s.mirror, Visible(w, s), cl)
    requires ClientStep(w, s, cl, PullWrite, cl', s.mirror, s.published)
    ensures ClientInv(w, s.mirror, Visible(w, s), cl')
  {
    var p := cl.phase.todo[0];
    PullInvWrite(w, Visible(w, s), cl, p, s.mirror[p]);
    PullWriteOk(w, s.mirror, cl, p);
    var next := cl.(files := cl.files[p := s.mirror[p]]);
    assert cl' == next.(phase := cl.phase.(todo := cl.phase.todo[1..]));
    PullInvPhase(w, Visible(w, s), next, cl');
  }

  lemma PullInvPhase(w: World, visible: Manifest, cl: Client, cl': Client)
    requires cl.phase.Pulling? && cl'.files == cl.files && cl'.atStart == cl.atStart && cl'.phase.Pulling?
    requires PullInv(w, visible, cl, cl'.phase.man, cl'.phase.todo, cl'.phase.stable)
    ensures PullInv(w, visible, cl', cl'.phase.man, cl'.phase.todo, cl'.phase.stable)
  {
  }

  lemma PullRefetchStep(w: World, s: State, cl: Client, cl': Client)
    requires ServerInv(w, s.mirror, s.published) && ClientInv(w, s.mirror, Visible(w, s), cl)
    requires ClientStep(w, s, cl, PullRefetch, cl', s.mirror, s.published)
    ensures ClientInv(w, s.mirror, Visible(w, s), cl')
  {
    VisibleOk(w, s);
    ShowsTransitive(w, cl.atStart.Keys, cl.phase.man, Visible(w, s));
  }

  /** Only a path that nothing depends on can have left the manifest. */
  lemma PullSkipStep(w: World, s: State, cl: Client, cl': Client)
    requires ServerInv(w, s.mirror, s.published) && ClientInv(w, s.mirror, Visible(w, s), cl)
    requires ClientStep(w, s, cl, PullSkip, cl', s.mirror, s.published)
    ensures ClientInv(w, s.mirror, Visible(w, s), cl')
  {
    var todo := cl.phase.todo;
    assert todo[0] in todo;
    assert todo == [todo[0]] + todo[1..];
    DepOrderedMonotone(w, cl.files.Keys + {todo[0]}, cl.files.Keys, todo[1..]);
  }

  /** Prune removes only heads and files outside the operation store. */
  lemma PruneStep(w: World, s: State, cl: Client, p: Path, cl': Client)
    requires ServerInv(w, s.mirror, s.published) && ClientInv(w, s.mirror, Visible(w, s), cl)
    requires ClientStep(w, s, cl, Prune(p), cl', s.mirror, s.published)
    ensures !Durable(p)
    ensures ClientInv(w, s.mirror, Visible(w, s), cl')
  {
    RemoveKeepsRepoOk(w, cl.files, p);
    PullInvRemove(w, Visible(w, s), cl, p);
  }

  lemma PullInvRemove(w: World, visible: Manifest, cl: Client, p: Path)
    requires cl.phase.Pruning? && PullInv(w, visible, cl, cl.phase.man, [], cl.phase.stable)
    requires p in PruneSet(cl.files, cl.phase.man)
    ensures PullInv(w, visible, cl.(files := cl.files - {p}), cl.phase.man, [], cl.phase.stable)
  {
    assert (cl.files - {p}).Keys == cl.files.Keys - {p};
    RemoveKeepsStart(cl.atStart, cl.files, p);
  }

  /** Steps that leave the server alone. */
  lemma QuietStep(w: World, s: State, cl: Client, step: Step, cl': Client)
    requires ServerInv(w, s.mirror, s.published) && ClientInv(w, s.mirror, Visible(w, s), cl)
    requires ClientStep(w, s, cl, step, cl', s.mirror, s.published)
    requires !step.Upload? && !step.SyncComplete? && !step.NormalizeUnpublished?
    ensures ClientInv(w, s.mirror, Visible(w, s), cl')
  {
    match step
    case Edit(files) =>
    case Start => StartStep(w, s, cl, cl');
    case FetchPublished => FetchStep(w, s, cl, cl');
    case ColdJoin => JoinStep(w, s, cl, cl');
    case PullWrite => PullWriteStep(w, s, cl, cl');
    case PullRefetch => PullRefetchStep(w, s, cl, cl');
    case PullSkip => PullSkipStep(w, s, cl, cl');
    case PullDone =>
    case Prune(p) => PruneStep(w, s, cl, p, cl');
    case Finish =>
    case Stop =>
  }

  lemma ServerSideStep(w: World, s: State, cl: Client, step: Step, cl': Client, s': State)
    requires ServerInv(w, s.mirror, s.published) && ClientInv(w, s.mirror, Visible(w, s), cl)
    requires ClientStep(w, s, cl, step, cl', s'.mirror, s'.published)
    requires step.Upload? || step.SyncComplete? || step.NormalizeUnpublished?
    ensures ServerInv(w, s'.mirror, s'.published) && Grows(w, s, s')
    ensures ClientInv(w, s'.mirror, Visible(w, s'), cl')
  {
    match step
    case Upload =>
      UploadStep(w, s, cl, cl', s'.mirror);
      VisibleGrows(w, s, s');
    case SyncComplete(res, mirror) =>
      CompleteStep(w, s, cl, res, cl', mirror);
      VisibleGrows(w, s, s');
    case NormalizeUnpublished(res, mirror) =>
      NormalizeKeepsOk(w, s.mirror, res, mirror);
      NormalizeKeepsHistory(w, s.mirror, res, mirror);
      ResolvedKeysAddressed(w, s.mirror.Keys, res);
      VisibleGrows(w, s, s');
  }

  lemma StepKeepsInv(w: World, s: State, c: nat, step: Step, s': State)
    requires Inv(w, s) && NextBy(w, s, c, step, s')
    ensures Inv(w, s') && Grows(w, s, s')
  {
    var cl, cl' := s.clients[c], s'.clients[c];
    if step.Upload? || step.SyncComplete? || step.NormalizeUnpublished? {
      ServerSideStep(w, s, cl, step, cl', s');
    } else {
      QuietStep(w, s, cl, step, cl');
      VisibleGrows(w, s, s');
      assert Visible(w, s) == Visible(w, s');
    }
    forall d | d in s'.clients ensures ClientInv(w, s'.mirror, Visible(w, s'), s'.clients[d]) {
      if d != c {
        ClientInvStable(w, s, s', s.clients[d]);
      }
    }
  }

  // ---- main results ----

  lemma {:induction false} RunKeepsInv(w: World, b: seq<State>, i: nat)
    requires Run(w, b) && i < |b|
    ensures Inv(w, b[i])
  {
    if i > 0 {
      RunKeepsInv(w, b, i - 1);
      RunNext(w, b, i);
      NextKeepsInv(w, b[i - 1], b[i]);
    }
  }

  lemma NextKeepsInv(w: World, s: State, s': State)
    requires Inv(w, s) && Next(w, s, s')
    ensures Inv(w, s')
  {
    var c, step :| NextBy(w, s, c, step, s');
    StepKeepsInv(w, s, c, step, s');
  }

  /** In every state of every run: the mirror holds each operation's parents and view and each head's
      operation, its live manifest can be built, and so it is with every manifest that is served. */
  lemma ServerAlwaysClosed(w: World, b: seq<State>, i: nat)
    requires Run(w, b) && i < |b|
    ensures Closed(w, b[i].mirror.Keys)
    ensures ServerScans(b[i].mirror) && Orderable(b[i].mirror, w.decode, Listed(b[i].mirror).Keys)
    ensures ManifestOk(w, Visible(w, b[i]))
  {
    RunKeepsInv(w, b, i);
    LiveManifestOk(w, b[i].mirror);
    VisibleOk(w, b[i]);
  }

  /** Every client repository is closed in every state, also between two pulled or pruned files, and
      also when the manifest is refetched during the pull. */
  lemma ClientsAlwaysClosed(w: World, b: seq<State>, i: nat, c: nat)
    requires Run(w, b) && i < |b| && c in b[i].clients
    ensures RepoOk(w, b[i].clients[c].files)
  {
    RunKeepsInv(w, b, i);
    assert ClientInv(w, b[i].mirror, Visible(w, b[i]), b[i].clients[c]);
  }

  /** What was in `before` is still on the mirror: its history, as files too, and its operations and views. */
  ghost predicate StillThere(w: World, before: set<Path>, mirror: Files) {
    && HistoryGrows(w, before, mirror.Keys)
    && (forall q: Path | InHistory(w, before, q) :: q in mirror)
    && (forall p | p in before && Durable(p) :: p in mirror)
  }

  /** Operations and views keep their content. */
  ghost predicate SameDurable(mirror: Files, mirror': Files) {
    forall p | p in mirror && Durable(p) :: p in mirror' && mirror'[p] == mirror[p]
  }

  lemma StillThereByHistory(w: World, before: set<Path>, mirror: Files)
    requires MirrorOk(w, mirror) && HistoryGrows(w, before, mirror.Keys)
    requires forall p | p in before && Durable(p) :: p in mirror
    ensures StillThere(w, before, mirror)
  {
    forall q: Path | InHistory(w, before, q) ensures q in mirror {
      HistoryOnDisk(w, mirror.Keys, q);
    }
  }

  lemma StillThereTransitive(w: World, before: set<Path>, mirror: Files, mirror': Files)
    requires StillThere(w, before, mirror) && StillThere(w, mirror.Keys, mirror')
    ensures StillThere(w, before, mirror')
  {
    HistoryGrowsTransitive(w, before, mirror.Keys, mirror'.Keys);
    forall q: Path | InHistory(w, before, q) ensures q in mirror' {
      assert InHistory(w, mirror.Keys, q);
    }
  }

  lemma NextKeeps(w: World, s: State, s': State)
    requires Inv(w, s) && Next(w, s, s')
    ensures StillThere(w, s.mirror.Keys, s'.mirror) && SameDurable(s.mirror, s'.mirror)
  {
    var c, step :| NextBy(w, s, c, step, s');
    StepKeepsInv(w, s, c, step, s');
    StillThereByHistory(w, s.mirror.Keys, s'.mirror);
    forall p | p in s.mirror && Durable(p) ensures p in s'.mirror && s'.mirror[p] == s.mirror[p] {
      assert WellFormed(w, p, s.mirror[p]) && WellFormed(w, p, s'.mirror[p]);
    }
  }

  lemma RunNextKeeps(w: World, b: seq<State>, j: nat)
    requires Run(w, b) && 0 < j < |b|
    ensures StillThere(w, b[j - 1].mirror.Keys, b[j].mirror) && SameDurable(b[j - 1].mirror, b[j].mirror)
  {
    RunKeepsInv(w, b, j - 1);
    RunNext(w, b, j);
    NextKeeps(w, b[j - 1], b[j]);
  }

  /** The history that the server's heads keep alive never shrinks, all of it stays on the mirror, and no
      operation or view is removed or changed. */
  lemma {:induction false} ServerHistoryNeverShrinks(w: World, b: seq<State>, i: nat, j: nat)
    requires Run(w, b) && i <= j < |b|
    ensures StillThere(w, b[i].mirror.Keys, b[j].mirror) && SameDurable(b[i].mirror, b[j].mirror)
    decreases j
  {
    if i == j {
      RunKeepsInv(w, b, i);
      StillThereByHistory(w, b[i].mirror.Keys, b[i].mirror);
    } else {
      ServerHistoryNeverShrinks(w, b, i, j - 1);
      RunNextKeeps(w, b, j);
      StillThereTransitive(w, b[i].mirror.Keys, b[j - 1].mirror, b[j].mirror);
      SameDurableTransitive(b[i].mirror, b[j - 1].mirror, b[j].mirror);
    }
  }

  lemma SameDurableTransitive(m0: Files, m1: Files, m2: Files)
    requires SameDurable(m0, m1) && SameDurable(m1, m2)
    ensures SameDurable(m0, m2)
  {
  }

  lemma CompleteKeepsStart(w: World, s: State, c: nat, res: Resolution, mirror: Files, s': State)
    requires Inv(w, s) && NextBy(w, s, c, SyncComplete(res, mirror), s')
    ensures s'.mirror == mirror
    ensures HistoryGrows(w, s.clients[c].atStart.Keys, mirror.Keys)
    ensures forall p | p in s.clients[c].atStart && Durable(p) :: p in mirror
  {
    assert ClientInv(w, s.mirror, Visible(w, s), s.clients[c]);
    CompleteStep(w, s, s.clients[c], res, s'.clients[c], mirror);
  }

  /** The answer to client `c`'s sync-complete comes between `s` and `s'`. */
  ghost predicate Answered(s: State, c: nat, s': State) {
    c in s.clients && c in s'.clients && s.clients[c].phase.Pushing? && s'.clients[c].phase == Completed
  }

  lemma OnlyCompleteAnswers(w: World, s: State, c: nat, s': State) returns (res: Resolution)
    requires Next(w, s, s') && Answered(s, c, s')
    ensures NextBy(w, s, c, SyncComplete(res, s'.mirror), s')
  {
    var d, step :| NextBy(w, s, d, step, s');
    assert d == c;
    CompleteChangesPhase(w, s, s.clients[c], step, s'.clients[c], s'.mirror, s'.published);
    res := step.res;
  }

  lemma CompleteChangesPhase(w: World, s: State, cl: Client, step: Step, cl': Client, mirror': Files, published': Option<Manifest>)
    requires ClientStep(w, s, cl, step, cl', mirror', published') && cl.phase.Pushing? && cl'.phase == Completed
    ensures step.SyncComplete? && step == SyncComplete(step.res, mirror')
  {
  }

  lemma AnswerKeepsStart(w: World, s: State, c: nat, s': State)
    requires Inv(w, s) && Next(w, s, s') && Answered(s, c, s')
    ensures HistoryGrows(w, s.clients[c].atStart.Keys, s'.mirror.Keys)
    ensures forall p | p in s.clients[c].atStart && Durable(p) :: p in s'.mirror
  {
    var res := OnlyCompleteAnswers(w, s, c, s');
    CompleteKeepsStart(w, s, c, res, s'.mirror, s');
  }

  lemma AnswerIsKept(w: World, b: seq<State>, i: nat, c: nat)
    requires Run(w, b) && i + 1 < |b| && Answered(b[i], c, b[i + 1])
    ensures StillThere(w, b[i].clients[c].atStart.Keys, b[i + 1].mirror)
  {
    RunKeepsInv(w, b, i);
    RunKeepsInv(w, b, i + 1);
    RunNext(w, b, i + 1);
    AnswerKeepsStart(w, b[i], c, b[i + 1]);
    StillThereByHistory(w, b[i].clients[c].atStart.Keys, b[i + 1].mirror);
  }

  /** Once a client's sync-complete has been answered, the server's history contains everything its
      heads kept alive when the round began, and so it does forever after. */
  lemma CompletedRoundIsKept(w: World, b: seq<State>, i: nat, j: nat, c: nat)
    requires Run(w, b) && i < j < |b| && Answered(b[i], c, b[i + 1])
    ensures StillThere(w, b[i].clients[c].atStart.Keys, b[j].mirror)
  {
    AnswerIsKept(w, b, i, c);
    ServerHistoryNeverShrinks(w, b, i + 1, j);
    StillThereTransitive(w, b[i].clients[c].atStart.Keys, b[i + 1].mirror, b[j].mirror);
  }

  lemma HistoryGrowsTransitive(w: World, k0: set<Path>, k1: set<Path>, k2: set<Path>)
    requires HistoryGrows(w, k0, k1) && HistoryGrows(w, k1, k2)
    ensures HistoryGrows(w, k0, k2)
  {
  }

  /** During a round no operation or view of the tree it began with leaves the client; and when the
      round finishes, the client's own heads keep alive everything they kept alive before. */
  lemma RoundKeepsClientHistory(w: World, b: seq<State>, i: nat, c: nat)
    requires Run(w, b) && i < |b| && c in b[i].clients && b[i].clients[c].phase != Idle
    ensures var cl := b[i].clients[c];
            && (forall p | p in cl.atStart && Durable(p) :: p in cl.files && cl.files[p] == cl.atStart[p])
            && SameHostLocal(cl.files, cl.atStart)
            && (forall q: Path | InHistory(w, cl.atStart.Keys, q) :: q in cl.files)
            && (cl.phase.Pruning? && Verified(cl.files, cl.phase.man) && PruneSet(cl.files, cl.phase.man) == {}
                ==> HistoryGrows(w, cl.atStart.Keys, cl.files.Keys))
  {
    RunKeepsInv(w, b, i);
    StartTreesOk(w, b, i, c);
    ClientsAlwaysClosed(w, b, i, c);
    var cl := b[i].clients[c];
    assert ClientInv(w, b[i].mirror, Visible(w, b[i]), cl);
    forall p | p in cl.atStart && Durable(p) ensures p in cl.files && cl.files[p] == cl.atStart[p] {
      assert p in cl.files;
      assert WellFormed(w, p, cl.atStart[p]) && WellFormed(w, p, cl.files[p]);
    }
    forall q: Path | InHistory(w, cl.atStart.Keys, q) ensures q in cl.files {
      HistoryOnDisk(w, cl.atStart.Keys, q);
    }
    if cl.phase.Pruning? && Verified(cl.files, cl.phase.man) {
      var man := cl.phase.man;
      forall h | h in man.entries && IsHead(h) ensures h in cl.files {
        ProtocolPathsTravel(h);
      }
      HistoryMonotone(w, man.entries.Keys, cl.files.Keys);
    }
  }

  ghost predicate StartTreeOk(w: World, cl: Client) {
    cl.phase != Idle ==> RepoOk(w, cl.atStart)
  }

  lemma {:induction false} StartTreesOk(w: World, b: seq<State>, i: nat, c: nat)
    requires Run(w, b) && i < |b| && c in b[i].clients
    ensures StartTreeOk(w, b[i].clients[c])
  {
    if i > 0 {
      RunNext(w, b, i);
      NextKeepsClients(w, b[i - 1], b[i]);
      StartTreesOk(w, b, i - 1, c);
      ClientsAlwaysClosed(w, b, i - 1, c);
      StartTreeStep(w, b[i - 1], c, b[i]);
    }
  }

  lemma NextKeepsClients(w: World, s: State, s': State)
    requires Next(w, s, s')
    ensures s'.clients.Keys == s.clients.Keys
  {
  }

  lemma StartTreeStep(w: World, s: State, c: nat, s': State)
    requires Next(w, s, s') && c in s.clients && c in s'.clients
    requires RepoOk(w, s.clients[c].files) && StartTreeOk(w, s.clients[c])
    ensures StartTreeOk(w, s'.clients[c])
  {
    var d, step :| NextBy(w, s, d, step, s');
    if d == c {
      AtStartStep(w, s, s.clients[c], step, s'.clients[c], s'.mirror, s'.published);
    }
  }

  lemma AtStartStep(w: World, s: State, cl: Client, step: Step, cl': Client, mirror': Files, published': Option<Manifest>)
    requires ClientStep(w, s, cl, step, cl', mirror', published')
    ensures cl'.phase == Idle || (cl'.atStart == cl.files && cl.phase == Idle) || (cl'.atStart == cl.atStart && cl.phase != Idle)
  {
  }

  /** A pull whose manifest stayed the same ends in a tree that passes the final check as soon as
      nothing is left to prune. */
  lemma StablePullVerifies(w: World, b: seq<State>, i: nat, c: nat)
    requires Run(w, b) && i < |b| && c in b[i].clients
    requires b[i].clients[c].phase.Pruning? && b[i].clients[c].phase.stable
    requires PruneSet(b[i].clients[c].files, b[i].clients[c].phase.man) == {}
    ensures Verified(b[i].clients[c].files, b[i].clients[c].phase.man)
  {
    RunKeepsInv(w, b, i);
    var cl := b[i].clients[c];
    assert ClientInv(w, b[i].mirror, Visible(w, b[i]), cl);
    forall p | p in cl.phase.man.entries
      ensures p in LocalIndex(cl.files) && LocalIndex(cl.files)[p] == cl.phase.man.entries[p]
    {
      assert p !in [];
    }
    assert forall p | p in LocalIndex(cl.files) :: p in PruneSet(cl.files, cl.phase.man) || p in cl.phase.man.entries;
  }

  /** A round that could scan its tree in the beginning can do so to its end, whatever it pulls and prunes. */
  lemma LaterScansPass(w: World, b: seq<State>, i: nat, c: nat)
    requires Run(w, b) && i < |b| && c in b[i].clients && b[i].clients[c].phase != Idle
    requires Scans(b[i].clients[c].atStart)
    ensures Scans(b[i].clients[c].files)
  {
    RunKeepsInv(w, b, i);
    assert ClientInv(w, b[i].mirror, Visible(w, b[i]), b[i].clients[c]);
  }

  /** What clients are served stands still between publications: only a sync-complete replaces the published
      manifest, and with the manifest of the mirror as it is then. */
  lemma ServedManifestStands(w: World, s: State, s': State)
    requires Next(w, s, s')
    ensures s'.published == s.published || exists c :: Answered(s, c, s') && s'.published == Some(ManifestOf(w.decode, s'.mirror))
    ensures s.published.Some? && s'.published == s.published ==> Visible(w, s') == Visible(w, s)
    ensures s.published.None? ==> Visible(w, s) == ManifestOf(w.decode, s.mirror)
  {
    var c, step :| NextBy(w, s, c, step, s');
    if s'.published != s.published {
      assert Answered(s, c, s');
    }
  }

  /** Host-local paths never travel: no manifest lists them, and no round changes a client's copies. */
  lemma HostLocalStaysHome(w: World, b: seq<State>, i: nat, c: nat, p: Path)
    requires Run(w, b) && i < |b| && HostLocal(p) && c in b[i].clients
    ensures p !in Visible(w, b[i]).entries
    ensures var cl := b[i].clients[c];
            cl.phase != Idle ==> (p in cl.files <==> p in cl.atStart) && (p in cl.files ==> cl.files[p] == cl.atStart[p])
  {
    ServerAlwaysClosed(w, b, i);
    RunKeepsInv(w, b, i);
    var cl := b[i].clients[c];
    assert ClientInv(w, b[i].mirror, Visible(w, b[i]), cl);
    assert cl.phase != Idle ==> SameHostLocal(cl.files, cl.atStart);
  }

  /** From any reachable state, only the server's own normalize touches a host-local path of the mirror. */
  lemma HostLocalNeverUploaded(w: World, s: State, c: nat, step: Step, s': State, p: Path)
    requires Inv(w, s) && HostLocal(p)
    requires NextBy(w, s, c, step, s') && !step.SyncComplete? && !step.NormalizeUnpublished?
    ensures p in s'.mirror <==> p in s.mirror
    ensures p in s'.mirror ==> s'.mirror[p] == s.mirror[p]
  {
    OnlyUploadsWrite(w, s, s.clients[c], step, s'.clients[c], s'.mirror, s'.published);
    if step.Upload? {
      UploadsAreShared(w, s, c);
    }
  }

  lemma OnlyUploadsWrite(w: World, s: State, cl: Client, step: Step, cl': Client, mirror': Files, published': Option<Manifest>)
    requires ClientStep(w, s, cl, step, cl', mirror', published') && !step.SyncComplete? && !step.NormalizeUnpublished?
    ensures !step.Upload? ==> mirror' == s.mirror
    ensures step.Upload? ==> cl.phase.Pushing? && cl.phase.todo != [] && cl.phase.todo[0] in cl.phase.todo
                             && forall p | p != cl.phase.todo[0] :: (p in mirror' <==> p in s.mirror) && (p in s.mirror ==> mirror'[p] == s.mirror[p])
  {
  }

  lemma UploadsAreShared(w: World, s: State, c: nat)
    requires Inv(w, s) && c in s.clients && s.clients[c].phase.Pushing?
    ensures forall p | p in s.clients[c].phase.todo :: !HostLocal(p)
  {
    assert ClientInv(w, s.mirror, Visible(w, s), s.clients[c]);
  }
}
