/** One undisturbed round, file by file: the steps of the sync protocol add up to what the round computes. */
module RoundRefinement {
  import opened Results
  import opened Paths
  import opened Manifests
  import opened JjRepo
  import opened SyncPlan
  import opened SyncProtocol
  import opened SyncRound
  import opened Convergence

  /** `b` is a sequence of protocol steps from `s` to `s'`. */
  ghost predicate StepsBetween(w: World, b: seq<State>, s: State, s': State) {
    |b| > 0 && b[0] == s && b[|b| - 1] == s' && forall i | 0 < i < |b| :: Next(w, b[i - 1], b[i])
  }

  ghost predicate Leads(w: World, s: State, s': State) {
    exists b: seq<State> :: StepsBetween(w, b, s, s')
  }

  lemma LeadsSelf(w: World, s: State)
    ensures Leads(w, s, s)
  {
    assert StepsBetween(w, [s], s, s);
  }

  lemma LeadsFirst(w: World, s: State, c: nat, step: Step, s1: State, s2: State)
    requires NextBy(w, s, c, step, s1) && Leads(w, s1, s2)
    ensures Leads(w, s, s2)
  {
    var b :| StepsBetween(w, b, s1, s2);
    var longer := [s] + b;
    forall i | 0 < i < |longer| ensures Next(w, longer[i - 1], longer[i]) {
      if i > 1 {
        assert longer[i - 1] == b[i - 2] && longer[i] == b[i - 1];
      }
    }
    assert StepsBetween(w, longer, s, s2);
  }

  lemma LeadsThrough(w: World, s: State, s1: State, s2: State)
    requires Leads(w, s, s1) && Leads(w, s1, s2)
    ensures Leads(w, s, s2)
  {
    var a :| StepsBetween(w, a, s, s1);
    var b :| StepsBetween(w, b, s1, s2);
    var both := a + b[1..];
    forall i | 0 < i < |both| ensures Next(w, both[i - 1], both[i]) {
      if i < |a| {
        assert both[i - 1] == a[i - 1] && both[i] == a[i];
      } else {
        assert both[i - 1] == b[i - |a|] && both[i] == b[i - |a| + 1];
      }
    }
    assert StepsBetween(w, both, s, s2);
  }

  // ---- the three loops ----

  lemma OverlayCons(files: Files, from: Files, p: Path, rest: seq<Path>)
    requires p in from && Elems(rest) <= from.Keys
    ensures Elems([p] + rest) <= from.Keys
    ensures Overlay(files[p := from[p]], from, Elems(rest)) == Overlay(files, from, Elems([p] + rest))
  {
    ElemsConcat([p], rest);
  }

  lemma ClientNext(w: World, s: State, c: nat, step: Step, cl': Client, mirror': Files, published': Option<Manifest>, s2: State)
    requires c in s.clients && ClientStep(w, s, s.clients[c], step, cl', mirror', published')
    requires Leads(w, State(s.clients[c := cl'], mirror', published'), s2)
    ensures Leads(w, s, s2)
  {
    var s1 := State(s.clients[c := cl'], mirror', published');
    assert NextBy(w, s, c, step, s1);
    LeadsFirst(w, s, c, step, s1, s2);
  }

  /** The states of one client's round: the other clients stay as they are in `s`. */
  function At(s: State, c: nat, cl: Client, mirror: Files, published: Option<Manifest>): State {
    State(s.clients[c := cl], mirror, published)
  }

  lemma AtAgain(s: State, c: nat, cl: Client, mirror: Files, published: Option<Manifest>, cl': Client)
    ensures At(s, c, cl, mirror, published).clients[c := cl'] == s.clients[c := cl']
    ensures At(s, c, cl, mirror, published).clients[c] == cl
  {
  }

  lemma {:induction false} UploadsLead(w: World, s: State, c: nat, files: Files, mirror: Files, todo: seq<Path>)
    requires Elems(todo) <= files.Keys
    ensures Leads(w, At(s, c, Client(files, Pushing(todo), files), mirror, s.published),
                     At(s, c, Client(files, Pushing([]), files), Overlay(mirror, files, Elems(todo)), s.published))
    decreases |todo|
  {
    var s0 := At(s, c, Client(files, Pushing(todo), files), mirror, s.published);
    if todo == [] {
      assert Overlay(mirror, files, Elems(todo)) == mirror;
      LeadsSelf(w, s0);
    } else {
      var p, rest := todo[0], todo[1..];
      assert todo == [p] + rest;
      assert p in Elems(todo);
      ElemsConcat([p], rest);
      OverlayCons(mirror, files, p, rest);
      UploadsLead(w, s, c, files, mirror[p := files[p]], rest);
      AtAgain(s, c, Client(files, Pushing(todo), files), mirror, s.published, Client(files, Pushing(rest), files));
      ClientNext(w, s0, c, Upload, Client(files, Pushing(rest), files), mirror[p := files[p]], s.published,
                 At(s, c, Client(files, Pushing([]), files), Overlay(mirror, files, Elems(todo)), s.published));
    }
  }

  /** What is left to pull is on the mirror as listed. */
  ghost predicate Available(mirror: Files, man: Manifest, todo: seq<Path>) {
    forall p | p in Elems(todo) :: p in mirror && p in man.entries && EntryOf(mirror[p]) == man.entries[p]
  }

  lemma AvailableParts(mirror: Files, man: Manifest, p: Path, rest: seq<Path>)
    requires Available(mirror, man, [p] + rest)
    ensures p in mirror && p in man.entries && EntryOf(mirror[p]) == man.entries[p]
    ensures Available(mirror, man, rest) && Elems(rest) <= mirror.Keys && Elems([p] + rest) <= mirror.Keys
  {
    ElemsConcat([p], rest);
    assert p in Elems([p] + rest);
  }

  /** A client in the middle of its pull. */
  function Puller(files: Files, man: Manifest, todo: seq<Path>, start: Files): Client {
    Client(files, Pulling(man, todo, true), start)
  }

  lemma {:induction false} PullsLead(w: World, s: State, c: nat, files: Files, start: Files, mirror: Files, man: Manifest, todo: seq<Path>)
    requires Available(mirror, man, todo) && Elems(todo) <= mirror.Keys
    ensures Leads(w, At(s, c, Puller(files, man, todo, start), mirror, Some(man)),
                     At(s, c, Puller(Overlay(files, mirror, Elems(todo)), man, [], start), mirror, Some(man)))
    decreases |todo|
  {
    var s0 := At(s, c, Puller(files, man, todo, start), mirror, Some(man));
    if todo == [] {
      assert Overlay(files, mirror, Elems(todo)) == files;
      LeadsSelf(w, s0);
    } else {
      var p, rest := todo[0], todo[1..];
      assert todo == [p] + rest;
      AvailableParts(mirror, man, p, rest);
      OverlayCons(files, mirror, p, rest);
      PullsLead(w, s, c, files[p := mirror[p]], start, mirror, man, rest);
      AtAgain(s, c, Puller(files, man, todo, start), mirror, Some(man), Puller(files[p := mirror[p]], man, rest, start));
      ClientNext(w, s0, c, PullWrite, Puller(files[p := mirror[p]], man, rest, start), mirror, Some(man),
                 At(s, c, Puller(Overlay(files, mirror, Elems(todo)), man, [], start), mirror, Some(man)));
    }
  }

  function Pruner(files: Files, man: Manifest, start: Files): Client {
    Client(files, Pruning(man, true), start)
  }

  lemma PruneOne(files: Files, man: Manifest, p: Path)
    requires p in PruneSet(files, man)
    ensures PruneSet(files - {p}, man) == PruneSet(files, man) - {p}
    ensures (files - {p}) - (PruneSet(files, man) - {p}) == files - PruneSet(files, man)
  {
  }

  lemma {:induction false} PrunesLead(w: World, s: State, c: nat, files: Files, start: Files, mirror: Files, man: Manifest, left: set<Path>)
    requires left == PruneSet(files, man)
    ensures Leads(w, At(s, c, Pruner(files, man, start), mirror, Some(man)), At(s, c, Pruner(files - left, man, start), mirror, Some(man)))
    decreases |left|
  {
    var s0 := At(s, c, Pruner(files, man, start), mirror, Some(man));
    if left == {} {
      assert files - left == files;
      LeadsSelf(w, s0);
    } else {
      var p :| p in left;
      PruneOne(files, man, p);
      PrunesLead(w, s, c, files - {p}, start, mirror, man, left - {p});
      AtAgain(s, c, Pruner(files, man, start), mirror, Some(man), Pruner(files - {p}, man, start));
      ClientNext(w, s0, c, Prune(p), Pruner(files - {p}, man, start), mirror, Some(man),
                 At(s, c, Pruner(files - left, man, start), mirror, Some(man)));
    }
  }

  // ---- the whole round ----

  /** The state when the client's sync-complete has been answered. */
  function AfterComplete(s: State, c: nat, start: Files, mirror': Files, man: Manifest): State {
    At(s, c, Client(start, Completed, start), mirror', Some(man))
  }

  /** The state when a round has finished. */
  function AfterRound(s: State, c: nat, start: Files, mirror': Files, man: Manifest): State {
    At(s, c, Client(Adopted(start, mirror'), Idle, start), mirror', Some(man))
  }

  lemma CompleteLeads(w: World, s: State, c: nat, start: Files, up: Files, res: Resolution, mirror': Files)
    requires Normalizes(w, up, res, mirror')
    ensures Leads(w, At(s, c, Client(start, Pushing([]), start), up, s.published),
                     AfterComplete(s, c, start, mirror', ManifestOf(w.decode, mirror')))
  {
    var man := ManifestOf(w.decode, mirror');
    var s0 := At(s, c, Client(start, Pushing([]), start), up, s.published);
    AtAgain(s, c, Client(start, Pushing([]), start), up, s.published, Client(start, Completed, start));
    LeadsSelf(w, AfterComplete(s, c, start, mirror', man));
    ClientNext(w, s0, c, SyncComplete(res, mirror'), Client(start, Completed, start), mirror', Some(man), AfterComplete(s, c, start, mirror', man));
  }

  lemma StartLeads(w: World, s: State, c: nat, start: Files, s2: State)
    requires c in s.clients && s.clients[c].phase == Idle && s.clients[c].files == start && Ready(start)
    requires Leads(w, At(s, c, Client(start, Pushing(UploadPlan(w.decode, start, Visible(w, s))), start), s.mirror, s.published), s2)
    ensures Leads(w, s, s2)
  {
    ClientNext(w, s, c, Start, Client(start, Pushing(UploadPlan(w.decode, start, Visible(w, s))), start), s.mirror, s.published, s2);
  }

  /** Start, one step per uploaded file, sync-complete. */
  lemma PushHalf(w: World, s: State, c: nat, start: Files, res: Resolution, mirror': Files)
    requires c in s.clients && s.clients[c].phase == Idle && s.clients[c].files == start && RepoOk(w, start) && Ready(start)
    requires Normalizes(w, Uploaded(start, Visible(w, s), s.mirror), res, mirror')
    ensures Leads(w, s, AfterComplete(s, c, start, mirror', ManifestOf(w.decode, mirror')))
  {
    var man := Visible(w, s);
    var todo := UploadPlan(w.decode, start, man);
    UploadPlanElems(w, start, man);
    assert PushSet(start, man) <= start.Keys;
    UploadsLead(w, s, c, start, s.mirror, todo);
    assert Overlay(s.mirror, start, Elems(todo)) == Uploaded(start, man, s.mirror);
    CompleteLeads(w, s, c, start, Uploaded(start, man, s.mirror), res, mirror');
    LeadsThrough(w, At(s, c, Client(start, Pushing(todo), start), s.mirror, s.published),
                 At(s, c, Client(start, Pushing([]), start), Uploaded(start, man, s.mirror), s.published),
                 AfterComplete(s, c, start, mirror', ManifestOf(w.decode, mirror')));
    StartLeads(w, s, c, start, AfterComplete(s, c, start, mirror', ManifestOf(w.decode, mirror')));
  }

  lemma FinishLeads(w: World, s: State, c: nat, start: Files, mirror': Files)
    requires MirrorOk(w, mirror') && Scans(start)
    ensures var man := ManifestOf(w.decode, mirror');
            Leads(w, At(s, c, Pruner(Adopted(start, mirror'), man, start), mirror', Some(man)), AfterRound(s, c, start, mirror', man))
  {
    var man := ManifestOf(w.decode, mirror');
    var adopted := Adopted(start, mirror');
    AdoptedVerifies(w.decode, start, mirror');
    assert NoneUnderDojjo(Listed(mirror'));
    assert PruneSet(adopted, man) == {};
    AdoptingKeepsScans(start, mirror', {});
    AtAgain(s, c, Pruner(adopted, man, start), mirror', Some(man), Client(adopted, Idle, start));
    LeadsSelf(w, AfterRound(s, c, start, mirror', man));
    ClientNext(w, At(s, c, Pruner(adopted, man, start), mirror', Some(man)), c, Finish, Client(adopted, Idle, start), mirror', Some(man),
               AfterRound(s, c, start, mirror', man));
  }

  lemma DoneLeads(w: World, s: State, c: nat, pulled: Files, start: Files, mirror': Files, man: Manifest, s2: State)
    requires Scans(pulled)
    requires Leads(w, At(s, c, Pruner(pulled, man, start), mirror', Some(man)), s2)
    ensures Leads(w, At(s, c, Puller(pulled, man, [], start), mirror', Some(man)), s2)
  {
    AtAgain(s, c, Puller(pulled, man, [], start), mirror', Some(man), Pruner(pulled, man, start));
    ClientNext(w, At(s, c, Puller(pulled, man, [], start), mirror', Some(man)), c, PullDone, Pruner(pulled, man, start), mirror', Some(man), s2);
  }

  lemma FetchLeads(w: World, s: State, c: nat, start: Files, mirror': Files, man: Manifest, s2: State)
    requires Scans(start)
    requires Leads(w, At(s, c, Puller(start, man, PullPlan(start, man), start), mirror', Some(man)), s2)
    ensures Leads(w, AfterComplete(s, c, start, mirror', man), s2)
  {
    AtAgain(s, c, Client(start, Completed, start), mirror', Some(man), Puller(start, man, PullPlan(start, man), start));
    ClientNext(w, AfterComplete(s, c, start, mirror', man), c, FetchPublished, Puller(start, man, PullPlan(start, man), start), mirror', Some(man), s2);
  }

  lemma PlanAvailable(w: World, start: Files, mirror': Files)
    requires MirrorOk(w, mirror')
    ensures var man := ManifestOf(w.decode, mirror');
            && Elems(PullPlan(start, man)) == PullSet(start, man)
            && PullSet(start, man) <= mirror'.Keys
            && Available(mirror', man, PullPlan(start, man))
  {
    LiveManifestOk(w, mirror');
    PullPlanSafe(w, start, ManifestOf(w.decode, mirror'));
    PublishedDownloadable(w.decode, start, mirror');
  }

  /** Manifest, one step per pulled and per pruned file, the final check. */
  lemma PullHalf(w: World, s: State, c: nat, start: Files, mirror': Files)
    requires MirrorOk(w, mirror') && Scans(start)
    ensures var man := ManifestOf(w.decode, mirror'); Leads(w, AfterComplete(s, c, start, mirror', man), AfterRound(s, c, start, mirror', man))
  {
    var man := ManifestOf(w.decode, mirror');
    var goal := AfterRound(s, c, start, mirror', man);
    PlanAvailable(w, start, mirror');
    AdoptedByPullAndPrune(w.decode, start, mirror');
    AdoptingKeepsScans(start, mirror', PullSet(start, man));
    var pulled := Overlay(start, mirror', PullSet(start, man));
    FinishLeads(w, s, c, start, mirror');
    PrunesLead(w, s, c, pulled, start, mirror', man, PruneSet(pulled, man));
    LeadsThrough(w, At(s, c, Pruner(pulled, man, start), mirror', Some(man)), At(s, c, Pruner(Adopted(start, mirror'), man, start), mirror', Some(man)), goal);
    DoneLeads(w, s, c, pulled, start, mirror', man, goal);
    PullsLead(w, s, c, start, start, mirror', man, PullPlan(start, man));
    LeadsThrough(w, At(s, c, Puller(start, man, PullPlan(start, man), start), mirror', Some(man)), At(s, c, Puller(pulled, man, [], start), mirror', Some(man)), goal);
    FetchLeads(w, s, c, start, mirror', man, goal);
  }

  /** From every reachable state an idle client whose tree passes the scan can complete a round. If nobody
      else moves meanwhile and normalize answers with `mirror'`, the protocol's steps lead to just the state that
      `RunForDojoHome` promises: the normalized mirror, its manifest published, and the client's tree
      adopted from it. */
  lemma RoundIsProtocolRun(w: World, s: State, c: nat, res: Resolution, mirror': Files)
    requires Inv(w, s) && c in s.clients && s.clients[c].phase == Idle && Ready(s.clients[c].files)
    requires Normalizes(w, Uploaded(s.clients[c].files, Visible(w, s), s.mirror), res, mirror')
    ensures Leads(w, s, AfterRound(s, c, s.clients[c].files, mirror', ManifestOf(w.decode, mirror')))
  {
    var start, man := s.clients[c].files, ManifestOf(w.decode, mirror');
    NormalizedOk(w, s, c, res, mirror');
    PushHalf(w, s, c, start, res, mirror');
    PullHalf(w, s, c, start, mirror');
    LeadsThrough(w, s, AfterComplete(s, c, start, mirror', man), AfterRound(s, c, start, mirror', man));
  }

  lemma NormalizedOk(w: World, s: State, c: nat, res: Resolution, mirror': Files)
    requires Inv(w, s) && c in s.clients && s.clients[c].phase == Idle && Ready(s.clients[c].files)
    requires Normalizes(w, Uploaded(s.clients[c].files, Visible(w, s), s.mirror), res, mirror')
    ensures RepoOk(w, s.clients[c].files) && MirrorOk(w, mirror')
  {
    assert ClientInv(w, s.mirror, Visible(w, s), s.clients[c]);
    VisibleOk(w, s);
    UploadedOk(w, s.clients[c].files, Visible(w, s), s.mirror);
    NormalizeKeepsOk(w, Uploaded(s.clients[c].files, Visible(w, s), s.mirror), res, mirror');
  }
}
