/** Any number of clients that take turns, each with a whole round that nobody disturbs. Such turns are runs
    of the sync protocol; this is about when everybody ends up with the same files, and when they never do. */
module TakingTurns {
  import opened Paths
  import opened JjRepo
  import opened SyncPlan
  import opened SyncRound
  import opened SyncProtocol
  import opened Convergence
  import opened RoundRefinement

  ghost predicate TurnWith(w: World, s: State, c: nat, res: Resolution, s': State) {
    && c in s.clients && s.clients[c].phase == Idle
    && var files := s.clients[c].files;
    && Round(w, files, s.mirror, s.published, res, Adopted(files, s'.mirror), s'.mirror)
    && s' == AfterRound(s, c, files, s'.mirror, ManifestOf(w.decode, s'.mirror))
  }

  /** Client `c` has a whole round. */
  ghost predicate Turn(w: World, s: State, c: nat, s': State) {
    exists res :: TurnWith(w, s, c, res, s')
  }

  /** The clients `who` have a round one after the other; `b` are the states before, between and after. */
  ghost predicate Turns(w: World, b: seq<State>, who: seq<nat>) {
    |b| == |who| + 1 && forall k | 0 < k <= |who| :: TurnAt(w, b, who, k)
  }

  /** The round that leads to state `k`. */
  ghost predicate TurnAt(w: World, b: seq<State>, who: seq<nat>, k: nat)
    requires 0 < k <= |who| && |b| == |who| + 1
  {
    Turn(w, b[k - 1], who[k - 1], b[k])
  }

  // ---- turns are runs of the protocol ----

  lemma {:induction false} StepsKeepInv(w: World, b: seq<State>, i: nat)
    requires |b| > 0 && Inv(w, b[0]) && i < |b|
    requires forall k | 0 < k < |b| :: Next(w, b[k - 1], b[k])
    ensures Inv(w, b[i])
  {
    if i > 0 {
      StepsKeepInv(w, b, i - 1);
      NextKeepsInv(w, b[i - 1], b[i]);
    }
  }

  lemma LeadsKeepsInv(w: World, s: State, s': State)
    requires Inv(w, s) && Leads(w, s, s')
    ensures Inv(w, s')
  {
    var b :| StepsBetween(w, b, s, s');
    StepsKeepInv(w, b, |b| - 1);
  }

  lemma TurnIsRun(w: World, s: State, c: nat, s': State)
    requires Inv(w, s) && Turn(w, s, c, s')
    ensures Leads(w, s, s') && Inv(w, s')
  {
    var res :| TurnWith(w, s, c, res, s');
    RoundIsProtocolRun(w, s, c, res, s'.mirror);
    LeadsKeepsInv(w, s, s');
  }

  lemma StepIsRun(w: World, b: seq<State>, who: seq<nat>, i: nat)
    requires Turns(w, b, who) && 0 < i <= |who| && Inv(w, b[i - 1])
    ensures Leads(w, b[i - 1], b[i]) && Inv(w, b[i])
  {
    assert TurnAt(w, b, who, i);
    TurnIsRun(w, b[i - 1], who[i - 1], b[i]);
  }

  /** Whatever state the protocol has reached, the turns that follow are a continuation of its run. */
  lemma {:induction false} TurnsAreRuns(w: World, b: seq<State>, who: seq<nat>, i: nat)
    requires Turns(w, b, who) && Inv(w, b[0]) && i <= |who|
    ensures Leads(w, b[0], b[i]) && Inv(w, b[i])
  {
    if i == 0 {
      LeadsSelf(w, b[0]);
    } else {
      TurnsAreRuns(w, b, who, i - 1);
      StepIsRun(w, b, who, i);
      LeadsThrough(w, b[0], b[i - 1], b[i]);
    }
  }

  lemma InvByTurns(w: World, b: seq<State>, who: seq<nat>, i: nat)
    requires Turns(w, b, who) && Inv(w, b[0]) && i <= |who|
    ensures Inv(w, b[i])
  {
    TurnsAreRuns(w, b, who, i);
  }

  // ---- one turn ----

  /** The mirror is as the last round left it. */
  ghost predicate JustPublished(w: World, s: State) {
    && MirrorOk(w, s.mirror)
    && s.published == Published(w, s.mirror)
    && exists top :: OneHead(w, s.mirror, top)
  }

  ghost predicate ClientInStep(s: State, c: nat) {
    c in s.clients && Shared(s.clients[c].files) == Listed(s.mirror)
  }

  ghost predicate AllInStep(s: State) {
    forall c | c in s.clients :: ClientInStep(s, c)
  }

  ghost predicate ClientBehind(w: World, s: State, c: nat) {
    c in s.clients && Behind(w, s.clients[c].files, s.mirror)
  }

  /** Nothing that the client is about to upload replaces a row of the manifest it sees. */
  ghost predicate FreeOfConflict(w: World, s: State, c: nat) {
    c in s.clients && NoConflict(s.clients[c].files, Visible(w, s))
  }

  lemma ClientRepoOk(w: World, s: State, c: nat)
    requires Inv(w, s) && c in s.clients
    ensures RepoOk(w, s.clients[c].files)
  {
    assert ClientInv(w, s.mirror, Visible(w, s), s.clients[c]);
  }

  lemma TurnOthers(w: World, s: State, c: nat, s': State, d: nat)
    requires Turn(w, s, c, s') && d != c
    ensures d in s'.clients <==> d in s.clients
    ensures d in s.clients ==> s'.clients[d] == s.clients[d]
    ensures c in s.clients && c in s'.clients
  {
  }

  /** After a round its client is in step with the server, and the server has published. */
  lemma TurnSettles(w: World, s: State, c: nat, s': State)
    requires Inv(w, s) && Turn(w, s, c, s')
    ensures ClientInStep(s', c) && JustPublished(w, s')
  {
    var res :| TurnWith(w, s, c, res, s');
    var files := s.clients[c].files;
    ClientRepoOk(w, s, c);
    VisibleOk(w, s);
    RoundSettles(w, files, s.mirror, s.published, res, Adopted(files, s'.mirror), s'.mirror);
  }

  /** The turn of a client with nothing new to say. */
  lemma BehindTurn(w: World, s: State, c: nat, s': State)
    requires Inv(w, s) && JustPublished(w, s) && ClientBehind(w, s, c) && Turn(w, s, c, s')
    ensures Listed(s'.mirror) == Listed(s.mirror) && Visible(w, s') == Visible(w, s)
  {
    var res :| TurnWith(w, s, c, res, s');
    var files := s.clients[c].files;
    var top :| OneHead(w, s.mirror, top);
    ClientRepoOk(w, s, c);
    BehindRound(w, files, s.mirror, top, res, Adopted(files, s'.mirror), s'.mirror);
  }

  lemma InStepIsBehind(w: World, s: State, c: nat)
    requires ClientInStep(s, c)
    ensures ClientBehind(w, s, c)
  {
    SharedMeansBehind(w, s.clients[c].files, s.mirror);
  }

  /** Who had nothing new to say still has nothing new after a turn without a conflict. */
  lemma TurnKeepsBehind(w: World, s: State, c: nat, s': State, d: nat)
    requires Inv(w, s) && JustPublished(w, s) && Turn(w, s, c, s') && ClientBehind(w, s, d)
    requires ClientBehind(w, s, c) || FreeOfConflict(w, s, c)
    ensures ClientBehind(w, s', d)
  {
    if d == c {
      TurnSettles(w, s, c, s');
      InStepIsBehind(w, s', c);
    } else {
      TurnOthers(w, s, c, s', d);
      if ClientBehind(w, s, c) {
        BehindTurn(w, s, c, s');
        SameListedStaysBehind(w, s.clients[d].files, s.mirror, s'.mirror);
      } else {
        var res :| TurnWith(w, s, c, res, s');
        var files := s.clients[c].files;
        ClientRepoOk(w, s, c);
        StaysBehind(w, s.clients[d].files, files, s.mirror, res, Adopted(files, s'.mirror), s'.mirror);
      }
    }
  }

  lemma TurnKeepsInStep(w: World, s: State, c: nat, s': State, d: nat)
    requires Inv(w, s) && JustPublished(w, s) && Turn(w, s, c, s')
    requires ClientBehind(w, s, c) && ClientInStep(s, d)
    ensures ClientInStep(s', d)
  {
    BehindTurn(w, s, c, s');
    if d == c {
      TurnSettles(w, s, c, s');
    } else {
      TurnOthers(w, s, c, s', d);
    }
  }

  // ---- disagreement is for ever ----

  /** Two clients hold different versions of a shared file that jj neither names by its content nor merges. */
  ghost predicate Differ(s: State, x: nat, y: nat, p: Path) {
    && x in s.clients && y in s.clients
    && p in Shared(s.clients[x].files) && p in Shared(s.clients[y].files)
    && s.clients[x].files[p] != s.clients[y].files[p]
    && !Addressed(p) && !IsMarker(p)
  }

  /** The published manifest describes the mirror as it is. */
  ghost predicate ManifestCurrent(w: World, s: State) {
    s.published == Published(w, s.mirror)
  }

  lemma TurnKeepsOwn(w: World, s: State, c: nat, s': State, x: nat, p: Path)
    requires Turn(w, s, c, s') && ManifestCurrent(w, s)
    requires x in s.clients && p in Shared(s.clients[x].files) && !Addressed(p) && !IsMarker(p)
    ensures x in s'.clients && p in Shared(s'.clients[x].files) && s'.clients[x].files[p] == s.clients[x].files[p]
  {
    if x == c {
      var res :| TurnWith(w, s, c, res, s');
      OwnVersionWins(w, s.clients[c].files, s.mirror, s.published, res, s'.clients[c].files, s'.mirror, p);
    } else {
      TurnOthers(w, s, c, s', x);
    }
  }

  ghost predicate SomeoneUploads(w: World, s: State, x: nat, y: nat, p: Path)
    requires x in s.clients && y in s.clients
  {
    p in PushSet(s.clients[x].files, Visible(w, s)) || p in PushSet(s.clients[y].files, Visible(w, s))
  }

  lemma DifferingUploads(w: World, s: State, x: nat, y: nat, p: Path)
    requires Differ(s, x, y, p)
    ensures SomeoneUploads(w, s, x, y, p)
  {
  }

  ghost predicate DifferAt(w: World, b: seq<State>, i: nat, x: nat, y: nat, p: Path)
    requires i < |b|
  {
    ManifestCurrent(w, b[i]) && Differ(b[i], x, y, p)
  }

  lemma StepKeepsDiffering(w: World, b: seq<State>, who: seq<nat>, i: nat, x: nat, y: nat, p: Path)
    requires Turns(w, b, who) && 0 < i <= |who| && DifferAt(w, b, i - 1, x, y, p)
    ensures DifferAt(w, b, i, x, y, p)
  {
    assert TurnAt(w, b, who, i);
    TurnKeepsDiffering(w, b[i - 1], who[i - 1], b[i], x, y, p);
  }

  lemma TurnKeepsDiffering(w: World, s: State, c: nat, s': State, x: nat, y: nat, p: Path)
    requires Turn(w, s, c, s') && ManifestCurrent(w, s) && Differ(s, x, y, p)
    ensures ManifestCurrent(w, s') && Differ(s', x, y, p)
  {
    TurnKeepsOwn(w, s, c, s', x, p);
    TurnKeepsOwn(w, s, c, s', y, p);
  }

  lemma {:induction false} DifferForEver(w: World, b: seq<State>, who: seq<nat>, i: nat, j: nat, x: nat, y: nat, p: Path)
    requires Turns(w, b, who) && i <= j <= |who| && DifferAt(w, b, i, x, y, p)
    ensures DifferAt(w, b, j, x, y, p)
    decreases j
  {
    if i < j {
      DifferForEver(w, b, who, i, j - 1, x, y, p);
      StepKeepsDiffering(w, b, who, j, x, y, p);
    }
  }

  /** Once two clients hold different versions of such a file, they do so for ever, whoever has whatever
      rounds, and at any time one of the two has it to upload: the exchange never becomes quiet. */
  lemma ConflictNeverSettles(w: World, b: seq<State>, who: seq<nat>, i: nat, j: nat, x: nat, y: nat, p: Path)
    requires Turns(w, b, who) && i <= j <= |who| && ManifestCurrent(w, b[i]) && Differ(b[i], x, y, p)
    ensures Differ(b[j], x, y, p) && SomeoneUploads(w, b[j], x, y, p)
  {
    assert DifferAt(w, b, i, x, y, p);
    DifferForEver(w, b, who, i, j, x, y, p);
    DifferingUploads(w, b[j], x, y, p);
  }

  // ---- agreement ----

  ghost predicate FirstTurn(who: seq<nat>, j: nat) {
    j < |who| && who[j] !in who[..j]
  }

  /** After the first one, no client met a conflict in its first round. */
  ghost predicate NobodyConflicts(w: World, b: seq<State>, who: seq<nat>, n: nat) {
    n <= |who| < |b| && forall j | 0 < j < n && FirstTurn(who, j) :: FreeOfConflict(w, b[j], who[j])
  }

  /** State `i` of a sequence of turns: the invariant holds, and after the first round a current manifest is
      published. */
  ghost predicate Sound(w: World, b: seq<State>, i: nat)
    requires i < |b|
  {
    Inv(w, b[i]) && (i > 0 ==> JustPublished(w, b[i]))
  }

  ghost predicate AllSound(w: World, b: seq<State>) {
    forall i: nat | i < |b| :: Sound(w, b, i)
  }

  lemma StepSettles(w: World, b: seq<State>, who: seq<nat>, i: nat)
    requires Turns(w, b, who) && 0 < i <= |who| && Inv(w, b[i - 1])
    ensures ClientInStep(b[i], who[i - 1]) && JustPublished(w, b[i])
  {
    assert TurnAt(w, b, who, i);
    TurnSettles(w, b[i - 1], who[i - 1], b[i]);
  }

  lemma StepInStep(w: World, b: seq<State>, who: seq<nat>, i: nat)
    requires Turns(w, b, who) && AllSound(w, b) && 0 < i <= |who|
    ensures ClientInStep(b[i], who[i - 1])
  {
    assert Sound(w, b, i - 1);
    StepSettles(w, b, who, i);
  }

  lemma StateIsSound(w: World, b: seq<State>, who: seq<nat>, i: nat)
    requires Turns(w, b, who) && Inv(w, b[0]) && i < |b|
    ensures Sound(w, b, i)
  {
    InvByTurns(w, b, who, i);
    if i > 0 {
      InvByTurns(w, b, who, i - 1);
      StepSettles(w, b, who, i);
    }
  }

  lemma TurnsAreSound(w: World, b: seq<State>, who: seq<nat>)
    requires Turns(w, b, who) && Inv(w, b[0])
    ensures AllSound(w, b)
  {
    forall i: nat | i < |b| ensures Sound(w, b, i) {
      StateIsSound(w, b, who, i);
    }
  }

  lemma StepKeepsBehind(w: World, b: seq<State>, who: seq<nat>, i: nat, d: nat)
    requires Turns(w, b, who) && AllSound(w, b) && 1 < i <= |who| && ClientBehind(w, b[i - 1], d)
    requires ClientBehind(w, b[i - 1], who[i - 1]) || FreeOfConflict(w, b[i - 1], who[i - 1])
    ensures ClientBehind(w, b[i], d)
  {
    assert Sound(w, b, i - 1) && TurnAt(w, b, who, i);
    TurnKeepsBehind(w, b[i - 1], who[i - 1], b[i], d);
  }

  lemma StepKeepsInStep(w: World, b: seq<State>, who: seq<nat>, i: nat, d: nat)
    requires Turns(w, b, who) && AllSound(w, b) && 1 < i <= |who|
    requires ClientBehind(w, b[i - 1], who[i - 1]) && ClientInStep(b[i - 1], d)
    ensures ClientInStep(b[i], d)
  {
    assert Sound(w, b, i - 1) && TurnAt(w, b, who, i);
    TurnKeepsInStep(w, b[i - 1], who[i - 1], b[i], d);
  }

  lemma StepBehindAfter(w: World, b: seq<State>, who: seq<nat>, i: nat)
    requires Turns(w, b, who) && AllSound(w, b) && 0 < i <= |who|
    ensures ClientBehind(w, b[i], who[i - 1])
  {
    StepInStep(w, b, who, i);
    InStepIsBehind(w, b[i], who[i - 1]);
  }

  lemma ConflictFreeAt(w: World, b: seq<State>, who: seq<nat>, n: nat, j: nat)
    requires NobodyConflicts(w, b, who, n) && 0 < j < n
    ensures NobodyConflicts(w, b, who, j)
    ensures who[j] !in who[..j] ==> FreeOfConflict(w, b[j], who[j])
  {
    assert who[j] !in who[..j] ==> FirstTurn(who, j);
  }

  /** Then whoever had a round has nothing new to say. */
  lemma {:induction false} BehindByTurns(w: World, b: seq<State>, who: seq<nat>, i: nat, d: nat)
    requires Turns(w, b, who) && AllSound(w, b) && 0 < i <= |who| && NobodyConflicts(w, b, who, i) && d in who[..i]
    ensures ClientBehind(w, b[i], d)
    decreases i
  {
    var c := who[i - 1];
    if d == c {
      StepBehindAfter(w, b, who, i);
    } else {
      assert d in who[..i - 1];
      ConflictFreeAt(w, b, who, i, i - 1);
      BehindByTurns(w, b, who, i - 1, d);
      if c in who[..i - 1] {
        BehindByTurns(w, b, who, i - 1, c);
      }
      StepKeepsBehind(w, b, who, i, d);
    }
  }

  /** Whoever has a round has one among the first `k`. */
  ghost predicate EveryoneIn(who: seq<nat>, k: nat) {
    k <= |who| && forall c | c in who :: c in who[..k]
  }

  lemma HadOneBefore(who: seq<nat>, k: nat, i: nat)
    requires EveryoneIn(who, k) && k <= i < |who|
    ensures who[i] in who[..i]
  {
    assert who[i] in who && who[..k] <= who[..i];
  }

  lemma StaysInStep(w: World, b: seq<State>, who: seq<nat>, k: nat, i: nat, d: nat)
    requires Turns(w, b, who) && AllSound(w, b) && 0 < k < i <= |who| && NobodyConflicts(w, b, who, i - 1)
    requires EveryoneIn(who, k) && ClientInStep(b[i - 1], d)
    ensures ClientInStep(b[i], d)
  {
    HadOneBefore(who, k, i - 1);
    BehindByTurns(w, b, who, i - 1, who[i - 1]);
    StepKeepsInStep(w, b, who, i, d);
  }

  /** And whoever has a round once everybody has had one is in step, and stays so. */
  lemma {:induction false} InStepByTurns(w: World, b: seq<State>, who: seq<nat>, k: nat, i: nat, d: nat)
    requires Turns(w, b, who) && AllSound(w, b) && 0 < k <= i <= |who| && NobodyConflicts(w, b, who, i)
    requires EveryoneIn(who, k)
    requires d in who[k - 1..i]
    ensures ClientInStep(b[i], d)
    decreases i
  {
    var c := who[i - 1];
    if d == c {
      StepInStep(w, b, who, i);
    } else {
      assert d in who[k - 1..i - 1];
      ConflictFreeAt(w, b, who, i, i - 1);
      InStepByTurns(w, b, who, k, i - 1, d);
      StaysInStep(w, b, who, k, i, d);
    }
  }

  /** A conflict in a first round makes two clients differ: the one that had the round before, and this one. */
  lemma ConflictMakesDiffer(w: World, b: seq<State>, who: seq<nat>, j: nat) returns (p: Path)
    requires Turns(w, b, who) && AllSound(w, b) && 0 < j < |who| && FirstTurn(who, j)
    requires !FreeOfConflict(w, b[j], who[j])
    ensures ManifestCurrent(w, b[j]) && Differ(b[j], who[j - 1], who[j], p)
  {
    StepInStep(w, b, who, j);
    assert Sound(w, b, j);
    TakerOk(w, b, who, j);
    p := DifferingRow(w, b[j], who[j - 1], who[j]);
  }

  lemma TakerOk(w: World, b: seq<State>, who: seq<nat>, j: nat)
    requires Turns(w, b, who) && AllSound(w, b) && j < |who|
    ensures who[j] in b[j].clients && RepoOk(w, b[j].clients[who[j]].files)
  {
    assert Sound(w, b, j);
    StepTaker(w, b, who, j + 1);
    ClientRepoOk(w, b[j], who[j]);
  }

  lemma DifferingRow(w: World, s: State, x: nat, y: nat) returns (p: Path)
    requires JustPublished(w, s) && ClientInStep(s, x) && y in s.clients && RepoOk(w, s.clients[y].files)
    requires !FreeOfConflict(w, s, y)
    ensures Differ(s, x, y, p)
  {
    var own, theirs := s.clients[y].files, s.clients[x].files;
    p :| p in LocalIndex(own) && p in Visible(w, s).entries && LocalIndex(own)[p].sha256 != Visible(w, s).entries[p].sha256;
    assert p in Listed(s.mirror) && own[p] != s.mirror[p];
    assert WellFormed(w, p, own[p]) && WellFormed(w, p, s.mirror[p]);
    assert p in Shared(theirs) && Shared(theirs)[p] == Listed(s.mirror)[p];
  }

  lemma StepTaker(w: World, b: seq<State>, who: seq<nat>, i: nat)
    requires Turns(w, b, who) && 0 < i <= |who|
    ensures who[i - 1] in b[i - 1].clients && b[i].clients.Keys == b[i - 1].clients.Keys
  {
    assert TurnAt(w, b, who, i);
  }

  lemma {:induction false} TurnsKeepClients(w: World, b: seq<State>, who: seq<nat>, i: nat)
    requires Turns(w, b, who) && i <= |who|
    ensures b[i].clients.Keys == b[0].clients.Keys
  {
    if i > 0 {
      TurnsKeepClients(w, b, who, i - 1);
      StepTaker(w, b, who, i);
    }
  }

  /** From any state that the protocol can reach, let every client have a round, and then every client but
      the last one another, in any order and with any repetitions. In the end all clients and the server
      share the same files if and only if no client, save the very first, met a conflict in its first round. */
  lemma EveryoneConverges(w: World, b: seq<State>, who: seq<nat>, k: nat)
    requires Turns(w, b, who) && Inv(w, b[0]) && 0 < k <= |who|
    requires forall c | c in b[0].clients :: c in who[..k] && c in who[k - 1..]
    ensures Leads(w, b[0], b[|who|])
    ensures AllInStep(b[|who|]) <==> NobodyConflicts(w, b, who, |who|)
  {
    var n := |who|;
    TurnsAreRuns(w, b, who, n);
    TurnsAreSound(w, b, who);
    if NobodyConflicts(w, b, who, n) {
      AgreeAtLast(w, b, who, k);
    } else {
      var j :| 0 < j < n && FirstTurn(who, j) && !FreeOfConflict(w, b[j], who[j]);
      var p := ConflictMakesDiffer(w, b, who, j);
      ConflictNeverSettles(w, b, who, j, n, who[j - 1], who[j], p);
      NotBothInStep(b[n], who[j - 1], who[j], p);
    }
  }

  lemma EveryoneTakesPart(w: World, b: seq<State>, who: seq<nat>, k: nat)
    requires Turns(w, b, who) && k <= |who| && forall c | c in b[0].clients :: c in who[..k]
    ensures EveryoneIn(who, k)
  {
    forall c | c in who ensures c in who[..k] {
      TakesTurns(w, b, who, c);
    }
  }

  lemma AgreeAtLast(w: World, b: seq<State>, who: seq<nat>, k: nat)
    requires Turns(w, b, who) && AllSound(w, b) && 0 < k <= |who| && NobodyConflicts(w, b, who, |who|)
    requires forall c | c in b[0].clients :: c in who[..k] && c in who[k - 1..]
    ensures AllInStep(b[|who|])
  {
    var n := |who|;
    EveryoneTakesPart(w, b, who, k);
    TurnsKeepClients(w, b, who, n);
    forall c | c in b[n].clients ensures ClientInStep(b[n], c) {
      InStepInTheEnd(w, b, who, k, c);
    }
  }

  lemma InStepInTheEnd(w: World, b: seq<State>, who: seq<nat>, k: nat, c: nat)
    requires Turns(w, b, who) && AllSound(w, b) && 0 < k <= |who| && NobodyConflicts(w, b, who, |who|)
    requires EveryoneIn(who, k) && c in who[k - 1..]
    ensures ClientInStep(b[|who|], c)
  {
    assert who[k - 1..|who|] == who[k - 1..];
    InStepByTurns(w, b, who, k, |who|, c);
  }

  lemma TakesTurns(w: World, b: seq<State>, who: seq<nat>, c: nat)
    requires Turns(w, b, who) && c in who
    ensures c in b[0].clients
  {
    var i :| 0 <= i < |who| && who[i] == c;
    StepTaker(w, b, who, i + 1);
    TurnsKeepClients(w, b, who, i);
  }

  lemma NotBothInStep(s: State, x: nat, y: nat, p: Path)
    requires Differ(s, x, y, p)
    ensures !AllInStep(s)
  {
    assert Shared(s.clients[x].files)[p] != Shared(s.clients[y].files)[p];
  }

  // ---- agreement is for ever too ----

  ghost predicate SameTrees(s: State, s': State) {
    s'.clients.Keys == s.clients.Keys && forall c | c in s.clients :: s'.clients[c].files == s.clients[c].files
  }

  ghost predicate NothingToUpload(w: World, s: State) {
    forall c | c in s.clients :: PushSet(s.clients[c].files, Visible(w, s)) == {}
  }

  /** Everybody is in step, and no client and no manifest has changed since `s0`. */
  ghost predicate QuietSince(w: World, s0: State, s: State) {
    AllInStep(s) && SameTrees(s0, s) && Visible(w, s) == Visible(w, s0)
  }

  lemma QuietTree(w: World, s: State, c: nat, s': State)
    requires Inv(w, s) && JustPublished(w, s) && ClientInStep(s, c) && Turn(w, s, c, s')
    ensures Visible(w, s') == Visible(w, s)
    ensures c in s.clients && c in s'.clients && s'.clients[c].files == s.clients[c].files
  {
    InStepIsBehind(w, s, c);
    BehindTurn(w, s, c, s');
    AdoptsOwn(s.clients[c].files, s'.mirror);
  }

  lemma QuietTurn(w: World, s: State, c: nat, s': State)
    requires Inv(w, s) && JustPublished(w, s) && AllInStep(s) && Turn(w, s, c, s')
    ensures QuietSince(w, s, s')
  {
    assert c in s.clients;
    assert ClientInStep(s, c);
    InStepIsBehind(w, s, c);
    QuietTree(w, s, c, s');
    forall d | d in s.clients ensures ClientInStep(s', d) && s'.clients[d].files == s.clients[d].files {
      assert ClientInStep(s, d);
      TurnKeepsInStep(w, s, c, s', d);
      if d != c {
        TurnOthers(w, s, c, s', d);
      }
    }
  }

  lemma QuietTransitive(w: World, s0: State, s1: State, s2: State)
    requires QuietSince(w, s0, s1) && QuietSince(w, s1, s2)
    ensures QuietSince(w, s0, s2)
  {
  }

  ghost predicate PublishedAt(w: World, b: seq<State>, i: nat)
    requires i < |b|
  {
    JustPublished(w, b[i])
  }

  ghost predicate AllPublished(w: World, b: seq<State>) {
    forall i: nat | i < |b| :: PublishedAt(w, b, i)
  }

  lemma TurnsPublish(w: World, b: seq<State>)
    requires AllSound(w, b) && |b| > 0 && JustPublished(w, b[0])
    ensures AllPublished(w, b)
  {
    forall i: nat | i < |b| ensures PublishedAt(w, b, i) {
      assert Sound(w, b, i);
    }
  }

  lemma QuietStep(w: World, b: seq<State>, who: seq<nat>, i: nat)
    requires Turns(w, b, who) && AllSound(w, b) && AllPublished(w, b) && 0 < i <= |who| && AllInStep(b[i - 1])
    ensures QuietSince(w, b[i - 1], b[i])
  {
    assert Sound(w, b, i - 1) && PublishedAt(w, b, i - 1) && TurnAt(w, b, who, i);
    QuietTurn(w, b[i - 1], who[i - 1], b[i]);
  }

  lemma {:induction false} QuietFrom(w: World, b: seq<State>, who: seq<nat>, i: nat)
    requires Turns(w, b, who) && AllSound(w, b) && AllPublished(w, b) && i <= |who| && AllInStep(b[0])
    ensures QuietSince(w, b[0], b[i])
  {
    if i > 0 {
      QuietFrom(w, b, who, i - 1);
      QuietStep(w, b, who, i);
      QuietTransitive(w, b[0], b[i - 1], b[i]);
    }
  }

  lemma InStepUploadsNothing(w: World, s: State)
    requires AllInStep(s) && JustPublished(w, s)
    ensures NothingToUpload(w, s)
  {
    forall c | c in s.clients ensures PushSet(s.clients[c].files, Visible(w, s)) == {} {
      assert ClientInStep(s, c);
      NothingToPush(s.clients[c].files, s.mirror, w.decode);
    }
  }

  /** Once everybody is in step, rounds in any order and number upload nothing, change no client and
      publish the same manifest again. */
  lemma QuietForever(w: World, b: seq<State>, who: seq<nat>, i: nat)
    requires Turns(w, b, who) && Inv(w, b[0]) && i <= |who|
    requires AllInStep(b[0]) && JustPublished(w, b[0])
    ensures QuietSince(w, b[0], b[i]) && NothingToUpload(w, b[i])
  {
    TurnsAreSound(w, b, who);
    TurnsPublish(w, b);
    QuietFrom(w, b, who, i);
    assert PublishedAt(w, b, i);
    InStepUploadsNothing(w, b[i]);
  }
}
