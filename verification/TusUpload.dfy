/** Resumable uploads (tus 1.0.0: creation, PATCH, HEAD, termination) and the move of a finished upload
    into the mirror. Requests are handled one at a time. */
module TusUpload {
  import opened Results
  import opened Paths
  import opened OperationStore
  import opened MirrorPath
  import opened MirrorExclude

  /** Metadata carries at most the target path. */
  datatype Upload = Upload(length: Option<nat>, relPath: Option<string>, data: Bytes)

  datatype State = State(uploads: map<nat, Upload>, mirror: map<Path, Bytes>)

  const CONTENT_TYPE_OFFSET_OCTET_STREAM: string := "application/offset+octet-stream"

  datatype Request =
    | CreateUpload(newId: nat, length: Option<nat>, deferLength: bool, relPath: Option<string>)
    | Head(id: nat)
    | Patch(id: nat, offset: nat, contentType: string, data: Bytes)
    | Delete(id: nat)

  datatype TusError =
    | MissingHeader | InvalidHeaderValue | ExceedsMaxSize | UploadUnknown
    | InvalidContentType | OffsetMismatch(expected: nat, got: nat) | OffsetOverflow

  datatype FinalizeError =
    | MissingRelPath | EmptyRelPath | InvalidRelPath | WorkspaceStorePathRejected | GitStorePathRejected
    | MissingDeclaredLength | LengthMismatch | DestinationBlocked

  datatype Response =
    | Created(id: nat)
    | Progress(offset: nat, length: Option<nat>)
    | Patched(newOffset: nat, complete: bool)
    | Deleted
    | Refused(error: TusError)
    | NotFinalized(reason: FinalizeError)

  // ---- finalize ----

  /** The file system refuses a file where a directory is, or below a file. */
  predicate Blocked(mirror: map<Path, Bytes>, dest: Path) {
    exists p | p in mirror :: p + "/" <= dest || dest + "/" <= p
  }

  function FinalizeTarget(u: Upload, mirror: map<Path, Bytes>): Result<Path, FinalizeError> {
    match u.relPath
    case None => Failure(MissingRelPath)
    case Some(raw) =>
      if raw == "" then Failure(EmptyRelPath)
      else match ParseSafeMirrorRel(raw)
        case None => Failure(InvalidRelPath)
        case Some(rel) =>
          if ExcludedFromMirror(rel) then Failure(WorkspaceStorePathRejected)
          else if ExcludedFromGitFileMirror(rel) then Failure(GitStorePathRejected)
          else match u.length
            case None => Failure(MissingDeclaredLength)
            case Some(len) =>
              if |u.data| != len then Failure(LengthMismatch)
              else if Blocked(mirror, rel) then Failure(DestinationBlocked)
              else Success(rel)
  }

  // ---- one request ----

  function HandleCreate(maxSize: Option<nat>, s: State, r: Request): (State, Response)
    requires r.CreateUpload?
  {
    if r.length.None? && !r.deferLength then (s, Refused(MissingHeader))
    else if r.length.Some? && r.deferLength then (s, Refused(InvalidHeaderValue))
    else if r.length.Some? && maxSize.Some? && r.length.value > maxSize.value then (s, Refused(ExceedsMaxSize))
    else (s.(uploads := s.uploads[r.newId := Upload(r.length, r.relPath, [])]), Created(r.newId))
  }

  /** Guards first, then the append, then finalize when the declared length is reached. */
  function HandlePatch(s: State, r: Request): (State, Response)
    requires r.Patch?
  {
    if r.contentType != CONTENT_TYPE_OFFSET_OCTET_STREAM then (s, Refused(InvalidContentType))
    else if r.id !in s.uploads then (s, Refused(UploadUnknown))
    else
      var u := s.uploads[r.id];
      var end := r.offset + |r.data|;
      if |u.data| != r.offset then (s, Refused(OffsetMismatch(|u.data|, r.offset)))
      else if u.length.Some? && end >= U64_LIMIT then (s, Refused(OffsetOverflow))
      else if u.length.Some? && end > u.length.value then (s, Refused(InvalidHeaderValue))
      else
        var grown := u.(data := u.data + r.data);
        var staged := s.(uploads := s.uploads[r.id := grown]);
        if u.length != Some(end) then (staged, Patched(end, false))
        else match FinalizeTarget(grown, s.mirror)
          case Failure(e) => (staged, NotFinalized(e))
          case Success(dest) => (State(s.uploads - {r.id}, s.mirror[dest := grown.data]), Patched(end, true))
  }

  function Handle(maxSize: Option<nat>, s: State, r: Request): (State, Response) {
    match r
    case CreateUpload(_, _, _, _) => HandleCreate(maxSize, s, r)
    case Head(id) =>
      if id !in s.uploads then (s, Refused(UploadUnknown)) else (s, Progress(|s.uploads[id].data|, s.uploads[id].length))
    case Patch(_, _, _, _) => HandlePatch(s, r)
    case Delete(id) =>
      if id !in s.uploads then (s, Refused(UploadUnknown)) else (s.(uploads := s.uploads - {id}), Deleted)
  }

  // ---- what every request keeps ----

  ghost predicate PrefixFree(mirror: map<Path, Bytes>) {
    forall p, q | p in mirror && q in mirror :: !(p + "/" <= q)
  }

  ghost predicate StateOk(s: State) {
    UploadsOk(s.uploads) && TreeOk(s.mirror)
  }

  ghost predicate UploadsOk(uploads: map<nat, Upload>) {
    forall id | id in uploads && uploads[id].length.Some? :: |uploads[id].data| <= uploads[id].length.value
  }

  ghost predicate TreeOk(mirror: map<Path, Bytes>) {
    PrefixFree(mirror) && forall p | p in mirror :: !MachineLocal(p) && SafePath(p)
  }

  lemma PlacedKeepsTree(u: Upload, mirror: map<Path, Bytes>)
    requires TreeOk(mirror) && FinalizeTarget(u, mirror).Success?
    ensures TreeOk(mirror[FinalizeTarget(u, mirror).value := u.data])
  {
    NotBelowItself(FinalizeTarget(u, mirror).value);
  }

  lemma HandleKeepsUploads(maxSize: Option<nat>, s: State, r: Request)
    requires UploadsOk(s.uploads)
    ensures UploadsOk(Handle(maxSize, s, r).0.uploads)
  {
  }

  lemma HandleTouchesMirror(maxSize: Option<nat>, s: State, r: Request)
    ensures var m := Handle(maxSize, s, r).0.mirror;
            || m == s.mirror
            || (&& r.Patch? && r.id in s.uploads
                && var u := s.uploads[r.id].(data := s.uploads[r.id].data + r.data);
                   FinalizeTarget(u, s.mirror).Success? && m == s.mirror[FinalizeTarget(u, s.mirror).value := u.data])
  {
  }

  /** No upload outgrows its declared length; the mirror stays a tree of safe, non-local paths. */
  lemma HandleKeepsOk(maxSize: Option<nat>, s: State, r: Request)
    requires StateOk(s)
    ensures StateOk(Handle(maxSize, s, r).0)
  {
    HandleKeepsUploads(maxSize, s, r);
    HandleTouchesMirror(maxSize, s, r);
    if Handle(maxSize, s, r).0.mirror != s.mirror {
      PlacedKeepsTree(s.uploads[r.id].(data := s.uploads[r.id].data + r.data), s.mirror);
    }
  }

  lemma NotBelowItself(p: Path)
    ensures !(p + "/" <= p)
  {
    assert |p + "/"| > |p|;
  }

  /** The PATCH passes every guard and brings the upload to its declared length. */
  predicate FillsUpload(s: State, r: Request)
    requires r.Patch?
  {
    && r.contentType == CONTENT_TYPE_OFFSET_OCTET_STREAM && r.id in s.uploads
    && |s.uploads[r.id].data| == r.offset
    && r.offset + |r.data| < U64_LIMIT
    && s.uploads[r.id].length == Some(r.offset + |r.data|)
  }

  /** The target given at creation is a path where the mirror can take a file. */
  predicate Placeable(relPath: Option<string>, mirror: map<Path, Bytes>) {
    && relPath.Some? && relPath.value != ""
    && var p := ParseSafeMirrorRel(relPath.value); p.Some? && !MachineLocal(p.value) && !Blocked(mirror, p.value)
  }

  predicate IsError(a: Response) {
    a.Refused? || a.NotFinalized?
  }

  /** A refused PATCH changes nothing, and an error never touches the mirror. But an error answer comes with
      a changed upload exactly when a non-empty last chunk arrives for a target that cannot be placed: the
      chunk is kept. */
  lemma PatchErrors(s: State, r: Request)
    requires r.Patch?
    ensures var (s', a) := HandlePatch(s, r);
            && (a.Refused? ==> s' == s)
            && (IsError(a) ==> s'.mirror == s.mirror)
            && (IsError(a) && s' != s <==>
                  FillsUpload(s, r) && r.data != [] && !Placeable(s.uploads[r.id].relPath, s.mirror))
            && (IsError(a) && s' != s ==>
                  s'.uploads == s.uploads[r.id := s.uploads[r.id].(data := s.uploads[r.id].data + r.data)])
  {
    var (s', a) := HandlePatch(s, r);
    if a.NotFinalized? {
      var u := s.uploads[r.id];
      if r.data == [] {
        assert u.data + r.data == u.data;
        assert s'.uploads == s.uploads;
      } else {
        assert |s'.uploads[r.id].data| > |u.data|;
      }
    }
  }

  /** Such a case: an upload created without a target, filled by one PATCH. */
  lemma PatchErrorKeepsChunk() returns (rs: seq<Request>)
    ensures |rs| == 2 && FreshIds(rs) && rs[1].Patch?
    ensures var before := After(None, rs[..1]);
            && IsError(Handle(None, before, rs[1]).1)
            && Handle(None, before, rs[1]).0 != before
  {
    var create := CreateUpload(0, Some(1), false, None);
    var patch := Patch(0, 0, CONTENT_TYPE_OFFSET_OCTET_STREAM, [7]);
    rs := [create, patch];
    assert rs[..1] == [create] && [create][..0] == [];
    assert After(None, []) == EMPTY;
    var before := After(None, rs[..1]);
    assert before == EMPTY.(uploads := map[0 := Upload(Some(1), None, [])]);
    PatchErrors(before, patch);
  }

  /** Only a PATCH that fills a declared length reaches the mirror, and it uses the upload up. */
  lemma OnlyFilledUploadsFinalize(maxSize: Option<nat>, s: State, r: Request)
    requires Handle(maxSize, s, r).0.mirror != s.mirror || (Handle(maxSize, s, r).1.Patched? && Handle(maxSize, s, r).1.complete)
    ensures r.Patch? && r.id in s.uploads && s.uploads[r.id].length == Some(|s.uploads[r.id].data + r.data|)
    ensures r.id !in Handle(maxSize, s, r).0.uploads
  {
  }

  // ---- the rules of the requests ----

  /** An upload is created exactly if it declares a length or defers it, not both, and a declared length is
      within the limit. It is empty, and nothing else changes. */
  lemma CreateRules(maxSize: Option<nat>, s: State, r: Request)
    requires r.CreateUpload?
    ensures var (s', a) := Handle(maxSize, s, r);
            && (a == Created(r.newId) <==>
                  (r.length.Some? <==> !r.deferLength) && (r.length.Some? && maxSize.Some? ==> r.length.value <= maxSize.value))
            && (a != Created(r.newId) ==> IsError(a) && s' == s)
            && (a == Refused(MissingHeader) <==> r.length.None? && !r.deferLength)
            && (a == Refused(InvalidHeaderValue) <==> r.length.Some? && r.deferLength)
            && (a == Created(r.newId) ==>
                  && s'.mirror == s.mirror && s'.uploads.Keys == s.uploads.Keys + {r.newId}
                  && s'.uploads[r.newId].data == [] && s'.uploads[r.newId].length == r.length && s'.uploads[r.newId].relPath == r.relPath
                  && forall id | id in s.uploads && id != r.newId :: s'.uploads[id] == s.uploads[id])
  {
  }

  /** A PATCH is taken exactly if it carries the right content type, names a staged upload, continues where that
      stopped and stays within the declared length. An offset that does not fit is answered with the right
      one; the answer to a chunk that is kept tells how much there is now. */
  lemma PatchRules(maxSize: Option<nat>, s: State, r: Request)
    requires r.Patch?
    ensures var a := Handle(maxSize, s, r).1;
            && (a.Refused? <==>
                  !(&& r.contentType == "application/offset+octet-stream" && r.id in s.uploads
                    && r.offset == |s.uploads[r.id].data|
                    && (s.uploads[r.id].length.Some? ==>
                          r.offset + |r.data| <= s.uploads[r.id].length.value && r.offset + |r.data| < 0x1_0000_0000_0000_0000)))
            && (a == Refused(InvalidContentType) <==> r.contentType != "application/offset+octet-stream")
            && (a == Refused(UploadUnknown) ==> r.id !in s.uploads)
            && (a.Refused? && a.error.OffsetMismatch? ==>
                  r.id in s.uploads && a.error.expected == |s.uploads[r.id].data| && a.error.got == r.offset && a.error.expected != a.error.got)
            && (a.Patched? ==>
                  && r.id in s.uploads && a.newOffset == |s.uploads[r.id].data| + |r.data|
                  && (a.complete <==> s.uploads[r.id].length == Some(a.newOffset)))
  {
  }

  /** Why a filled upload stays where it is: the target is missing, empty, not an acceptable path, excluded as
      machine-local, or excluded as a part of the git store; or the mirror has a file above or below it. */
  lemma FinalizeReasons(u: Upload, mirror: map<Path, Bytes>)
    requires u.length == Some(|u.data|)
    ensures FinalizeTarget(u, mirror) == Failure(MissingRelPath) <==> u.relPath.None?
    ensures FinalizeTarget(u, mirror) == Failure(EmptyRelPath) <==> u.relPath == Some("")
    ensures FinalizeTarget(u, mirror) == Failure(InvalidRelPath) <==>
              u.relPath.Some? && u.relPath.value != "" && !Acceptable(u.relPath.value)
    ensures u.relPath.Some? && SafePath(u.relPath.value) ==>
              var p := u.relPath.value;
              && (FinalizeTarget(u, mirror) == Failure(WorkspaceStorePathRejected) <==> ExcludedFromMirror(p))
              && (FinalizeTarget(u, mirror) == Failure(GitStorePathRejected) <==> p == "store/git" || "store/git/" <= p)
              && (FinalizeTarget(u, mirror) == Failure(DestinationBlocked) <==>
                    !MachineLocal(p) && exists q | q in mirror :: q + "/" <= p || p + "/" <= q)
              && (FinalizeTarget(u, mirror).Success? ==> FinalizeTarget(u, mirror).value == p)
  {
    if u.relPath.Some? {
      StoredAsItself(u.relPath.value);
      GitAndLocalApart(u.relPath.value);
    }
  }

  lemma GitAndLocalApart(p: Path)
    ensures !(ExcludedFromMirror(p) && ExcludedFromGitFileMirror(p))
  {
    if ExcludedFromGitFileMirror(p) {
      assert p[0] == 's' && p[6] == 'g' && (|p| > 9 ==> p[9] == '/');
    }
  }

  /** A DELETE removes a staged upload and nothing else; it is answered with not-found if there is none. */
  lemma DeleteRemoves(maxSize: Option<nat>, s: State, id: nat)
    ensures var (s', a) := Handle(maxSize, s, Delete(id));
            && a == (if id in s.uploads then Deleted else Refused(UploadUnknown))
            && id !in s'.uploads && s'.mirror == s.mirror
            && forall other | other != id :: (other in s'.uploads <==> other in s.uploads) && (other in s.uploads ==> s'.uploads[other] == s.uploads[other])
  {
  }

  // ---- runs ----

  const EMPTY: State := State(map[], map[])

  function After(maxSize: Option<nat>, rs: seq<Request>): State {
    if rs == [] then EMPTY else Handle(maxSize, After(maxSize, rs[..|rs| - 1]), rs[|rs| - 1]).0
  }

  /** Upload ids are never handed out twice. */
  ghost predicate FreshIds(rs: seq<Request>) {
    forall i, j | 0 <= i < j < |rs| && rs[i].CreateUpload? && rs[j].CreateUpload? :: rs[i].newId != rs[j].newId
  }

  /** The chunks for `id` that were accepted, in order, joined. */
  function AcceptedBytes(maxSize: Option<nat>, rs: seq<Request>, id: nat): Bytes {
    if rs == [] then []
    else
      var last := rs[|rs| - 1];
      AcceptedBytes(maxSize, rs[..|rs| - 1], id)
      + (if Accepts(maxSize, After(maxSize, rs[..|rs| - 1]), last, id) then last.data else [])
  }

  /** What the last finalized upload put at `p`. */
  function LastFinalized(maxSize: Option<nat>, rs: seq<Request>, p: Path): Option<Bytes> {
    if rs == [] then None
    else
      var front := rs[..|rs| - 1];
      if FinalizesAt(maxSize, After(maxSize, front), rs[|rs| - 1], p) then Some(AcceptedBytes(maxSize, rs, rs[|rs| - 1].id))
      else LastFinalized(maxSize, front, p)
  }

  ghost predicate NeverMentioned(rs: seq<Request>, id: nat) {
    forall r | r in rs :: r.CreateUpload? ==> r.newId != id
  }

  lemma {:induction false} UnknownUpload(maxSize: Option<nat>, rs: seq<Request>, id: nat)
    requires NeverMentioned(rs, id)
    ensures id !in After(maxSize, rs).uploads && AcceptedBytes(maxSize, rs, id) == []
  {
    if rs != [] {
      var front, last := rs[..|rs| - 1], rs[|rs| - 1];
      assert rs == front + [last];
      assert last in rs;
      UnknownUpload(maxSize, front, id);
      StaysUnknown(maxSize, After(maxSize, front), last, id);
    }
  }

  lemma StaysUnknown(maxSize: Option<nat>, s: State, r: Request, id: nat)
    requires id !in s.uploads && (r.CreateUpload? ==> r.newId != id)
    ensures id !in Handle(maxSize, s, r).0.uploads && !Accepts(maxSize, s, r, id)
  {
  }

  predicate Accepts(maxSize: Option<nat>, s: State, r: Request, id: nat) {
    r.Patch? && r.id == id && (Handle(maxSize, s, r).1.Patched? || Handle(maxSize, s, r).1.NotFinalized?)
  }

  lemma StepAppends(maxSize: Option<nat>, s: State, r: Request, id: nat)
    requires id in s.uploads && id in Handle(maxSize, s, r).0.uploads
    requires r.CreateUpload? ==> r.newId != id
    ensures Handle(maxSize, s, r).0.uploads[id].data == s.uploads[id].data + (if Accepts(maxSize, s, r, id) then r.data else [])
  {
  }

  /** A staged upload was created by an earlier request. */
  lemma StagedWasCreated(maxSize: Option<nat>, front: seq<Request>, last: Request, id: nat)
    requires FreshIds(front + [last]) && id in After(maxSize, front).uploads
    ensures last.CreateUpload? ==> last.newId != id
  {
    if NeverMentioned(front, id) {
      UnknownUpload(maxSize, front, id);
    }
    var r :| r in front && r.CreateUpload? && r.newId == id;
    var i :| 0 <= i < |front| && front[i] == r;
    assert (front + [last])[i] == r && (front + [last])[|front|] == last;
  }

  /** Over any sequence of requests a staged upload holds exactly its accepted chunks, and never more than
      it declared. */
  lemma {:induction false} StagedIsAccepted(maxSize: Option<nat>, rs: seq<Request>, id: nat)
    requires FreshIds(rs) && id in After(maxSize, rs).uploads
    ensures After(maxSize, rs).uploads[id].data == AcceptedBytes(maxSize, rs, id)
    ensures StateOk(After(maxSize, rs))
  {
    var front, last := rs[..|rs| - 1], rs[|rs| - 1];
    assert rs == front + [last];
    AfterOk(maxSize, rs);
    if id in After(maxSize, front).uploads {
      assert forall i | 0 <= i < |front| :: front[i] == rs[i];
      StagedIsAccepted(maxSize, front, id);
      StagedWasCreated(maxSize, front, last, id);
      StepAppends(maxSize, After(maxSize, front), last, id);
    } else {
      CreatedNow(maxSize, rs, id);
    }
  }

  lemma {:induction false} AfterOk(maxSize: Option<nat>, rs: seq<Request>)
    ensures StateOk(After(maxSize, rs))
  {
    if rs != [] {
      AfterOk(maxSize, rs[..|rs| - 1]);
      HandleKeepsOk(maxSize, After(maxSize, rs[..|rs| - 1]), rs[|rs| - 1]);
    }
  }

  lemma CreatedNow(maxSize: Option<nat>, rs: seq<Request>, id: nat)
    requires rs != [] && FreshIds(rs)
    requires id in After(maxSize, rs).uploads && id !in After(maxSize, rs[..|rs| - 1]).uploads
    ensures After(maxSize, rs).uploads[id].data == [] && AcceptedBytes(maxSize, rs, id) == []
  {
    var front, last := rs[..|rs| - 1], rs[|rs| - 1];
    assert last.CreateUpload? && last.newId == id;
    forall r | r in front && r.CreateUpload? ensures r.newId != id {
      var i :| 0 <= i < |front| && front[i] == r;
      assert rs[i] == r && rs[|front|] == last;
    }
    UnknownUpload(maxSize, front, id);
  }

  /** The last request finalized its upload at `p`. */
  predicate FinalizesAt(maxSize: Option<nat>, s: State, r: Request, p: Path) {
    && r.Patch? && r.id in s.uploads && Handle(maxSize, s, r).1 == Patched(r.offset + |r.data|, true)
    && s.uploads[r.id].relPath.Some? && ParseSafeMirrorRel(s.uploads[r.id].relPath.value) == Some(p)
  }

  lemma StepFinalizes(maxSize: Option<nat>, s: State, r: Request, p: Path)
    ensures FinalizesAt(maxSize, s, r, p) ==>
              p in Handle(maxSize, s, r).0.mirror && Handle(maxSize, s, r).0.mirror[p] == s.uploads[r.id].data + r.data
    ensures !FinalizesAt(maxSize, s, r, p) ==>
              && (p in Handle(maxSize, s, r).0.mirror <==> p in s.mirror)
              && (p in s.mirror ==> Handle(maxSize, s, r).0.mirror[p] == s.mirror[p])
  {
  }

  /** While it is staged, an upload has the length and the target that its creation declared. */
  lemma {:induction false} StagedAsDeclared(maxSize: Option<nat>, rs: seq<Request>, k: nat)
    requires FreshIds(rs) && k < |rs| && rs[k].CreateUpload? && rs[k].newId in After(maxSize, rs).uploads
    ensures var u := After(maxSize, rs).uploads[rs[k].newId]; u.length == rs[k].length && u.relPath == rs[k].relPath
    decreases |rs|
  {
    var front, last := rs[..|rs| - 1], rs[|rs| - 1];
    if k < |front| {
      assert front[k] == rs[k];
      assert last.CreateUpload? ==> last.newId != rs[k].newId;
      StagedAsDeclared(maxSize, front, k);
    } else {
      assert last == rs[k];
      NotYetCreated(maxSize, rs, k);
    }
  }

  /** A HEAD request, at any time, is answered with the number of bytes accepted so far and the length that
      was declared, as long as the upload is staged. */
  lemma HeadReports(maxSize: Option<nat>, rs: seq<Request>, k: nat)
    requires FreshIds(rs) && k < |rs| && rs[k].CreateUpload?
    ensures var (id, s) := (rs[k].newId, After(maxSize, rs));
            Handle(maxSize, s, Head(id)) == (s, if id in s.uploads then Progress(|AcceptedBytes(maxSize, rs, id)|, rs[k].length) else Refused(UploadUnknown))
  {
    if rs[k].newId in After(maxSize, rs).uploads {
      StagedAsDeclared(maxSize, rs, k);
      StagedIsAccepted(maxSize, rs, rs[k].newId);
    }
  }

  /** An upload that was deleted or finalized never comes back. */
  lemma {:induction false} GoneStaysGone(maxSize: Option<nat>, rs: seq<Request>, k: nat, j: nat)
    requires FreshIds(rs) && k < j <= |rs| && rs[k].CreateUpload? && rs[k].newId !in After(maxSize, rs[..j]).uploads
    ensures rs[k].newId !in After(maxSize, rs).uploads
    decreases |rs|
  {
    if j == |rs| {
      assert rs[..j] == rs;
    } else {
      var front := rs[..|rs| - 1];
      assert front[k] == rs[k] && front[..j] == rs[..j];
      GoneStaysGone(maxSize, front, k, j);
      assert rs[|rs| - 1].CreateUpload? ==> rs[|rs| - 1].newId != rs[k].newId;
    }
  }

  lemma NotYetCreated(maxSize: Option<nat>, rs: seq<Request>, k: nat)
    requires FreshIds(rs) && k < |rs| && rs[k].CreateUpload?
    ensures rs[k].newId !in After(maxSize, rs[..k]).uploads
  {
    forall r | r in rs[..k] && r.CreateUpload? ensures r.newId != rs[k].newId {
      var i :| 0 <= i < k && rs[i] == r;
    }
    UnknownUpload(maxSize, rs[..k], rs[k].newId);
  }

  /** In any sequence of requests, no PATCH to an upload that was created without a length changes the
      mirror or is answered as complete. */
  lemma DeferredNeverFinalized(maxSize: Option<nat>, rs: seq<Request>, k: nat, j: nat)
    requires FreshIds(rs) && k < |rs| && rs[k].CreateUpload? && rs[k].length.None?
    requires j < |rs| && rs[j].Patch? && rs[j].id == rs[k].newId
    ensures After(maxSize, rs[..j + 1]).mirror == After(maxSize, rs[..j]).mirror
    ensures forall n :: Handle(maxSize, After(maxSize, rs[..j]), rs[j]).1 != Patched(n, true)
    ensures forall p :: !FinalizesAt(maxSize, After(maxSize, rs[..j]), rs[j], p)
  {
    var s := After(maxSize, rs[..j]);
    assert rs[..j + 1][..j] == rs[..j];
    if k < j {
      assert rs[..j][k] == rs[k];
      if rs[k].newId in After(maxSize, rs[..j]).uploads {
        StagedAsDeclared(maxSize, rs[..j], k);
      }
    } else {
      forall r | r in rs[..j] && r.CreateUpload? ensures r.newId != rs[k].newId {
        var i :| 0 <= i < j && rs[i] == r;
      }
      UnknownUpload(maxSize, rs[..j], rs[k].newId);
    }
  }

  /** Over any sequence of requests each mirror path holds the accepted bytes of the last upload that was
      finalized there, and only such paths exist. */
  lemma {:induction false} MirrorIsLastFinalized(maxSize: Option<nat>, rs: seq<Request>, p: Path)
    requires FreshIds(rs)
    ensures LastFinalized(maxSize, rs, p) == if p in After(maxSize, rs).mirror then Some(After(maxSize, rs).mirror[p]) else None
  {
    if rs != [] {
      var front, last := rs[..|rs| - 1], rs[|rs| - 1];
      assert forall i | 0 <= i < |front| :: front[i] == rs[i];
      MirrorIsLastFinalized(maxSize, front, p);
      StepFinalizes(maxSize, After(maxSize, front), last, p);
      if FinalizesAt(maxSize, After(maxSize, front), last, p) {
        StagedIsAccepted(maxSize, front, last.id);
      }
    }
  }

  /** One client upload, a creation and a single PATCH with everything, stores exactly its bytes and leaves
      no staging behind: the upload step of the sync protocol. */
  lemma SingleUploadStores(s: State, id: nat, p: Path, bytes: Bytes)
    requires id !in s.uploads && |bytes| < U64_LIMIT
    requires ParseSafeMirrorRel(p) == Some(p) && !MachineLocal(p) && !Blocked(s.mirror, p)
    ensures var created := Handle(None, s, CreateUpload(id, Some(|bytes|), false, Some(p)));
            var patched := Handle(None, created.0, Patch(id, 0, CONTENT_TYPE_OFFSET_OCTET_STREAM, bytes));
            && created.1 == Created(id) && patched.1 == Patched(|bytes|, true)
            && patched.0 == s.(mirror := s.mirror[p := bytes])
  {
    var created := Handle(None, s, CreateUpload(id, Some(|bytes|), false, Some(p)));
    var grown := Upload(Some(|bytes|), Some(p), [] + bytes);
    assert [] + bytes == bytes;
    assert created.0.uploads - {id} == s.uploads;
  }

  /** The same for a path that the mirror has already: the new bytes replace the old ones. */
  lemma UploadReplaces(s: State, id: nat, p: Path, bytes: Bytes)
    requires StateOk(s) && p in s.mirror && id !in s.uploads && |bytes| < U64_LIMIT
    ensures var created := Handle(None, s, CreateUpload(id, Some(|bytes|), false, Some(p)));
            var patched := Handle(None, created.0, Patch(id, 0, CONTENT_TYPE_OFFSET_OCTET_STREAM, bytes));
            patched.1 == Patched(|bytes|, true) && patched.0 == s.(mirror := s.mirror[p := bytes])
  {
    StoredAsItself(p);
    forall q | q in s.mirror ensures !(q + "/" <= p) && !(p + "/" <= q) {
    }
    SingleUploadStores(s, id, p, bytes);
  }

  // ---- the store ----

  class UploadStore {
    const maxSize: Option<nat>
    var uploads: map<nat, Upload>
    var mirror: map<Path, Bytes>

    ghost function Contents(): State
      reads this
    {
      State(uploads, mirror)
    }

    constructor (maxSize: Option<nat>)
      ensures Contents() == EMPTY && this.maxSize == maxSize
    {
      this.maxSize := maxSize;
      uploads, mirror := map[], map[];
    }

    method Create(r: Request) returns (a: Response)
      requires r.CreateUpload?
      modifies this`uploads
      ensures (Contents(), a) == Handle(maxSize, old(Contents()), r)
    {
      if r.length.None? && !r.deferLength {
        return Refused(MissingHeader);
      }
      if r.length.Some? && r.deferLength {
        return Refused(InvalidHeaderValue);
      }
      if r.length.Some? && maxSize.Some? && r.length.value > maxSize.value {
        return Refused(ExceedsMaxSize);
      }
      uploads := uploads[r.newId := Upload(r.length, r.relPath, [])];
      return Created(r.newId);
    }

    method GetProgress(id: nat) returns (a: Response)
      ensures (Contents(), a) == Handle(maxSize, Contents(), Head(id))
    {
      if id !in uploads {
        return Refused(UploadUnknown);
      }
      return Progress(|uploads[id].data|, uploads[id].length);
    }

    /** Appends one chunk; the caller has checked offset and length. */
    method WriteChunk(id: nat, offset: nat, data: Bytes) returns (newOffset: nat)
      requires id in uploads && |uploads[id].data| == offset
      requires uploads[id].length.Some? ==> offset + |data| <= uploads[id].length.value
      modifies this`uploads
      ensures uploads == old(uploads)[id := old(uploads)[id].(data := old(uploads)[id].data + data)]
      ensures newOffset == offset + |data|
    {
      uploads := uploads[id := uploads[id].(data := uploads[id].data + data)];
      newOffset := |uploads[id].data|;
    }

    /** Moves a complete upload into the mirror and removes its staging directory. */
    method FinalizeIntoMirror(id: nat) returns (error: Option<FinalizeError>)
      requires id in uploads
      modifies this
      ensures match FinalizeTarget(old(uploads)[id], old(mirror))
              case Success(dest) =>
                error == None && uploads == old(uploads) - {id} && mirror == old(mirror)[dest := old(uploads)[id].data]
              case Failure(e) =>
                error == Some(e) && uploads == old(uploads) && mirror == old(mirror)
    {
      var target := FinalizeTarget(uploads[id], mirror);
      if target.Failure? {
        return Some(target.error);
      }
      mirror := mirror[target.value := uploads[id].data];
      uploads := uploads - {id};
      return None;
    }

    method PatchUpload(r: Request) returns (a: Response)
      requires r.Patch?
      modifies this
      ensures (Contents(), a) == Handle(maxSize, old(Contents()), r)
    {
      if r.contentType != CONTENT_TYPE_OFFSET_OCTET_STREAM {
        return Refused(InvalidContentType);
      }
      if r.id !in uploads {
        return Refused(UploadUnknown);
      }
      var info := uploads[r.id];
      if |info.data| != r.offset {
        return Refused(OffsetMismatch(|info.data|, r.offset));
      }
      if info.length.Some? {
        if r.offset + |r.data| >= U64_LIMIT {
          return Refused(OffsetOverflow);
        }
        if r.offset + |r.data| > info.length.value {
          return Refused(InvalidHeaderValue);
        }
      }
      var newOffset := WriteChunk(r.id, r.offset, r.data);
      if info.length != Some(newOffset) {
        return Patched(newOffset, false);
      }
      ghost var staged := uploads;
      var error := FinalizeIntoMirror(r.id);
      assert staged - {r.id} == old(uploads) - {r.id};
      if error.Some? {
        return NotFinalized(error.value);
      }
      return Patched(newOffset, true);
    }

    method DeleteUpload(id: nat) returns (a: Response)
      modifies this`uploads
      ensures (Contents(), a) == Handle(maxSize, old(Contents()), Delete(id))
    {
      if id !in uploads {
        return Refused(UploadUnknown);
      }
      uploads := uploads - {id};
      return Deleted;
    }
  }
}
