/** The manifest a client fetches, the checks it makes, and the download loop with its bounded refetch. */
module Manifests {
  import opened Results
  import opened Paths
  import opened OperationStore

  /** SHA-256 as an injective function of the content. */
  datatype Digest = Sha256(content: Bytes)

  datatype Entry = Entry(size: nat, sha256: Digest)

  datatype Manifest = Manifest(entries: map<Path, Entry>, order: seq<Path>)

  function EntryOf(content: Bytes): Entry {
    Entry(|content|, Sha256(content))
  }

  // ---- fetch_manifest ----

  /** The JSON body: rows and the apply order, as sent. */
  datatype Body = Body(rows: seq<(Path, Entry)>, order: seq<Path>)

  datatype FetchError = OrderLengthMismatch | OrderPathUnknown(path: Path)

  /** Rows collected into a map; a repeated path keeps its last row. */
  function Collect(rows: seq<(Path, Entry)>): map<Path, Entry> {
    if rows == [] then map[]
    else Collect(rows[..|rows| - 1])[rows[|rows| - 1].0 := rows[|rows| - 1].1]
  }

  /** The collected map has the paths of the rows, each with the last row that the body has for it. */
  lemma {:induction false} CollectTakesLast(rows: seq<(Path, Entry)>, p: Path)
    ensures p in Collect(rows) <==> exists i :: 0 <= i < |rows| && rows[i].0 == p
    ensures forall i | 0 <= i < |rows| && rows[i].0 == p && (forall j | i < j < |rows| :: rows[j].0 != p) :: Collect(rows)[p] == rows[i].1
  {
    if rows != [] {
      var front, last := rows[..|rows| - 1], rows[|rows| - 1];
      CollectTakesLast(front, p);
      if last.0 == p {
        assert rows[|rows| - 1].0 == p;
      }
      forall i | 0 <= i < |front| && front[i].0 == p ensures 0 <= i < |rows| && rows[i].0 == p {
      }
    }
  }

  ghost predicate Accepted(body: Body) {
    && |body.order| == |Collect(body.rows)|
    && forall p | p in body.order :: p in Collect(body.rows)
  }

  method ParseManifest(body: Body) returns (r: Result<Manifest, FetchError>)
    ensures r.Success? <==> Accepted(body)
    ensures r.Success? ==> r.value == Manifest(Collect(body.rows), body.order)
  {
    var entries: map<Path, Entry> := map[];
    for i := 0 to |body.rows|
      invariant entries == Collect(body.rows[..i])
    {
      assert body.rows[..i + 1][..i] == body.rows[..i];
      entries := entries[body.rows[i].0 := body.rows[i].1];
    }
    assert body.rows[..|body.rows|] == body.rows;
    if |body.order| != |entries| {
      return Failure(OrderLengthMismatch);
    }
    for i := 0 to |body.order|
      invariant forall p | p in body.order[..i] :: p in entries
    {
      assert body.order[i] in body.order;
      if body.order[i] !in entries {
        return Failure(OrderPathUnknown(body.order[i]));
      }
    }
    assert body.order[..|body.order|] == body.order;
    return Success(Manifest(entries, body.order));
  }

  /** Every entry occurs in the order exactly once. */
  ghost predicate CoversOnce(m: Manifest) {
    Distinct(m.order) && Elems(m.order) == m.entries.Keys
  }

  /** The checks are meant to say that the order covers every entry exactly once. They do so exactly
      for an order without repetition. */
  lemma ChecksCoverOnce(body: Body)
    requires Accepted(body)
    ensures CoversOnce(Manifest(Collect(body.rows), body.order)) <==> Distinct(body.order)
  {
    var keys := Collect(body.rows).Keys;
    if Distinct(body.order) {
      DistinctSize(body.order);
      assert Elems(body.order) <= keys;
      assert |keys| == |Collect(body.rows)|;
      SubsetSize(Elems(body.order), keys);
    }
  }

  /** An accepted body whose order repeats one path and misses another. */
  lemma ChecksMissRepetition() returns (body: Body)
    ensures Accepted(body) && !CoversOnce(Manifest(Collect(body.rows), body.order))
  {
    var e := EntryOf([]);
    body := Body([("a", e), ("b", e)], ["a", "a"]);
    assert body.rows[..1] == [("a", e)];
    assert body.rows[..1][..0] == [];
    assert Collect(body.rows[..1]) == map["a" := e];
    assert Collect(body.rows) == map["a" := e, "b" := e];
    assert Collect(body.rows).Keys == {"a", "b"};
    assert body.order[0] == body.order[1];
  }

  // ---- get_mirror_object_bytes ----

  const MAX_MANIFEST_REFETCH_ON_404: nat := 8

  datatype Response = NotFound | Content(bytes: Bytes) | OtherStatus

  datatype GetError = GaveUp | StatusError | LengthMismatch | ShaMismatch | RefetchFailed

  /** What the server answers to the n-th GET of this path and to the n-th manifest refetch. */
  datatype Server = Server(get: nat -> Response, refetch: nat -> Option<Manifest>)

  datatype Outcome =
    | Got(bytes: Bytes, manifest: Manifest)
    | Absent(manifest: Manifest)
    | Failed(error: GetError)

  /** Downloads `rel`; a 404 replaces the manifest and tries again, at most eight times. */
  method GetMirrorObjectBytes(server: Server, rel: Path, manifest0: Manifest) returns (o: Outcome, ghost gets: nat, refetches: nat)
    ensures refetches <= 8
    ensures gets <= refetches + 1
    ensures forall i: nat | i < refetches :: server.get(i) == NotFound && server.refetch(i).Some?
    ensures var last := if refetches == 0 then Some(manifest0) else server.refetch(refetches - 1);
            match o
            case Got(bytes, man) =>
              && Some(man) == last && server.get(refetches) == Content(bytes)
              && rel in man.entries && man.entries[rel] == EntryOf(bytes)
            case Absent(man) => Some(man) == last && rel !in man.entries
            case Failed(GaveUp) => refetches == 8 && server.get(refetches) == NotFound
            case Failed(RefetchFailed) => server.get(refetches) == NotFound && server.refetch(refetches).None?
            case Failed(StatusError) => server.get(refetches) == OtherStatus
            case Failed(LengthMismatch) => last.Some? && rel in last.value.entries && server.get(refetches).Content?
                                           && |server.get(refetches).bytes| != last.value.entries[rel].size
            case Failed(ShaMismatch) => last.Some? && rel in last.value.entries && server.get(refetches).Content?
                                        && |server.get(refetches).bytes| == last.value.entries[rel].size
                                        && server.get(refetches).bytes != last.value.entries[rel].sha256.content
  {
    var manifest := manifest0;
    refetches := 0;
    gets := 0;
    while true
      invariant gets == refetches <= MAX_MANIFEST_REFETCH_ON_404
      invariant forall i: nat | i < refetches :: server.get(i) == NotFound && server.refetch(i).Some?
      invariant Some(manifest) == if refetches == 0 then Some(manifest0) else server.refetch(refetches - 1)
      decreases MAX_MANIFEST_REFETCH_ON_404 - refetches
    {
      if rel !in manifest.entries {
        return Absent(manifest), gets, refetches;
      }
      var ent := manifest.entries[rel];
      var res := server.get(refetches);
      gets := gets + 1;
      match res
      case NotFound =>
        if refetches + 1 > MAX_MANIFEST_REFETCH_ON_404 {
          return Failed(GaveUp), gets, refetches;
        }
        var next := server.refetch(refetches);
        if next.None? {
          return Failed(RefetchFailed), gets, refetches;
        }
        manifest := next.value;
        refetches := refetches + 1;
      case OtherStatus =>
        return Failed(StatusError), gets, refetches;
      case Content(bytes) =>
        if |bytes| != ent.size {
          return Failed(LengthMismatch), gets, refetches;
        }
        if Sha256(bytes) != ent.sha256 {
          return Failed(ShaMismatch), gets, refetches;
        }
        return Got(bytes, manifest), gets, refetches;
    }
  }
}
