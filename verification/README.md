# Verification of dojjo's mirror sync

A Dafny model of how dojjo replicates a Jujutsu repository between machines, and proofs about it. The
central promise is the first line of `dojjo-mirror/src/mirror_apply_order.rs`: dependencies come before
dependents, so that no observer of the server or of a half-finished pull ever sees an operation without
its parents and view, or a head without its operation.

`dafny verify dfyconfig.toml` checks the whole project.

## What is modelled

- **Ordering engine** (`Toposort`, `MirrorApplyOrder`, `OperationStore`, `OperationExpand`). The loops of
  the program over maps, sets and stacks, proved against specification functions, and what those functions
  mean: `LexKahn` is the least topological order, `ApplyOrder` is the layered canonical permutation,
  `ParentClosure` is a least fixpoint. The protobuf decoder of operations is a parameter.
- **Sync** (`MirrorExclude`, `Manifests`, `JjRepo`, `SyncPlan`, `SyncProtocol`, `SyncRound`,
  `RoundRefinement`, `MirrorPull`, `Convergence`, `TakingTurns`). `SyncProtocol` is a transition system of any
  number of clients and one server, with one step per uploaded, pulled or pruned file, one per manifest fetch,
  and one for normalize-and-publish; a client may stop at any step. `SyncRound` is one round as the program
  runs it, on objects whose fields the methods update, and `RoundRefinement` shows that the protocol's steps
  add up to it. `MirrorPull` is the cold join. `Convergence` is about one whole round, `TakingTurns` about any
  number of clients that have such rounds one after the other, in any reachable state of the protocol.
  `ScanIndex` ties the path sets and the name test of the plan to the two directory walks.
- **Create and resume** (`CreateResume`, `CreateCrashes`). `dojjo create` as a phase machine that may crash before any
  effect, and a class `CreateCommand` whose methods are proved to take exactly the machine's steps until
  their budget of steps runs out. `CreateCrashes` builds runs that crash in the windows that matter.
- **Supporting parts**: which paths are acceptable (`MirrorPath`), the two directory walks (`TreeWalk`), the bytes that a manifest revision hashes
  (`Revision`), the TUS upload server (`TusUpload`), the background worker's schedule (`BackgroundWorker`),
  and the hand-written protobuf encoder (`CheckoutProto`).

`Paths` holds the byte order of strings and small facts about sequences; `Results` holds `Option` and `Result`.

## Assumptions

- Nobody else writes the local repository during a client's round: step `Edit` needs an idle client. A
  crash or error is step `Stop`.
- A round's git push and git fetch are functions on the repository directory, parameters of `RunForDojoHome`.
  Protocol and turns take trees that they leave as they are; nothing there depends on the files that git
  writes, which are host-local, except the scan.
- No shared path has white space around it (`PlainNames`). The client's scan accepts such a path and the
  upload stores it under another one (`MirrorPath.StoredAsItself`).
- SHA-256 is an injective function of the content: `Digest` is a free constructor.
- The content of an operation, view or head file follows from its path (`World.canon`), and no operation is
  its own ancestor (`World.rank`). These are facts about jj's content-addressed store, with BLAKE2b names.
- Normalize resolves heads as jj does when a repository is loaded at its head: heads that are ancestors of
  other heads go, several remaining heads are replaced by one new merge operation of exactly those, and no
  operation or view is deleted (`sync-server/src/mirror_normalize.rs:184-194`). Everything else in the mirror
  may change, except that nothing appears under a top-level `.dojjo`.
- Files under `store/extra/heads` are markers: empty files that name an extra table. What a table holds is a
  parameter (`World.rows`).
- `Convergence` assumes a little more of normalize. It neither removes nor overwrites a listed file outside
  the operation store, save that it may remove a marker if one that remains names a table with all the rows.
  It may add merged tables, markers and caches (`sync-server/src/mirror_normalize.rs:91-148`). It adds nothing,
  and removes re-uploaded markers again, when it has been there before: when the mirror is the one it published
  last, the upload brought no such file but markers whose table it had merged, and the head it settled on was
  there already (`SidesNormalized`). This is for markers and tables what `StaleHeadRemovedAgain` proves for
  operation heads.
- Normalize leaves only safe paths if it finds only safe paths.
- The mirror has no entry under a top-level `.dojjo`, the subtree which only the client's scan skips, and
  nobody has a file below a directory whose own path is that of an excluded file (`config-id/x`, say). Under
  this the plan's path sets are exactly what the two walks list (`ScanIndex.ClientScanIsIndex`,
  `ScanIndex.ServerScanIsList`).
- Lists of paths are free of repetitions, and no path is both a file and a directory.
- One request to the server is one atomic step. An upload is one create and one PATCH
  (`TusUpload.SingleUploadStores`), so it is one step of the sync protocol.
- Renaming a jj workspace to the name it already has changes nothing, and each file of a dojo's home is
  replaced by a rename.
- The project that create publishes does not change while create runs.

## What the proofs found

1. **Clients that sync in turn do not always end up with the same files.** A client never takes the server's
   version of a file outside the operation store if the manifest it fetched first shows that version: it
   uploads its own. Two clients with different versions overwrite each other for ever, and at any time one of
   them has the file to upload (`ConflictNeverSettles`; `ConvergenceCanFail` is a concrete case, in a world
   that `ExampleWorldExists` builds). `EveryoneConverges` gives the exact condition for any number of clients,
   and each can check it when its first round begins. If the manifest is older than the mirror, because an
   upload was interrupted, it is the other way round: the client loses its version (`OwnVersionWins`).
2. **The manifest checks do not show what their message says.** "apply_order must cover every entry exactly
   once" is tested by equal lengths and membership, which accept an order that repeats one path and omits
   another (`ChecksMissRepetition`). It holds exactly when the order has no repetition (`ChecksCoverOnce`).
   The server's own manifests always pass (`LiveManifestOk`).
3. **A PATCH answered with an error may have changed the upload.** It has exactly when a non-empty chunk fills
   the upload and its target is missing, empty, unsafe, machine-local or blocked: the chunk is kept
   (`PatchErrors`; `PatchErrorKeepsChunk` is such a request).
4. **One crash window of create cannot be resumed.** After the repository directory is moved and before the
   pointer file is written, `.jj/repo` is missing and every later run fails in the same way. All other
   crashes can be resumed (`RerunAfterCrash`, `MissingOnlyInWindow`). Every project can get there
   (`LostRepoIsReachable`).
5. **A sentinel that is added but not yet put on the root commit stays so.** A crash between
   `jj workspace add` and `jj new root()` leaves it half made, and no re-run completes it
   (`HalfAddedIsReachable`, `HalfAddedOnlyInWindow`, `HalfAddedForEver`). Likewise, a re-run leaves the sync
   state saved and the progress file gone if and only if the linked home had no `config.json` when it began,
   or both were so already (`RerunTidies`): after a crash right behind the config file it reports success
   with neither done (`UnsavedSuccessIsReachable`).
6. **Client and server list the same files exactly when no file is contested** (`WalksAgree`): none under a
   top-level `.dojjo`, and none below a directory whose own path is excluded only as an exact match (say a
   directory called `config-id`); `WalksCanDiffer` is such a tree. A round verifies exactly when no listed
   path lies under `.dojjo` (`AdoptedVerifies`).
7. `push_len_delimited_field` checks that the field number is below 190 "to fit in one-byte tag". A tag takes
   two bytes from field 16 on; the encoding is right all the same (`FieldRoundTrip`).
8. **A cold join refuses paths which the rest of the system accepts**: those with two dots in a row, such as
   `a..b` (`ColdJoinRefusesDots`, `DottedPathIsStored`). One such file on the mirror makes every join fail.
9. **A file that never travels can stop sync and create.** The client's scan tests the name of a file before it
   tests whether the file is excluded, so one loose ref such as `store/git/refs/tags/v1+x` makes it fail
   (`HostLocalNameFailsScan`). A round succeeds only if every scan passes, and changes nothing if the first one
   does not; a ref that the round's own git fetch brings stops it after publication and before the pull
   (`RunForDojoHome`). Create succeeds if and only if the scan passes and the order can be computed
   (`RerunSucceedsIff`), however often it is run (`NeverPublished`), and finds that out only when the workspace
   has been renamed, the repository moved and git pushed (`RefusedAfterRehoming`).
10. **A path with white space around it is accepted by the client's scan and stored under another name**,
   exactly when trimming changes it (`StoredAsItself`, `BlankIsDropped`).
11. **A pending local change never makes the background worker sync earlier.** The debounce interval is the poll
   interval, and both are counted from the last start, so a change may start a sync only when the next poll is due
   anyway (`SyncsByPollAlone`).

## Model

| member | source | states |
|---|---|---|
| Paths.LessIsByteOrder | dojjo-mirror/src/mirror_apply_order.rs:139-148 | the order of paths is the one in which strings sort: a proper prefix first, otherwise the first differing character decides |
| Toposort.KahnToposort | dojjo-mirror/src/mirror_apply_order.rs:126-163 | succeeds exactly on an acyclic graph, repeated edges included; the result is a topological order of all nodes and the least one in byte order |
| Toposort.BuildGraph | dojjo-mirror/src/mirror_apply_order.rs:127-137 | every indegree counts its edges with repetition and every adjacency list holds them all |
| Toposort.Release | dojjo-mirror/src/mirror_apply_order.rs:149-156 | no indegree is decremented below zero, and afterwards the ready set is exactly the nodes left without a predecessor |
| Toposort.LexKahnCorrect | dojjo-mirror/src/mirror_apply_order.rs:146-162 | taking the smallest ready node uses up all nodes if and only if the graph has no cycle, and then the order is topological and not greater than any other topological order |
| Toposort.LexKahnPrefix | dojjo-mirror/src/mirror_apply_order.rs:146-157 | ordering the nodes of a prefix of the order gives that prefix again |
| Toposort.LexKahnPredecessors | dojjo-mirror/src/mirror_apply_order.rs:146-157 | whatever has been taken, all its predecessors were taken before, on cyclic graphs too |
| OperationStore.HexEncodeInjective | dojjo-mirror/src/mirror_apply_order.rs:100-106 | different operation ids never share a file name |
| OperationStore.HexEncodeDigits | dojjo-mirror/src/mirror_apply_order.rs:100-106 | byte i of an id is read back from digits 2i and 2i+1 of its hex name |
| OperationStore.OperationNames | dojjo-mirror/src/mirror_apply_order.rs:67-69 | a valid operation name is 128 characters out of the 22 hex digits in both cases |
| OperationStore.ParentFiles | dojjo-mirror/src/operation_expand.rs:44-79 | an operation is usable exactly if it is on disk, decodes and has 64-byte parent ids; its parent files are the hex names of the ids that have a byte other than zero |
| MirrorApplyOrder.ChildEdges | dojjo-mirror/src/mirror_apply_order.rs:80-120 | one edge per distinct non-zero parent; fails exactly when a parent id has the wrong length, is not in the input or is the operation itself, and names the defect |
| MirrorApplyOrder.OperationParentEdges | dojjo-mirror/src/mirror_apply_order.rs:72-124 | the edge set is the parent relation of the input; succeeds exactly when every operation is readable and usable |
| MirrorApplyOrder.SortedPathsInLayer | dojjo-mirror/src/mirror_apply_order.rs:165-177 | exactly the paths of the layer, strictly increasing |
| MirrorApplyOrder.OrderOperations | dojjo-mirror/src/mirror_apply_order.rs:198-233 | the operations layer: fails exactly when the input cannot be ordered, always for a defect that is really there |
| MirrorApplyOrder.ComputeMirrorApplyOrder | dojjo-mirror/src/mirror_apply_order.rs:180-250 | for distinct paths succeeds exactly when every operation name is a hex id, every operation decodes with sound parents in the input and the parent graph has no cycle; the result is a permutation of the input and does not depend on its order; an error names a real defect |
| MirrorApplyOrder.ApplyOrderMeaning | dojjo-mirror/src/mirror_apply_order.rs:180-250 | the result is a permutation in layer order, each other layer strictly sorted, operations in the least parents-first order |
| MirrorApplyOrder.LayersInOrder | dojjo-mirror/src/mirror_apply_order.rs:4-62 | in the result all `store/` paths stand first, then `op_store/views/`, `op_store/type`, `op_store/operations/`, unknown paths, `index/`, `submodules/`, and last `op_heads/` |
| MirrorApplyOrder.LayersAreSorted | dojjo-mirror/src/mirror_apply_order.rs:165-177 | two paths of one layer other than the operations stand in byte order |
| MirrorApplyOrder.OrderableByListing | dojjo-mirror/src/mirror_apply_order.rs:180-250 | a set can be ordered if and only if each operation in it is named by 128 hex digits and usable, and the operations can be listed with all parents before their children |
| MirrorApplyOrder.ApplyOrderPermutes | dojjo-mirror/src/mirror_apply_order.rs:238-247 | the program's closing assertion: every input path comes out once and no other |
| MirrorApplyOrder.ParentsEarlier | dojjo-mirror/src/mirror_apply_order.rs:109-119 | a parent in the input stands before its child in the result |
| MirrorApplyOrder.PrefixStable | dojjo-mirror/src/mirror_apply_order.rs:180-250 | every prefix of a result can be ordered again, and the result is that prefix |
| MirrorApplyOrder.ApplyOrderAgrees | dojjo-mirror/src/mirror_apply_order.rs:12-12 | two trees with the same operation files order the same paths alike, so client and server agree |
| OperationExpand.PushParents | dojjo-mirror/src/operation_expand.rs:44-79 | collects exactly the unseen non-zero parents and stacks each once; fails exactly when an id has the wrong length or an unseen parent is not on disk |
| OperationExpand.ExpandOperationParentClosure | dojjo-mirror/src/operation_expand.rs:21-89 | the sorted parent closure of the seeds; fails exactly when an operation that the closure reaches is missing or malformed; ends on cyclic data too |
| OperationExpand.ClosureIsLeastFixpoint | dojjo-mirror/src/operation_expand.rs:17-20 | the closure is closed under parents on disk, and every closed set that holds the seeds contains it |
| OperationExpand.ClosureOrderable | client/src/sync.rs:160-168 | ordering a closure never fails for a missing or unreadable parent: it succeeds if and only if the seeds' operation names are hex ids and the parents form no cycle |
| MirrorExclude.ProtocolPathsTravel | dojjo-mirror/src/mirror_exclude.rs:37-62 | no exclusion rule catches an operation, a view or a head marker |
| MirrorExclude.MachineLocalBySegments | dojjo-mirror/src/mirror_exclude.rs:37-62 | segment by segment: machine-local is everything in `workspace_store` and in `store/git`, and six named files, and nothing else |
| MirrorExclude.GitStoreBySegments | dojjo-mirror/src/git_mirror_exclude.rs:8-21 | the git rule catches exactly `store/git` and what is below it |
| MirrorExclude.DojjoBySegments | client/src/repo_walk.rs:60-62 | the subtree that the client skips is exactly the top-level directory `.dojjo` |
| MirrorExclude.OperationBySegments | dojjo-mirror/src/mirror_apply_order.rs:49-51 | operations are exactly the paths below `op_store/operations` |
| Manifests.ParseManifest | client/src/manifest.rs:49-91 | accepts exactly the bodies whose order has as many paths as there are entries, all of them entries; a later row for a path replaces an earlier one |
| Manifests.CollectTakesLast | client/src/manifest.rs:49-91 | the parsed entries have exactly the paths of the rows, each with its last row |
| Manifests.ChecksCoverOnce | client/src/manifest.rs:74-84 | an accepted order covers every entry exactly once if and only if it has no repetition |
| Manifests.ChecksMissRepetition | client/src/manifest.rs:74-84 | a body that passes the checks and does not cover every entry |
| Manifests.GetMirrorObjectBytes | client/src/manifest.rs:123-179 | at most eight refetches, each after a 404; bytes are returned only if they match the current manifest in size and hash, absence only if it no longer lists the path, and each error for its own reason |
| JjRepo.RepoOrderable | client/src/create.rs:171-182 | a dependency-closed part of a well-formed repository can always be ordered |
| JjRepo.RepoExpandable | client/src/sync.rs:160-166 | expanding any part of a well-formed repository succeeds |
| JjRepo.ApplyOrderDepsFirst | dojjo-mirror/src/mirror_apply_order.rs:1-12 | in an apply order parents, views and the operations of heads stand before what needs them |
| JjRepo.PlanDepOrdered | client/src/sync.rs:171-174 | writing only a part of a dependency-first order is safe at every file if what is left out was there before |
| JjRepo.MaximalAbove | sync-server/src/mirror_normalize.rs:184-185 | every head is an ancestor of, or is, one that survives head resolution |
| JjRepo.MarkersBySegments | sync-server/src/mirror_normalize.rs:91-137 | head markers of the extra table are exactly the paths below `store/extra/heads` |
| JjRepo.ViewIsThere | dojjo-mirror/src/mirror_apply_order.rs:1-12 | in a well-formed repository the view that an operation names is on disk under its hex name |
| JjRepo.ParentIsThere | dojjo-mirror/src/mirror_apply_order.rs:1-12 | and so is each of its parents except the root |
| JjRepo.HeadIsComplete | dojjo-mirror/src/mirror_apply_order.rs:1-12 | and with a head marker the operation of the same name |
| SyncPlan.HostLocalNameFailsScan | client/src/repo_walk.rs:78-89 | a tree without any shared file on which the client's scan fails |
| SyncPlan.UploadPlanElems | client/src/sync.rs:148-181 | in a well-formed repository the upload loop uploads exactly the changed files, and neither of its two preparations can fail |
| SyncPlan.UploadPlanSafe | client/src/sync.rs:158-181 | each uploaded file finds its dependencies on the mirror, even against a stale manifest, provided that what that manifest listed is still there |
| SyncPlan.PullPlanSafe | client/src/sync.rs:316-361 | each pulled file finds its dependencies in the local repository, whichever files matched already |
| SyncPlan.NormalizeKeepsOk | sync-server/src/mirror_normalize.rs:151-197 | head resolution keeps the mirror well formed and closed |
| SyncPlan.NormalizeKeepsHistory | sync-server/src/mirror_normalize.rs:184-194 | it loses no operation from the heads' history and adds at most the merge operation |
| SyncPlan.LiveManifestOk | sync-server/src/mirror_manifest.rs:209-237 | the manifest of a closed mirror can always be built, covers each entry once and lists dependencies first |
| SyncProtocol.StepKeepsInv | client/src/sync.rs:148-393 | every step of every client keeps the invariant of server and clients, and the server's history only grows |
| SyncProtocol.ServerAlwaysClosed | client/src/sync.rs:148-185 | in every state of every interleaving the mirror is closed, its manifest can be built, and the served manifest is closed and in order |
| SyncProtocol.ClientsAlwaysClosed | client/src/sync.rs:316-389 | every client's repository is well formed and closed in every state, between any two pulled or pruned files and across refetches |
| SyncProtocol.ServerHistoryNeverShrinks | client/src/sync.rs:158-185 | over any run the operations that the server's heads reach never shrink and stay on the mirror as files, and operation and view files are never removed or changed |
| SyncProtocol.CompletedRoundIsKept | client/src/sync.rs:158-185 | from a client's sync-complete on, the server keeps all history and all operations the client had at the start of its round, as files |
| SyncProtocol.ServedManifestStands | sync-server/src/mirror_manifest.rs:265-334 | only an answered sync-complete changes the manifest that clients are served once one is published, and it replaces it by that of the mirror at that moment |
| SyncProtocol.RoundKeepsClientHistory | client/src/sync.rs:316-393 | no operation or view leaves the client during a round, its whole history at the start stays there as files, host-local files stay as they were, and a finished round leaves the client's heads with at least the history they had |
| SyncProtocol.StablePullVerifies | client/src/sync.rs:389-393 | if the manifest was not refetched and nothing is left to prune, the final check passes |
| SyncProtocol.PruneStep | client/src/sync.rs:438-464 | prune never removes an operation or a view, and every single removal keeps the repository closed |
| SyncProtocol.PullSkipStep | client/src/manifest.rs:139-142 | a path that left the manifest during the pull is one that no later file of the plan depends on |
| SyncProtocol.LaterScansPass | client/src/sync.rs:223-393 | if the scan passed on the tree a round began with, it passes in every later state of that round, whatever is pulled or pruned |
| SyncProtocol.HostLocalStaysHome | client/src/sync.rs:255-261 | no served manifest lists a host-local path, and no round changes a client's copies |
| SyncProtocol.HostLocalNeverUploaded | sync-server/src/dojo_tus_store.rs:200-205 | no client step creates, changes or removes a host-local path of the mirror |
| SyncRound.SyncServer.GetMirrorManifest | sync-server/src/mirror_manifest.rs:320-334 | serves the published manifest, or before the first publication a live one if it can be built |
| SyncRound.SyncServer.BuildManifestBody | sync-server/src/mirror_manifest.rs:209-237 | the rows of the kept files and their apply order, exactly when all their paths are safe and they can be ordered |
| SyncRound.SyncServer.PublishMirrorManifest | sync-server/src/mirror_manifest.rs:265-286 | publishes the manifest of the current mirror, or on failure keeps the old publication |
| SyncRound.SyncServer.PostMirrorSyncComplete | sync-server/src/mirror_sync_complete.rs:22-47 | after success the published manifest is that of the normalized mirror; after any failure the old publication stays |
| SyncRound.ChangedPaths | client/src/sync.rs:148-156 | exactly the local paths that the manifest lacks or lists with another hash, sorted |
| SyncRound.PushChanges | client/src/sync.rs:158-181 | puts the changed files, and nothing else, on the mirror, or fails before the first upload |
| SyncRound.UploadedByFile | client/src/sync.rs:148-181 | file by file: a shared local file that the manifest lacks or shows with other content is put on the mirror, every other mirror path stays |
| SyncRound.UploadedListed | client/src/sync.rs:148-181 | with a current manifest the listed files afterwards are those of the mirror overlaid with the client's shared files |
| SyncRound.UploadInOrder | client/src/sync.rs:171-180 | uploads the needed paths of the order once each, with their local content, to where the path rule puts them |
| SyncRound.PullChanges | client/src/sync.rs:316-361 | afterwards the local tree has the server's version of exactly the pull set; a failure leaves a prefix of the order written |
| SyncRound.PruneLocal | client/src/sync.rs:438-464 | removes exactly the shared local files that the manifest does not list, and counts them; removes nothing if the scan fails |
| SyncRound.VerifyLocalMatchesManifest | client/src/sync.rs:393-436 | passes exactly when the scan passes and shared local files and manifest agree in paths, hashes and sizes |
| SyncPlan.VerifiedByContent | client/src/sync.rs:405-436 | that agreement, in terms of file contents: listed size and hashed content of every listed file that travels, and no other travelling file |
| SyncRound.AdoptedByPullAndPrune | client/src/sync.rs:316-393 | pull and prune against the published manifest leave the client's own host-local files and the server's listed files, nothing else |
| SyncRound.AdoptedVerifies | client/src/sync.rs:393-436 | that tree passes the final check if and only if the server lists nothing under a top-level `.dojjo` |
| SyncRound.RunForDojoHome | client/src/sync.rs:66-402 | one undisturbed round with its git commands: exactly when it succeeds, every scan included, and what it leaves on the mirror, published and on the client, after success and after each kind of failure |
| Convergence.RoundSucceedsByScans | client/src/sync.rs:66-402 | on a well-formed repository and a closed mirror, with a normalize that goes through, a round succeeds if and only if the scans before git, after git push and after git fetch pass |
| RoundRefinement.RoundIsProtocolRun | client/src/sync.rs:66-402 | from every reachable state an idle client whose tree passes the scan can complete a round, and undisturbed, the single uploads, pulls and removals lead to just the state that the whole round promises |
| MirrorPull.AssertSafeMirrorRelPath | client/src/mirror_pull.rs:13-26 | accepts exactly the non-empty relative slash paths of plain segments without two dots in a row |
| MirrorPull.ColdJoinAcceptsJoins | client/src/mirror_pull.rs:13-26 | an accepted path is exactly a join of names, none empty, a dot entry or with a backslash, without two dots in a row |
| MirrorPull.ColdJoinRefusesDots | client/src/mirror_pull.rs:13-26 | of the paths that a mirror can hold, exactly those with two dots in a row are refused |
| MirrorPull.DottedPathIsStored | dojjo-mirror/src/mirror_path.rs:24-62 | a path that uploads accept and the cold join refuses |
| MirrorPull.PullMirrorIntoRepo | client/src/mirror_pull.rs:28-73 | succeeds exactly when every listed path is accepted and there as listed, and then has written them all; a failure leaves a prefix of the order |
| Convergence.RoundSettles | client/src/sync.rs:148-393 | after a round client and server share the same listed files and the server has one head, whatever normalize does outside the operation store |
| Convergence.QuietRound | client/src/sync.rs:148-187 | a round of a client in step with the server uploads, pulls and prunes nothing and keeps the manifest |
| Convergence.StaleHeadRemovedAgain | sync-server/src/mirror_normalize.rs:184-194 | uploading a head that was resolved away before changes nothing: normalize removes it again and keeps the head it had |
| Convergence.OwnVersionWins | client/src/sync.rs:148-187 | of a file outside the operation store the client's version ends up on both sides if it is uploaded or there already; if it is neither, the server's version replaces it, which the current manifest rules out |
| Convergence.BehindRound | client/src/sync.rs:148-393 | the round of a client of which the server knows every file, superseded heads and merged markers included, changes no listed file and no manifest |
| Convergence.KeepsUnlessConflict | client/src/sync.rs:148-156 | without a conflict a round keeps every listed file of the mirror, save resolved heads and merged markers, and keeps their history and tables |
| Convergence.StaysBehind | client/src/sync.rs:148-156 | a client of which the server knows every file stays so while another has a round without a conflict |
| Convergence.ConvergenceCanFail | client/src/sync.rs:148-187 | two concrete repositories that differ in one index file: the three rounds run and do not converge |
| Convergence.ExampleFileSafe | dojjo-mirror/src/mirror_path.rs:24-62 | every file of these repositories has a path that scans and uploads accept |
| Convergence.ExampleWorldExists | client/src/sync.rs:148-187 | operation, view and decoder for them exist, so the assumptions about jj can be met |
| TakingTurns.TurnsAreRuns | client/src/sync.rs:66-402 | from any reachable state, rounds of any clients one after the other are a run of the protocol |
| TakingTurns.EveryoneConverges | client/src/sync.rs:148-393 | any number of clients, from any reachable state: when each has had a round and each but the last another, in any order, all clients and the server share the same files if and only if no client but the first met a conflict in its first round |
| TakingTurns.ConflictNeverSettles | client/src/sync.rs:148-156 | two clients with different versions of a file outside the operation store keep them for ever, whoever has whatever rounds, and at any time one of them has it to upload |
| TakingTurns.QuietForever | client/src/sync.rs:148-393 | once all clients are in step with the server, no later sequence of rounds uploads anything or changes any client or the manifest |
| CreateResume.LiveManifestOfPartialUpload | client/src/create.rs:184-201 | wherever the upload stopped, the mirror can be scanned and ordered and its live manifest lists exactly the first files of the upload order in that order |
| CreateResume.FoundIsLinked | client/src/config.rs:145-193 | in every reachable disk state a run finds a create exactly when one is under way or finished, and never an unusable one while `.jj/repo` exists |
| CreateResume.StepKeepsInv | client/src/create.rs:36-254 | every effect keeps the invariant of disk and server, and no dojo's phase goes back |
| CreateResume.PhasesMeanWhatTheySay | client/src/create.rs:144-213 | in every state of every run with crashes: config present means fully uploaded, phase Rehomed or later means the repository lives in the dojo's home and the workspace points there and is not called `default`, GitPushed or later means pushed, and phases never decrease |
| CreateResume.SentinelBeforeMove | client/src/workspace_lifecycle.rs:239-254 | at no time in any run with crashes is the repository moved without a sentinel; one that was made is never taken away, and a frozen one stays frozen |
| CreateResume.RunLeavesSentinel | client/src/workspace_lifecycle.rs:239-254 | a run that goes through makes a frozen sentinel if it has to move the repository and finds none, and leaves the sentinel as it is otherwise |
| CreateResume.RunGoesOn | client/src/create.rs:36-91 | a run goes on with the create that it finds and registers a dojo, just one, only if it finds none |
| CreateResume.RunEnds | client/src/create.rs:122-254 | for a project that the scan accepts and that can be ordered: from every reachable state in which `.jj/repo` is not lost, the program runs to its end and succeeds; the sync state is saved and the progress file gone unless it stopped at once at a config file |
| CreateResume.RerunAfterCrash | client/src/create.rs:36-65 | for such a project: after a crash anywhere a new run finishes, unless the repository was moved and the pointer not written; then every run fails without effect; the dojo it ends with, the sentinel, the workspace name and the sync state are said exactly |
| CreateResume.RerunSucceedsIff | client/src/create.rs:171-177 | for any project: after a crash anywhere, with the repository in its place, a new run ends, and in success if and only if the scan passes and the apply order can be computed |
| CreateResume.NeverPublished | client/src/create.rs:171-177 | otherwise no dojo ever gets a config file or a mirror file, in any run with any crashes |
| CreateResume.RerunTidies | client/src/create.rs:36-43 | a finished run leaves the sync state saved and the progress file gone if and only if the linked home had no config when it began, or both were so already; with a config nothing is changed |
| CreateResume.MissingOnlyInWindow | client/src/workspace_lifecycle.rs:75-92 | `.jj/repo` is missing only between the directory rename and the pointer write, or in runs that start from there |
| CreateResume.HalfAddedOnlyInWindow | client/src/jj_exec.rs:113-133 | the sentinel becomes half added only between the two jj commands |
| CreateResume.HalfAddedForEver | client/src/workspace_lifecycle.rs:239-245 | a sentinel left half added by a crash stays so through all later runs and crashes |
| CreateCrashes.LostRepoIsReachable | client/src/workspace_lifecycle.rs:75-92 | for every project a run that crashes between rename and pointer |
| CreateCrashes.HalfAddedIsReachable | client/src/jj_exec.rs:113-133 | for every project a run that crashes between the two commands for the sentinel |
| CreateCrashes.UnsavedSuccessIsReachable | client/src/create.rs:36-43 | for every publishable project a run that crashes after the config file and a re-run that reports success with no sync state saved and the progress file left |
| CreateCrashes.RefusedAfterRehoming | client/src/create.rs:144-177 | for every other project a run that fails when the workspace has been renamed, the repository moved and git pushed |
| CreateResume.RunMeans | client/src/create.rs:21-92 | what one run of any project leaves, killed or not: a state from which the next run can continue; and of a publishable one on reaching its end a full upload and an unchanged half-added sentinel; `RerunTidies` says what is saved |
| CreateResume.CreateCommand.MoveRepoFolder | client/src/workspace_lifecycle.rs:51-94 | clears the destination, renames the directory, writes the pointer: exactly the machine's steps up to the crash |
| CreateResume.CreateCommand.EnsureDojoAfterCreate | client/src/workspace_lifecycle.rs:214-258 | skips what an earlier run completed, otherwise renames the workspace, adds the sentinel if there is none and moves the repository |
| CreateResume.CreateCommand.AddFrozenDefault | client/src/jj_exec.rs:113-133 | the two jj commands as two steps |
| CreateResume.CreateCommand.UploadFrom | client/src/create.rs:184-201 | the upload loop, which skips what the manifest fetched before it lists |
| CreateResume.CreateCommand.ResumeCreate | client/src/create.rs:122-254 | runs the phases that are not recorded, each recorded after it is done, and stops at a failed scan or order before any upload, as the machine does |
| CreateResume.CreateCommand.RegisterNew | client/src/create.rs:67-91 | register, home, link, first checkpoint, then the phases |
| CreateResume.CreateCommand.Run | client/src/create.rs:21-92 | after any number of steps disk and server are as the machine leaves them and the invariant holds; for a publishable project an uninterrupted run on an intact repository ends with everything uploaded to the dojo that it found or to one new dojo, with the sentinel that `RunLeavesSentinel` describes, and the sync state is saved exactly when the linked home had no config or all was done before; of any other project nothing is uploaded and no run succeeds |
| TreeWalk.ScanRepoFiles | client/src/repo_walk.rs:38-100 | succeeds exactly when no entry is unsupported, every file has an acceptable path, excluded ones included, and the entries of all directories but the one read last stay below the limit; then lists every kept file once, strictly increasing |
| TreeWalk.ScanMirrorTree | sync-server/src/mirror_manifest.rs:94-206 | succeeds exactly on a clean tree within the entry limit and then lists every kept file once |
| TreeWalk.ServerOkByVisits | sync-server/src/mirror_manifest.rs:122-203 | the tree is clean exactly if everything that the walk comes to has a safe name and is a directory or a file of at most 64 MiB with a safe path |
| TreeWalk.ServerSeesAll | sync-server/src/mirror_manifest.rs:118-140 | where no directory is pruned every entry of the tree counts towards the limit |
| TreeWalk.FilesOnce | client/src/repo_walk.rs:95-98 | with distinct names in each directory no file can be listed twice |
| MirrorPath.SlashInjective | sync-server/src/mirror_manifest.rs:45-58 | different files never share a slash path |
| TreeWalk.KeepsAgree | sync-server/src/mirror_manifest.rs:173-198 | pruning directories and filtering files differ only under a top-level `.dojjo` or below a directory at an exactly matched excluded path |
| TreeWalk.WalksAgree | sync-server/src/mirror_manifest.rs:190-198 | the two walks list the same files if and only if the tree has no contested file |
| TreeWalk.WalksCanDiffer | sync-server/src/mirror_manifest.rs:190-198 | a tree with a file that the client lists and the server does not |
| ScanIndex.ClientScanPasses | client/src/repo_walk.rs:73-83 | limits apart, the client's walk passes if and only if the tree has no special file and the plan's test of names holds for all files outside `.dojjo` |
| ScanIndex.ClientScanIsIndex | client/src/repo_walk.rs:103-116 | where it passes, the local index has exactly the paths that the client's walk lists |
| ScanIndex.ServerScanPasses | sync-server/src/mirror_manifest.rs:140-183 | where the server's walk passes and no file is undercut, all listed paths are safe |
| ScanIndex.ServerScanIsList | sync-server/src/mirror_manifest.rs:173-198 | the listed part of a mirror is what the server's walk lists if and only if no file lies below a directory at an exactly excluded path |
| Revision.FeedHasher | sync-server/src/mirror_manifest.rs:60-75 | the loop feeds the rows in path order |
| Revision.PreImageDecodes | sync-server/src/mirror_manifest.rs:64-73 | the byte stream of a list of rows can be read back in one way only |
| Revision.RowLayout | sync-server/src/mirror_manifest.rs:64-73 | place by place: path, zero, size in eight bytes with the most significant first, zero, 64 hash characters, zero |
| Revision.RevisionDetermined | sync-server/src/mirror_manifest.rs:60-75 | two manifests hash the same bytes if and only if their rows agree up to order |
| MirrorPath.SplitSlash | dojjo-mirror/src/mirror_path.rs:39-51 | splitting a path at its slashes and joining the segments gives the path back |
| MirrorPath.SlashSplit | sync-server/src/dojo_tus_store.rs:191-198 | joining segments and splitting again gives the segments back |
| MirrorPath.StoredAsItself | dojjo-mirror/src/mirror_path.rs:24-62 | a path is accepted exactly when it is safe after trimming, and an accepted path is stored under its own name exactly when trimming leaves it alone |
| MirrorPath.SafePathIsJoin | dojjo-mirror/src/mirror_path.rs:8-62 | a safe path is a join of segments, none empty or a dot entry, over the 65 listed characters, of at most 4096 characters |
| MirrorPath.WhiteSpaceListed | dojjo-mirror/src/mirror_path.rs:25-25 | trimming takes away the 25 listed white space characters |
| MirrorPath.BlankIsDropped | dojjo-mirror/src/mirror_path.rs:25-25 | any safe name with a blank behind it is accepted and stored without the blank |
| MirrorPath.OddCharRefused | dojjo-mirror/src/mirror_path.rs:16-17 | one character that is neither safe nor white space nor a slash is enough for a path to be refused |
| TusUpload.HandleKeepsOk | tus-server/src/handler.rs:185-234 | any request keeps every upload within its declared length and the mirror a tree of safe, not machine-local paths |
| TusUpload.CreateRules | tus-server/src/handler.rs:90-137 | an upload is created, empty and as declared, exactly if it has a length or defers it, not both, within the limit |
| TusUpload.PatchRules | tus-server/src/handler.rs:175-252 | a chunk is taken exactly if type, upload, offset and length fit; a wrong offset is answered with the right one, a kept chunk with the new count |
| TusUpload.DeleteRemoves | tus-server/src/handler.rs:257-271 | a deletion removes one staged upload and nothing else, or answers not-found |
| TusUpload.HeadReports | tus-server/src/handler.rs:144-169 | over any sequence of requests progress is the number of accepted bytes and the length declared at creation |
| TusUpload.GoneStaysGone | tus-server/src/handler.rs:257-271 | an upload that was deleted or finalized never comes back |
| TusUpload.FinalizeReasons | sync-server/src/dojo_tus_store.rs:162-266 | each reason for which a filled upload is not placed, with its exact condition |
| TusUpload.PatchErrors | sync-server/src/tus_handlers.rs:221-274 | a refused PATCH changes nothing and an error never touches the mirror; an error comes with a changed upload exactly when a non-empty chunk fills an upload whose target cannot be placed |
| TusUpload.PatchErrorKeepsChunk | sync-server/src/tus_handlers.rs:268-273 | a create without a target and a PATCH that fills it: an error, and the chunk stays |
| TusUpload.DeferredNeverFinalized | tus-server/src/handler.rs:236-245 | in any sequence of requests no PATCH to an upload created without a length changes the mirror or is answered as complete |
| TusUpload.OnlyFilledUploadsFinalize | tus-server/src/handler.rs:236-245 | only a PATCH that fills a declared length reaches the mirror, and then the upload is gone |
| TusUpload.StagedIsAccepted | sync-server/src/dojo_tus_store.rs:350-399 | over any sequence of requests a staged upload holds the concatenation of its accepted chunks |
| TusUpload.MirrorIsLastFinalized | sync-server/src/dojo_tus_store.rs:162-266 | over any sequence of requests each mirror path holds the bytes of the last upload finalized there, and no other path exists |
| TusUpload.SingleUploadStores | client/src/tus.rs:97-155 | create and one PATCH put the file at its path and leave no staged upload |
| TusUpload.UploadReplaces | sync-server/src/dojo_tus_store.rs:162-266 | and on a path that the mirror has already it replaces the file |
| TusUpload.UploadStore.Create | sync-server/src/dojo_tus_store.rs:271-318 | stages an empty upload or refuses, as the request rules say |
| TusUpload.UploadStore.GetProgress | tus-server/src/handler.rs:144-169 | answers with the bytes received and the declared length, changes nothing, and answers not-found for an unknown upload |
| TusUpload.UploadStore.WriteChunk | sync-server/src/dojo_tus_store.rs:350-399 | appends the chunk and advances the offset by its length |
| TusUpload.UploadStore.FinalizeIntoMirror | sync-server/src/dojo_tus_store.rs:162-266 | moves the data to its path and removes the upload, or changes nothing and says why |
| TusUpload.UploadStore.PatchUpload | sync-server/src/tus_handlers.rs:221-274 | checks, append and finalize together do what the request machine says |
| TusUpload.UploadStore.DeleteUpload | tus-server/src/handler.rs:257-271 | removes a known upload and answers not-found for an unknown one |
| BackgroundWorker.PollFollowsStart | client/src/background_sync.rs:241-242 | once a sync has started, the next poll is due one interval after its start |
| BackgroundWorker.StartsApart | client/src/background_sync.rs:227-243 | under a monotone clock any two sync starts are at least an interval apart |
| BackgroundWorker.SyncsByPollAlone | client/src/background_sync.rs:221-243 | a turn syncs exactly if there was no sync yet or the last one started at least ten seconds ago, whether a change is pending or not |
| BackgroundWorker.ChangeStaysPending | client/src/background_sync.rs:221-240 | an observed change stays pending until a sync that started after it succeeds |
| BackgroundWorker.PendingExactly | client/src/background_sync.rs:221-240 | a change counts as pending exactly if one was observed and no sync that started after it has succeeded since |
| BackgroundWorker.RemembersLatest | client/src/background_sync.rs:241-242 | the remembered start is that of the latest sync, and there is none exactly before the first |
| BackgroundWorker.SleepIsTight | client/src/background_sync.rs:246-255 | the worker sleeps until exactly the moment from which a sync would be due |
| BackgroundWorker.WorkerProcess.RunTurn | client/src/background_sync.rs:215-267 | one turn of the loop changes the three variables as the schedule says |
| BackgroundWorker.WorkerProcess.RunWorker | client/src/background_sync.rs:210-269 | the loop goes on until sync is found disabled |
| CheckoutProto.VarintRoundTrip | client/src/workspace_lifecycle.rs:483-490 | a base-128 varint reader recovers every number and leaves the bytes that follow |
| CheckoutProto.VarintCanonical | client/src/workspace_lifecycle.rs:483-490 | the encoding has no superfluous byte |
| CheckoutProto.VarintAtMostTenBytes | client/src/workspace_lifecycle.rs:483-490 | a 64-bit number takes one to ten bytes |
| CheckoutProto.WriteVarint | client/src/workspace_lifecycle.rs:483-490 | the loop appends that encoding |
| CheckoutProto.FieldRoundTrip | client/src/workspace_lifecycle.rs:492-499 | a field reader recovers number and payload and leaves the bytes that follow |
| CheckoutProto.VarintValue | client/src/workspace_lifecycle.rs:483-490 | the seven-bit groups of a varint, least significant first, sum up to its number |
| CheckoutProto.EncodeCheckoutProto | client/src/workspace_lifecycle.rs:502-510 | byte for byte: tag 0x12, length, operation id, tag 0x1a, length, workspace name; both can be read back, whatever bytes follow |

## Left out

- PullChanges: pulls from a mirror and a publication that stand still; pulls against a changing server, with refetched manifests and skipped paths, are the steps of `SyncProtocol`.
- BuildManifestBody: of the scan it has the test of names and not the limits on entries and file sizes, and it takes the listed files by their paths; `TreeWalk.ScanMirrorTree` has the limits, and `ScanIndex.ServerScanIsList` says when the paths are what the walk finds.
- ComputeMirrorApplyOrder: takes paths without repetitions; with a repeated operation path the program panics.
- EveryoneConverges: is about rounds that follow one another; clients whose rounds interleave are covered by `SyncProtocol` for closure and history, not for convergence.
- Size and count limits of the mirror inside the sync protocol: an oversized file or more than 100,000 entries make the server's scan fail, which `TreeWalk` models and `SyncProtocol` does not.
- The `git` and `jj` subprocesses, fsck healing and the git transport flags: foreign programs; in create a git push is one bit of a dojo's state, in a round push and fetch are functions that do not fail.
- jj-lib internals, merging of extra tables, and the op-store gc: only the stated assumption about normalize.
- HTTP routing, JSON, SQLite lookups, OpenAPI, URL and header parsing, the CLI and status output.
- Expiry of uploads and all wall-clock times other than the worker's.
- TUS requests to one upload that race in separate handler instances, which have separate locks.
- Directory scans that run while files change: a scan is one step.
- Atomic file replacement itself (`atomic_write`, the manifest's temporary file): a replaced file is one effect.
- The checks of the api base and workspace recorded in the progress file, and several projects on one machine.
- `dojjo create` from a secondary jj workspace, whose `.jj/repo` points to a repository outside any dojo: the program registers a dojo and then fails at the same place in every run.
- File names that are not UTF-8 and paths deeper than 10,000 levels, on which the client's scan fails as well.
- What becomes of a path with white space around it after the upload: `PlainNames` excludes it from rounds and protocol.
- Reversing a create: `move_jj_repo_folder_from_default_workspace_to_user_workspace` and what calls it.
- Panics of the exclusion predicates on empty, absolute or backslash paths; every caller passes relative slash paths.
- PullMirrorIntoRepo: joins a mirror that stands still; a join against a changing server is `ColdJoin` in `SyncProtocol`, where a refused path is one more reason to stop.
- The server's second check of a manifest that it built or read back (`validate_manifest_body`); `LiveManifestOk` proves what it checks.
