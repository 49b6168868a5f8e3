# OpenRegistry: a verified model of the blob-upload protocol and its neighbours

This project models the stateful core of OpenRegistry, an OCI container registry, and proves
what its clients rely on. `dafny verify dfyconfig.toml` checks all of it (Dafny 4.11).

**Blob uploads.** A client opens an upload, streams chunks, polls, and finishes through one of
three commit paths. The state is spread over the registry's maps, the IPFS backend's sessions
and buffers (swept by a collector), and the layers table with one SQL transaction per upload.

| file | what it holds |
|---|---|
| `P2P.dfy` | the IPFS multipart backend and its collector |
| `LayerStore.dfy` | the layers table, its two keys, and transactions |
| `Registry.dfy` | the handlers, whole runs, and the program classes |
| `UploadView.dfy` | the state of one upload; locality of every step; interleaving independence |
| `UploadSafety.dfy` | the collector never truncates; the two progress accounts agree; part numbers |
| `PushPull.dfy` | table integrity; first writer wins; push, then pull; which layers hash to their digest |
| `Commits.dfy` | commit once; exactly when a finish commits; what replies tell |
| `Handlers.dfy` | every request by its inputs: which status, what the reply says, what changes |
| `Client.dfy` | a conforming client is served at every step and its push succeeds |
| `Counterexamples.dfy` | short runs just outside the exact conditions |
| `Filebase.dfy` | the part-keyed (S3) backend agrees with the append-only buffer |

**Neighbours.** `Webauthn.dfy` (registration transactions held across requests),
`Favorites.dfy` (a denormalised counter), `Manifest.dfy` (recorded image size), `Scopes.dfy`,
`Identifiers.dfy`, `Text.dfy`, `KeyId.dfy` (printers and their split-based parsers).

How to read it: every stateful component is a class whose methods follow the source step by
step and are proved to compute a function of the old state. Those functions, on plain values,
are the specification; runs are sequences of events (`Run`), and the results are lemmas about
every run. One handler call or one collector tick is one atomic step. `Handlers.dfy` and the
last part of `Webauthn.dfy` pin each handler down without its helpers, by wire values and raw
state. Failures of the node and the database, request bodies that do not arrive, clock readings
and random ids are inputs of each event, so every result covers all of them.

A reply and a commit are not the same thing here: a finish commits its layer before it asks
for the download URL its reply is to carry, so "commits" below means the row is durable, and
`FailureReplyMayHaveCommitted` says exactly when a client is told otherwise.

Hypotheses, named where used: `SoundCids` (content identifiers are injective and not empty);
`FreshIds` and `FreshRepositories` (drawn ids do not repeat); `Plausible` (`FreshIds`, and no
chunk is stamped in an earlier second than the opening of its upload; ticks may come in any
order); and fewer than 2^31 requests per upload where the 32-bit part counter matters.
An ordered clock gives `Plausible` (`OrderedClockIsPlausible`) and is itself assumed by
`CollectorDrains` only. The collector needs less than `Plausible`: only the chunk that creates
an upload's buffer must not be stamped before the opening (`GcNeverTruncates`), and
`TruncatedIff` and `FillDecides` say, with no hypothesis on the clock, exactly when bytes have
been lost and when they can be. `PartNumberWraps` shows what happens at request 2^31.

## What the proofs found

- The registry compares the named digest with the content only in the single POST. On the IPFS
  backend the two PUT paths store any content under any digest (`WrongDigestStored`,
  `WrongDigestByChunks`); Filebase hands the digest of a chunked PUT to the storage service as
  a checksum (`dfs/filebase/filebase.go:129`). A layer hashes to its digest exactly
  when the request that inserted it was a single POST or named the digest of its own bytes
  (`LayerHashesIff`), so always when the clients of PUT are honest
  (`HonestRunsServeHonestLayers`).
- A chunked finish sets Location and Docker-Content-Digest from its last chunk, not from the
  blob (`registry/v2/registry.go:713-716`), although its documentation promises
  `/v2/<name>/blobs/<digest>` (`registry/v2/types.go:203-205`): `ChunkedFinishLocation` says
  exactly when the reply is right, and in `WrongLocation` it leads to a 404.
- A DELETE is answered 202 even if its commit failed: `DeleteReplyMeansGone`,
  `DeletedLayerStays`.
- The other way round, a finish answered 500 may have committed, when the download URL cannot
  be made: `FailureReplyMayHaveCommitted`, `HiddenCommit`. Filebase's URLs can fail
  (`dfs/filebase/filebase.go:302-317`), those of the IPFS backend cannot
  (`dfs/ipfs/p2p/p2p.go:302-309`).
- A closing PUT leaves the layer key to the backend to check, and aborts the upload whenever the
  backend fails: an empty closing PUT under a wrong key ends the upload
  (`WrongKeyFinishEndsUpload`, `WrongKeyEndsPush`).
- An empty chunk is accepted and starts the buffer's lease: `EmptyChunkSetsTheLease`.
- The credential is written outside the registration transaction, so a failed commit leaves a
  credential without a user: `CredentialWithoutUser` for the exact inputs, `OwnerlessCredential`
  for a run of two requests.
- A failed second statement leaves a favourites counter wrong until an opposite failure
  balances it: `FavoriteCountIsRight`, `MissedIncrement`.
- Refused chunks use up part numbers; the counter wraps at 2^31 and then passes the limit of
  1000: `PartNumberWraps`.
- The end of a Content-Range is read and never used; only the start is compared:
  `RangeEndIsIgnored`.

## Model

| member | source | states |
|---|---|---|
| P2P.IpfsP2p.CreateMultipartUpload | dfs/ipfs/p2p/p2p.go:101-110 | a session with the layer key, leased for five minutes; nothing else changes |
| P2P.IpfsP2p.UploadPart | dfs/ipfs/p2p/p2p.go:112-162 | refused, with no change, for a number over 1000, no session, or a wrong key; else the content is appended to the buffer, whose lease starts with the first part |
| P2P.IpfsP2p.Upload | dfs/ipfs/p2p/p2p.go:207-224 | the content is stored under its identifier; a pin failure reports an error but keeps the object |
| P2P.IpfsP2p.CompleteMultipartUpload | dfs/ipfs/p2p/p2p.go:166-205 | needs a live session, the right key and a buffer; stores the buffer and drops both entries on success only |
| P2P.CompletionEndsOnSuccess | dfs/ipfs/p2p/p2p.go:166-205 | session and buffer end exactly when the object is stored, under the identifier of the buffered bytes; on failure both stay |
| P2P.IpfsP2p.AbortMultipartUpload | dfs/ipfs/p2p/p2p.go:296-300 | session and buffer of this upload, and of no other, are gone |
| P2P.IpfsP2p.GetUploadProgress | dfs/ipfs/p2p/p2p.go:285-294 | the number of bytes buffered, zero when there is no buffer |
| P2P.IpfsP2p.Gc | dfs/ipfs/p2p/p2p.go:312-339 | the two-pass collect-then-delete loop removes exactly the entries whose expiry second has passed |
| LayerStore.RegistryStore.NewTxn | store/v1/registry/registry_impl.go:587-590 | a new open transaction, or no change on failure |
| LayerStore.RegistryStore.SetLayer | store/v1/registry/registry_impl.go:534-544 | queues the upsert in an open transaction; refused when the transaction is over, the statement fails, or a new digest comes with a taken primary key; a statement the server refuses ends the transaction |
| LayerStore.RegistryStore.DeleteLayerByDigestWithTxn | store/v1/registry/registry_impl.go:138-148 | queues the delete in an open transaction; a statement the server refuses ends the transaction |
| LayerStore.RegistryStore.Commit | store/v1/registry/registry_impl.go:598-600 | applies the queued writes and closes the transaction; a failed commit closes it without them; a done one is refused |
| LayerStore.RegistryStore.GetLayer | store/v1/registry/registry_impl.go:410-420 | the row of the digest, if any |
| LayerStore.ExecKeepsKeys | store/v1/types/registry.go:83-84 | no accepted statement ever breaks the primary key or the unique digest, as its transaction sees the table; the integrity of the committed table rests on it |
| LayerStore.ApplyMeans | store/v1/registry/registry_impl.go:534-544 | a known digest keeps its row but for the time of the update, which is that of the statement; a new one gets the row; a delete takes it away; other rows stay |
| LayerStore.OverMeansOver | store/v1/registry/registry_impl.go:598-600 | a transaction that is over refuses statements and commits, and nothing changes |
| Registry.Registry.StartUpload | registry/v2/registry.go:421-481 | without a digest: a session leased for five minutes and an open transaction under the new id, whose 202 hands out id and layer id together; a session alone, and a 500, when no transaction can be had; nothing without a random id |
| Registry.Registry.MonolithicUpload | registry/v2/registry.go:314-407 | object, then row, then commit, and nothing at all unless the content hashes to the named digest; 404, 400, 416 and 500 by the step that fails; a 500 for the missing download URL comes after the commit |
| Registry.Registry.UploadBlob | registry/v2/blobs.go:78-207 | an absent range or one starting with "0-" takes the first-chunk way, any other the next-chunk way; a refusal before the backend is asked changes nothing |
| Registry.Registry.FirstChunk | registry/v2/blobs.go:87-139 | the first-chunk path: refused once a part is recorded, sets the length |
| Registry.Registry.NextChunk | registry/v2/blobs.go:141-207 | the next-chunk path: refused unless the range parses and starts at the recorded length, adds to the length |
| Registry.Registry.TakeChunk | registry/v2/blobs.go:175-200 | an attempt is counted before the backend is asked; part and length are recorded only if it takes the chunk |
| Registry.Registry.UploadProgress | registry/v2/registry.go:484-510 | the Range of the backend's progress |
| Registry.Registry.MonolithicPut | registry/v2/registry.go:512-594 | stores the body and commits, in the upload's own transaction, a row under whatever digest the client names; the object stays when the row cannot be written; a 500 for the missing download URL comes after the commit |
| Registry.Registry.CompleteUpload | registry/v2/registry.go:604-720 | with a counter of zero the one-body PUT; otherwise the last chunk, if not empty, becomes a part, and only if the backend takes it the upload is assembled |
| Registry.Registry.FinishChunked | registry/v2/registry.go:651-719 | the part list is forgotten first; session and buffer end when the object is stored and also when it cannot be; the row's size is the length counter; the digest in the reply is that of the last chunk |
| Registry.Registry.PullLayer | registry/v2/registry.go:260-310 | redirects to the row's object; 404 when there is no row, no link or no object metadata, 500 when no URL can be made; changes nothing |
| Registry.Registry.DeleteLayer | registry/v2/registry.go:972-990 | the row goes only with the commit, and the reply is 202 whether that works or not; 500 when there is no transaction or the statement fails |
| Registry.Registry.Tick | dfs/ipfs/p2p/p2p.go:312-339 | a tick changes the backend's sessions and buffers only |
| Identifiers.TrackingIdRoundTrip | types/uuid.go:23-35 | both parsers give their part back if and only if neither part holds a colon |
| Text.RangeRoundTrip | registry/v2/blobs.go:142-154 | scanning a printed range gives both numbers back exactly when both fit Go's 64-bit int |
| Text.ScanIntMeans | registry/v2/blobs.go:142-154 | on any text a number is blanks, an optional sign and the longest run of digits; it is read exactly when there is a digit and the value fits 64 bits |
| Text.ScanRangeMeans | registry/v2/blobs.go:142-154 | a range is two such numbers with a dash right after the first, whatever follows |
| Text.ZeroPrefixIsZeroStart | registry/v2/blobs.go:88 | the test for the prefix "0-" holds exactly for start 0 |
| UploadView.StepIsLocal | registry/v2/blobs.go:78-207 | every event changes an upload exactly as that upload's own state and the event determine, and not at all when it names another upload |
| UploadView.PatchReply | registry/v2/blobs.go:128-138 | a PATCH is answered 202 exactly when the backend took the chunk, with the new length in the Range |
| UploadView.InterleavingIndependence | registry/v2/registry.go:604-672 | in any run, an upload's session, buffer, counters and part list are those of the run with all other requests left out |
| UploadView.InterleavingInvisible | registry/v2/blobs.go:128-139 | and its PATCHes and polls get the verdicts and Ranges they would get alone |
| UploadSafety.GcNeverTruncates | dfs/ipfs/p2p/p2p.go:312-339 | in every reachable state a live session's buffer is the in-order concatenation of all chunks accepted for the upload, in whatever order the ticks came, if the chunk that created a buffer is not stamped before the opening; refused and later chunks may carry any stamp |
| UploadSafety.SweptTogether | dfs/ipfs/p2p/p2p.go:312-339 | no tick can take a buffer from under its session if and only if the session is due no later than the buffer, in whole seconds |
| UploadSafety.LeaseRunsFromOpening | dfs/ipfs/p2p/p2p.go:101-110 | in every run a live session is due five minutes after its upload was opened, whatever has happened since |
| UploadSafety.FillDecides | dfs/ipfs/p2p/p2p.go:150-156 | in every reachable state an upload that has all its bytes is safe from the next tick, whenever it comes, if and only if the chunk that created its buffer is not stamped in an earlier second than its opening |
| UploadSafety.BufferLeaseRunsFromFill | dfs/ipfs/p2p/p2p.go:130-162 | in every run a buffer is due five minutes after the stamp of the chunk that created it, whatever was appended since |
| UploadSafety.TruncatedIff | dfs/ipfs/p2p/p2p.go:312-339 | in every run of fresh ids, whatever the clock did, a live upload lacks accepted bytes if and only if some tick found bytes more than a lease after the buffer's stamp and not more than a lease after the opening |
| UploadSafety.OrderedClockIsPlausible | dfs/ipfs/p2p/p2p.go:150-156 | a clock that never goes back meets what the collector needs |
| UploadSafety.ProgressAccountsAgree | dfs/ipfs/p2p/p2p.go:285-294 | length counter, backend progress and accepted bytes agree while the session lives |
| UploadSafety.RangeReplyScans | registry/v2/blobs.go:135 | the reported Range, read back, names the last byte, exactly for lengths up to 2^63 |
| UploadSafety.RangeOfPatchIsRangeOfPoll | registry/v2/registry.go:484-509 | the Range of an accepted PATCH is the Range of the next poll, and names the last accepted byte |
| UploadSafety.EndedUploadsStayEnded | dfs/ipfs/p2p/p2p.go:125-128 | once its session is gone an upload never accepts another byte, in any continuation |
| UploadSafety.ChunkedFinishEndsUpload | registry/v2/registry.go:651-672 | a chunked finish past its last chunk ends session and buffer on success and on failure |
| UploadSafety.SessionLives | dfs/ipfs/p2p/p2p.go:101-110 | until it is opened again, an upload's session lives if and only if no tick was past its lease and no finish of it got past its last chunk, whatever other traffic there is |
| UploadSafety.SessionEndsIff | registry/v2/registry.go:627-672 | a request or tick ends a live session if and only if it is a tick past the lease or a closing PUT of that upload that reaches the assembly |
| UploadSafety.WrongKeyFinishEndsUpload | registry/v2/registry.go:651-669 | once a chunk has been tried, an empty closing PUT under a wrong layer key is answered 416, records nothing, and ends session and buffer |
| UploadSafety.CollectorDrains | dfs/ipfs/p2p/p2p.go:312-339 | the first tick more than a lease after the latest request leaves the backend without sessions and buffers |
| UploadSafety.HandedPartsAscend | registry/v2/registry.go:627-657 | the part list of a closing PUT is strictly ascending, within 1..1000 and at most 1000 long, failed attempts or not |
| PushPull.FinishOutcome | registry/v2/registry.go:543-580 | a finish that commits upserts exactly the named row over an object holding the staged bytes; any other exit leaves the table as it was |
| PushPull.OtherOutcome | registry/v2/registry.go:421-510 | no other event touches objects, nor, DELETE aside, the table |
| PushPull.DeleteOutcome | registry/v2/registry.go:972-990 | a DELETE removes the row exactly when answered 202 with a working commit |
| PushPull.IntegrityAlways | registry/v2/registry.go:686-711 | in every reachable state every row resolves to a stored object of exactly its size, both keys hold, and no transaction has writes pending |
| PushPull.PushStoresPushedBytes | registry/v2/registry.go:627-693 | a commit of a new digest stores exactly the accepted chunks followed by the last body, and their number as size |
| PushPull.FirstWriterWins | store/v1/registry/registry_impl.go:534-544 | until effectively deleted, a row never changes but for `updated_at`, and its object never changes |
| PushPull.PullReturnsPush | registry/v2/registry.go:260-310 | pulling returns the bytes of the request that first committed the digest; they hash to it if and only if that was a single POST or named the digest of its own bytes |
| PushPull.EveryLayerWasPushed | registry/v2/registry.go:674-711 | every layer served was put there by a finish that the lemma finds in the run |
| PushPull.LayerHashesIff | registry/v2/registry.go:330-345 | in every reachable state a layer's object hashes to its digest if and only if the request that inserted it was a single POST or named the digest of what it pushed |
| PushPull.HonestRunsServeHonestLayers | registry/v2/registry.go:512-580 | when every PUT that commits names the digest of what it pushed, every layer in every reachable state hashes to its digest |
| Commits.StepTxns | registry/v2/registry.go:674-711 | a request changes no transaction but its own upload's, and that only while open |
| Commits.CommitOnce | registry/v2/registry.go:463-469 | in any run an upload id commits at most one layer, whichever finish endpoints, layer keys and digests its requests use, and never before it is issued |
| Commits.ClosedUploadsNeverCommit | store/v1/registry/registry_impl.go:534-544 | once its transaction has committed, been rolled back or been aborted by a refused statement, an upload never commits, in any continuation |
| Commits.MonolithicPutAccepts | registry/v2/registry.go:512-580 | the exact condition, on the inputs, for the one-body PUT to commit |
| Commits.ChunkedPutAccepts | registry/v2/registry.go:604-711 | the exact condition, on the inputs, for the chunked PUT to commit |
| Commits.SinglePostAccepts | registry/v2/registry.go:330-393 | the exact condition, on the inputs, for the single POST to commit, digest match included |
| Commits.FailureReplyMayHaveCommitted | registry/v2/registry.go:582-588 | a 201 means the row is committed; a commit is answered otherwise if and only if the finish is one whose reply carries a download URL and that cannot be made |
| Commits.RangeEndIsIgnored | registry/v2/blobs.go:141-163 | two Content-Range headers of the same start have the same effect and reply, whatever their ends |
| Commits.ChunkedFinishLocation | registry/v2/registry.go:713-716 | the reply names the committed layer if and only if the last chunk alone hashes to its digest |
| Commits.DeleteReplyMeansGone | registry/v2/registry.go:986-989 | after a 202 the layer is gone if and only if the commit worked or there was none |
| Handlers.StartOpens | registry/v2/registry.go:421-481 | which POSTs open an upload; the session with its "layers/" key and five minutes, the transaction, and the Location; what a failure leaves |
| Handlers.MisplacedChunkIsRefused | registry/v2/blobs.go:88-162 | a chunk for the start of an upload that has a part, or one whose range does not parse or does not start at the recorded length, is answered 416 and changes nothing |
| Handlers.PlacedChunk | registry/v2/blobs.go:97-205 | a chunk in its place is taken if and only if it arrives, the session lives under its layer key, and its part number is at most 1000; a refusal by the backend only uses up the number |
| Handlers.TakenChunk | registry/v2/blobs.go:109-139 | a chunk answered 202 is appended to the buffer and recorded as a part with its own digest and number; the reply has the upload's Location and the Range up to the new last byte |
| Handlers.ChunkIsTakenIff | registry/v2/blobs.go:141-162 | in every reachable state a live upload takes a chunk if and only if it begins the upload and nothing was taken, or starts at the number of bytes accepted; otherwise 416 and nothing changes |
| Handlers.PollReports | registry/v2/registry.go:484-510 | 204, the Range of the bytes buffered, and the upload's own Location |
| Handlers.BadIdIsRefused | registry/v2/registry.go:604-625 | an id without a colon: 500, and nothing changes |
| Handlers.SinglePostStatus | registry/v2/registry.go:314-407 | the status of the single POST by the first thing that goes wrong |
| Handlers.OneBodyPutStatus | registry/v2/registry.go:512-594 | the status of the one-body PUT by the first thing that goes wrong |
| Handlers.ChunkedPutStatus | registry/v2/registry.go:604-720 | the status of the chunked PUT: 400 for the last chunk, 416 for the backend, 400 for the database, 201 |
| Handlers.WholeBodyReply | registry/v2/registry.go:582-591 | a 201 to a one-body finish leads to the object just stored, which is exactly the body; the PUT names the body's own digest |
| Handlers.ChunkedReply | registry/v2/registry.go:713-719 | a 201 to a chunked finish names the digest of the last chunk in Location and digest header |
| Handlers.WholeBodyAddsObject | registry/v2/registry.go:355-361 | a one-body finish adds its body to the node as soon as the request is in order, whether or not the database then takes the row |
| Handlers.ChunkedPutAddsObject | registry/v2/registry.go:651-669 | a chunked finish adds the buffered bytes followed by the last chunk, exactly when the last chunk is taken and session, key and buffer are there |
| Handlers.OneBodyPutTxn | registry/v2/registry.go:543-580 | once its object is stored the one-body PUT commits the upload's transaction, or ends it by a failed commit, a refused statement or a broken key; a statement that never reached the server leaves it open |
| Handlers.ChunkedPutTxn | registry/v2/registry.go:674-711 | so does the chunked PUT |
| Handlers.FailureRepliesAreBare | registry/v2/registry.go:298-307 | failure replies carry a status and no Range, Location or digest, but for the digest of a pull that fails for want of a URL |
| Handlers.RecordedRow | store/v1/registry/registry_impl.go:534-544 | a commit writes the row of the named layer id, digest and media type over the pushed bytes, or for a known digest the time of the update only; all other rows stay |
| Handlers.DeleteReplies | registry/v2/registry.go:972-990 | 202 if and only if there is a transaction and the statement works; the row goes if and only if the commit works as well |
| Handlers.PullReplies | registry/v2/registry.go:260-310 | 307, 404 or 500 by the row, the object metadata and the URL; nothing changes |
| Handlers.DeletedIsGone | registry/v2/registry.go:972-990 | in every reachable state a DELETE without failures is answered 202, after it pulls of the digest get 404, and pulls of other digests get what they got |
| Client.ClientLearnsItsId | registry/v2/registry.go:471-475 | the Location of the opening POST leads back to the upload and its layer key |
| Client.ConformingClientProgresses | registry/v2/blobs.go:88-203 | a client sending non-empty chunks at the next offset within the lease is accepted at every step up to 1000 parts, loses nothing, and is told its own offset |
| Client.ConformingPushSucceeds | registry/v2/registry.go:604-720 | its closing PUT, with a last chunk or (also after exactly 1000 parts) without, is answered 201 and stores all its bytes in order |
| Counterexamples.BackwardClockTruncates | dfs/ipfs/p2p/p2p.go:150-156 | a first chunk stamped before its upload's opening is swept from under the live session |
| Counterexamples.EmptyChunkSetsTheLease | dfs/ipfs/p2p/p2p.go:144-160 | an empty chunk stamped early, then a good chunk, then a tick within the lease: the good chunk is swept from under the live session |
| Counterexamples.PartNumberWraps | registry/v2/blobs.go:109-117 | after n refused chunks, n < 2^31, the next good one is taken if and only if n < 1000 or the counter wraps, then as part -2^31 |
| Counterexamples.WrongDigestStored | registry/v2/registry.go:512-580 | a POST and a PUT store any content under any other digest, with a 201 |
| Counterexamples.WrongDigestByChunks | registry/v2/registry.go:604-711 | a POST, one chunk and an empty closing PUT do the same on the chunked path |
| Counterexamples.WrongKeyEndsPush | registry/v2/registry.go:651-669 | after an empty closing PUT under another layer key the push's own closing PUT is answered 416 |
| Counterexamples.HiddenCommit | registry/v2/registry.go:388-401 | a single POST naming its own digest is answered 500 for want of a download URL, and its layer is committed |
| Counterexamples.WrongLocation | registry/v2/registry.go:713-716 | a conforming push of one chunk, closed with an empty PUT, is stored, and the Location of its 201 leads to a 404 |
| Counterexamples.DeletedLayerStays | registry/v2/registry.go:986-989 | a DELETE answered 202 whose layer is still served |
| Filebase.Filebase.UploadPart | dfs/filebase/filebase.go:64-101 | keeps the content under its part number, replacing what was there; refused over 1000 |
| Filebase.Filebase.RetryComplete | dfs/filebase/filebase.go:103-115 | succeeds exactly when the list is acceptable, its content matches the checksum sent along, and one of three tries gets through |
| Filebase.Filebase.GetUploadProgress | dfs/filebase/filebase.go:269-287 | the loop adds up the sizes of all listed parts |
| Filebase.BackendsAgree | dfs/filebase/filebase.go:64-140 | on every live upload of every run the part-keyed backend assembles the bytes the buffer holds and reports the same progress |
| Filebase.FinishAgrees | registry/v2/registry.go:627-657 | and still does with the last chunk of the closing PUT |
| Filebase.ProgressOfPut | dfs/filebase/filebase.go:279-282 | replacing a part changes the progress by the difference of the sizes |
| Webauthn.WebauthnServer.BeginRegistration | auth/server/webauthn_server.go:86-196 | the username's previous transaction ends first; a new one is stored for a minute before the email is looked up, and stays open, with no user in it, on every 400 after that; a service failure ends it unless the session data cannot be removed |
| Webauthn.WebauthnServer.InvalidateExistingRequests | auth/server/webauthn_server.go:509-514 | the username's previous transaction is rolled back if still open |
| Webauthn.WebauthnServer.FinishRegistration | auth/server/webauthn_server.go:268-328 | the finish handler: credential first, then commit; any earlier failure rolls back |
| Webauthn.WebauthnServer.RollbackRegistration | auth/server/webauthn_server.go:198-229 | ends the transaction and keeps its entry; 500 when it was over already or the server cannot be told |
| Webauthn.WebauthnServer.Cleanup | auth/server/webauthn_server.go:75-84 | the loop rolls back and forgets exactly the entries that are due |
| Webauthn.NoTransactionLeaks | auth/server/webauthn_server.go:113-127 | in every reachable state each open transaction is stored under exactly one username |
| Webauthn.SweepLeavesTheLiving | auth/server/webauthn_server.go:75-84 | after a sweep a transaction is open if and only if it was and its entry is not due |
| Webauthn.UniqueUsersAlways | store/v1/types/users.go:50-53 | usernames and emails stay unique, in-flight registrations included |
| Webauthn.RegisteredUsersHoldCredentials | auth/webauthn/webauthn.go:215-238 | every user made durable by registration has a stored credential owned by that user; only users accepted from another sign-up route are exempt |
| Webauthn.CredentialsWereBegun | auth/webauthn/webauthn.go:195-238 | every stored credential belongs to a user id that a begin of the run drew and answered with 200 |
| Webauthn.RegisterOnce | auth/server/webauthn_server.go:312-327 | one begin leads to at most one registration, and to one exactly if its transaction is committed |
| Webauthn.CredentialWithoutUser | auth/server/webauthn_server.go:300-320 | a finish stores a credential exactly when all that precedes the commit is in order; its owner is missing afterwards exactly when the commit then fails and nobody of that name was durable |
| Webauthn.OwnerlessCredential | auth/server/webauthn_server.go:300-320 | one begin and one finish whose commit fails leave a credential and no user |
| Webauthn.WhatBeginLeaves | auth/server/webauthn_server.go:113-195 | which begin replies leave an open transaction, and with which user in it |
| Webauthn.RollbackEnds | auth/server/webauthn_server.go:198-229 | after a rollback request the username has no open transaction |
| Webauthn.BeginStatus | auth/server/webauthn_server.go:86-196 | in every reachable state a begin is answered 200 if and only if its input is valid, username and email are free among durable and in-flight users, and nothing fails; 500 if only the service fails |
| Webauthn.BeginEndsPrevious | auth/server/webauthn_server.go:113-123 | a valid begin ends the username's previous transaction and no other; an invalid one changes nothing |
| Webauthn.BeginOpens | auth/server/webauthn_server.go:124-195 | the new transaction is stored for one minute; what it holds and which session data remain, by the reply |
| Webauthn.FinishEnds | auth/server/webauthn_server.go:268-328 | the status of a finish; whatever it is, the username's transaction is over afterwards, all others stay, and its user becomes durable exactly on 200 |
| Webauthn.SecondFinishIsRefused | auth/server/webauthn_server.go:283-309 | after a finish or a rollback every further finish of the username is answered 400 and changes nothing, until it begins again |
| Webauthn.RollbackReplies | auth/server/webauthn_server.go:198-229 | 200 or 500 by whether the transaction was open and the server can be told; it is over afterwards and its entry stays |
| Webauthn.SweepForgets | auth/server/webauthn_server.go:75-84 | a sweep forgets exactly the entries whose expiry second is reached and changes no user, credential or session |
| Webauthn.RegistrationSucceeds | auth/server/webauthn_server.go:268-328 | a begin answered 200 can be finished within its minute, whatever others do, and registers exactly the user it named with its credential |
| Favorites.FavoritesStore.AddRepositoryToFavorites | store/v1/registry/registry_impl.go:719-754 | guarded append, then the counter, with a failure point at each statement |
| Favorites.FavoritesStore.RemoveRepositoryFromFavorites | store/v1/registry/registry_impl.go:756-788 | guarded removal, then the counter, with a failure point at each statement |
| Favorites.FavoritesConserved | store/v1/registry/registry_impl.go:740-750 | counter plus missed increments less missed decrements is the number of users listing the repository, in every run |
| Favorites.FavoriteCountIsRight | store/v1/registry/registry_impl.go:745-777 | the counter is right if and only if the misses balance; always, when no second statement failed |
| Favorites.AddReplies | store/v1/registry/registry_impl.go:719-754 | an add succeeds if and only if it appended and counted; what each failure leaves |
| Favorites.RemoveReplies | store/v1/registry/registry_impl.go:756-788 | a removal likewise |
| Favorites.RemoveUndoesAdd | store/v1/registry/registry_impl.go:719-788 | adding and removing without failures restores lists and counters |
| Favorites.MissedIncrement | store/v1/registry/registry_impl.go:740-750 | a new user, a new repository and one add whose second statement fails: the counter is 0 with one user listing |
| Favorites.ListsStayDuplicateFree | store/v1/registry/registry_impl.go:722-728 | no list ever holds a repository twice |
| Manifest.GetImageSizeByLayerIds | store/v1/registry/registry_impl.go:690-704 | the sum over the distinct stored digests named; what a sum over no rows is read as is left to the database |
| Manifest.ManifestSize | registry/v2/registry.go:836-845 | the recorded size: that sum, or the declared size when the query gives an error |
| Manifest.SizeOfTheNamed | store/v1/registry/registry_impl.go:690-704 | the recorded size sums the digests both stored and named, each once, and nothing else |
| Manifest.SizeIsASetSum | registry/v2/registry.go:836-842 | reordering or repeating layers does not change it |
| Manifest.ManifestSizeIsStoredBytes | registry/v2/registry.go:842-845 | when the query works and some named layer is stored, the size is, in every reachable state, the total bytes of the stored objects of exactly the digests both stored and named, whatever was declared |
| Scopes.ParseOCITokenPermissionRequest | auth/oci_token.go:44-73 | the loop over scopes: login claim, or one claim per scope, or refusal |
| Scopes.GetScopeFromQueryParams | auth/oci_token.go:275-292 | the loop over actions fills the map with exactly the non-empty ones |
| Scopes.ParsePrints | auth/oci_token.go:57-68 | a scope is accepted if and only if it holds two colons, and printing the claim gives the text back |
| Scopes.PrintParses | auth/oci_token.go:57-68 | a claim whose fields avoid the separators parses back |
| Scopes.ChallengeRoundTrip | auth/basic_auth.go:139-146 | the challenge scope is accepted if and only if the namespace is colon-free, as pull and push on it |
| Scopes.ParsersAgree | auth/oci_token.go:275-292 | both parsers accept the same strings and agree on type, name and non-empty actions, each of which the map holds as true |
| Scopes.RequestMeaning | auth/oci_token.go:53-72 | a request is granted if and only if every scope holds two colons, with one claim each, in order |
| Scopes.LoginMeaning | auth/oci_token.go:28-40 | a request with an account gets one claim, for an offline token of that account, whatever its scopes |
| KeyId.KeyIDEncode | auth/helpers.go:206-218 | the grouping loop stays in bounds and gives groups of four and a rest |
| KeyId.UngroupGrouped | auth/helpers.go:206-218 | deleting the colons gives the text back |
| KeyId.GroupingIsInjective | auth/helpers.go:206-218 | no two texts share a key id |
| KeyId.GroupLengths | auth/helpers.go:210-216 | all groups but the last have four characters; the last has four to seven, or is the whole short text |

## Left out

- Finer interleavings: the source locks only around some map writes; here a handler call or a tick is atomic.
- Registry.Registry.PullLayer: leaves out the Content-Length taken from block statistics and the spelling of the gateway URL; it redirects to the link itself.
- P2P.IpfsP2p.Upload: objects stay stored for good; the IPFS node's own garbage collection of unpinned objects is not modelled.
- Text.RangeRoundTrip: the scanner skips spaces and tabs but not other Unicode blanks.
- Filebase.Filebase.RetryComplete: whether the service finds the SHA-256 checksum of the completion request matching is an input; parsing the digest it is taken from, the three-second waits, the HEAD request after completion and its `cid` metadata are not modelled.
- LayerStore.RegistryStore.SetLayer: the `id` column is a string here, so a value that is not a UUID is refused only as a chosen database failure.
- Leak freedom of upload transactions: a failed or abandoned finish leaves its transaction open in `txnMap`, and the counters of finished uploads are never dropped; nothing is claimed about their number.
- Webauthn.WebauthnServer.BeginRegistration: an insert that would wait for another open transaction counts as a refused one; the cryptographic checks of the WebAuthn library are the inputs `serviceFails` and `verifyFails`.
- Login with a security key, session cookies and tokens: no shared transaction state.
- Whole-row user updates in the favourites model: they would overwrite the list.
- SHA-256, base32 and content identifiers are functions with the stated hypotheses; quoting in the challenge header is not modelled.
- HTTP and JSON plumbing, logging, configuration, migrations, tag and manifest lookup, referrers, the Storj and mock backends, GitHub automation and email.
