/** The blob-upload handlers. One handler call, or one tick of the collector, is one
    atomic step.

    `State` and its member functions are the specification of the handlers; class
    `Registry` is the program, proved to compute exactly them; `Step` and `Exec` give
    whole runs. */
module Registry {
  import opened Prelude
  import opened Text
  import opened Identifiers
  import opened P2P
  import opened LayerStore

  /** `idFails`: no random id can be drawn; `urlFails`: no download URL can be made. */
  datatype Faults = Faults(node: NodeFaults, sql: SqlFaults, idFails: bool, urlFails: bool)

  datatype Location = Nowhere | UploadPath(trackingId: string) | Download(link: string) | BlobPath(digest: string)

  /** Status, the Range header, Location and Docker-Content-Digest. */
  datatype Response = Response(status: nat, range: string, location: Location, contentDigest: string)

  function Status(status: nat): Response {
    Response(status, "", Nowhere, "")
  }

  /** A request or a collector tick. `at` is when it is handled; ids are the random
      identifiers the server draws for it; a body of None is one that fails to arrive. */
  datatype Event =
    | Post(at: nat, digest: string, body: Option<Bytes>, mediaType: string,
           uploadId: string, layerId: string, faults: Faults)
    | Patch(at: nat, identifier: string, contentRange: string, body: Option<Bytes>)
    | Get(at: nat, identifier: string)
    | Put(at: nat, identifier: string, digest: string, mediaType: string, body: Option<Bytes>, faults: Faults)
    | PutMonolithic(at: nat, identifier: string, digest: string, mediaType: string, body: Option<Bytes>,
                    faults: Faults)
    | Pull(at: nat, digest: string, statFails: bool, urlFails: bool)
    | Delete(at: nat, digest: string, faults: Faults)
    | Tick(at: nat)

  /** The textual test that routes a PATCH to the first-chunk path. */
  predicate IsFirstChunk(contentRange: string) {
    contentRange == "" || HasPrefix(contentRange, "0-")
  }

  /** The offset test of a PATCH: which range headers fit an upload that has `length`
      bytes, where `hasParts` says whether a part has been recorded. */
  predicate RangeFits(contentRange: string, length: int, hasParts: bool) {
    if IsFirstChunk(contentRange) then !hasParts
    else
      var scanned := ScanRange(contentRange);
      scanned.Some? && scanned.value.0 == length
  }

  function RangeReply(length: int): string {
    "0-" + Itoa(length - 1)
  }

  /** SetLayer, then Commit. */
  function RecordLayer(store: Store, t: nat, row: LayerRow, at: nat, f: SqlFaults): (Store, bool) {
    var (written, ok) := store.Exec(t, Upsert(row, at), f.write);
    if ok then written.Commit(t, f.commitFails) else (written, false)
  }

  /** Replies that carry a download URL turn into a 500 when it cannot be made; by then
      everything else has happened, and a pull has set its digest header. */
  function WithUrl(urlFails: bool, resp: Response): Response {
    if urlFails && resp.location.Download?
    then Response(500, "", Nowhere, if resp.status == 307 then resp.contentDigest else "")
    else resp
  }

  datatype State = State(
    dfs: Backend,
    store: Store,
    blobCounter: map<string, int>,
    layerLengthCounter: map<string, int>,
    layerParts: map<string, seq<CompletedPart>>,
    txnMap: map<string, nat>)
  {
    function Counter(u: string): int { Lookup(blobCounter, u, 0) }

    function Length(u: string): int { Lookup(layerLengthCounter, u, 0) }

    function Parts(u: string): seq<CompletedPart> { Lookup(layerParts, u, []) }

    function NextPart(u: string): int { Int32(Counter(u) + 1) }

    function MonolithicUpload(env: Env, at: nat, digest: string, body: Option<Bytes>, mediaType: string,
                              layerId: string, f: Faults)
      : (State, Response)
    {
      if body.None? then (this, Status(404))
      else if env.digest(body.value) != digest then (this, Status(400))
      else if f.idFails then (this, Status(416))
      else
        var (d1, link) := dfs.Upload(env, body.value, f.node);
        var s1 := this.(dfs := d1);
        if link.None? then (s1, Status(416))
        else
          var (st, txn) := store.NewTxn(f.sql.newTxnFails);
          if txn.None? then (s1, Status(500))
          else
            var row := LayerRow(layerId, digest, mediaType, link.value, |body.value|, at, at);
            var (st', ok) := RecordLayer(st, txn.value, row, at, f.sql);
            (s1.(store := st'), if ok then Response(201, "", Download(link.value), "") else Status(400))
    }

    function StartUpload(env: Env, at: nat, digest: string, body: Option<Bytes>, mediaType: string,
                         uploadId: string, layerId: string, f: Faults)
      : (State, Response)
    {
      if digest != "" then MonolithicUpload(env, at, digest, body, mediaType, layerId, f)
      else if f.idFails then (this, Status(500))
      else
        var s1 := this.(dfs := dfs.CreateMultipartUpload(uploadId, GetLayerIdentifier(layerId), at));
        var (st, txn) := store.NewTxn(f.sql.newTxnFails);
        if txn.None? then (s1, Status(500))
        else (s1.(store := st, txnMap := txnMap[uploadId := txn.value]),
              Response(202, "0-0", UploadPath(CreateUploadTrackingIdentifier(uploadId, layerId)), ""))
    }

    /** The attempt is counted first; the part and the length only if the backend takes it. */
    function StorePart(u: string, layerKey: string, content: Bytes, checksum: string, at: nat): (State, bool) {
      var counted := this.(blobCounter := blobCounter[u := NextPart(u)]);
      match dfs.UploadPart(u, layerKey, NextPart(u), content, at)
      case None => (counted, false)
      case Some(d1) =>
        (counted.(dfs := d1,
                  layerParts := layerParts[u := Parts(u) + [CompletedPart(checksum, NextPart(u))]],
                  layerLengthCounter := layerLengthCounter[u := Length(u) + |content|]), true)
    }

    /** The first-chunk path sets the length counter instead of adding to it. */
    function UploadBlob(env: Env, at: nat, identifier: string, contentRange: string, body: Option<Bytes>)
      : (State, Response)
    {
      if !IsTrackingId(identifier) then (this, Status(500))
      else
        var u := GetUploadId(identifier);
        var layerKey := GetLayerIdentifier(GetLayerIdentifierFromTrackingId(identifier));
        if !RangeFits(contentRange, Length(u), Parts(u) != []) then (this, Status(416))
        else if body.None? then (this, Status(400))
        else
          var (s1, ok) := StorePart(u, layerKey, body.value, env.digest(body.value), at);
          if !ok then (s1, Status(400))
          else
            var length := if IsFirstChunk(contentRange) then |body.value| else Length(u) + |body.value|;
            (s1.(layerLengthCounter := layerLengthCounter[u := length]),
             Response(202, RangeReply(length), UploadPath(identifier), ""))
    }

    function UploadProgress(identifier: string): Response {
      if !IsTrackingId(identifier) then Status(500)
      else Response(204, RangeReply(dfs.Progress(GetUploadId(identifier))), UploadPath(identifier), "")
    }

    function MonolithicPut(env: Env, at: nat, identifier: string, digest: string, mediaType: string,
                           body: Option<Bytes>, f: Faults)
      : (State, Response)
    {
      if !IsTrackingId(identifier) || body.None? then (this, Status(if IsTrackingId(identifier) then 400 else 500))
      else
        var u := GetUploadId(identifier);
        var (d1, link) := dfs.Upload(env, body.value, f.node);
        var s1 := this.(dfs := d1);
        if link.None? || u !in txnMap then (s1, Status(400))
        else
          var row := LayerRow(GetLayerIdentifierFromTrackingId(identifier), digest, mediaType, link.value,
                              |body.value|, at, 0);
          var (st, ok) := RecordLayer(store, txnMap[u], row, at, f.sql);
          (s1.(store := st),
           if ok then Response(201, "", Download(link.value), env.digest(body.value)) else Status(400))
    }

    /** The chunked finish, once the last part (if any) has been taken. */
    function Complete(env: Env, at: nat, u: string, layerId: string, digest: string, mediaType: string,
                      lastChunk: Bytes, f: Faults)
      : (State, Response)
    {
      var (d1, link) := dfs.CompleteMultipartUpload(env, u, GetLayerIdentifier(layerId), f.node);
      var s1 := this.(dfs := d1, layerParts := layerParts - {u});
      if link.None? then (s1.(dfs := d1.Abort(u)), Status(416))
      else if u !in txnMap then (s1, Status(400))
      else
        var row := LayerRow(layerId, digest, mediaType, link.value, Length(u), at, 0);
        var (st, ok) := RecordLayer(store, txnMap[u], row, at, f.sql);
        var checksum := env.digest(lastChunk);
        (s1.(store := st), if ok then Response(201, "", BlobPath(checksum), checksum) else Status(400))
    }

    function CompleteUpload(env: Env, at: nat, identifier: string, digest: string, mediaType: string,
                            body: Option<Bytes>, f: Faults)
      : (State, Response)
    {
      if !IsTrackingId(identifier) then (this, Status(500))
      else
        var u := GetUploadId(identifier);
        var layerId := GetLayerIdentifierFromTrackingId(identifier);
        if Counter(u) == 0 then MonolithicPut(env, at, identifier, digest, mediaType, body, f)
        else if body.None? then (this, Status(400))
        else
          var (s1, ok) := if |body.value| > 0
                          then StorePart(u, GetLayerIdentifier(layerId), body.value, env.digest(body.value), at)
                          else (this, true);
          if !ok then (s1, Status(400))
          else s1.Complete(env, at, u, layerId, digest, mediaType, body.value, f)
    }

    function PullLayer(digest: string, statFails: bool): Response {
      if digest !in store.layers || store.layers[digest].dfsLink == "" || statFails then Status(404)
      else Response(307, "", Download(store.layers[digest].dfsLink), store.layers[digest].digest)
    }

    /** The commit's error is only logged: the reply is 202 either way. */
    function DeleteLayer(digest: string, f: SqlFaults): (State, Response) {
      var (st, txn) := store.NewTxn(f.newTxnFails);
      if txn.None? then (this, Status(500))
      else
        var (st', ok) := st.Exec(txn.value, Remove(digest), f.write);
        if ok then (this.(store := st'.Commit(txn.value, f.commitFails).0), Status(202))
        else (this.(store := st'), Status(500))
    }
  }

  function Init(): State {
    State(Backend(map[], map[], map[]), Store(map[], []), map[], map[], map[], map[])
  }

  /** The new state, and the reply given a working download URL. */
  function Step(env: Env, s: State, e: Event): (State, Response) {
    match e
    case Post(at, digest, body, mediaType, uploadId, layerId, f) =>
      s.StartUpload(env, at, digest, body, mediaType, uploadId, layerId, f)
    case Patch(at, identifier, contentRange, body) => s.UploadBlob(env, at, identifier, contentRange, body)
    case Get(_, identifier) => (s, s.UploadProgress(identifier))
    case Put(at, identifier, digest, mediaType, body, f) =>
      s.CompleteUpload(env, at, identifier, digest, mediaType, body, f)
    case PutMonolithic(at, identifier, digest, mediaType, body, f) =>
      s.MonolithicPut(env, at, identifier, digest, mediaType, body, f)
    case Pull(_, digest, statFails, _) => (s, s.PullLayer(digest, statFails))
    case Delete(_, digest, f) => s.DeleteLayer(digest, f.sql)
    case Tick(at) => (s.(dfs := s.dfs.Collect(at)), Status(0))
  }

  predicate UrlFails(e: Event) {
    match e
    case Post(_, _, _, _, _, _, f) => f.urlFails
    case Put(_, _, _, _, _, f) => f.urlFails
    case PutMonolithic(_, _, _, _, _, f) => f.urlFails
    case Pull(_, _, _, urlFails) => urlFails
    case _ => false
  }

  /** The reply the client gets. */
  function Answer(env: Env, s: State, e: Event): Response {
    WithUrl(UrlFails(e), Step(env, s, e).1)
  }

  // ---------- whole runs ----------

  /** A run of the server: the events it has handled, the latest one outermost. */
  datatype Run = Boot | Then(before: Run, event: Event)

  function Exec(env: Env, r: Run): State {
    match r
    case Boot => Init()
    case Then(p, e) => Step(env, Exec(env, p), e).0
  }

  /** The reply to the latest event. */
  function Reply(env: Env, r: Run): Response
    requires r.Then?
  {
    Answer(env, Exec(env, r.before), r.event)
  }

  /** The latest event, a finishing request, committed its layer, whatever its client was
      then told. */
  predicate Recorded(env: Env, r: Run)
    requires r.Then?
  {
    Step(env, Exec(env, r.before), r.event).1.status == 201
  }

  // ---------- the program ----------

  class Registry {
    const env: Env
    const dfs: IpfsP2p
    const store: RegistryStore
    var blobCounter: map<string, int>
    var layerLengthCounter: map<string, int>
    var layerParts: map<string, seq<CompletedPart>>
    var txnMap: map<string, nat>

    ghost predicate Valid() {
      dfs.env == env
    }

    ghost function Abs(): State
      reads this, dfs, store
    {
      State(dfs.State(), store.State(), blobCounter, layerLengthCounter, layerParts, txnMap)
    }

    constructor (env: Env)
      ensures Valid() && this.env == env && fresh(dfs) && fresh(store)
      ensures Abs() == Init()
    {
      this.env := env;
      dfs := new IpfsP2p(env);
      store := new RegistryStore();
      blobCounter, layerLengthCounter, layerParts, txnMap := map[], map[], map[], map[];
    }

    method MonolithicUpload(at: nat, digest: string, body: Option<Bytes>, mediaType: string, layerId: string,
                            f: Faults)
      returns (resp: Response)
      requires Valid()
      modifies this, dfs, store
      ensures var (after, reply) := old(Abs()).MonolithicUpload(env, at, digest, body, mediaType, layerId, f);
        Abs() == after && resp == WithUrl(f.urlFails, reply)
    {
      if body.None? {
        return Status(404);
      }
      var computedDigest := env.digest(body.value);
      if computedDigest != digest {
        return Status(400);
      }
      if f.idFails {
        return Status(416);
      }
      var link := dfs.Upload(body.value, f.node);
      if link.None? {
        return Status(416);
      }
      var txn := store.NewTxn(f.sql.newTxnFails);
      if txn.None? {
        return Status(500);
      }
      var layer := LayerRow(layerId, digest, mediaType, link.value, |body.value|, at, at);
      var ok := store.SetLayer(txn.value, layer, at, f.sql.write);
      if !ok {
        return Status(400);
      }
      ok := store.Commit(txn.value, f.sql.commitFails);
      if !ok {
        return Status(400);
      }
      if f.urlFails {
        return Status(500);
      }
      resp := Response(201, "", Download(link.value), "");
    }

    method StartUpload(at: nat, digest: string, body: Option<Bytes>, mediaType: string,
                       uploadId: string, layerId: string, f: Faults)
      returns (resp: Response)
      requires Valid()
      modifies this, dfs, store
      ensures Abs() == Step(env, old(Abs()), Post(at, digest, body, mediaType, uploadId, layerId, f)).0
      ensures resp == Answer(env, old(Abs()), Post(at, digest, body, mediaType, uploadId, layerId, f))
    {
      if digest != "" {
        resp := MonolithicUpload(at, digest, body, mediaType, layerId, f);
        return;
      }
      if f.idFails {
        return Status(500);
      }
      dfs.CreateMultipartUpload(uploadId, GetLayerIdentifier(layerId), at);
      var txn := store.NewTxn(f.sql.newTxnFails);
      if txn.None? {
        return Status(500);
      }
      txnMap := txnMap[uploadId := txn.value];
      resp := Response(202, "0-0", UploadPath(CreateUploadTrackingIdentifier(uploadId, layerId)), "");
    }

    method UploadBlob(at: nat, identifier: string, contentRange: string, body: Option<Bytes>)
      returns (resp: Response)
      requires Valid()
      modifies this, dfs
      ensures Abs() == Step(env, old(Abs()), Patch(at, identifier, contentRange, body)).0
      ensures resp == Answer(env, old(Abs()), Patch(at, identifier, contentRange, body))
    {
      if !IsTrackingId(identifier) {
        return Status(500);
      }
      if contentRange == "" || HasPrefix(contentRange, "0-") {
        resp := FirstChunk(at, identifier, contentRange, body);
      } else {
        resp := NextChunk(at, identifier, contentRange, body);
      }
    }

    method FirstChunk(at: nat, identifier: string, contentRange: string, body: Option<Bytes>)
      returns (resp: Response)
      requires Valid() && IsTrackingId(identifier) && IsFirstChunk(contentRange)
      modifies this, dfs
      ensures (Abs(), resp) == old(Abs()).UploadBlob(env, at, identifier, contentRange, body)
    {
      var layerKey := GetLayerIdentifierFromTrackingId(identifier);
      var uploadId := GetUploadId(identifier);
      if |Lookup(layerParts, uploadId, [])| > 0 {
        return Status(416);
      }
      if body.None? {
        return Status(400);
      }
      var content := body.value;
      blobCounter := blobCounter[uploadId := Int32(Lookup(blobCounter, uploadId, 0) + 1)];
      var part := dfs.UploadPart(uploadId, GetLayerIdentifier(layerKey), env.digest(content),
                                 blobCounter[uploadId], content, at);
      if part.None? {
        return Status(400);
      }
      layerParts := layerParts[uploadId := Lookup(layerParts, uploadId, []) + [part.value]];
      layerLengthCounter := layerLengthCounter[uploadId := |content|];
      resp := Response(202, RangeReply(layerLengthCounter[uploadId]), UploadPath(identifier), "");
    }

    method NextChunk(at: nat, identifier: string, contentRange: string, body: Option<Bytes>)
      returns (resp: Response)
      requires Valid() && IsTrackingId(identifier) && !IsFirstChunk(contentRange)
      modifies this, dfs
      ensures (Abs(), resp) == old(Abs()).UploadBlob(env, at, identifier, contentRange, body)
    {
      var layerKey := GetLayerIdentifierFromTrackingId(identifier);
      var uploadId := GetUploadId(identifier);
      var scanned := ScanRange(contentRange);
      if scanned.None? {
        return Status(416);
      }
      var (start, _) := scanned.value;
      if start != Lookup(layerLengthCounter, uploadId, 0) {
        return Status(416);
      }
      if body.None? {
        return Status(400);
      }
      var ok := TakeChunk(at, uploadId, GetLayerIdentifier(layerKey), body.value);
      if !ok {
        return Status(400);
      }
      resp := Response(202, RangeReply(layerLengthCounter[uploadId]), UploadPath(identifier), "");
    }

    /** Counts the attempt, hands the chunk to the backend, and records the part. */
    method TakeChunk(at: nat, uploadId: string, layerKey: string, content: Bytes) returns (ok: bool)
      requires Valid()
      modifies this, dfs
      ensures (Abs(), ok) == old(Abs()).StorePart(uploadId, layerKey, content, env.digest(content), at)
    {
      blobCounter := blobCounter[uploadId := Int32(Lookup(blobCounter, uploadId, 0) + 1)];
      var part := dfs.UploadPart(uploadId, layerKey, env.digest(content), blobCounter[uploadId], content, at);
      if part.None? {
        return false;
      }
      layerParts := layerParts[uploadId := Lookup(layerParts, uploadId, []) + [part.value]];
      layerLengthCounter := layerLengthCounter[uploadId := Lookup(layerLengthCounter, uploadId, 0) + |content|];
      ok := true;
    }

    method UploadProgress(identifier: string) returns (resp: Response)
      ensures resp == Abs().UploadProgress(identifier)
    {
      if !IsTrackingId(identifier) {
        return Status(500);
      }
      var size := dfs.GetUploadProgress(GetUploadId(identifier));
      resp := Response(204, RangeReply(size), UploadPath(identifier), "");
    }

    method MonolithicPut(at: nat, identifier: string, digest: string, mediaType: string, body: Option<Bytes>,
                         f: Faults)
      returns (resp: Response)
      requires Valid()
      modifies this, dfs, store
      ensures Abs() == Step(env, old(Abs()), PutMonolithic(at, identifier, digest, mediaType, body, f)).0
      ensures resp == Answer(env, old(Abs()), PutMonolithic(at, identifier, digest, mediaType, body, f))
    {
      if !IsTrackingId(identifier) {
        return Status(500);
      }
      var layerKey := GetLayerIdentifierFromTrackingId(identifier);
      var uploadId := GetUploadId(identifier);
      if body.None? {
        return Status(400);
      }
      var ourHash := env.digest(body.value);
      var link := dfs.Upload(body.value, f.node);
      if link.None? || uploadId !in txnMap {
        return Status(400);
      }
      var txn := txnMap[uploadId];
      var layer := LayerRow(layerKey, digest, mediaType, link.value, |body.value|, at, 0);
      var ok := store.SetLayer(txn, layer, at, f.sql.write);
      if !ok {
        return Status(400);
      }
      ok := store.Commit(txn, f.sql.commitFails);
      if !ok {
        return Status(400);
      }
      if f.urlFails {
        return Status(500);
      }
      resp := Response(201, "", Download(link.value), ourHash);
    }

    /** The second half of CompleteUpload: assemble, record, commit. */
    method FinishChunked(at: nat, uploadId: string, layerKey: string, digest: string, mediaType: string,
                         lastChunk: Bytes, f: Faults)
      returns (resp: Response)
      requires Valid()
      modifies this, dfs, store
      ensures (Abs(), resp) ==
        old(Abs()).Complete(env, at, uploadId, layerKey, digest, mediaType, lastChunk, f)
    {
      var checksum := env.digest(lastChunk);
      var link := dfs.CompleteMultipartUpload(uploadId, GetLayerIdentifier(layerKey),
                                              Lookup(layerParts, uploadId, []), f.node);
      layerParts := layerParts - {uploadId};
      if link.None? {
        dfs.AbortMultipartUpload(uploadId);
        return Status(416);
      }
      if uploadId !in txnMap {
        return Status(400);
      }
      var txn := txnMap[uploadId];
      var layer := LayerRow(layerKey, digest, mediaType, link.value, Lookup(layerLengthCounter, uploadId, 0), at, 0);
      var ok := store.SetLayer(txn, layer, at, f.sql.write);
      if !ok {
        return Status(400);
      }
      ok := store.Commit(txn, f.sql.commitFails);
      if !ok {
        return Status(400);
      }
      resp := Response(201, "", BlobPath(checksum), checksum);
    }

    method CompleteUpload(at: nat, identifier: string, digest: string, mediaType: string, body: Option<Bytes>,
                          f: Faults)
      returns (resp: Response)
      requires Valid()
      modifies this, dfs, store
      ensures Abs() == Step(env, old(Abs()), Put(at, identifier, digest, mediaType, body, f)).0
      ensures resp == Answer(env, old(Abs()), Put(at, identifier, digest, mediaType, body, f))
    {
      if !IsTrackingId(identifier) {
        return Status(500);
      }
      var layerKey := GetLayerIdentifierFromTrackingId(identifier);
      var uploadId := GetUploadId(identifier);
      if Lookup(blobCounter, uploadId, 0) == 0 {
        resp := MonolithicPut(at, identifier, digest, mediaType, body, f);
        return;
      }
      if body.None? {
        return Status(400);
      }
      var content := body.value;
      if |content| > 0 {
        var ok := TakeChunk(at, uploadId, GetLayerIdentifier(layerKey), content);
        if !ok {
          return Status(400);
        }
      }
      resp := FinishChunked(at, uploadId, layerKey, digest, mediaType, content, f);
    }

    method PullLayer(at: nat, digest: string, statFails: bool, urlFails: bool) returns (resp: Response)
      ensures resp == Answer(env, Abs(), Pull(at, digest, statFails, urlFails))
    {
      var layer := store.GetLayer(digest);
      if layer.None? || layer.value.dfsLink == "" || statFails {
        return Status(404);
      }
      if urlFails {
        return Response(500, "", Nowhere, layer.value.digest);
      }
      resp := Response(307, "", Download(layer.value.dfsLink), layer.value.digest);
    }

    method DeleteLayer(digest: string, f: SqlFaults) returns (resp: Response)
      modifies store
      ensures (Abs(), resp) == old(Abs()).DeleteLayer(digest, f)
    {
      var txn := store.NewTxn(f.newTxnFails);
      if txn.None? {
        return Status(500);
      }
      var ok := store.DeleteLayerByDigestWithTxn(txn.value, digest, f.write);
      if !ok {
        return Status(500);
      }
      var _ := store.Commit(txn.value, f.commitFails);
      resp := Status(202);
    }

    method Tick(at: nat)
      modifies dfs
      ensures Abs() == Step(env, old(Abs()), Event.Tick(at)).0
    {
      dfs.Gc(at);
    }
  }
}
