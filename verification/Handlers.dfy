/** What each request does and answers, on its inputs and the fields it reads: when it is
    refused and with which status, what a success says and changes, what stays. Everything
    here is stated on the wire values and the raw state, not through the handlers' helpers. */
module Handlers {
  import opened Prelude
  import opened Text
  import opened Identifiers
  import opened P2P
  import opened LayerStore
  import opened Registry
  import opened UploadView
  import opened UploadSafety
  import opened PushPull
  import opened Commits

  // ---------- POST without a digest ----------

  /** A new upload: a session of five minutes under the drawn id, its key the layer id with
      the prefix "layers/", and a transaction of its own; the ids go back joined by a colon. */
  lemma StartOpens(env: Env, s: State, e: Event)
    requires e.Post? && e.digest == ""
    ensures var s', resp := Step(env, s, e).0, Answer(env, s, e);
      && resp.status == (if e.faults.idFails || e.faults.sql.newTxnFails then 500 else 202)
      && s'.dfs == (if e.faults.idFails then s.dfs
                    else s.dfs.(sessions := s.dfs.sessions[
                           e.uploadId := Session("layers/" + e.layerId, e.at + 300_000_000_000)]))
      && (resp.status == 500 ==> s'.store == s.store && s'.txnMap == s.txnMap)
      && (resp.status == 202 ==>
            && s'.store == Store(s.store.layers, s.store.txns + [LayerStore.Open([])])
            && s'.txnMap == s.txnMap[e.uploadId := |s.store.txns|]
            && resp.location == UploadPath(e.uploadId + ":" + e.layerId) && resp.range == "0-0")
      && s'.blobCounter == s.blobCounter && s'.layerLengthCounter == s.layerLengthCounter
      && s'.layerParts == s.layerParts
  {
  }

  // ---------- PATCH ----------

  predicate BeginsUpload(e: Event)
    requires e.Patch?
  {
    e.contentRange == "" || HasPrefix(e.contentRange, "0-")
  }

  /** A chunk for the start of an upload is in its place while no part is recorded; any other
      when its range parses and starts at the recorded length. */
  predicate InPlace(e: Event, length: int, hasParts: bool)
    requires e.Patch?
  {
    if BeginsUpload(e) then !hasParts
    else ScanRange(e.contentRange).Some? && ScanRange(e.contentRange).value.0 == length
  }

  /** A chunk out of place is refused with 416 and changes nothing. */
  lemma MisplacedChunkIsRefused(env: Env, s: State, e: Event)
    requires e.Patch? && IsTrackingId(e.identifier)
    requires var u := GetUploadId(e.identifier); !InPlace(e, s.Length(u), s.Parts(u) != [])
    ensures Answer(env, s, e) == Response(416, "", Nowhere, "") && Step(env, s, e).0 == s
  {
  }

  /** A chunk in its place: exactly when it is taken, and what a refusal leaves. */
  lemma PlacedChunk(env: Env, s: State, e: Event)
    requires e.Patch? && IsTrackingId(e.identifier)
    requires var u := GetUploadId(e.identifier); InPlace(e, s.Length(u), s.Parts(u) != [])
    ensures var u := GetUploadId(e.identifier);
      var s', resp := Step(env, s, e).0, Answer(env, s, e);
      && resp.status == (if
             && e.body.Some?
             && u in s.dfs.sessions && s.dfs.sessions[u].id == LayerKey(e.identifier)
             && Int32(s.Counter(u) + 1) <= 1000
           then 202 else 400)
      && s'.Counter(u) == (if e.body.Some? then Int32(s.Counter(u) + 1) else s.Counter(u))
      && (resp.status == 400 ==> View(s', u) == View(s, u).(counter := s'.Counter(u)))
  {
    PatchIsLocal(env, s, e, GetUploadId(e.identifier));
    PatchReply(env, s, e);
  }

  /** A chunk that is taken: it is appended to the buffer, its part is recorded under the next
      number, and the reply tells the new last byte. */
  lemma TakenChunk(env: Env, s: State, e: Event)
    requires e.Patch? && Answer(env, s, e).status == 202
    ensures IsTrackingId(e.identifier) && e.body.Some?
    ensures var u := GetUploadId(e.identifier);
      var s', resp := Step(env, s, e).0, Answer(env, s, e);
      && u in s'.dfs.buffers && s'.dfs.buffers[u].buf == View(s, u).Bytes() + e.body.value
      && s'.Length(u) == |e.body.value| + (if BeginsUpload(e) then 0 else s.Length(u))
      && s'.Parts(u) == s.Parts(u) + [CompletedPart(env.digest(e.body.value), s'.Counter(u))]
      && resp == Response(202, "0-" + Itoa(s'.Length(u) - 1), UploadPath(e.identifier), "")
  {
    assert [] + e.body.value == e.body.value;
  }

  /** The same for a live upload in a reachable state: a chunk that is there, under the right
      key and within 1000 attempts is taken exactly when it begins the upload and nothing has
      been taken yet, or starts at the first byte not yet accepted. */
  lemma {:induction false} ChunkIsTakenIff(env: Env, r: Run, u: string, e: Event)
    requires Plausible(r) && u in Exec(env, r).dfs.sessions
    requires e.Patch? && Names(e.identifier, u) && e.body.Some?
    requires Exec(env, r).dfs.sessions[u].id == LayerKey(e.identifier) && Int32(Exec(env, r).Counter(u) + 1) <= 1000
    ensures var inPlace := InPlace(e, |Accepted(env, r, u)|, u in Exec(env, r).dfs.buffers);
      && Reply(env, Then(r, e)).status == (if inPlace then 202 else 416)
      && (!inPlace ==> Exec(env, Then(r, e)) == Exec(env, r))
  {
    CoherentAlways(env, r, u);
    var s := Exec(env, r);
    assert View(s, u).session.Some? && View(s, u).parts == s.Parts(u) && View(s, u).length == s.Length(u);
    if InPlace(e, s.Length(u), s.Parts(u) != []) {
      PlacedChunk(env, s, e);
    } else {
      MisplacedChunkIsRefused(env, s, e);
    }
  }

  // ---------- GET on an upload, and any request with a bad id ----------

  lemma PollReports(env: Env, s: State, e: Event)
    requires e.Get? && IsTrackingId(e.identifier)
    ensures Answer(env, s, e) ==
      Response(204, "0-" + Itoa(|View(s, GetUploadId(e.identifier)).Bytes()| - 1), UploadPath(e.identifier), "")
  {
  }

  /** An id without a colon: 500, and nothing changes. */
  lemma BadIdIsRefused(env: Env, s: State, e: Event)
    requires e.Patch? || e.Get? || e.Put? || e.PutMonolithic?
    requires !IsTrackingId(e.identifier)
    ensures Answer(env, s, e) == Response(500, "", Nowhere, "") && Step(env, s, e).0 == s
  {
  }

  // ---------- the finishing requests ----------

  /** The row a request would write meets the keys of the table. */
  ghost predicate KeysAllow(layers: Table, digest: string, id: string) {
    digest in layers || forall d :: d in layers ==> layers[d].id != id
  }

  /** The status of the single POST, by the first thing that goes wrong. */
  lemma SinglePostStatus(env: Env, s: State, e: Event)
    requires NothingPending(s.store) && e.Post? && e.digest != ""
    ensures Answer(env, s, e).status ==
      if e.body.None? then 404
      else if env.digest(e.body.value) != e.digest then 400
      else if e.faults.idFails || e.faults.node.addFails || (env.pinning && e.faults.node.pinFails) then 416
      else if e.faults.sql.newTxnFails then 500
      else if !e.faults.sql.write.Works? || e.faults.sql.commitFails
              || !KeysAllow(s.store.layers, e.digest, e.layerId) then 400
      else if e.faults.urlFails then 500
      else 201
  {
  }

  /** ... of the one-body PUT ... */
  lemma OneBodyPutStatus(env: Env, s: State, e: Event)
    requires NothingPending(s.store) && FinishesAtOnce(s, e) && IsTrackingId(e.identifier)
    ensures var u := GetUploadId(e.identifier);
      Answer(env, s, e).status ==
      if || e.body.None? || e.faults.node.addFails || (env.pinning && e.faults.node.pinFails)
         || u !in s.txnMap || !s.store.IsOpen(s.txnMap[u])
         || !e.faults.sql.write.Works? || e.faults.sql.commitFails
         || !KeysAllow(s.store.layers, e.digest, GetLayerIdentifierFromTrackingId(e.identifier)) then 400
      else if e.faults.urlFails then 500
      else 201
  {
    MonolithicPutAccepts(env, s, e);
  }

  /** ... and of the chunked one: 400 for the last chunk, 416 for the backend, 400 for the
      database. */
  lemma ChunkedPutStatus(env: Env, s: State, e: Event)
    requires NothingPending(s.store) && e.Put? && IsTrackingId(e.identifier)
    requires s.Counter(GetUploadId(e.identifier)) != 0
    ensures var u := GetUploadId(e.identifier);
      var keyed := u in s.dfs.sessions && s.dfs.sessions[u].id == LayerKey(e.identifier);
      Answer(env, s, e).status ==
      if e.body.None? then 400
      else if e.body.value != [] && !(keyed && Int32(s.Counter(u) + 1) <= 1000) then 400
      else if !keyed || (e.body.value == [] && u !in s.dfs.buffers)
              || e.faults.node.addFails || (env.pinning && e.faults.node.pinFails) then 416
      else if || u !in s.txnMap || !s.store.IsOpen(s.txnMap[u])
              || !e.faults.sql.write.Works? || e.faults.sql.commitFails
              || !KeysAllow(s.store.layers, e.digest, GetLayerIdentifierFromTrackingId(e.identifier)) then 400
      else 201
  {
    ChunkedPutAccepts(env, s, e);
  }

  /** The replies of the finishes that take their whole body: the Location leads to the object
      just stored, which is the body; the one-body PUT also names the body's own digest. */
  lemma WholeBodyReply(env: Env, s: State, e: Event)
    requires (e.Post? && e.digest != "") || FinishesAtOnce(s, e)
    requires Answer(env, s, e).status == 201
    ensures e.body.Some?
    ensures var s', resp := Step(env, s, e).0, Answer(env, s, e);
      && resp.location == Download(env.cid(e.body.value)) && resp.range == ""
      && env.cid(e.body.value) in s'.dfs.objects && s'.dfs.objects[env.cid(e.body.value)] == e.body.value
      && resp.contentDigest == if e.Post? then "" else env.digest(e.body.value)
  {
  }

  /** The reply of the chunked finish names the digest of its last chunk, twice. */
  lemma ChunkedReply(env: Env, s: State, e: Event)
    requires e.Put? && IsTrackingId(e.identifier) && s.Counter(GetUploadId(e.identifier)) != 0
    requires Answer(env, s, e).status == 201
    ensures e.body.Some?
    ensures Answer(env, s, e) == Response(201, "", BlobPath(env.digest(e.body.value)), env.digest(e.body.value))
  {
  }

  /** What the finishes leave on the node: the whole content, as soon as the request is in order
      and the node can add it, whether or not the rest then works. Nothing is ever lost. */
  lemma WholeBodyAddsObject(env: Env, s: State, e: Event)
    requires (e.Post? && e.digest != "") || (FinishesAtOnce(s, e) && IsTrackingId(e.identifier))
    ensures var asked := e.body.Some? && (e.Post? ==> env.digest(e.body.value) == e.digest && !e.faults.idFails);
      Step(env, s, e).0.dfs.objects ==
        if asked && !e.faults.node.addFails then s.dfs.objects[env.cid(e.body.value) := e.body.value]
        else s.dfs.objects
  {
  }

  lemma CompleteAddsObject(env: Env, s: State, e: Event, u: string, layerId: string)
    requires e.Put? && e.body.Some?
    ensures s.Complete(env, e.at, u, layerId, e.digest, e.mediaType, e.body.value, e.faults).0.dfs.objects ==
      if && u in s.dfs.sessions && s.dfs.sessions[u].id == GetLayerIdentifier(layerId)
         && u in s.dfs.buffers && !e.faults.node.addFails
      then s.dfs.objects[env.cid(s.dfs.buffers[u].buf) := s.dfs.buffers[u].buf]
      else s.dfs.objects
  {
  }

  lemma ChunkedPutAddsObject(env: Env, s: State, e: Event)
    requires e.Put? && IsTrackingId(e.identifier) && s.Counter(GetUploadId(e.identifier)) != 0
    ensures var u := GetUploadId(e.identifier);
      var asked :=
        && e.body.Some? && u in s.dfs.sessions && s.dfs.sessions[u].id == LayerKey(e.identifier)
        && if e.body.value == [] then u in s.dfs.buffers else Int32(s.Counter(u) + 1) <= 1000;
      var content := View(s, u).Bytes() + Content(e.body);
      Step(env, s, e).0.dfs.objects ==
        if asked && !e.faults.node.addFails then s.dfs.objects[env.cid(content) := content] else s.dfs.objects
  {
    if e.body.Some? {
      var u, content := GetUploadId(e.identifier), e.body.value;
      var s1 := if |content| > 0
                then s.StorePart(u, LayerKey(e.identifier), content, env.digest(content), e.at).0 else s;
      CompleteAddsObject(env, s1, e, u, GetLayerIdentifierFromTrackingId(e.identifier));
      assert View(s, u).Bytes() + [] == View(s, u).Bytes();
      assert [] + content == content;
    }
  }

  /** What becomes of a transaction in which a row is recorded: it commits; a failed commit rolls
      it back; a refused statement or a broken key aborts it; a statement that never reached
      the server leaves it as it was. */
  function AfterRecording(layers: Table, digest: string, id: string, f: SqlFaults): LayerStore.Txn {
    if f.write.Unsent? then LayerStore.Open([])
    else if f.write.Refused? || (digest !in layers && exists d :: d in layers && layers[d].id == id) then Aborted
    else if f.commitFails then LayerStore.RolledBack
    else LayerStore.Committed
  }

  lemma RecordingEndsTxn(store: Store, t: nat, row: LayerRow, at: nat, f: SqlFaults)
    requires store.IsOpen(t) && store.txns[t] == LayerStore.Open([])
    ensures RecordLayer(store, t, row, at, f).0.txns ==
      store.txns[t := AfterRecording(store.layers, row.digest, row.id, f)]
  {
    assert store.View(t) == store.layers;
  }

  /** The one-body PUT, once its object is stored, does that to the upload's transaction ... */
  lemma OneBodyPutTxn(env: Env, s: State, e: Event)
    requires NothingPending(s.store) && FinishesAtOnce(s, e) && IsTrackingId(e.identifier)
    requires var u := GetUploadId(e.identifier); u in s.txnMap && s.store.IsOpen(s.txnMap[u])
    requires e.body.Some? && NodeWorks(env, e.faults.node)
    ensures var id := GetLayerIdentifierFromTrackingId(e.identifier);
      Step(env, s, e).0.store.txns ==
        s.store.txns[s.txnMap[GetUploadId(e.identifier)] :=
          AfterRecording(s.store.layers, e.digest, id, e.faults.sql)]
  {
    RecordingEndsTxn(s.store, s.txnMap[GetUploadId(e.identifier)], RowFor(env, e, e.body.value), e.at, e.faults.sql);
  }

  lemma CompleteTxn(env: Env, s: State, e: Event, u: string, layerId: string)
    requires NothingPending(s.store) && e.Put? && e.body.Some? && NodeWorks(env, e.faults.node)
    requires u in s.dfs.sessions && s.dfs.sessions[u].id == GetLayerIdentifier(layerId) && u in s.dfs.buffers
    requires u in s.txnMap && s.store.IsOpen(s.txnMap[u])
    ensures s.Complete(env, e.at, u, layerId, e.digest, e.mediaType, e.body.value, e.faults).0.store.txns ==
      s.store.txns[s.txnMap[u] := AfterRecording(s.store.layers, e.digest, layerId, e.faults.sql)]
  {
    var link := env.cid(s.dfs.buffers[u].buf);
    RecordingEndsTxn(s.store, s.txnMap[u],
      LayerRow(layerId, e.digest, e.mediaType, link, s.Length(u), e.at, 0), e.at, e.faults.sql);
  }

  /** ... and so does the chunked one. */
  lemma ChunkedPutTxn(env: Env, s: State, e: Event)
    requires NothingPending(s.store) && e.Put? && IsTrackingId(e.identifier)
    requires s.Counter(GetUploadId(e.identifier)) != 0
    requires var u := GetUploadId(e.identifier);
      && u in s.txnMap && s.store.IsOpen(s.txnMap[u])
      && e.body.Some? && NodeWorks(env, e.faults.node)
      && u in s.dfs.sessions && s.dfs.sessions[u].id == LayerKey(e.identifier)
      && if e.body.value == [] then u in s.dfs.buffers else Int32(s.Counter(u) + 1) <= 1000
    ensures var id := GetLayerIdentifierFromTrackingId(e.identifier);
      Step(env, s, e).0.store.txns ==
        s.store.txns[s.txnMap[GetUploadId(e.identifier)] :=
          AfterRecording(s.store.layers, e.digest, id, e.faults.sql)]
  {
    var u, content := GetUploadId(e.identifier), e.body.value;
    var s1 := if |content| > 0
              then s.StorePart(u, LayerKey(e.identifier), content, env.digest(content), e.at).0 else s;
    CompleteTxn(env, s1, e, u, GetLayerIdentifierFromTrackingId(e.identifier));
  }

  /** Failure replies carry a status and nothing else; a pull that fails for want of a URL also
      has its digest header. */
  lemma FailureRepliesAreBare(env: Env, s: State, e: Event)
    requires Answer(env, s, e).status >= 400
    ensures Answer(env, s, e) ==
      Response(Answer(env, s, e).status, "", Nowhere,
               if e.Pull? && Answer(env, s, e).status == 500 then s.store.layers[e.digest].digest else "")
  {
    if (e.Put? || e.PutMonolithic?) && !IsTrackingId(e.identifier) {
      BadIdIsRefused(env, s, e);
    } else if e.PutMonolithic? || (e.Put? && s.Counter(GetUploadId(e.identifier)) == 0) {
      OneBodyFailuresAreBare(env, s, e);
    }
  }

  lemma OneBodyFailuresAreBare(env: Env, s: State, e: Event)
    requires FinishesAtOnce(s, e) && Answer(env, s, e).status >= 400
    ensures Answer(env, s, e) == Response(Answer(env, s, e).status, "", Nowhere, "")
  {
  }

  /** What a finish records: for a new digest a row of the layer id, digest and media type the
      client names, the link of the pushed bytes, their number, and the time; for a known one
      the time of the update only. All other rows stay. */
  lemma {:induction false} RecordedRow(env: Env, p: Run, e: Event)
    requires SoundCids(env) && Plausible(Then(p, e))
    requires Finishes(e) && CounterFits(p, e) && Recorded(env, Then(p, e))
    ensures e.Post? || IsTrackingId(e.identifier)
    ensures var rows, rows' := Exec(env, p).store.layers, Exec(env, Then(p, e)).store.layers;
      var id := if e.Post? then e.layerId else GetLayerIdentifierFromTrackingId(e.identifier);
      var bytes := Pushed(env, p, e);
      && rows'.Keys == rows.Keys + {e.digest}
      && (forall d :: d in rows && d != e.digest ==> rows'[d] == rows[d])
      && rows'[e.digest] ==
           if e.digest in rows then rows[e.digest].(updatedAt := e.at)
           else LayerRow(id, e.digest, e.mediaType, env.cid(bytes), |bytes|, e.at, if e.Post? then e.at else 0)
  {
    IntegrityAlways(env, p);
    StepOutcome(env, p, e);
    if e.Put? && IsTrackingId(e.identifier) && Exec(env, p).Counter(GetUploadId(e.identifier)) != 0 {
      ChunkedFinishHadSession(env, Exec(env, p), e);
    }
    StagedIsPushed(env, p, e);
  }

  // ---------- DELETE and pull ----------

  /** A DELETE is answered 202 exactly when it has a transaction and its statement works; the
      row goes when the commit works as well. */
  lemma DeleteReplies(env: Env, s: State, e: Event)
    requires NothingPending(s.store) && e.Delete?
    ensures var sql := e.faults.sql;
      && Answer(env, s, e) == Status(if sql.newTxnFails || !sql.write.Works? then 500 else 202)
      && Step(env, s, e).0.store.layers ==
           (if sql.newTxnFails || !sql.write.Works? || sql.commitFails then s.store.layers
            else map d | d in s.store.layers && d != e.digest :: s.store.layers[d])
      && Step(env, s, e).0.dfs == s.dfs && Step(env, s, e).0.txnMap == s.txnMap
  {
    DeleteOutcome(env, s, e);
  }

  /** A pull is answered by the row of its digest and changes nothing. */
  lemma PullReplies(env: Env, s: State, e: Event)
    requires e.Pull?
    ensures Step(env, s, e).0 == s
    ensures Answer(env, s, e) ==
      if e.digest !in s.store.layers || s.store.layers[e.digest].dfsLink == "" || e.statFails
      then Response(404, "", Nowhere, "")
      else if e.urlFails then Response(500, "", Nowhere, s.store.layers[e.digest].digest)
      else Response(307, "", Download(s.store.layers[e.digest].dfsLink), s.store.layers[e.digest].digest)
  {
  }

  /** Deleting works: after a DELETE without failures the digest is unknown to pulls, and the
      other layers are served as before. */
  lemma {:induction false} DeletedIsGone(env: Env, r: Run, e: Event, pull: Event)
    requires SoundCids(env) && Plausible(r)
    requires e.Delete? && e.faults.sql == SqlFaults(false, Works, false)
    requires pull.Pull?
    ensures Reply(env, Then(r, e)).status == 202
    ensures Reply(env, Then(Then(r, e), pull)) ==
      if pull.digest == e.digest then Response(404, "", Nowhere, "") else Reply(env, Then(r, pull))
  {
    IntegrityAlways(env, r);
    DeleteReplies(env, Exec(env, r), e);
    PullReplies(env, Exec(env, r), pull);
    PullReplies(env, Exec(env, Then(r, e)), pull);
  }
}
