/** From pushed bytes to pulled layers: what one finishing request records, the integrity
    of the layers table, and the push/pull guarantees over whole runs. */
module PushPull {
  import opened Prelude
  import opened Identifiers
  import opened P2P
  import opened LayerStore
  import opened Registry
  import opened UploadView
  import opened UploadSafety

  // ---------- one request ----------

  predicate Finishes(e: Event) {
    (e.Post? && e.digest != "") || e.Put? || e.PutMonolithic?
  }

  /** The bytes a finishing request is about, in state `s`: its own body, preceded on the
      chunked path by what the backend has buffered. */
  function StagedBytes(s: State, e: Event): Bytes
    requires Finishes(e)
  {
    if e.Put? && IsTrackingId(e.identifier) && s.Counter(GetUploadId(e.identifier)) != 0
    then View(s, GetUploadId(e.identifier)).Bytes() + Content(e.body)
    else Content(e.body)
  }

  /** The row such a request writes. */
  function RowFor(env: Env, e: Event, content: Bytes): LayerRow
    requires Finishes(e)
    requires !e.Post? ==> IsTrackingId(e.identifier)
  {
    LayerRow(if e.Post? then e.layerId else GetLayerIdentifierFromTrackingId(e.identifier),
             e.digest, e.mediaType, env.cid(content), |content|, e.at, if e.Post? then e.at else 0)
  }

  ghost predicate Addressed(env: Env, objects: map<string, Bytes>) {
    forall c :: c in objects ==> env.cid(objects[c]) == c
  }

  ghost predicate Grows(before: map<string, Bytes>, after: map<string, Bytes>) {
    forall c :: c in before ==> c in after && after[c] == before[c]
  }

  /** Between requests no transaction holds uncommitted writes. */
  ghost predicate NothingPending(store: Store) {
    forall t :: 0 <= t < |store.txns| && store.txns[t].Open? ==> store.txns[t].writes == []
  }

  /** Transactions never reopen. */
  ghost predicate DoneStaysDone(before: Store, after: Store) {
    && |before.txns| <= |after.txns|
    && forall t :: 0 <= t < |before.txns| && !before.txns[t].Open? ==> after.txns[t] == before.txns[t]
  }

  lemma UploadStores(env: Env, b: Backend, content: Bytes, f: NodeFaults)
    requires SoundCids(env) && Addressed(env, b.objects)
    ensures var (after, link) := b.Upload(env, content, f);
      && Addressed(env, after.objects) && Grows(b.objects, after.objects)
      && (link.Some? ==>
            link.value == env.cid(content) && link.value in after.objects && after.objects[link.value] == content)
  {
  }

  /** One accepted statement, committed: the table is the one the transaction saw, keys intact. */
  lemma WriteOutcome(store: Store, t: nat, w: Write, f: SqlFaults)
    requires NothingPending(store) && UniqueIds(store.layers) && KeyedByDigest(store.layers)
    requires store.IsOpen(t) && store.Exec(t, w, f.write).1
    ensures var (after, ok) := store.Exec(t, w, f.write).0.Commit(t, f.commitFails);
      && NothingPending(after) && DoneStaysDone(store, after)
      && UniqueIds(after.layers) && KeyedByDigest(after.layers)
      && ok == !f.commitFails && (ok ==> after.txns[t].Committed?)
      && after.layers == if ok then Apply(store.layers, w) else store.layers
  {
    assert store.View(t) == store.layers;
    ExecKeepsKeys(store, t, w, f.write);
  }

  lemma RecordOutcome(store: Store, t: nat, row: LayerRow, at: nat, f: SqlFaults)
    requires NothingPending(store) && UniqueIds(store.layers) && KeyedByDigest(store.layers)
    ensures var (after, ok) := RecordLayer(store, t, row, at, f);
      && NothingPending(after) && DoneStaysDone(store, after)
      && UniqueIds(after.layers) && KeyedByDigest(after.layers)
      && (ok ==> store.IsOpen(t) && after.txns[t].Committed?)
      && after.layers == (if ok then Apply(store.layers, Upsert(row, at)) else store.layers)
  {
    if store.IsOpen(t) && store.Exec(t, Upsert(row, at), f.write).1 {
      WriteOutcome(store, t, Upsert(row, at), f);
    }
  }

  lemma NewTxnOutcome(store: Store, fails: bool)
    requires NothingPending(store)
    ensures var (after, txn) := store.NewTxn(fails);
      NothingPending(after) && DoneStaysDone(store, after) && after.layers == store.layers
  {
  }

  lemma DoneTransitive(a: Store, b: Store, c: Store)
    requires DoneStaysDone(a, b) && DoneStaysDone(b, c)
    ensures DoneStaysDone(a, c)
  {
  }

  /** What every finishing request does: if it commits, the named row is inserted, or refreshed if
      the digest is known, and its object holds the staged bytes; on any failure exit the
      table is untouched. Stored objects are never lost. */
  ghost predicate Outcome(env: Env, s: State, e: Event, s': State, resp: Response)
    requires Finishes(e)
  {
    var content := StagedBytes(s, e);
    && Addressed(env, s'.dfs.objects) && Grows(s.dfs.objects, s'.dfs.objects)
    && NothingPending(s'.store) && DoneStaysDone(s.store, s'.store)
    && UniqueIds(s'.store.layers) && KeyedByDigest(s'.store.layers)
    && s'.txnMap == s.txnMap
    && (resp.status != 201 ==> s'.store.layers == s.store.layers)
    && (resp.status == 201 ==>
          && (!e.Post? ==>
                && IsTrackingId(e.identifier)
                && var u := GetUploadId(e.identifier);
                   u in s.txnMap && s.store.IsOpen(s.txnMap[u]) && s'.store.txns[s.txnMap[u]].Committed?)
          && var row := RowFor(env, e, content);
             && s'.store.layers == Apply(s.store.layers, Upsert(row, e.at))
             && row.dfsLink in s'.dfs.objects && s'.dfs.objects[row.dfsLink] == content)
  }

  ghost predicate Sound(env: Env, s: State) {
    && SoundCids(env) && Addressed(env, s.dfs.objects)
    && NothingPending(s.store) && UniqueIds(s.store.layers) && KeyedByDigest(s.store.layers)
  }

  lemma SinglePostOutcome(env: Env, s: State, e: Event)
    requires Sound(env, s) && e.Post? && Finishes(e)
    ensures Outcome(env, s, e, Step(env, s, e).0, Step(env, s, e).1)
  {
    if e.body.Some? && env.digest(e.body.value) == e.digest && !e.faults.idFails {
      UploadStores(env, s.dfs, e.body.value, e.faults.node);
      NewTxnOutcome(s.store, e.faults.sql.newTxnFails);
      var (st, txn) := s.store.NewTxn(e.faults.sql.newTxnFails);
      if txn.Some? {
        var row := RowFor(env, e, e.body.value);
        RecordOutcome(st, txn.value, row, e.at, e.faults.sql);
        DoneTransitive(s.store, st, RecordLayer(st, txn.value, row, e.at, e.faults.sql).0);
      }
    }
  }

  lemma MonolithicPutOutcome(env: Env, s: State, e: Event)
    requires Sound(env, s)
    requires e.PutMonolithic? || (e.Put? && IsTrackingId(e.identifier) && s.Counter(GetUploadId(e.identifier)) == 0)
    ensures var (s', resp) := s.MonolithicPut(env, e.at, e.identifier, e.digest, e.mediaType, e.body, e.faults);
      Outcome(env, s, e, s', resp)
  {
    if IsTrackingId(e.identifier) && e.body.Some? {
      var (s', resp) := s.MonolithicPut(env, e.at, e.identifier, e.digest, e.mediaType, e.body, e.faults);
      var u := GetUploadId(e.identifier);
      UploadStores(env, s.dfs, e.body.value, e.faults.node);
      var (d1, link) := s.dfs.Upload(env, e.body.value, e.faults.node);
      assert s'.dfs == d1 && s'.txnMap == s.txnMap;
      if link.Some? && u in s.txnMap {
        var row := RowFor(env, e, e.body.value);
        RecordOutcome(s.store, s.txnMap[u], row, e.at, e.faults.sql);
        assert (s'.store, resp.status == 201) == RecordLayer(s.store, s.txnMap[u], row, e.at, e.faults.sql);
      }
    }
  }

  /** The length counter of a live upload is the number of bytes buffered for it. */
  predicate Measured(x: Upload) {
    x.session.Some? ==> x.length == |x.Bytes()|
  }

  lemma ChunkedPutOutcome(env: Env, s: State, e: Event)
    requires Sound(env, s)
    requires e.Put? && IsTrackingId(e.identifier) && s.Counter(GetUploadId(e.identifier)) != 0
    requires Measured(View(s, GetUploadId(e.identifier)))
    ensures Outcome(env, s, e, Step(env, s, e).0, Step(env, s, e).1)
  {
    var u := GetUploadId(e.identifier);
    var layerId := GetLayerIdentifierFromTrackingId(e.identifier);
    if e.body.Some? {
      var content := e.body.value;
      StorePartIsLocal(env, s, u, LayerKey(e.identifier), content, e.at, u);
      var (s1, ok) := if |content| > 0
                      then s.StorePart(u, LayerKey(e.identifier), content, env.digest(content), e.at)
                      else (s, true);
      if ok {
        var x := View(s1, u);
        assert x.session.Some? ==> x.Bytes() == StagedBytes(s, e);
        assert Measured(x);
        CompleteOutcome(env, s1, e, u, layerId);
      }
    }
  }

  lemma CompleteOutcome(env: Env, s: State, e: Event, u: string, layerId: string)
    requires Sound(env, s) && e.Put? && e.body.Some? && Measured(View(s, u))
    ensures var (s', resp) :=
        s.Complete(env, e.at, u, layerId, e.digest, e.mediaType, e.body.value, e.faults);
      var content := View(s, u).Bytes();
      var row := LayerRow(layerId, e.digest, e.mediaType, env.cid(content), |content|, e.at, 0);
      && Addressed(env, s'.dfs.objects) && Grows(s.dfs.objects, s'.dfs.objects)
      && NothingPending(s'.store) && DoneStaysDone(s.store, s'.store)
      && UniqueIds(s'.store.layers) && KeyedByDigest(s'.store.layers)
      && s'.txnMap == s.txnMap
      && (resp.status != 201 ==> s'.store.layers == s.store.layers)
      && (resp.status == 201 ==>
            && u in s.dfs.sessions
            && u in s.txnMap && s.store.IsOpen(s.txnMap[u]) && s'.store.txns[s.txnMap[u]].Committed?
            && s'.store.layers == Apply(s.store.layers, Upsert(row, e.at))
            && row.dfsLink in s'.dfs.objects && s'.dfs.objects[row.dfsLink] == content)
  {
    var content := View(s, u).Bytes();
    UploadStores(env, s.dfs, content, e.faults.node);
    if u in s.txnMap {
      RecordOutcome(s.store, s.txnMap[u],
        LayerRow(layerId, e.digest, e.mediaType, env.cid(content), |content|, e.at, 0), e.at, e.faults.sql);
    }
  }

  lemma {:induction false} FinishOutcome(env: Env, s: State, e: Event)
    requires Sound(env, s) && Finishes(e)
    requires e.Put? && IsTrackingId(e.identifier) ==> Measured(View(s, GetUploadId(e.identifier)))
    ensures Outcome(env, s, e, Step(env, s, e).0, Step(env, s, e).1)
  {
    if e.Post? {
      SinglePostOutcome(env, s, e);
    } else if e.PutMonolithic? {
      MonolithicPutOutcome(env, s, e);
    } else if IsTrackingId(e.identifier) {
      if s.Counter(GetUploadId(e.identifier)) == 0 {
        MonolithicPutOutcome(env, s, e);
      } else {
        ChunkedPutOutcome(env, s, e);
      }
    }
  }

  lemma OneWriteView(st: Store, t: nat, w: Write)
    requires st.IsOpen(t) && st.txns[t].writes == [] && w.Remove?
    ensures st.Exec(t, w, Works).0.IsOpen(t)
    ensures st.Exec(t, w, Works).0.View(t) == Apply(st.layers, w)
  {
    ApplyAllSnoc(st.layers, [], w);
  }

  lemma RemoveOutcome(st: Store, t: nat, d: string, f: SqlFaults)
    requires NothingPending(st) && st.IsOpen(t)
    ensures var (written, ok) := st.Exec(t, Remove(d), f.write);
      && ok == f.write.Works?
      && var after := if ok then written.Commit(t, f.commitFails).0 else written;
         && NothingPending(after) && DoneStaysDone(st, after)
         && after.layers == if ok && !f.commitFails then st.layers - {d} else st.layers
  {
    if f.write.Works? {
      OneWriteView(st, t, Remove(d));
    }
  }

  /** A DELETE takes the row away exactly when it is answered 202 and its commit works. */
  lemma DeleteOutcome(env: Env, s: State, e: Event)
    requires NothingPending(s.store) && e.Delete?
    ensures var (s', resp) := Step(env, s, e);
      && NothingPending(s'.store) && DoneStaysDone(s.store, s'.store)
      && s'.dfs == s.dfs && s'.txnMap == s.txnMap
      && s'.store.layers == (if resp.status == 202 && !e.faults.sql.commitFails
                             then s.store.layers - {e.digest} else s.store.layers)
  {
    NewTxnOutcome(s.store, e.faults.sql.newTxnFails);
    var (st, txn) := s.store.NewTxn(e.faults.sql.newTxnFails);
    if txn.Some? {
      RemoveOutcome(st, txn.value, e.digest, e.faults.sql);
    }
  }

  lemma StartOutcome(env: Env, s: State, e: Event)
    requires NothingPending(s.store) && e.Post? && !Finishes(e)
    ensures var s' := Step(env, s, e).0;
      && s'.dfs.objects == s.dfs.objects
      && NothingPending(s'.store) && DoneStaysDone(s.store, s'.store)
      && s'.store.layers == s.store.layers
      && (s'.txnMap == s.txnMap || s'.txnMap == s.txnMap[e.uploadId := |s.store.txns|])
  {
  }

  lemma StorePartIsQuiet(s: State, u: string, layerKey: string, content: Bytes, checksum: string, at: nat)
    ensures var s' := s.StorePart(u, layerKey, content, checksum, at).0;
      s'.dfs.objects == s.dfs.objects && s'.store == s.store && s'.txnMap == s.txnMap
  {
  }

  lemma PatchIsQuiet(env: Env, s: State, e: Event)
    requires e.Patch?
    ensures var s' := s.UploadBlob(env, e.at, e.identifier, e.contentRange, e.body).0;
      s'.dfs.objects == s.dfs.objects && s'.store == s.store && s'.txnMap == s.txnMap
  {
    if IsTrackingId(e.identifier) && e.body.Some? {
      StorePartIsQuiet(s, GetUploadId(e.identifier), LayerKey(e.identifier), e.body.value,
                       env.digest(e.body.value), e.at);
    }
  }

  /** PATCH, GET and ticks touch neither the objects nor the database. */
  lemma QuietOutcome(env: Env, s: State, e: Event)
    requires !e.Post? && !e.Delete? && !Finishes(e)
    ensures var s' := Step(env, s, e).0;
      s'.dfs.objects == s.dfs.objects && s'.store == s.store && s'.txnMap == s.txnMap
  {
    if e.Patch? {
      PatchIsQuiet(env, s, e);
    }
  }

  /** What any event but a finish does to the objects, the table and the transactions. */
  lemma OtherOutcome(env: Env, s: State, e: Event)
    requires NothingPending(s.store) && !Finishes(e)
    ensures var (s', resp) := Step(env, s, e);
      && s'.dfs.objects == s.dfs.objects
      && NothingPending(s'.store) && DoneStaysDone(s.store, s'.store)
      && s'.store.layers == (if e.Delete? && resp.status == 202 && !e.faults.sql.commitFails
                             then s.store.layers - {e.digest} else s.store.layers)
      && (forall u :: u in s.txnMap && !Starts(e, u) ==> u in s'.txnMap && s'.txnMap[u] == s.txnMap[u])
      && (forall u :: u in s'.txnMap && !Starts(e, u) ==> u in s.txnMap)
  {
    if e.Delete? {
      DeleteOutcome(env, s, e);
    } else if e.Post? {
      StartOutcome(env, s, e);
    } else {
      QuietOutcome(env, s, e);
    }
  }

  // ---------- the table, over runs ----------

  /** Every row resolves to a stored object of exactly its size; both keys hold. */
  ghost predicate Integrity(env: Env, s: State) {
    && Addressed(env, s.dfs.objects)
    && NothingPending(s.store)
    && KeyedByDigest(s.store.layers)
    && UniqueIds(s.store.layers)
    && forall d :: d in s.store.layers ==>
         var row := s.store.layers[d];
         row.dfsLink in s.dfs.objects && |s.dfs.objects[row.dfsLink]| == row.size
  }

  lemma {:induction false} MeasuredAlways(env: Env, r: Run, u: string)
    requires Plausible(r)
    ensures Measured(View(Exec(env, r), u))
  {
    CoherentAlways(env, r, u);
  }

  lemma {:induction false} StepOutcome(env: Env, p: Run, e: Event)
    requires SoundCids(env) && Plausible(Then(p, e)) && Sound(env, Exec(env, p))
    ensures var s := Exec(env, p);
      Finishes(e) ==> Outcome(env, s, e, Step(env, s, e).0, Step(env, s, e).1)
  {
    if Finishes(e) {
      if e.Put? && IsTrackingId(e.identifier) {
        MeasuredAlways(env, p, GetUploadId(e.identifier));
      }
      FinishOutcome(env, Exec(env, p), e);
    }
  }

  lemma OutcomeKeepsIntegrity(env: Env, s: State, e: Event, s': State, resp: Response)
    requires Integrity(env, s) && Finishes(e) && Outcome(env, s, e, s', resp)
    ensures Integrity(env, s')
  {
  }

  /** Referential and size integrity holds in every reachable state. */
  lemma {:induction false} IntegrityAlways(env: Env, r: Run)
    requires SoundCids(env) && Plausible(r)
    ensures Integrity(env, Exec(env, r))
  {
    match r
    case Boot =>
    case Then(p, e) =>
      IntegrityAlways(env, p);
      var s := Exec(env, p);
      if Finishes(e) {
        StepOutcome(env, p, e);
        OutcomeKeepsIntegrity(env, s, e, Step(env, s, e).0, Step(env, s, e).1);
      } else {
        OtherOutcome(env, s, e);
      }
  }

  // ---------- push, then pull ----------

  /** Everything the client of finishing request `e` has uploaded for it, in run `p`: its
      body, preceded on the chunked path by all chunks accepted for the upload. */
  function Pushed(env: Env, p: Run, e: Event): Bytes
    requires Finishes(e)
  {
    if e.Put? && IsTrackingId(e.identifier) then
      Accepted(env, p, GetUploadId(e.identifier)) + Content(e.body)
    else Content(e.body)
  }

  /** `e`, handled after `p`, put the layer `d` into the registry. */
  predicate Inserts(env: Env, p: Run, e: Event, d: string) {
    && Finishes(e) && e.digest == d
    && d !in Exec(env, p).store.layers
    && Recorded(env, Then(p, e))
  }

  /** The latest event takes layer `d` away: a DELETE answered 202 whose commit worked. */
  predicate Removes(env: Env, r: Run, d: string)
    requires r.Then?
  {
    r.event.Delete? && r.event.digest == d && Reply(env, r).status == 202 && !r.event.faults.sql.commitFails
  }

  /** `r` continues `p`, and nothing on the way takes layer `d` away. */
  predicate KeptSince(env: Env, p: Run, r: Run, d: string) {
    r == p || (r.Then? && KeptSince(env, p, r.before, d) && !Removes(env, r, d))
  }

  /** Attempts on the upload stay below 2^31: see PartNumberWraps. */
  predicate CounterFits(p: Run, e: Event)
    requires Finishes(e)
  {
    e.Put? && IsTrackingId(e.identifier) ==> Requests(p, GetUploadId(e.identifier)) < 0x8000_0000
  }

  /** A counter below 2^31 - 1 does not come back to zero, and a taken chunk leaves it. */
  lemma CountedStep(env: Env, x: Upload, u: string, e: Event)
    requires 0 <= x.counter
    requires (e.Patch? || e.Put?) && Names(e.identifier, u) ==> x.counter < 0x7fff_ffff
    ensures UploadStep(env, x, u, e).counter == 0 ==>
      x.counter == 0 && !(e.Patch? && Names(e.identifier, u) && PatchUpload(env, x, e).1)
  {
  }

  /** An upload whose counter still reads zero has accepted nothing. */
  lemma {:induction false} CountedBeforeAccepted(env: Env, r: Run, u: string)
    requires Requests(r, u) < 0x8000_0000
    ensures View(Exec(env, r), u).counter == 0 ==> Accepted(env, r, u) == []
  {
    match r
    case Boot =>
    case Then(p, e) =>
      CountedBeforeAccepted(env, p, u);
      NumberedAlways(env, p, u);
      StepIsLocal(env, Exec(env, p), e, u);
      CountedStep(env, View(Exec(env, p), u), u, e);
      if e.Patch? && Names(e.identifier, u) {
        PatchReply(env, Exec(env, p), e);
      }
  }

  /** The staged bytes are the pushed bytes. */
  lemma {:induction false} StagedIsPushed(env: Env, p: Run, e: Event)
    requires Plausible(p) && Finishes(e) && CounterFits(p, e)
    requires e.Put? && IsTrackingId(e.identifier) && Exec(env, p).Counter(GetUploadId(e.identifier)) != 0
             ==> GetUploadId(e.identifier) in Exec(env, p).dfs.sessions
    ensures StagedBytes(Exec(env, p), e) == Pushed(env, p, e)
  {
    if e.Put? && IsTrackingId(e.identifier) {
      var u := GetUploadId(e.identifier);
      CoherentAlways(env, p, u);
      CountedBeforeAccepted(env, p, u);
      assert [] + Content(e.body) == Content(e.body);
    }
  }

  /** A chunked finish that commits had a live session. */
  lemma ChunkedFinishHadSession(env: Env, s: State, e: Event)
    requires e.Put? && IsTrackingId(e.identifier) && s.Counter(GetUploadId(e.identifier)) != 0
    requires Step(env, s, e).1.status == 201
    ensures GetUploadId(e.identifier) in s.dfs.sessions
  {
  }

  /** A finish that commits an unknown digest stores exactly the pushed bytes: no chunk is
      missing, repeated or out of place, and the size is their number. */
  lemma {:induction false} PushStoresPushedBytes(env: Env, p: Run, e: Event, d: string)
    requires SoundCids(env) && Plausible(Then(p, e))
    requires Inserts(env, p, e, d) && CounterFits(p, e)
    ensures var s := Exec(env, Then(p, e));
      && d in s.store.layers
      && var row := s.store.layers[d];
         && row.dfsLink in s.dfs.objects
         && s.dfs.objects[row.dfsLink] == Pushed(env, p, e)
         && row.size == |Pushed(env, p, e)|
         && row.digest == d
  {
    IntegrityAlways(env, p);
    StepOutcome(env, p, e);
    var s := Exec(env, p);
    if e.Put? && s.Counter(GetUploadId(e.identifier)) != 0 {
      ChunkedFinishHadSession(env, s, e);
    }
    StagedIsPushed(env, p, e);
  }

  lemma OutcomeKeepsRow(env: Env, s: State, e: Event, s': State, resp: Response, d: string)
    requires Finishes(e) && Outcome(env, s, e, s', resp) && d in s.store.layers
    ensures d in s'.store.layers
    ensures s'.store.layers[d] == s.store.layers[d].(updatedAt := s'.store.layers[d].updatedAt)
    ensures Grows(s.dfs.objects, s'.dfs.objects)
  {
  }

  /** First writer wins: until it is deleted, a row and its object never change, except
      for the row's `updated_at`, whatever later uploads do. */
  lemma {:induction false} FirstWriterWins(env: Env, p: Run, r: Run, d: string)
    requires SoundCids(env) && Plausible(r)
    requires KeptSince(env, p, r, d) && d in Exec(env, p).store.layers
    ensures Plausible(p)
    ensures var s, s' := Exec(env, p), Exec(env, r);
      && d in s'.store.layers
      && s'.store.layers[d] == s.store.layers[d].(updatedAt := s'.store.layers[d].updatedAt)
      && Grows(s.dfs.objects, s'.dfs.objects)
  {
    if r != p {
      FirstWriterWins(env, p, r.before, d);
      IntegrityAlways(env, r.before);
      var s := Exec(env, r.before);
      if Finishes(r.event) {
        StepOutcome(env, r.before, r.event);
        OutcomeKeepsRow(env, s, r.event, Step(env, s, r.event).0, Step(env, s, r.event).1, d);
      } else {
        OtherOutcome(env, Exec(env, r.before), r.event);
      }
    }
  }

  /** Push, then pull: whatever happens in between short of a DELETE, pulling `d` redirects
      to an object that is exactly the bytes pushed by the request that first committed
      `d`; and that object hashes to `d` if and only if that request was a single POST, whose
      digest is checked, or a PUT that named the digest of its own bytes. */
  lemma {:induction false} PullReturnsPush(env: Env, p: Run, e: Event, r: Run, d: string, at: nat)
    requires SoundCids(env) && Plausible(r)
    requires Inserts(env, p, e, d) && CounterFits(p, e) && KeptSince(env, Then(p, e), r, d)
    ensures var s := Exec(env, r);
      var resp := Reply(env, Then(r, Event.Pull(at, d, false, false)));
      && resp.status == 307 && resp.location.Download? && resp.contentDigest == d
      && resp.location.link in s.dfs.objects
      && s.dfs.objects[resp.location.link] == Pushed(env, p, e)
      && d in s.store.layers && s.store.layers[d].size == |Pushed(env, p, e)|
      && (env.digest(s.dfs.objects[resp.location.link]) == d
          <==> e.Post? || e.digest == env.digest(Pushed(env, p, e)))
  {
    PlausiblePrefix(env, Then(p, e), r, d);
    PushStoresPushedBytes(env, p, e, d);
    FirstWriterWins(env, Then(p, e), r, d);
    IntegrityAlways(env, r);
    PullServesRow(env, Exec(env, r), d, at);
    if e.Post? {
      SinglePostIsChecked(env, Exec(env, p), e);
    }
  }

  /** The single POST commits only content that hashes to the named digest. */
  lemma SinglePostIsChecked(env: Env, s: State, e: Event)
    requires e.Post? && Finishes(e) && Step(env, s, e).1.status == 201
    ensures env.digest(Content(e.body)) == e.digest
  {
  }

  lemma PullServesRow(env: Env, s: State, d: string, at: nat)
    requires SoundCids(env) && Integrity(env, s) && d in s.store.layers
    ensures var link := s.store.layers[d].dfsLink;
      Step(env, s, Event.Pull(at, d, false, false)) == (s, Response(307, "", Download(link), d))
  {
  }

  lemma {:induction false} PlausiblePrefix(env: Env, p: Run, r: Run, d: string)
    requires Plausible(r) && KeptSince(env, p, r, d)
    ensures Plausible(p)
  {
    if r != p {
      PlausiblePrefix(env, p, r.before, d);
    }
  }

  /** The converse: every layer the registry serves was pushed, by a request this lemma
      finds in the run, and has not been deleted since. */
  lemma {:induction false} EveryLayerWasPushed(env: Env, r: Run, d: string) returns (p: Run, e: Event)
    requires SoundCids(env) && Plausible(r)
    requires d in Exec(env, r).store.layers
    ensures Inserts(env, p, e, d) && KeptSince(env, Then(p, e), r, d)
  {
    var before := Exec(env, r.before);
    IntegrityAlways(env, r.before);
    if Finishes(r.event) {
      StepOutcome(env, r.before, r.event);
    } else {
      OtherOutcome(env, before, r.event);
    }
    if d in before.store.layers {
      p, e := EveryLayerWasPushed(env, r.before, d);
    } else {
      p, e := r.before, r.event;
    }
  }

  // ---------- honest layers ----------

  predicate CountersFit(r: Run) {
    match r
    case Boot => true
    case Then(p, e) => CountersFit(p) && (Finishes(e) ==> CounterFits(p, e))
  }

  /** The request is a single POST, or a PUT that names the digest of what it pushes: what
      its client can check before sending it. */
  predicate NamesItsBytes(env: Env, p: Run, e: Event)
    requires Finishes(e)
  {
    e.Post? || e.digest == env.digest(Pushed(env, p, e))
  }

  /** The request that put the present row `d` into the table named its bytes. */
  predicate HonestlyInserted(env: Env, r: Run, d: string) {
    match r
    case Boot => true
    case Then(p, e) =>
      if d in Exec(env, p).store.layers then HonestlyInserted(env, p, d)
      else Finishes(e) ==> NamesItsBytes(env, p, e)
  }

  predicate HashesToDigest(env: Env, s: State, d: string) {
    && d in s.store.layers && s.store.layers[d].dfsLink in s.dfs.objects
    && env.digest(s.dfs.objects[s.store.layers[d].dfsLink]) == d
  }

  /** In every reachable state a layer's object hashes to its digest if and only if the
      request that inserted it named its bytes. */
  lemma {:induction false} LayerHashesIff(env: Env, r: Run, d: string)
    requires SoundCids(env) && Plausible(r) && CountersFit(r)
    requires d in Exec(env, r).store.layers
    ensures HashesToDigest(env, Exec(env, r), d) <==> HonestlyInserted(env, r, d)
  {
    var p, e := r.before, r.event;
    var s := Exec(env, p);
    if d in s.store.layers {
      LayerHashesIff(env, p, d);
      IntegrityAlways(env, p);
      IntegrityAlways(env, r);
      RowStays(env, p, e, d);
    } else {
      IntegrityAlways(env, p);
      InsertedBy(env, p, e, d);
      PushStoresPushedBytes(env, p, e, d);
      if e.Post? {
        SinglePostIsChecked(env, s, e);
      }
    }
  }

  lemma {:induction false} RowStays(env: Env, p: Run, e: Event, d: string)
    requires SoundCids(env) && Plausible(Then(p, e)) && Integrity(env, Exec(env, p))
    requires d in Exec(env, p).store.layers && d in Exec(env, Then(p, e)).store.layers
    ensures var s, s' := Exec(env, p), Exec(env, Then(p, e));
      s'.store.layers[d].dfsLink == s.store.layers[d].dfsLink && Grows(s.dfs.objects, s'.dfs.objects)
  {
    var s := Exec(env, p);
    if Finishes(e) {
      StepOutcome(env, p, e);
      OutcomeKeepsRow(env, s, e, Step(env, s, e).0, Step(env, s, e).1, d);
    } else {
      OtherOutcome(env, s, e);
    }
  }

  lemma {:induction false} InsertedBy(env: Env, p: Run, e: Event, d: string)
    requires SoundCids(env) && Plausible(Then(p, e)) && Integrity(env, Exec(env, p))
    requires d !in Exec(env, p).store.layers && d in Exec(env, Then(p, e)).store.layers
    ensures Inserts(env, p, e, d)
  {
    if Finishes(e) {
      StepOutcome(env, p, e);
    } else {
      OtherOutcome(env, Exec(env, p), e);
    }
  }

  /** Every PUT that commits names the digest of what it pushed; single POSTs are free. */
  predicate Honest(env: Env, r: Run) {
    match r
    case Boot => true
    case Then(p, e) =>
      Honest(env, p) && ((e.Put? || e.PutMonolithic?) && Recorded(env, r) ==> NamesItsBytes(env, p, e))
  }

  /** Content addressing, in every reachable state: when the PUTs are honest, every layer the
      registry serves is an object that hashes to the digest it is served under. */
  lemma {:induction false} HonestRunsServeHonestLayers(env: Env, r: Run, d: string)
    requires SoundCids(env) && Plausible(r) && CountersFit(r) && Honest(env, r)
    requires d in Exec(env, r).store.layers
    ensures HashesToDigest(env, Exec(env, r), d)
  {
    LayerHashesIff(env, r, d);
    HonestRunsInsertHonestly(env, r, d);
  }

  lemma {:induction false} HonestRunsInsertHonestly(env: Env, r: Run, d: string)
    requires SoundCids(env) && Plausible(r) && Honest(env, r)
    requires d in Exec(env, r).store.layers
    ensures HonestlyInserted(env, r, d)
  {
    if d in Exec(env, r.before).store.layers {
      HonestRunsInsertHonestly(env, r.before, d);
    } else {
      IntegrityAlways(env, r.before);
      InsertedBy(env, r.before, r.event, d);
    }
  }
}
