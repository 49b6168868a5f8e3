/** The SQL side of uploads: when exactly a finishing request commits, that no upload
    commits twice, and what the replies do and do not tell the client. */
module Commits {
  import opened Prelude
  import opened Text
  import opened Identifiers
  import opened P2P
  import opened LayerStore
  import opened Registry
  import opened UploadView
  import opened UploadSafety
  import opened PushPull

  // ---------- transactions ----------

  /** Each upload has a transaction of its own. */
  ghost predicate TxnsApart(s: State) {
    && (forall u :: u in s.txnMap ==> s.txnMap[u] < |s.store.txns|)
    && (forall u, v :: u in s.txnMap && v in s.txnMap && s.txnMap[u] == s.txnMap[v] ==> u == v)
  }

  /** The transaction a request works on: the named upload's, or one opened for it. */
  function Target(s: State, e: Event): nat {
    if (e.Put? || e.PutMonolithic?) && IsTrackingId(e.identifier)
    then Lookup(s.txnMap, GetUploadId(e.identifier), |s.store.txns|)
    else |s.store.txns|
  }

  predicate IsCommitted(store: Store, t: nat) {
    t < |store.txns| && store.txns[t].Committed?
  }

  /** Only transaction `t` may change, and only while it is open. */
  ghost predicate OnlyTouches(before: Store, after: Store, t: nat) {
    && |before.txns| <= |after.txns|
    && forall i :: 0 <= i < |before.txns| && (i != t || !before.IsOpen(t)) ==> after.txns[i] == before.txns[i]
  }

  lemma WriteTxns(store: Store, t: nat, w: Write, f: SqlFaults)
    ensures var (written, ok) := store.Exec(t, w, f.write);
      var (after, committed) := if ok then written.Commit(t, f.commitFails) else (written, false);
      && |after.txns| == |store.txns|
      && OnlyTouches(store, after, t)
      && (committed ==> store.IsOpen(t) && IsCommitted(after, t))
  {
  }

  lemma RecordTxns(store: Store, t: nat, row: LayerRow, at: nat, f: SqlFaults)
    ensures var (after, ok) := RecordLayer(store, t, row, at, f);
      && |after.txns| == |store.txns|
      && OnlyTouches(store, after, t)
      && (ok ==> store.IsOpen(t) && IsCommitted(after, t))
  {
    WriteTxns(store, t, Upsert(row, at), f);
  }

  lemma MonolithicPutTxns(env: Env, s: State, e: Event)
    requires e.Put? || e.PutMonolithic?
    ensures var (s', resp) := s.MonolithicPut(env, e.at, e.identifier, e.digest, e.mediaType, e.body, e.faults);
      && s'.txnMap == s.txnMap
      && OnlyTouches(s.store, s'.store, Target(s, e))
      && (resp.status == 201 ==> IsTrackingId(e.identifier) && GetUploadId(e.identifier) in s.txnMap
                                 && s.store.IsOpen(Target(s, e)) && IsCommitted(s'.store, Target(s, e)))
  {
    if IsTrackingId(e.identifier) && e.body.Some? && GetUploadId(e.identifier) in s.txnMap {
      RecordTxns(s.store, Target(s, e), RowFor(env, e, e.body.value), e.at, e.faults.sql);
    }
  }

  lemma CompleteTxns(env: Env, s: State, e: Event, u: string, layerId: string)
    requires e.Put? && e.body.Some?
    ensures var (s', resp) :=
        s.Complete(env, e.at, u, layerId, e.digest, e.mediaType, e.body.value, e.faults);
      && s'.txnMap == s.txnMap
      && OnlyTouches(s.store, s'.store, Lookup(s.txnMap, u, |s.store.txns|))
      && (resp.status == 201 ==> u in s.txnMap && s.store.IsOpen(s.txnMap[u])
                                 && IsCommitted(s'.store, s.txnMap[u]))
  {
    var link := s.dfs.CompleteMultipartUpload(env, u, GetLayerIdentifier(layerId), e.faults.node).1;
    if u in s.txnMap && link.Some? {
      RecordTxns(s.store, s.txnMap[u],
        LayerRow(layerId, e.digest, e.mediaType, link.value, s.Length(u), e.at, 0), e.at, e.faults.sql);
    }
  }

  lemma PutTxns(env: Env, s: State, e: Event)
    requires e.Put?
    ensures var (s', resp) := Step(env, s, e);
      && s'.txnMap == s.txnMap
      && OnlyTouches(s.store, s'.store, Target(s, e))
      && (resp.status == 201 ==> IsTrackingId(e.identifier) && GetUploadId(e.identifier) in s.txnMap
                                 && s.store.IsOpen(Target(s, e)) && IsCommitted(s'.store, Target(s, e)))
  {
    if IsTrackingId(e.identifier) {
      var u := GetUploadId(e.identifier);
      if s.Counter(u) == 0 {
        MonolithicPutTxns(env, s, e);
      } else if e.body.Some? {
        var s1 := if |e.body.value| > 0
                  then s.StorePart(u, LayerKey(e.identifier), e.body.value, env.digest(e.body.value), e.at).0
                  else s;
        CompleteTxns(env, s1, e, u, GetLayerIdentifierFromTrackingId(e.identifier));
      }
    }
  }

  lemma PostTxns(env: Env, s: State, e: Event)
    requires e.Post?
    ensures var s' := Step(env, s, e).0;
      && OnlyTouches(s.store, s'.store, |s.store.txns|)
      && (s'.txnMap == s.txnMap
          || (e.Post? && Starts(e, e.uploadId) && s'.txnMap == s.txnMap[e.uploadId := |s.store.txns|]
              && |s.store.txns| < |s'.store.txns|))
  {
    if e.digest != "" && e.body.Some? {
      var (st, txn) := s.store.NewTxn(e.faults.sql.newTxnFails);
      if txn.Some? {
        RecordTxns(st, txn.value, RowFor(env, e, e.body.value), e.at, e.faults.sql);
      }
    }
  }

  lemma DeleteTxns(env: Env, s: State, e: Event)
    requires e.Delete?
    ensures var s' := Step(env, s, e).0;
      s'.txnMap == s.txnMap && OnlyTouches(s.store, s'.store, |s.store.txns|)
  {
    var (st, txn) := s.store.NewTxn(e.faults.sql.newTxnFails);
    if txn.Some? {
      WriteTxns(st, txn.value, Remove(e.digest), e.faults.sql);
    }
  }

  /** A request touches no transaction but its target, and that only while it is open. */
  lemma {:induction false} StepTxns(env: Env, s: State, e: Event)
    ensures var s' := Step(env, s, e).0;
      && OnlyTouches(s.store, s'.store, Target(s, e))
      && (s'.txnMap == s.txnMap
          || (e.Post? && Starts(e, e.uploadId) && s'.txnMap == s.txnMap[e.uploadId := |s.store.txns|]
              && |s.store.txns| < |s'.store.txns|))
  {
    match e
    case Post(_, _, _, _, _, _, _) => PostTxns(env, s, e);
    case Put(_, _, _, _, _, _) => PutTxns(env, s, e);
    case PutMonolithic(_, _, _, _, _, _) => MonolithicPutTxns(env, s, e);
    case Delete(_, _, _) => DeleteTxns(env, s, e);
    case _ => QuietOutcome(env, s, e);
  }

  lemma {:induction false} TxnsApartAlways(env: Env, r: Run)
    ensures TxnsApart(Exec(env, r))
  {
    match r
    case Boot =>
    case Then(p, e) =>
      TxnsApartAlways(env, p);
      StepTxns(env, Exec(env, p), e);
  }

  // ---------- commit once ----------

  predicate Commits(env: Env, r: Run, u: string)
    requires r.Then?
  {
    && (r.event.Put? || r.event.PutMonolithic?)
    && Names(r.event.identifier, u)
    && Recorded(env, r)
  }

  function CommitCount(env: Env, r: Run, u: string): nat {
    match r
    case Boot => 0
    case Then(p, _) => CommitCount(env, p, u) + if Commits(env, r, u) then 1 else 0
  }

  lemma {:induction false} CommitClosesTxn(env: Env, p: Run, e: Event, u: string)
    requires Commits(env, Then(p, e), u)
    ensures var s, s' := Exec(env, p), Exec(env, Then(p, e));
      u in s.txnMap && s.store.IsOpen(s.txnMap[u]) && s'.txnMap == s.txnMap
      && IsCommitted(s'.store, s.txnMap[u])
  {
    if e.Put? {
      PutTxns(env, Exec(env, p), e);
    } else {
      MonolithicPutTxns(env, Exec(env, p), e);
    }
  }

  ghost predicate Closed(s: State, u: string) {
    u in s.txnMap && s.txnMap[u] < |s.store.txns| && !s.store.txns[s.txnMap[u]].Open?
  }

  lemma {:induction false} CommittedIsClosed(env: Env, r: Run, u: string)
    requires FreshIds(r)
    ensures CommitCount(env, r, u) <= 1
    ensures CommitCount(env, r, u) == 1 ==> Closed(Exec(env, r), u)
    ensures u in Exec(env, r).txnMap ==> Issued(r, u)
  {
    match r
    case Boot =>
    case Then(p, e) =>
      CommittedIsClosed(env, p, u);
      TxnsApartAlways(env, p);
      StepTxns(env, Exec(env, p), e);
      if Commits(env, r, u) {
        CommitClosesTxn(env, p, e, u);
      }
  }

  /** Commit once: in any run an upload id commits at most one layer, whichever finish
      endpoints, layer keys and digests its requests use, and never before it is issued. */
  lemma {:induction false} CommitOnce(env: Env, r: Run, u: string)
    requires FreshIds(r)
    ensures CommitCount(env, r, u) <= 1
    ensures CommitCount(env, r, u) == 1 ==> Issued(r, u)
  {
    CommittedIsClosed(env, r, u);
  }

  // ---------- when a finish commits ----------

  predicate NodeWorks(env: Env, f: NodeFaults) {
    !f.addFails && !(env.pinning && f.pinFails)
  }

  ghost predicate TxnTakes(s: State, t: nat, row: LayerRow, f: SqlFaults) {
    && s.store.IsOpen(t) && f.write.Works? && !f.commitFails
    && (row.digest in s.store.layers || !IdTaken(s.store.layers, row.id))
  }

  /** A finish that takes its whole body at once: the monolithic endpoint, or the chunked
      one before any chunk has been tried. */
  predicate FinishesAtOnce(s: State, e: Event) {
    e.PutMonolithic?
    || (e.Put? && IsTrackingId(e.identifier) && s.Counter(GetUploadId(e.identifier)) == 0)
  }

  /** Exactly when such a finish commits. The digest the client names takes no part in it,
      beyond choosing the row. */
  lemma MonolithicPutAccepts(env: Env, s: State, e: Event)
    requires NothingPending(s.store) && FinishesAtOnce(s, e)
    ensures Step(env, s, e).1.status == 201 <==>
      && IsTrackingId(e.identifier) && e.body.Some? && NodeWorks(env, e.faults.node)
      && GetUploadId(e.identifier) in s.txnMap
      && TxnTakes(s, s.txnMap[GetUploadId(e.identifier)], RowFor(env, e, Content(e.body)), e.faults.sql)
  {
  }

  lemma CompleteAccepts(env: Env, s: State, e: Event, u: string, layerId: string)
    requires NothingPending(s.store) && e.Put? && e.body.Some?
    ensures s.Complete(env, e.at, u, layerId, e.digest, e.mediaType, e.body.value, e.faults).1.status == 201 <==>
      && u in s.dfs.sessions && s.dfs.sessions[u].id == GetLayerIdentifier(layerId) && u in s.dfs.buffers
      && NodeWorks(env, e.faults.node)
      && u in s.txnMap
      && s.store.IsOpen(s.txnMap[u]) && e.faults.sql.write.Works? && !e.faults.sql.commitFails
      && (e.digest in s.store.layers || !IdTaken(s.store.layers, layerId))
  {
  }

  /** The chunked finish: exactly when it commits. */
  lemma ChunkedPutAccepts(env: Env, s: State, e: Event)
    requires NothingPending(s.store) && e.Put? && IsTrackingId(e.identifier)
    requires s.Counter(GetUploadId(e.identifier)) != 0
    ensures var u := GetUploadId(e.identifier);
      var x := View(s, u);
      Step(env, s, e).1.status == 201 <==>
        && e.body.Some?
        && (e.body.value != [] ==> s.NextPart(u) <= MAX_UPLOAD_PARTS)
        && x.session.Some? && x.session.value.id == LayerKey(e.identifier)
        && (x.buffer.Some? || e.body.value != [])
        && NodeWorks(env, e.faults.node)
        && u in s.txnMap
        && TxnTakes(s, s.txnMap[u], RowFor(env, e, StagedBytes(s, e)), e.faults.sql)
  {
    if e.body.Some? {
      var u := GetUploadId(e.identifier);
      StorePartIsLocal(env, s, u, LayerKey(e.identifier), e.body.value, e.at, u);
      var s1 := if |e.body.value| > 0
                then s.StorePart(u, LayerKey(e.identifier), e.body.value, env.digest(e.body.value), e.at).0
                else s;
      CompleteAccepts(env, s1, e, u, GetLayerIdentifierFromTrackingId(e.identifier));
    }
  }

  /** The single POST is the one finish that compares the digest with the content. */
  lemma SinglePostAccepts(env: Env, s: State, e: Event)
    requires NothingPending(s.store) && e.Post? && Finishes(e)
    ensures Step(env, s, e).1.status == 201 <==>
      && e.body.Some? && env.digest(e.body.value) == e.digest
      && !e.faults.idFails && NodeWorks(env, e.faults.node)
      && !e.faults.sql.newTxnFails && e.faults.sql.write.Works? && !e.faults.sql.commitFails
      && (e.digest in s.store.layers || !IdTaken(s.store.layers, e.layerId))
  {
  }

  // ---------- what the replies tell ----------

  /** A failure reply can hide a commit: exactly when the download URL of a finish whose reply
      carries one cannot be made. A 201 never lies. */
  lemma {:induction false} FailureReplyMayHaveCommitted(env: Env, r: Run)
    requires r.Then? && Finishes(r.event)
    ensures Reply(env, r).status == 201 ==> Recorded(env, r)
    ensures Recorded(env, r) ==>
      (Reply(env, r).status != 201 <==>
         r.event.faults.urlFails && (r.event.Post? || FinishesAtOnce(Exec(env, r.before), r.event)))
  {
    if r.event.Put? && IsTrackingId(r.event.identifier)
       && Exec(env, r.before).Counter(GetUploadId(r.event.identifier)) != 0 {
      ChunkedReplyHasNoUrl(env, Exec(env, r.before), r.event);
    }
  }

  lemma ChunkedReplyHasNoUrl(env: Env, s: State, e: Event)
    requires e.Put? && IsTrackingId(e.identifier) && s.Counter(GetUploadId(e.identifier)) != 0
    ensures !Step(env, s, e).1.location.Download?
  {
  }

  /** A refused SetLayer is final: a transaction the server has aborted, like a finished
      one, never lets its upload commit again. */
  lemma {:induction false} ClosedUploadsNeverCommit(env: Env, p: Run, r: Run, u: string)
    requires FreshIds(r) && Extends(p, r) && Closed(Exec(env, p), u)
    ensures Closed(Exec(env, r), u)
    ensures CommitCount(env, r, u) == CommitCount(env, p, u)
  {
    if r != p {
      ClosedUploadsNeverCommit(env, p, r.before, u);
      StepTxns(env, Exec(env, r.before), r.event);
      FreshPrefix(p, r);
      CommittedIsClosed(env, r.before, u);
      if Commits(env, r, u) {
        CommitClosesTxn(env, r.before, r.event, u);
      }
    }
  }

  lemma {:induction false} FreshPrefix(p: Run, r: Run)
    requires FreshIds(r) && Extends(p, r)
    ensures FreshIds(p)
  {
    if r != p {
      FreshPrefix(p, r.before);
    }
  }

  /** PATCH looks at where a Content-Range starts and never at where it ends. */
  lemma RangeEndIsIgnored(env: Env, s: State, at: nat, identifier: string, c1: string, c2: string,
                          body: Option<Bytes>)
    requires IsFirstChunk(c1) <==> IsFirstChunk(c2)
    requires !IsFirstChunk(c1) ==>
      ScanRange(c1).Some? && ScanRange(c2).Some? && ScanRange(c1).value.0 == ScanRange(c2).value.0
    ensures s.UploadBlob(env, at, identifier, c1, body) == s.UploadBlob(env, at, identifier, c2, body)
  {
  }

  /** A chunked finish points its client at the digest of the LAST chunk: its Location and
      Docker-Content-Digest name the committed layer exactly when the last chunk alone
      hashes to the named digest. */
  lemma ChunkedFinishLocation(env: Env, s: State, e: Event)
    requires e.Put? && IsTrackingId(e.identifier) && s.Counter(GetUploadId(e.identifier)) != 0
    requires Step(env, s, e).1.status == 201
    ensures var resp := Step(env, s, e).1;
      && (resp.location == BlobPath(e.digest) <==> env.digest(Content(e.body)) == e.digest)
      && (resp.contentDigest == e.digest <==> env.digest(Content(e.body)) == e.digest)
  {
  }

  /** A DELETE answered 202 removed the layer exactly when its commit worked, or when
      there was none to remove. */
  lemma {:induction false} DeleteReplyMeansGone(env: Env, r: Run)
    requires r.Then? && r.event.Delete? && Reply(env, r).status == 202
    ensures r.event.digest !in Exec(env, r).store.layers <==>
      !r.event.faults.sql.commitFails || r.event.digest !in Exec(env, r.before).store.layers
  {
    var (st, txn) := Exec(env, r.before).store.NewTxn(r.event.faults.sql.newTxnFails);
    if txn.Some? {
      OneWriteView(st, txn.value, Remove(r.event.digest));
    }
  }
}
