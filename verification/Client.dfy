/** The client's side: a client that follows the protocol is served at every step, and its
    push ends with exactly its bytes in the registry. */
module Client {
  import opened Prelude
  import opened Text
  import opened Identifiers
  import opened P2P
  import opened LayerStore
  import opened Registry
  import opened UploadView
  import opened UploadSafety
  import opened PushPull
  import opened Commits

  /** A chunk as the protocol wants it: not empty, and starting at the first byte not yet
      sent (one past the end of the last Range reported). */
  predicate WellPlaced(e: Event, trackingId: string, sent: nat) {
    && e.Patch? && e.identifier == trackingId
    && e.body.Some? && e.body.value != []
    && e.contentRange == RangeText(sent, sent + |e.body.value| - 1)
  }

  /** What the client of `u` has sent since `p`. */
  function Sent(p: Run, r: Run, u: string): Bytes {
    if r == p || r.Boot? then []
    else Sent(p, r.before, u) + if r.event.Patch? && Names(r.event.identifier, u) then Content(r.event.body) else []
  }

  /** Since `p`, requests naming `u` were well-placed chunks and polls only, and no tick
      came after `deadline`. Other uploads do as they like. */
  predicate Conforms(p: Run, r: Run, u: string, trackingId: string, deadline: nat) {
    r == p
    || (&& r.Then?
        && Conforms(p, r.before, u, trackingId, deadline)
        && (Concerns(r.event, u) ==>
              || r.event.Get?
              || (r.event.Tick? && !Expired(r.event.at, deadline))
              || WellPlaced(r.event, trackingId, |Sent(p, r.before, u)|)))
  }

  /** Upload `u` has been opened for `layerId` by the last event of the run, its id being
      new to everybody. */
  predicate Opens(env: Env, r: Run, u: string, layerId: string) {
    && r.Then? && Starts(r.event, u) && r.event.layerId == layerId
    && Reply(env, r).status == 202
    && Requests(r.before, u) == 0
    && ':' !in u && ':' !in layerId
  }

  /** The reply to the opening POST hands the client an id that leads every later request
      back to this upload and its layer key. */
  lemma {:induction false} ClientLearnsItsId(env: Env, p: Run, u: string, layerId: string)
    requires Opens(env, p, u, layerId)
    ensures Reply(env, p).location.UploadPath?
    ensures var id := Reply(env, p).location.trackingId;
      id == CreateUploadTrackingIdentifier(u, layerId)
      && Names(id, u) && LayerKey(id) == GetLayerIdentifier(layerId)
  {
    TrackingIdRoundTrip(u, layerId);
  }

  predicate UpToDate(x: Upload, layerId: string, deadline: nat, requests: nat, sent: Bytes) {
    && x.session == Some(Session(GetLayerIdentifier(layerId), deadline))
    && x.counter == requests
    && x.length == |sent|
    && x.Bytes() == sent
    && (x.parts != [] <==> sent != [])
    && (x.buffer.Some? <==> sent != [])
    && (requests == 0 <==> sent == [])
  }

  lemma {:induction false} RequestsNeverDrop(p: Run, r: Run, u: string, trackingId: string, deadline: nat)
    requires Conforms(p, r, u, trackingId, deadline)
    ensures Requests(p, u) <= Requests(r, u)
  {
    if r != p {
      RequestsNeverDrop(p, r.before, u, trackingId, deadline);
    }
  }

  /** A well-placed chunk passes the offset test. */
  lemma WellPlacedFits(sent: nat, end: nat, hasParts: bool)
    requires sent <= end < INT64_LIMIT
    requires sent > 0 <==> hasParts
    ensures RangeFits(RangeText(sent, end), sent, hasParts)
    ensures IsFirstChunk(RangeText(sent, end)) <==> sent == 0
  {
    RangeRoundTrip(sent, end);
    ZeroPrefixIsZeroStart(sent, end);
    assert RangeText(sent, end)[0] == Text.Nat(sent)[0];
  }

  /** The backend takes a well-placed chunk. */
  lemma WellPlacedIsTaken(env: Env, x: Upload, u: string, layerId: string, deadline: nat, requests: nat,
                          sent: Bytes, e: Event)
    requires ':' !in u && ':' !in layerId
    requires UpToDate(x, layerId, deadline, requests, sent) && requests < MAX_UPLOAD_PARTS
    requires WellPlaced(e, CreateUploadTrackingIdentifier(u, layerId), |sent|)
    requires |sent| + |e.body.value| < INT64_LIMIT
    ensures Names(e.identifier, u)
    ensures var (y, ok) := PatchUpload(env, x, e);
      ok && UpToDate(y, layerId, deadline, requests + 1, sent + e.body.value)
  {
    TrackingIdRoundTrip(u, layerId);
    WellPlacedFits(|sent|, |sent| + |e.body.value| - 1, x.parts != []);
    assert sent + e.body.value != [];
    assert sent == [] ==> sent + e.body.value == e.body.value;
  }

  lemma WellPlacedStep(env: Env, s: State, u: string, layerId: string, deadline: nat, requests: nat, sent: Bytes,
                       e: Event)
    requires ':' !in u && ':' !in layerId
    requires UpToDate(View(s, u), layerId, deadline, requests, sent) && requests < MAX_UPLOAD_PARTS
    requires WellPlaced(e, CreateUploadTrackingIdentifier(u, layerId), |sent|)
    requires |sent| + |e.body.value| < INT64_LIMIT
    ensures Names(e.identifier, u) && Answer(env, s, e).status == 202
    ensures UpToDate(View(Step(env, s, e).0, u), layerId, deadline, requests + 1, sent + e.body.value)
  {
    WellPlacedIsTaken(env, View(s, u), u, layerId, deadline, requests, sent, e);
    StepIsLocal(env, s, e, u);
    PatchReply(env, s, e);
  }

  /** Polls, ticks within the lease and other uploads' requests change nothing. */
  lemma IdleKeeps(env: Env, x: Upload, u: string, layerId: string, deadline: nat, requests: nat, sent: Bytes, e: Event)
    requires UpToDate(x, layerId, deadline, requests, sent)
    requires x.buffer.Some? ==> Unix(deadline) <= Unix(x.buffer.value.expiresAt)
    requires Concerns(e, u) ==> e.Get? || (e.Tick? && !Expired(e.at, deadline))
    ensures UpToDate(UploadStep(env, x, u, e), layerId, deadline, requests, sent)
  {
  }

  lemma IdleStep(env: Env, s: State, u: string, layerId: string, deadline: nat, requests: nat, sent: Bytes, e: Event)
    requires UpToDate(View(s, u), layerId, deadline, requests, sent)
    requires u in s.dfs.buffers ==> Unix(deadline) <= Unix(s.dfs.buffers[u].expiresAt)
    requires Concerns(e, u) ==> e.Get? || (e.Tick? && !Expired(e.at, deadline))
    ensures UpToDate(View(Step(env, s, e).0, u), layerId, deadline, requests, sent)
  {
    StepIsLocal(env, s, e, u);
    IdleKeeps(env, View(s, u), u, layerId, deadline, requests, sent, e);
  }

  lemma {:induction false} ConformingIsUpToDate(env: Env, p: Run, r: Run, u: string, layerId: string)
    requires Plausible(r) && Opens(env, p, u, layerId)
    requires Conforms(p, r, u, CreateUploadTrackingIdentifier(u, layerId), p.event.at + SESSION_TIMEOUT)
    requires Requests(r, u) <= MAX_UPLOAD_PARTS && |Sent(p, r, u)| < INT64_LIMIT
    ensures Plausible(p)
    ensures UpToDate(View(Exec(env, r), u), layerId, p.event.at + SESSION_TIMEOUT, Requests(r, u), Sent(p, r, u))
    ensures r != p && r.event.Patch? && Names(r.event.identifier, u) ==> Reply(env, r).status == 202
  {
    var trackingId, deadline := CreateUploadTrackingIdentifier(u, layerId), p.event.at + SESSION_TIMEOUT;
    if r == p {
      OpeningIsUpToDate(env, p.before, p.event, u);
    } else {
      var s, e := Exec(env, r.before), r.event;
      ConformingIsUpToDate(env, p, r.before, u, layerId);
      if WellPlaced(e, trackingId, |Sent(p, r.before, u)|) {
        TrackingIdRoundTrip(u, layerId);
        WellPlacedStep(env, s, u, layerId, deadline, Requests(r.before, u), Sent(p, r.before, u), e);
      } else {
        CoherentAlways(env, r.before, u);
        IdleStep(env, s, u, layerId, deadline, Requests(r.before, u), Sent(p, r.before, u), e);
        assert Sent(p, r, u) == Sent(p, r.before, u) + [] == Sent(p, r.before, u);
      }
    }
  }

  lemma OpeningIsUpToDate(env: Env, q: Run, e: Event, u: string)
    requires Plausible(Then(q, e)) && Starts(e, u) && Requests(q, u) == 0
    ensures UpToDate(View(Exec(env, Then(q, e)), u), e.layerId, e.at + SESSION_TIMEOUT, 0, [])
  {
    CoherentAlways(env, q, u);
    NumberedAlways(env, q, u);
    StepIsLocal(env, Exec(env, q), e, u);
  }

  lemma {:induction false} AcceptedIsSent(env: Env, p: Run, r: Run, u: string, layerId: string)
    requires Plausible(r) && Opens(env, p, u, layerId)
    requires Conforms(p, r, u, CreateUploadTrackingIdentifier(u, layerId), p.event.at + SESSION_TIMEOUT)
    requires Requests(r, u) <= MAX_UPLOAD_PARTS && |Sent(p, r, u)| < INT64_LIMIT
    ensures Accepted(env, r, u) == Sent(p, r, u)
  {
    ConformingIsUpToDate(env, p, r, u, layerId);
    CoherentAlways(env, r, u);
  }

  /** Conforming-client progress: every chunk of a client that sends non-empty chunks, each
      at the first byte not yet sent and within the lease, is accepted while no more than
      1000 part numbers are used; the Range it gets back ends at its last byte, so its next
      offset is right again; and nothing it sent is lost. */
  lemma {:induction false} ConformingClientProgresses(env: Env, p: Run, r: Run, u: string, layerId: string)
    requires Plausible(r) && Opens(env, p, u, layerId)
    requires Conforms(p, r, u, CreateUploadTrackingIdentifier(u, layerId), p.event.at + SESSION_TIMEOUT)
    requires Requests(r, u) <= MAX_UPLOAD_PARTS && |Sent(p, r, u)| < INT64_LIMIT
    requires r != p && r.event.Patch? && Names(r.event.identifier, u)
    ensures Accepted(env, r, u) == Sent(p, r, u)
    ensures Reply(env, r).status == 202
    ensures ScanRange(Reply(env, r).range) == Some((0, |Sent(p, r, u)| - 1))
  {
    ConformingIsUpToDate(env, p, r, u, layerId);
    AcceptedIsSent(env, p, r, u, layerId);
    RangeOfPatch(env, r, u);
    RangeReplyScans(|Accepted(env, r, u)|);
  }

  // ---------- the whole push ----------

  ghost predicate TxnOpen(s: State, u: string) {
    u in s.txnMap && s.store.IsOpen(s.txnMap[u])
  }

  lemma {:induction false} ConformingKeepsTxn(env: Env, p: Run, r: Run, u: string, layerId: string)
    requires FreshIds(r) && Opens(env, p, u, layerId)
    requires Conforms(p, r, u, CreateUploadTrackingIdentifier(u, layerId), p.event.at + SESSION_TIMEOUT)
    ensures TxnOpen(Exec(env, r), u)
  {
    if r != p {
      var s, e := Exec(env, r.before), r.event;
      ConformingKeepsTxn(env, p, r.before, u, layerId);
      TxnsApartAlways(env, r.before);
      StepTxns(env, s, e);
      assert Target(s, e) != s.txnMap[u];
    }
  }

  /** In the state a conforming client has brought about, its closing PUT commits. */
  lemma ReadyFinishCommits(env: Env, s: State, u: string, layerId: string, deadline: nat, requests: nat, sent: Bytes,
                           e: Event)
    requires NothingPending(s.store) && TxnOpen(s, u)
    requires UpToDate(View(s, u), layerId, deadline, requests, sent)
    requires e.Put? && Names(e.identifier, u) && GetLayerIdentifierFromTrackingId(e.identifier) == layerId
    requires e.body.Some? && requests <= MAX_UPLOAD_PARTS && (requests == MAX_UPLOAD_PARTS ==> e.body.value == [])
    requires NodeWorks(env, e.faults.node) && e.faults.sql.write.Works? && !e.faults.sql.commitFails
    requires requests == 0 ==> !e.faults.urlFails
    requires e.digest in s.store.layers || !IdTaken(s.store.layers, layerId)
    ensures Step(env, s, e).1.status == 201 && Answer(env, s, e).status == 201
  {
    if s.Counter(u) == 0 {
      MonolithicPutAccepts(env, s, e);
    } else {
      ChunkedPutAccepts(env, s, e);
      ChunkedReplyHasNoUrl(env, s, e);
    }
  }

  /** A conforming push succeeds: when nothing fails and the digest is known or the layer id
      is free, the closing PUT (with or without a last chunk) is answered 201, and what it
      stores for a new digest is the client's bytes, all of them, in order. */
  lemma {:induction false} ConformingPushSucceeds(env: Env, p: Run, r: Run, u: string, layerId: string, e: Event)
    requires SoundCids(env) && Plausible(Then(r, e)) && Opens(env, p, u, layerId)
    requires Conforms(p, r, u, CreateUploadTrackingIdentifier(u, layerId), p.event.at + SESSION_TIMEOUT)
    requires Requests(r, u) <= MAX_UPLOAD_PARTS && |Sent(p, r, u)| < INT64_LIMIT
    requires e.Put? && e.identifier == CreateUploadTrackingIdentifier(u, layerId) && e.body.Some?
    requires NodeWorks(env, e.faults.node) && e.faults.sql.write.Works? && !e.faults.sql.commitFails
    requires Requests(r, u) == MAX_UPLOAD_PARTS ==> e.body.value == []
    requires Requests(r, u) == 0 ==> !e.faults.urlFails
    requires e.digest in Exec(env, r).store.layers || !IdTaken(Exec(env, r).store.layers, layerId)
    ensures Reply(env, Then(r, e)).status == 201
    ensures e.digest !in Exec(env, r).store.layers ==>
      var s := Exec(env, Then(r, e));
      var bytes := Sent(p, r, u) + e.body.value;
      && e.digest in s.store.layers
      && var row := s.store.layers[e.digest];
         && row.dfsLink in s.dfs.objects && s.dfs.objects[row.dfsLink] == bytes
         && row.size == |bytes| && row.id == layerId
  {
    var s := Exec(env, r);
    TrackingIdRoundTrip(u, layerId);
    IntegrityAlways(env, r);
    ConformingIsUpToDate(env, p, r, u, layerId);
    PlausibleIsFresh(r);
    ConformingKeepsTxn(env, p, r, u, layerId);
    ReadyFinishCommits(env, s, u, layerId, p.event.at + SESSION_TIMEOUT, Requests(r, u), Sent(p, r, u), e);
    if e.digest !in s.store.layers {
      AcceptedIsSent(env, p, r, u, layerId);
      PushStoresPushedBytes(env, r, e, e.digest);
      StepOutcome(env, r, e);
    }
  }
}
