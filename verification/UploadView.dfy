/** What the server keeps for one upload, and the fact everything about uploads rests on:
    a handler call reads and writes the state of the upload it names and of no other. */
module UploadView {
  import opened Prelude
  import opened Identifiers
  import opened P2P
  import opened Registry

  datatype Upload = Upload(
    session: Option<Session>,
    buffer: Option<PartBuffer>,
    counter: int,
    length: int,
    parts: seq<CompletedPart>)
  {
    function Bytes(): Bytes {
      match buffer
      case None => []
      case Some(p) => p.buf
    }
  }

  const NoUpload := Upload(None, None, 0, 0, [])

  function View(s: State, u: string): Upload {
    Upload(Find(s.dfs.sessions, u), Find(s.dfs.buffers, u), s.Counter(u), s.Length(u), s.Parts(u))
  }

  predicate Names(identifier: string, u: string) {
    IsTrackingId(identifier) && GetUploadId(identifier) == u
  }

  predicate Starts(e: Event, u: string) {
    e.Post? && e.digest == "" && !e.faults.idFails && e.uploadId == u
  }

  /** The events that concern upload `u`: its own requests and the collector. */
  predicate Concerns(e: Event, u: string) {
    match e
    case Post(_, _, _, _, _, _, _) => Starts(e, u)
    case Patch(_, identifier, _, _) => Names(identifier, u)
    case Get(_, identifier) => Names(identifier, u)
    case Put(_, identifier, _, _, _, _) => Names(identifier, u)
    case PutMonolithic(_, identifier, _, _, _, _) => Names(identifier, u)
    case Pull(_, _, _, _) => false
    case Delete(_, _, _) => false
    case Tick(_) => true
  }

  function LayerKey(identifier: string): string
    requires IsTrackingId(identifier)
  {
    GetLayerIdentifier(GetLayerIdentifierFromTrackingId(identifier))
  }

  /** One part offered to the backend. */
  function Offer(env: Env, x: Upload, layerKey: string, content: Bytes, at: nat): (Upload, bool) {
    var n := Int32(x.counter + 1);
    if TakesPart(x.session, layerKey, n)
    then (x.(counter := n,
             buffer := Some(Appended(x.buffer, content, at)),
             parts := x.parts + [CompletedPart(env.digest(content), n)],
             length := x.length + |content|), true)
    else (x.(counter := n), false)
  }

  function PatchUpload(env: Env, x: Upload, e: Event): (Upload, bool)
    requires e.Patch? && IsTrackingId(e.identifier)
  {
    if !RangeFits(e.contentRange, x.length, x.parts != []) || e.body.None? then (x, false)
    else
      var (y, ok) := Offer(env, x, LayerKey(e.identifier), e.body.value, e.at);
      (if ok && IsFirstChunk(e.contentRange) then y.(length := |e.body.value|) else y, ok)
  }

  /** The state in which a chunked finish asks the backend to assemble the object;
      the flag is false when the finish stops before that. */
  function LastChunk(env: Env, x: Upload, e: Event): (Upload, bool)
    requires e.Put? && IsTrackingId(e.identifier)
  {
    if x.counter == 0 || e.body.None? then (x, false)
    else if |e.body.value| == 0 then (x, true)
    else Offer(env, x, LayerKey(e.identifier), e.body.value, e.at)
  }

  function Alive<T>(entry: Option<T>, expired: bool): Option<T> {
    if expired then None else entry
  }

  function UploadStep(env: Env, x: Upload, u: string, e: Event): Upload {
    if !Concerns(e, u) then x
    else
      match e
      case Post(at, _, _, _, _, layerId, _) =>
        x.(session := Some(Session(GetLayerIdentifier(layerId), at + SESSION_TIMEOUT)))
      case Patch(_, _, _, _) => PatchUpload(env, x, e).0
      case Put(_, _, _, _, _, _) =>
        var (y, assembles) := LastChunk(env, x, e);
        if assembles then y.(session := None, buffer := None, parts := []) else y
      case Tick(at) =>
        x.(session := Alive(x.session, x.session.Some? && Expired(at, x.session.value.expiresAt)),
           buffer := Alive(x.buffer, x.buffer.Some? && Expired(at, x.buffer.value.expiresAt)))
      case _ => x
  }

  lemma StorePartIsLocal(env: Env, s: State, v: string, layerKey: string, content: Bytes, at: nat, u: string)
    ensures var (s', ok) := s.StorePart(v, layerKey, content, env.digest(content), at);
      var (y, ok') := Offer(env, View(s, v), layerKey, content, at);
      && ok == ok'
      && View(s', u) == (if u == v then y else View(s, u))
  {
  }

  lemma CompleteIsLocal(env: Env, s: State, e: Event, v: string, layerId: string, lastChunk: Bytes, u: string)
    requires e.Put?
    ensures var s' := s.Complete(env, e.at, v, layerId, e.digest, e.mediaType, lastChunk, e.faults).0;
      View(s', u) == (if u == v then View(s, u).(session := None, buffer := None, parts := []) else View(s, u))
  {
  }

  lemma PatchIsLocal(env: Env, s: State, e: Event, u: string)
    requires e.Patch?
    ensures View(Step(env, s, e).0, u) == UploadStep(env, View(s, u), u, e)
  {
    if IsTrackingId(e.identifier) && e.body.Some? {
      StorePartIsLocal(env, s, GetUploadId(e.identifier), LayerKey(e.identifier), e.body.value, e.at, u);
    }
  }

  lemma MonolithicUploadIsLocal(env: Env, s: State, e: Event, u: string)
    requires e.Post?
    ensures View(s.MonolithicUpload(env, e.at, e.digest, e.body, e.mediaType, e.layerId, e.faults).0, u) == View(s, u)
  {
  }

  lemma PostIsLocal(env: Env, s: State, e: Event, u: string)
    requires e.Post?
    ensures View(Step(env, s, e).0, u) == UploadStep(env, View(s, u), u, e)
  {
    if e.digest != "" {
      MonolithicUploadIsLocal(env, s, e, u);
    }
  }

  lemma MonolithicPutIsLocal(env: Env, s: State, at: nat, identifier: string, digest: string, mediaType: string,
                             body: Option<Bytes>, f: Faults, u: string)
    ensures View(s.MonolithicPut(env, at, identifier, digest, mediaType, body, f).0, u) == View(s, u)
  {
  }

  lemma PutIsLocal(env: Env, s: State, e: Event, u: string)
    requires e.Put?
    ensures View(Step(env, s, e).0, u) == UploadStep(env, View(s, u), u, e)
  {
    if !IsTrackingId(e.identifier) {
      return;
    }
    var v := GetUploadId(e.identifier);
    var layerId := GetLayerIdentifierFromTrackingId(e.identifier);
    if s.Counter(v) != 0 && e.body.Some? {
      var s1 := s;
      if |e.body.value| > 0 {
        StorePartIsLocal(env, s, v, LayerKey(e.identifier), e.body.value, e.at, u);
        StorePartIsLocal(env, s, v, LayerKey(e.identifier), e.body.value, e.at, v);
        s1 := s.StorePart(v, LayerKey(e.identifier), e.body.value, env.digest(e.body.value), e.at).0;
      }
      CompleteIsLocal(env, s1, e, v, layerId, e.body.value, u);
    } else {
      MonolithicPutIsLocal(env, s, e.at, e.identifier, e.digest, e.mediaType, e.body, e.faults, u);
    }
  }

  /** A step changes upload `u` exactly as `u`'s own state says it must. */
  lemma {:induction false} StepIsLocal(env: Env, s: State, e: Event, u: string)
    ensures View(Step(env, s, e).0, u) == UploadStep(env, View(s, u), u, e)
  {
    match e
    case Post(_, _, _, _, _, _, _) => PostIsLocal(env, s, e, u);
    case Patch(_, _, _, _) => PatchIsLocal(env, s, e, u);
    case Put(_, _, _, _, _, _) => PutIsLocal(env, s, e, u);
    case PutMonolithic(at, identifier, digest, mediaType, body, f) =>
      MonolithicPutIsLocal(env, s, at, identifier, digest, mediaType, body, f, u);
    case _ =>
  }

  /** The reply to a PATCH says whether the backend took the chunk, and how far it now is. */
  lemma PatchReply(env: Env, s: State, e: Event)
    requires e.Patch? && IsTrackingId(e.identifier)
    ensures var (y, ok) := PatchUpload(env, View(s, GetUploadId(e.identifier)), e);
      && (Step(env, s, e).1.status == 202 <==> ok)
      && (ok ==> Step(env, s, e).1.range == RangeReply(y.length))
  {
    if e.body.Some? {
      var u := GetUploadId(e.identifier);
      StorePartIsLocal(env, s, u, LayerKey(e.identifier), e.body.value, e.at, u);
    }
  }

  // ---------- whole runs ----------

  function ExecUpload(env: Env, r: Run, u: string): Upload {
    match r
    case Boot => NoUpload
    case Then(p, e) => UploadStep(env, ExecUpload(env, p, u), u, e)
  }

  lemma {:induction false} ExecIsLocal(env: Env, r: Run, u: string)
    ensures View(Exec(env, r), u) == ExecUpload(env, r, u)
  {
    match r
    case Boot =>
    case Then(p, e) =>
      ExecIsLocal(env, p, u);
      StepIsLocal(env, Exec(env, p), e, u);
  }

  /** The run with every event that does not concern `u` left out. */
  function Only(r: Run, u: string): Run {
    match r
    case Boot => Boot
    case Then(p, e) => if Concerns(e, u) then Then(Only(p, u), e) else Only(p, u)
  }

  lemma {:induction false} ExecUploadOnly(env: Env, r: Run, u: string)
    ensures ExecUpload(env, r, u) == ExecUpload(env, Only(r, u), u)
  {
    match r
    case Boot =>
    case Then(p, e) => ExecUploadOnly(env, p, u);
  }

  /** Interleaving independence: whatever other clients do in between, upload `u` is in
      the state its own requests (and the ticks) alone would have put it in. */
  lemma {:induction false} InterleavingIndependence(env: Env, r: Run, u: string)
    ensures View(Exec(env, r), u) == View(Exec(env, Only(r, u)), u)
  {
    ExecIsLocal(env, r, u);
    ExecUploadOnly(env, r, u);
    ExecIsLocal(env, Only(r, u), u);
  }

  /** ... and so its client cannot tell: every PATCH and every progress poll gets the
      verdict and the Range it would have got alone. */
  lemma {:induction false} InterleavingInvisible(env: Env, r: Run, u: string)
    requires r.Then? && Concerns(r.event, u) && (r.event.Patch? || r.event.Get?)
    ensures var alone := Then(Only(r.before, u), r.event);
      && Only(r, u) == alone
      && (Reply(env, r).status == 202 <==> Reply(env, alone).status == 202)
      && (Reply(env, r).status == 202 || r.event.Get? ==> Reply(env, r).range == Reply(env, alone).range)
  {
    InterleavingIndependence(env, r.before, u);
    var s, t := Exec(env, r.before), Exec(env, Only(r.before, u));
    if r.event.Patch? {
      PatchReply(env, s, r.event);
      PatchReply(env, t, r.event);
    } else {
      assert s.dfs.Progress(u) == |View(s, u).Bytes()|;
      assert t.dfs.Progress(u) == |View(t, u).Bytes()|;
    }
  }
}
