/** Short runs that every client, or a bad clock, can bring about, and that fail what one
    would expect. Each lies just outside a condition proved exact elsewhere. */
module Counterexamples {
  import opened Prelude
  import opened Text
  import opened Identifiers
  import opened P2P
  import opened LayerStore
  import opened Registry
  import opened UploadView
  import opened UploadSafety
  import opened PushPull
  import opened Commits
  import opened Client

  const NO_FAULTS := Faults(NodeFaults(false, false), SqlFaults(false, Works, false), false, false)
  const OPENED_AT: nat := 100 * SECOND

  /** Upload "u" for layer id "l", the first event of every run here. */
  const OPENING := Event.Post(OPENED_AT, "", None, "", "u", "l", NO_FAULTS)
  const OPENED := Then(Boot, OPENING)

  function Id(): string {
    CreateUploadTrackingIdentifier("u", "l")
  }

  function Chunk(at: nat, identifier: string, content: Bytes): Event {
    Event.Patch(at, identifier, "", Some(content))
  }

  function WholePut(digest: string, content: Bytes): Event {
    Event.PutMonolithic(OPENED_AT, Id(), digest, "", Some(content), NO_FAULTS)
  }

  /** The upload as the opening POST leaves it, `n` part numbers later. */
  function Waiting(n: int): Upload {
    Upload(Some(Session(GetLayerIdentifier("l"), OPENED_AT + SESSION_TIMEOUT)), None, n, 0, [])
  }

  lemma OpenedState(env: Env)
    ensures Names(Id(), "u") && LayerKey(Id()) == GetLayerIdentifier("l")
    ensures Plausible(OPENED) && Requests(OPENED, "u") == 0
    ensures View(Exec(env, OPENED), "u") == Waiting(0) && Accepted(env, OPENED, "u") == []
    ensures Exec(env, OPENED).store == Store(map[], [LayerStore.Open([])])
    ensures Exec(env, OPENED).txnMap == map["u" := 0]
  {
    TrackingIdRoundTrip("u", "l");
    StepIsLocal(env, Init(), OPENING, "u");
    assert Exec(env, Boot) == Init() && Accepted(env, Boot, "u") == [];
  }

  // ---------- a clock that goes back ----------

  lemma EarlyBufferIsSwept(env: Env, p: Run)
    requires View(Exec(env, p), "u").session == Waiting(0).session
    requires View(Exec(env, p), "u").buffer == Some(PartBuffer([7], SESSION_TIMEOUT))
    requires Accepted(env, p, "u") == [7]
    ensures var r := Then(p, Event.Tick(350 * SECOND));
      && "u" in Exec(env, r).dfs.sessions
      && View(Exec(env, r), "u").Bytes() == [] && Accepted(env, r, "u") == [7]
  {
    var r := Then(p, Event.Tick(350 * SECOND));
    StepIsLocal(env, Exec(env, p), r.event, "u");
    assert View(Exec(env, r), "u") == UploadStep(env, View(Exec(env, p), "u"), "u", r.event);
    assert View(Exec(env, r), "u").session.Some?;
    assert NewlyAccepted(env, r, "u") == [];
  }

  /** A first chunk stamped before its upload was opened, and a tick within the lease: the
      chunk is swept from under the live session, and the upload goes on without it. */
  lemma {:induction false} BackwardClockTruncates(env: Env, r: Run)
    requires r == Then(Then(OPENED, Chunk(0, Id(), [7])), Event.Tick(350 * SECOND))
    ensures FreshIds(r)
    ensures Reply(env, r.before).status == 202
    ensures "u" in Exec(env, r).dfs.sessions
    ensures View(Exec(env, r), "u").Bytes() == [] && Accepted(env, r, "u") == [7]
  {
    OpenedState(env);
    PlausibleIsFresh(OPENED);
    ChunkIsTaken(env, OPENED, Chunk(0, Id(), [7]));
    EarlyBufferIsSwept(env, r.before);
  }

  /** The chunk "00-0" is a next chunk by its text, and starts at offset 0. */
  lemma ZeroOffsetScans()
    ensures !IsFirstChunk("00-0") && ScanRange("00-0") == Some((0, 0))
  {
    var s := "00-0";
    assert DigitsEnd(s, 2) == 2;
    assert DigitsEnd(s, 1) == 2;
    assert s[0..2] == "00" && "00"[..1] == "0" && "0"[..0] == "";
    assert ValueOf("0") == 0;
    assert s[2..] == "-0" && "-0"[1..] == "0" && Nat(0) == "0" && "0" + "" == "0";
    ScanNat(0, "");
  }

  const EMPTY_FIRST := Then(OPENED, Chunk(0, Id(), []))
  const GOOD_CHUNK := Event.Patch(OPENED_AT, Id(), "00-0", Some([7]))

  /** What an empty chunk stamped 0 leaves: a part, and a buffer leased from 0. */
  function Filled(env: Env): Upload {
    Waiting(1).(buffer := Some(PartBuffer([], SESSION_TIMEOUT)), parts := [CompletedPart(env.digest([]), 1)])
  }

  lemma EmptyChunkFills(env: Env)
    ensures FreshIds(EMPTY_FIRST)
    ensures View(Exec(env, EMPTY_FIRST), "u") == Filled(env) && Accepted(env, EMPTY_FIRST, "u") == []
  {
    OpenedState(env);
    PlausibleIsFresh(OPENED);
    StepIsLocal(env, Exec(env, OPENED), EMPTY_FIRST.event, "u");
    assert Accepted(env, EMPTY_FIRST, "u") == [] + [];
  }

  lemma GoodChunkFits(env: Env, e: Event)
    requires Names(Id(), "u") && LayerKey(Id()) == GetLayerIdentifier("l") && e == GOOD_CHUNK
    ensures var (y, ok) := PatchUpload(env, Filled(env), e);
      && y == UploadStep(env, Filled(env), "u", e)
      && ok && y.session == Filled(env).session && y.buffer == Some(PartBuffer([7], SESSION_TIMEOUT))
  {
    ZeroOffsetScans();
    assert [] + [7] == [7];
  }

  /** What holds of the upload's own step holds after the server's. */
  lemma ChunkIsTaken(env: Env, p: Run, e: Event)
    requires e.Patch? && Names(e.identifier, "u") && PatchUpload(env, View(Exec(env, p), "u"), e).1
    ensures var r := Then(p, e);
      && Reply(env, r).status == 202
      && Accepted(env, r, "u") == Accepted(env, p, "u") + Content(e.body)
      && View(Exec(env, r), "u") == UploadStep(env, View(Exec(env, p), "u"), "u", e)
  {
    StepIsLocal(env, Exec(env, p), e, "u");
    PatchReply(env, Exec(env, p), e);
  }

  /** It is the chunk that creates the buffer that counts, not the first one with content: an
      empty chunk stamped before the opening, then a good one, then a tick within the lease. */
  lemma {:induction false} EmptyChunkSetsTheLease(env: Env, r: Run)
    requires r == Then(Then(EMPTY_FIRST, GOOD_CHUNK), Event.Tick(350 * SECOND))
    ensures FreshIds(r)
    ensures Reply(env, r.before).status == 202
    ensures "u" in Exec(env, r).dfs.sessions
    ensures View(Exec(env, r), "u").Bytes() == [] && Accepted(env, r, "u") == [7]
  {
    OpenedState(env);
    EmptyChunkFills(env);
    GoodChunkFits(env, r.before.event);
    ChunkIsTaken(env, r.before.before, r.before.event);
    EarlyBufferIsSwept(env, r.before);
  }

  // ---------- the 32-bit part counter ----------

  /** The opening, then `n` chunks sent under a wrong layer key. */
  function Attempts(n: nat): Run {
    if n == 0 then OPENED
    else Then(Attempts(n - 1), Chunk(OPENED_AT, CreateUploadTrackingIdentifier("u", "x"), [7]))
  }

  lemma WrongKey()
    ensures var id := CreateUploadTrackingIdentifier("u", "x");
      Names(id, "u") && LayerKey(id) != GetLayerIdentifier("l")
  {
    TrackingIdRoundTrip("u", "x");
    assert GetLayerIdentifier("x")[7] != GetLayerIdentifier("l")[7];
  }

  lemma AttemptRefused(env: Env, p: Run, n: nat, e: Event)
    requires n < 0x7fff_ffff && e == Chunk(OPENED_AT, CreateUploadTrackingIdentifier("u", "x"), [7])
    requires View(Exec(env, p), "u") == Waiting(n)
    ensures View(Exec(env, Then(p, e)), "u") == Waiting(n + 1)
  {
    StepIsLocal(env, Exec(env, p), e, "u");
    WrongKey();
  }

  /** Refused chunks use up part numbers all the same. */
  lemma {:induction false} AttemptsCount(env: Env, n: nat)
    requires n <= 0x7fff_ffff
    ensures View(Exec(env, Attempts(n)), "u") == Waiting(n)
  {
    if n == 0 {
      OpenedState(env);
    } else {
      AttemptsCount(env, n - 1);
      AttemptRefused(env, Attempts(n - 1), n - 1, Attempts(n).event);
    }
  }

  /** After `n` refused chunks the next good one is taken exactly below the limit of 1000
      parts and once more, when the counter wraps: then as part number -2^31. */
  lemma {:induction false} PartNumberWraps(env: Env, n: nat, content: Bytes)
    requires n <= 0x7fff_ffff
    ensures var r := Then(Attempts(n), Chunk(OPENED_AT, Id(), content));
      var parts := View(Exec(env, r), "u").parts;
      && Plausible(r)
      && (Reply(env, r).status == 202 <==> n < MAX_UPLOAD_PARTS || n == 0x7fff_ffff)
      && (n == 0x7fff_ffff ==> |parts| == 1 && parts[0].partNumber == -0x8000_0000)
  {
    AttemptsCount(env, n);
    AttemptsArePlausible(n);
    OpenedState(env);
    var p, e := Attempts(n), Chunk(OPENED_AT, Id(), content);
    StepIsLocal(env, Exec(env, p), e, "u");
    PatchReply(env, Exec(env, p), e);
    GoodChunk(env, n, e);
    assert Exec(env, Then(p, e)) == Step(env, Exec(env, p), e).0;
  }

  lemma {:induction false} AttemptsArePlausible(n: nat)
    ensures Plausible(Attempts(n)) && OpenedAt(Attempts(n), "u") == Some(OPENED_AT)
  {
    if n > 0 {
      AttemptsArePlausible(n - 1);
      WrongKey();
    }
  }

  lemma GoodChunk(env: Env, n: nat, e: Event)
    requires n <= 0x7fff_ffff && Names(Id(), "u") && LayerKey(Id()) == GetLayerIdentifier("l")
    requires e.Patch? && e == Chunk(OPENED_AT, Id(), Content(e.body))
    ensures var (y, ok) := PatchUpload(env, Waiting(n), e);
      && y == UploadStep(env, Waiting(n), "u", e)
      && (ok <==> n < MAX_UPLOAD_PARTS || n == 0x7fff_ffff)
      && (n == 0x7fff_ffff ==> |y.parts| == 1 && y.parts[0].partNumber == -0x8000_0000)
  {
  }

  // ---------- what PUT and DELETE answer ----------

  function OneChunk(content: Bytes): Run
    requires content != []
  {
    Then(OPENED, Event.Patch(OPENED_AT, Id(), RangeText(0, |content| - 1), Some(content)))
  }

  function EmptyPut(identifier: string, digest: string): Event {
    Event.Put(OPENED_AT, identifier, digest, "", Some([]), NO_FAULTS)
  }

  lemma OneChunkConforms(env: Env, content: Bytes, digest: string)
    requires content != []
    ensures var p := OneChunk(content);
      && Opens(env, OPENED, "u", "l") && Conforms(OPENED, p, "u", Id(), OPENED_AT + SESSION_TIMEOUT)
      && Plausible(Then(p, EmptyPut(Id(), digest))) && Requests(p, "u") == 1 && Sent(OPENED, p, "u") == content
  {
    OpenedState(env);
    var p := OneChunk(content);
    assert Sent(OPENED, OPENED, "u") == [];
    assert [] + content == content;
    assert WellPlaced(p.event, Id(), 0);
    assert Conforms(OPENED, OPENED, "u", Id(), OPENED_AT + SESSION_TIMEOUT);
    assert Plausible(p);
  }

  lemma OneChunkPushed(env: Env, content: Bytes, e: Event)
    requires SoundCids(env) && 0 < |content| < INT64_LIMIT && e.Put? && e == EmptyPut(Id(), e.digest)
    ensures var p := OneChunk(content);
      && Plausible(Then(p, e)) && Exec(env, p).Counter("u") == 1 && Exec(env, p).store.layers == map[]
      && Reply(env, Then(p, e)).status == 201
      && e.digest in Exec(env, Then(p, e)).store.layers
      && (HashesToDigest(env, Exec(env, Then(p, e)), e.digest) <==> env.digest(content) == e.digest)
  {
    var p := OneChunk(content);
    OneChunkConforms(env, content, e.digest);
    TableStaysEmpty(env, p);
    ConformingIsUpToDate(env, OPENED, p, "u", "l");
    ConformingPushSucceeds(env, OPENED, p, "u", "l", e);
    assert content + [] == content;
  }

  /** A chunk, and a closing PUT without a last one: the layer is stored, but the Location of
      the 201 leads to a blob the registry does not have. */
  lemma {:induction false} WrongLocation(env: Env, content: Bytes, at: nat)
    requires SoundCids(env) && 0 < |content| < INT64_LIMIT && env.digest(content) != env.digest([])
    ensures var r := Then(OneChunk(content), EmptyPut(Id(), env.digest(content)));
      && Plausible(r) && Reply(env, r).status == 201 && HashesToDigest(env, Exec(env, r), env.digest(content))
      && Reply(env, r).location == BlobPath(env.digest([]))
      && Reply(env, Then(r, Event.Pull(at, env.digest([]), false, false))).status == 404
  {
    var p, e := OneChunk(content), EmptyPut(Id(), env.digest(content));
    OpenedState(env);
    OneChunkPushed(env, content, e);
    LocationIsLastChunk(env, Exec(env, p), e);
    OnlyOneLayer(env, p, e);
    UnknownIsNotFound(env, Exec(env, Then(p, e)), env.digest([]), at);
  }

  /** On the chunked path too any digest is taken. */
  lemma {:induction false} WrongDigestByChunks(env: Env, content: Bytes, digest: string)
    requires SoundCids(env) && 0 < |content| < INT64_LIMIT && digest != env.digest(content)
    ensures var r := Then(OneChunk(content), EmptyPut(Id(), digest));
      && Plausible(r) && Reply(env, r).status == 201
      && digest in Exec(env, r).store.layers && !HashesToDigest(env, Exec(env, r), digest)
  {
    OneChunkPushed(env, content, EmptyPut(Id(), digest));
  }

  lemma OneChunkWaits(env: Env, content: Bytes)
    requires 0 < |content| < INT64_LIMIT
    ensures var s := Exec(env, OneChunk(content));
      s.Counter("u") == 1 && "u" in s.dfs.sessions && s.dfs.sessions["u"].id == GetLayerIdentifier("l")
  {
    OpenedState(env);
    OneChunkConforms(env, content, "");
    ConformingIsUpToDate(env, OPENED, OneChunk(content), "u", "l");
  }

  lemma WrongKeyFinish(env: Env, s: State, e: Event)
    requires s.Counter("u") == 1 && "u" in s.dfs.sessions && s.dfs.sessions["u"].id == GetLayerIdentifier("l")
    requires e.Put? && e == EmptyPut(CreateUploadTrackingIdentifier("u", "x"), e.digest)
    ensures Answer(env, s, e).status == 416
    ensures var s' := Step(env, s, e).0; s'.Counter("u") == 1 && "u" !in s'.dfs.sessions
  {
    WrongKey();
    WrongKeyFinishEndsUpload(env, s, e, "u");
    StepIsLocal(env, s, e, "u");
  }

  /** An empty closing PUT under another layer key ends the upload: it is answered 416, and so
      is the closing PUT under the right key that follows. */
  lemma {:induction false} WrongKeyEndsPush(env: Env, content: Bytes, digest: string)
    requires 0 < |content| < INT64_LIMIT
    ensures var wrong := EmptyPut(CreateUploadTrackingIdentifier("u", "x"), digest);
      var r := Then(Then(OneChunk(content), wrong), EmptyPut(Id(), digest));
      Plausible(r) && Reply(env, r.before).status == 416 && Reply(env, r).status == 416
  {
    var p, wrong := OneChunk(content), EmptyPut(CreateUploadTrackingIdentifier("u", "x"), digest);
    OpenedState(env);
    OneChunkConforms(env, content, digest);
    OneChunkWaits(env, content);
    WrongKeyFinish(env, Exec(env, p), wrong);
    DeadFinish(env, Exec(env, Then(p, wrong)), EmptyPut(Id(), digest));
  }

  lemma DeadFinish(env: Env, s: State, e: Event)
    requires Names(Id(), "u") && e.Put? && e == EmptyPut(Id(), e.digest)
    requires "u" !in s.dfs.sessions && s.Counter("u") != 0
    ensures Answer(env, s, e).status == 416
  {
  }

  lemma UnknownIsNotFound(env: Env, s: State, digest: string, at: nat)
    requires digest !in s.store.layers
    ensures Answer(env, s, Event.Pull(at, digest, false, false)).status == 404
  {
  }

  lemma LocationIsLastChunk(env: Env, s: State, e: Event)
    requires Names(Id(), "u") && e.Put? && e.identifier == Id() && e.body == Some([]) && s.Counter("u") != 0
    requires Answer(env, s, e).status == 201
    ensures Answer(env, s, e).location == BlobPath(env.digest([]))
  {
  }

  lemma TableStaysEmpty(env: Env, p: Run)
    requires p.Then? && p.before == OPENED && p.event.Patch?
    ensures Exec(env, p).store.layers == map[]
  {
    OpenedState(env);
    QuietOutcome(env, Exec(env, OPENED), p.event);
  }

  lemma OnlyOneLayer(env: Env, p: Run, e: Event)
    requires SoundCids(env) && Plausible(Then(p, e)) && Exec(env, p).store.layers == map[] && Finishes(e)
    ensures forall d :: d in Exec(env, Then(p, e)).store.layers ==> d == e.digest
  {
    IntegrityAlways(env, p);
    StepOutcome(env, p, e);
  }

  const COMMIT_FAILS := NO_FAULTS.(sql := SqlFaults(false, Works, true))

  lemma WholePutCommits(env: Env, content: Bytes, digest: string)
    requires SoundCids(env)
    ensures var p := Then(OPENED, WholePut(digest, content));
      && Plausible(p) && Reply(env, p).status == 201 && digest in Exec(env, p).store.layers
      && Pushed(env, OPENED, p.event) == content
      && Inserts(env, OPENED, p.event, digest)
  {
    OpenedState(env);
    MonolithicPutAccepts(env, Exec(env, OPENED), WholePut(digest, content));
    PushStoresPushedBytes(env, OPENED, WholePut(digest, content), digest);
  }

  /** One POST and one PUT store any content under any digest. */
  lemma {:induction false} WrongDigestStored(env: Env, content: Bytes, digest: string)
    requires SoundCids(env) && digest != env.digest(content)
    ensures var r := Then(OPENED, WholePut(digest, content));
      && Plausible(r) && Reply(env, r).status == 201
      && digest in Exec(env, r).store.layers && !HashesToDigest(env, Exec(env, r), digest)
  {
    WholePutCommits(env, content, digest);
    PushStoresPushedBytes(env, OPENED, WholePut(digest, content), digest);
  }

  const URL_FAILS := NO_FAULTS.(urlFails := true)

  /** A single POST answered 500 whose layer is committed. It takes a backend whose download
      URLs can fail, as Filebase's can. */
  lemma {:induction false} HiddenCommit(env: Env, content: Bytes)
    requires SoundCids(env)
    ensures var d := env.digest(content);
      var r := Then(Boot, Event.Post(OPENED_AT, d, Some(content), "", "u", "l", URL_FAILS));
      d != "" ==> Plausible(r) && Reply(env, r).status == 500 && HashesToDigest(env, Exec(env, r), d)
  {
    var d := env.digest(content);
    var e := Event.Post(OPENED_AT, d, Some(content), "", "u", "l", URL_FAILS);
    if d != "" {
      assert Exec(env, Boot) == Init();
      SinglePostAccepts(env, Init(), e);
      FailureReplyMayHaveCommitted(env, Then(Boot, e));
      PushStoresPushedBytes(env, Boot, e, d);
    }
  }

  /** A DELETE answered 202 whose layer is still served. */
  lemma {:induction false} DeletedLayerStays(env: Env, content: Bytes, digest: string, at: nat)
    requires SoundCids(env)
    ensures var r := Then(Then(OPENED, WholePut(digest, content)), Event.Delete(at, digest, COMMIT_FAILS));
      && Plausible(r) && Reply(env, r).status == 202
      && Reply(env, Then(r, Event.Pull(at, digest, false, false))).status == 307
  {
    var p, e := Then(OPENED, WholePut(digest, content)), Event.Delete(at, digest, COMMIT_FAILS);
    WholePutCommits(env, content, digest);
    IntegrityAlways(env, p);
    FailedDelete(env, Exec(env, p), e);
    IntegrityAlways(env, Then(p, e));
    PullServesRow(env, Exec(env, Then(p, e)), digest, at);
  }

  lemma FailedDelete(env: Env, s: State, e: Event)
    requires NothingPending(s.store) && e.Delete? && e.faults == COMMIT_FAILS
    ensures Answer(env, s, e).status == 202 && Step(env, s, e).0.store.layers == s.store.layers
  {
    DeleteOutcome(env, s, e);
  }
}
