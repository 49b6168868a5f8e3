/** Safety of resumable uploads, over every run: the collector never truncates, the two
    progress accounts agree, and part numbers ascend within the backend's limit. */
module UploadSafety {
  import opened Prelude
  import opened Text
  import opened Identifiers
  import opened P2P
  import opened LayerStore
  import opened Registry
  import opened UploadView

  // ---------- which runs can happen ----------

  function Now(r: Run): nat {
    match r
    case Boot => 0
    case Then(_, e) => e.at
  }

  predicate ClockNeverGoesBack(r: Run) {
    match r
    case Boot => true
    case Then(p, e) => ClockNeverGoesBack(p) && Now(p) <= e.at
  }

  /** When upload `u` was opened. */
  function OpenedAt(r: Run, u: string): Option<nat> {
    match r
    case Boot => None
    case Then(p, e) => if Starts(e, u) then Some(e.at) else OpenedAt(p, u)
  }

  predicate Issued(r: Run, u: string) {
    OpenedAt(r, u).Some?
  }

  /** The upload ids the server draws do not repeat. */
  predicate FreshIds(r: Run) {
    match r
    case Boot => true
    case Then(p, e) => FreshIds(p) && (e.Post? && Starts(e, e.uploadId) ==> !Issued(p, e.uploadId))
  }

  /** This chunk is not stamped in an earlier second than the opening of its upload. */
  predicate FollowsOpening(p: Run, e: Event, u: string) {
    e.Patch? && Names(e.identifier, u) && Issued(p, u) ==> Unix(OpenedAt(p, u).value) <= Unix(e.at)
  }

  /** A simple condition most results here are stated under: fresh ids, and no chunk stamped
      before its upload was opened. Ticks may come in any order. The collector itself needs
      less (BuffersFollow) and is described without any (TruncatedIff). */
  predicate Plausible(r: Run) {
    match r
    case Boot => true
    case Then(p, e) =>
      && Plausible(p)
      && (e.Post? && Starts(e, e.uploadId) ==> !Issued(p, e.uploadId))
      && (e.Patch? && IsTrackingId(e.identifier) ==> FollowsOpening(p, e, GetUploadId(e.identifier)))
  }

  lemma {:induction false} PlausibleIsFresh(r: Run)
    requires Plausible(r)
    ensures FreshIds(r)
  {
    match r
    case Boot =>
    case Then(p, _) => PlausibleIsFresh(p);
  }

  lemma {:induction false} OpenedBeforeNow(r: Run, u: string)
    requires ClockNeverGoesBack(r) && Issued(r, u)
    ensures OpenedAt(r, u).value <= Now(r)
  {
    if !Starts(r.event, u) {
      OpenedBeforeNow(r.before, u);
    }
  }

  /** A clock that never goes back is more than enough. */
  lemma {:induction false} OrderedClockIsPlausible(r: Run)
    requires FreshIds(r) && ClockNeverGoesBack(r)
    ensures Plausible(r)
  {
    match r
    case Boot =>
    case Then(p, e) =>
      OrderedClockIsPlausible(p);
      if e.Patch? && IsTrackingId(e.identifier) && Issued(p, GetUploadId(e.identifier)) {
        OpenedBeforeNow(p, GetUploadId(e.identifier));
      }
  }

  // ---------- what the clients of a run can see ----------

  function Content(body: Option<Bytes>): Bytes {
    match body
    case None => []
    case Some(b) => b
  }

  /** The bytes the latest event adds to upload `u`: those of a PATCH answered 202. */
  function NewlyAccepted(env: Env, r: Run, u: string): Bytes
    requires r.Then?
  {
    if r.event.Patch? && Names(r.event.identifier, u) && Reply(env, r).status == 202
    then Content(r.event.body) else []
  }

  /** Everything accepted for upload `u`, in order. */
  function Accepted(env: Env, r: Run, u: string): Bytes {
    match r
    case Boot => []
    case Then(p, e) => Accepted(env, p, u) + NewlyAccepted(env, r, u)
  }

  /** How many requests named upload `u` in a way that can use up a part number. */
  function Requests(r: Run, u: string): nat {
    match r
    case Boot => 0
    case Then(p, e) =>
      Requests(p, u) + if (e.Patch? || e.Put?) && Names(e.identifier, u) then 1 else 0
  }

  /** If this chunk is the one to create the upload's buffer, it is not stamped in an earlier
      second than the opening. Only that chunk's stamp counts: the buffer keeps its lease. */
  predicate FillsInTime(env: Env, p: Run, e: Event, u: string) {
    && e.Patch? && Names(e.identifier, u) && Issued(p, u)
    && u !in Exec(env, p).dfs.buffers && Answer(env, Exec(env, p), e).status == 202
    ==> Unix(OpenedAt(p, u).value) <= Unix(e.at)
  }

  predicate BuffersFollow(env: Env, r: Run, u: string) {
    match r
    case Boot => true
    case Then(p, e) => BuffersFollow(env, p, u) && FillsInTime(env, p, e, u)
  }

  lemma {:induction false} PlausibleBuffersFollow(env: Env, r: Run, u: string)
    requires Plausible(r)
    ensures BuffersFollow(env, r, u)
  {
    match r
    case Boot =>
    case Then(p, _) => PlausibleBuffersFollow(env, p, u);
  }

  // ---------- the invariant of one upload ----------

  /** The session's lease runs from the opening, and the buffer is not due before it. */
  predicate Coherent(x: Upload, accepted: Bytes, opening: Option<nat>) {
    && (x.session.Some? ==>
          && opening.Some?
          && x.session.value.expiresAt == opening.value + SESSION_TIMEOUT
          && (x.buffer.Some? ==> Unix(x.session.value.expiresAt) <= Unix(x.buffer.value.expiresAt))
          && x.Bytes() == accepted
          && x.length == |accepted|
          && (x.parts != [] <==> x.buffer.Some?))
    && (opening.None? ==> x.buffer == None && x.length == 0 && x.parts == [] && accepted == [])
  }

  lemma LeaseShiftsSeconds(t: nat)
    ensures Unix(t + SESSION_TIMEOUT) == Unix(t) + 300
  {
  }

  lemma LeasesCompare(t: nat, v: nat)
    ensures Unix(t + SESSION_TIMEOUT) <= Unix(v + SESSION_TIMEOUT) <==> Unix(t) <= Unix(v)
  {
    LeaseShiftsSeconds(t);
    LeaseShiftsSeconds(v);
  }

  lemma CoherentStep(env: Env, x: Upload, accepted: Bytes, opening: Option<nat>, u: string, e: Event)
    requires Coherent(x, accepted, opening)
    requires e.Patch? && Names(e.identifier, u) && opening.Some? && x.buffer.None? && PatchUpload(env, x, e).1
             ==> Unix(opening.value) <= Unix(e.at)
    requires Starts(e, u) ==> opening.None?
    ensures var taken := e.Patch? && Names(e.identifier, u) && PatchUpload(env, x, e).1;
      Coherent(UploadStep(env, x, u, e), accepted + (if taken then Content(e.body) else []),
               if Starts(e, u) then Some(e.at) else opening)
  {
    LeaseShiftsSeconds(e.at);
    if opening.Some? {
      LeaseShiftsSeconds(opening.value);
    }
    assert accepted + [] == accepted;
  }

  lemma {:induction false} CoherentUpload(env: Env, r: Run, u: string)
    requires FreshIds(r) && BuffersFollow(env, r, u)
    ensures Coherent(View(Exec(env, r), u), Accepted(env, r, u), OpenedAt(r, u))
  {
    match r
    case Boot =>
    case Then(p, e) =>
      CoherentUpload(env, p, u);
      var s := Exec(env, p);
      StepIsLocal(env, s, e, u);
      if e.Patch? && Names(e.identifier, u) {
        PatchReply(env, s, e);
      }
      CoherentStep(env, View(s, u), Accepted(env, p, u), OpenedAt(p, u), u, e);
  }

  lemma {:induction false} CoherentAlways(env: Env, r: Run, u: string)
    requires Plausible(r)
    ensures Coherent(View(Exec(env, r), u), Accepted(env, r, u), OpenedAt(r, u))
  {
    PlausibleIsFresh(r);
    PlausibleBuffersFollow(env, r, u);
    CoherentUpload(env, r, u);
  }

  // ---------- the theorems ----------

  /** The collector never truncates: while a session lives, its buffer is exactly the
      concatenation of all chunks accepted for the upload, whatever was swept meanwhile and
      in whatever order the ticks came. Only the chunk that created a buffer must not be
      stamped before the opening. */
  lemma {:induction false} GcNeverTruncates(env: Env, r: Run, u: string)
    requires FreshIds(r) && BuffersFollow(env, r, u)
    requires u in Exec(env, r).dfs.sessions
    ensures View(Exec(env, r), u).Bytes() == Accepted(env, r, u)
  {
    CoherentUpload(env, r, u);
  }

  // ---------- exactly when the collector is safe ----------

  /** No tick, whenever it comes, takes a buffer from under its session, exactly when the
      session is due no later than the buffer, in whole seconds. */
  lemma SweptTogether(b: Backend, u: string)
    requires u in b.sessions && u in b.buffers
    ensures (forall at: nat :: u in b.Collect(at).sessions ==> u in b.Collect(at).buffers)
      <==> Unix(b.sessions[u].expiresAt) <= Unix(b.buffers[u].expiresAt)
  {
    var due := b.sessions[u].expiresAt;
    assert u in b.Collect(due).sessions;
    assert u in b.Collect(due).buffers <==> Unix(due) <= Unix(b.buffers[u].expiresAt);
  }

  lemma {:induction false} LeaseRunsFromOpening(env: Env, r: Run, u: string)
    requires u in Exec(env, r).dfs.sessions
    ensures Issued(r, u)
    ensures Exec(env, r).dfs.sessions[u].expiresAt == OpenedAt(r, u).value + SESSION_TIMEOUT
  {
    var s := Exec(env, r.before);
    StepIsLocal(env, s, r.event, u);
    assert View(Exec(env, r), u).session == Some(Exec(env, r).dfs.sessions[u]);
    if !Starts(r.event, u) {
      SessionsOnlyEnd(env, View(s, u), u, r.event);
      assert View(s, u).session.Some?;
      LeaseRunsFromOpening(env, r.before, u);
    }
  }

  lemma SessionsOnlyEnd(env: Env, x: Upload, u: string, e: Event)
    requires !Starts(e, u) && UploadStep(env, x, u, e).session.Some?
    ensures x.session == UploadStep(env, x, u, e).session
  {
  }

  /** After a tick at `at`, upload `u` has ended or still has all it accepted. */
  predicate TickKeepsAll(env: Env, r: Run, u: string, at: nat) {
    var q := Then(r, Event.Tick(at));
    u in Exec(env, q).dfs.sessions ==> View(Exec(env, q), u).Bytes() == Accepted(env, q, u)
  }

  ghost predicate SafeFromTicks(env: Env, r: Run, u: string) {
    forall at: nat :: TickKeepsAll(env, r, u, at)
  }

  lemma {:induction false} TickOnFilled(env: Env, r: Run, u: string, at: nat)
    requires View(Exec(env, r), u).session.Some? && View(Exec(env, r), u).buffer.Some?
    requires View(Exec(env, r), u).Bytes() == Accepted(env, r, u) != []
    ensures var y := View(Exec(env, r), u);
      TickKeepsAll(env, r, u, at) <==>
        (Expired(at, y.session.value.expiresAt) || !Expired(at, y.buffer.value.expiresAt))
  {
    var q := Then(r, Event.Tick(at));
    StepIsLocal(env, Exec(env, r), q.event, u);
    assert Accepted(env, q, u) == Accepted(env, r, u);
    assert u in Exec(env, q).dfs.sessions <==> View(Exec(env, q), u).session.Some?;
  }

  /** Session and buffer leased from `start` and from `stamp`: what ticks can do. */
  lemma {:induction false} TicksDecide(env: Env, r: Run, u: string, start: nat, stamp: nat)
    requires var y := View(Exec(env, r), u);
      && y.session.Some? && y.session.value.expiresAt == start + SESSION_TIMEOUT
      && y.buffer.Some? && y.buffer.value.expiresAt == stamp + SESSION_TIMEOUT
      && y.Bytes() == Accepted(env, r, u) != []
    ensures SafeFromTicks(env, r, u) <==> Unix(start) <= Unix(stamp)
  {
    var due, gone := start + SESSION_TIMEOUT, stamp + SESSION_TIMEOUT;
    forall at: nat
      ensures TickKeepsAll(env, r, u, at) <==> (Expired(at, due) || !Expired(at, gone))
    {
      TickOnFilled(env, r, u, at);
    }
    LeasesCompare(start, stamp);
    assert TickKeepsAll(env, r, u, due) <==> Unix(due) <= Unix(gone);
  }

  /** The stamp of the request that created the buffer upload `u` has now. */
  function FilledAt(env: Env, r: Run, u: string): Option<nat> {
    match r
    case Boot => None
    case Then(p, e) =>
      if u !in Exec(env, r).dfs.buffers then None
      else if u in Exec(env, p).dfs.buffers then FilledAt(env, p, u)
      else Some(e.at)
  }

  lemma BufferKeepsItsLease(env: Env, x: Upload, u: string, e: Event)
    requires UploadStep(env, x, u, e).buffer.Some?
    ensures UploadStep(env, x, u, e).buffer.value.expiresAt ==
      if x.buffer.Some? then x.buffer.value.expiresAt else e.at + SESSION_TIMEOUT
  {
  }

  lemma {:induction false} BufferLeaseRunsFromFill(env: Env, r: Run, u: string)
    requires u in Exec(env, r).dfs.buffers
    ensures FilledAt(env, r, u).Some?
    ensures Exec(env, r).dfs.buffers[u].expiresAt == FilledAt(env, r, u).value + SESSION_TIMEOUT
  {
    var s := Exec(env, r.before);
    StepIsLocal(env, s, r.event, u);
    assert View(Exec(env, r), u).buffer == Some(Exec(env, r).dfs.buffers[u]);
    BufferKeepsItsLease(env, View(s, u), u, r.event);
    if u in s.dfs.buffers {
      BufferLeaseRunsFromFill(env, r.before, u);
    }
  }

  /** The exact condition on the clock, in every reachable state: an upload that still has all
      its bytes is safe from the next tick, whenever that comes, if and only if the chunk
      that created its buffer is not stamped in an earlier second than its opening. */
  lemma {:induction false} FillDecides(env: Env, r: Run, u: string)
    requires u in Exec(env, r).dfs.sessions && u in Exec(env, r).dfs.buffers
    requires View(Exec(env, r), u).Bytes() == Accepted(env, r, u) != []
    ensures Issued(r, u) && FilledAt(env, r, u).Some?
    ensures SafeFromTicks(env, r, u) <==> Unix(OpenedAt(r, u).value) <= Unix(FilledAt(env, r, u).value)
  {
    LeaseRunsFromOpening(env, r, u);
    BufferLeaseRunsFromFill(env, r, u);
    TicksDecide(env, r, u, OpenedAt(r, u).value, FilledAt(env, r, u).value);
  }

  // ---------- exactly when an upload has been truncated ----------

  /** A tick at `at` finds bytes in the buffer, more than a lease after the buffer's stamp but
      not more than a lease (300 seconds) after the opening. */
  predicate CutBy(env: Env, p: Run, u: string, at: nat) {
    && View(Exec(env, p), u).Bytes() != []
    && FilledAt(env, p, u).Some? && Unix(FilledAt(env, p, u).value) + 300 < Unix(at)
    && OpenedAt(p, u).Some? && Unix(at) <= Unix(OpenedAt(p, u).value) + 300
  }

  predicate Cut(env: Env, r: Run, u: string) {
    match r
    case Boot => false
    case Then(p, e) => Cut(env, p, u) || (e.Tick? && CutBy(env, p, u, e.at))
  }

  predicate Accounts(x: Upload, accepted: Bytes, opening: Option<nat>, cut: bool) {
    && (x.session.Some? ==> if cut then |x.Bytes()| < |accepted| else x.Bytes() == accepted)
    && (opening.None? ==> x.session == None && x.buffer == None && accepted == [] && !cut)
  }

  lemma AccountsStep(env: Env, x: Upload, accepted: Bytes, opening: Option<nat>, cut: bool, u: string, e: Event,
                     cutNow: bool)
    requires Accounts(x, accepted, opening, cut)
    requires Starts(e, u) ==> opening.None?
    requires opening.None? ==> !cutNow
    requires UploadStep(env, x, u, e).session.Some? ==>
      (cutNow <==> cut || (e.Tick? && x.Bytes() != [] && Expired(e.at, x.buffer.value.expiresAt)))
    ensures var taken := e.Patch? && Names(e.identifier, u) && PatchUpload(env, x, e).1;
      Accounts(UploadStep(env, x, u, e), accepted + (if taken then Content(e.body) else []),
               if Starts(e, u) then Some(e.at) else opening, cutNow)
  {
    assert accepted + [] == accepted;
  }

  lemma TickCuts(env: Env, p: Run, u: string, at: nat)
    requires u in Exec(env, p).dfs.sessions && !Expired(at, Exec(env, p).dfs.sessions[u].expiresAt)
    ensures var x := View(Exec(env, p), u);
      CutBy(env, p, u, at) <==> x.Bytes() != [] && Expired(at, x.buffer.value.expiresAt)
  {
    LeaseRunsFromOpening(env, p, u);
    LeaseShiftsSeconds(OpenedAt(p, u).value);
    if u in Exec(env, p).dfs.buffers {
      BufferLeaseRunsFromFill(env, p, u);
      LeaseShiftsSeconds(FilledAt(env, p, u).value);
    }
  }

  lemma {:induction false} AccountsAlways(env: Env, r: Run, u: string)
    requires FreshIds(r)
    ensures Accounts(View(Exec(env, r), u), Accepted(env, r, u), OpenedAt(r, u), Cut(env, r, u))
  {
    match r
    case Boot =>
    case Then(p, e) =>
      AccountsAlways(env, p, u);
      var s, x := Exec(env, p), View(Exec(env, p), u);
      StepIsLocal(env, s, e, u);
      if e.Patch? && Names(e.identifier, u) {
        PatchReply(env, s, e);
      }
      if e.Tick? && x.session.Some? && !Expired(e.at, x.session.value.expiresAt) {
        TickCuts(env, p, u, e.at);
      }
      AccountsStep(env, x, Accepted(env, p, u), OpenedAt(p, u), Cut(env, p, u), u, e, Cut(env, r, u));
  }

  /** With no hypothesis on the clock: a live upload lacks bytes it has accepted if and only
      if some tick cut it. */
  lemma {:induction false} TruncatedIff(env: Env, r: Run, u: string)
    requires FreshIds(r) && u in Exec(env, r).dfs.sessions
    ensures View(Exec(env, r), u).Bytes() != Accepted(env, r, u) <==> Cut(env, r, u)
  {
    AccountsAlways(env, r, u);
  }

  // ---------- the two progress accounts ----------

  /** While a session lives the registry's length counter, the backend's progress and the
      accepted bytes agree ... */
  lemma {:induction false} ProgressAccountsAgree(env: Env, r: Run, u: string)
    requires Plausible(r)
    requires u in Exec(env, r).dfs.sessions
    ensures var s := Exec(env, r);
      s.Length(u) == s.dfs.Progress(u) == |Accepted(env, r, u)|
  {
    CoherentAlways(env, r, u);
    ProgressIsBuffered(Exec(env, r), u);
  }

  lemma RangeReplyIsText(n: nat)
    ensures RangeReply(n) == RangeText(0, n - 1)
  {
    assert Itoa(0) == "0";
    assert RangeText(0, n - 1) == "0" + "-" + Itoa(n - 1);
    assert "0" + "-" == "0-";
  }

  /** Read back, the Range the server reports for `n` bytes names byte n - 1 as the last,
      exactly as far as that fits 64 bits. */
  lemma RangeReplyScans(n: nat)
    ensures ScanRange(RangeReply(n)) == if n <= INT64_LIMIT then Some((0, n - 1)) else None
  {
    RangeReplyIsText(n);
    ReportedRangeScans(n - 1);
  }

  /** The Range of an accepted PATCH is that of all bytes accepted. */
  lemma {:induction false} RangeOfPatch(env: Env, r: Run, u: string)
    requires Plausible(r)
    requires r.Then? && r.event.Patch? && Reply(env, r).status == 202 && GetUploadId(r.event.identifier) == u
    ensures IsTrackingId(r.event.identifier) && u in Exec(env, r).dfs.sessions
    ensures Reply(env, r).range == RangeReply(|Accepted(env, r, u)|)
  {
    var s := Exec(env, r.before);
    PatchReply(env, s, r.event);
    StepIsLocal(env, s, r.event, u);
    TakenHasSession(env, View(s, u), r.event);
    assert View(Exec(env, r), u).session.Some?;
    CoherentAlways(env, r, u);
  }

  /** ... so the Range of an accepted PATCH is the Range the next progress poll reports,
      and both name the last accepted byte. */
  lemma {:induction false} RangeOfPatchIsRangeOfPoll(env: Env, r: Run, pollAt: nat)
    requires Plausible(r)
    requires r.Then? && r.event.Patch? && Reply(env, r).status == 202
    ensures IsTrackingId(r.event.identifier)
    ensures var id := r.event.identifier;
      var poll := Reply(env, Then(r, Event.Get(pollAt, id)));
      var n := |Accepted(env, r, GetUploadId(id))|;
      && poll.range == Reply(env, r).range
      && ScanRange(poll.range) == if n <= INT64_LIMIT then Some((0, n - 1)) else None
  {
    var u := GetUploadId(r.event.identifier);
    RangeOfPatch(env, r, u);
    CoherentAlways(env, r, u);
    ProgressIsBuffered(Exec(env, r), u);
    RangeReplyScans(|Accepted(env, r, u)|);
  }

  lemma ProgressIsBuffered(s: State, u: string)
    ensures s.dfs.Progress(u) == |View(s, u).Bytes()|
  {
  }

  lemma TakenHasSession(env: Env, x: Upload, e: Event)
    requires e.Patch? && IsTrackingId(e.identifier) && PatchUpload(env, x, e).1
    ensures PatchUpload(env, x, e).0.session.Some? && PatchUpload(env, x, e).0.session == x.session
  {
  }

  // ---------- ended uploads stay ended ----------

  predicate Extends(p: Run, r: Run) {
    r == p || (r.Then? && Extends(p, r.before))
  }

  lemma DeadStep(env: Env, x: Upload, u: string, e: Event)
    requires x.session == None && !Starts(e, u)
    ensures UploadStep(env, x, u, e).session == None
    ensures e.Patch? && Names(e.identifier, u) ==> !PatchUpload(env, x, e).1
  {
  }

  /** An upload whose session has ended, by finish, abort or sweep, never comes back to
      life: from then on nothing is accepted for it, whatever its clients try. */
  lemma {:induction false} EndedUploadsStayEnded(env: Env, p: Run, r: Run, u: string)
    requires FreshIds(r) && Extends(p, r)
    requires Issued(p, u) && u !in Exec(env, p).dfs.sessions
    ensures Issued(r, u) && u !in Exec(env, r).dfs.sessions
    ensures Accepted(env, r, u) == Accepted(env, p, u)
  {
    if r != p {
      var s, e := Exec(env, r.before), r.event;
      EndedUploadsStayEnded(env, p, r.before, u);
      StepIsLocal(env, s, e, u);
      assert View(s, u).session == None;
      DeadStep(env, View(s, u), u, e);
      assert View(Exec(env, r), u).session == None;
      if e.Patch? && Names(e.identifier, u) {
        PatchReply(env, s, e);
      }
      assert NewlyAccepted(env, r, u) == [];
    }
  }

  /** A chunked finish that gets past its last chunk ends the session, whatever the node
      and the database then do. */
  lemma {:induction false} ChunkedFinishEndsUpload(env: Env, p: Run, e: Event, u: string)
    requires e.Put? && Names(e.identifier, u)
    requires LastChunk(env, View(Exec(env, p), u), e).1
    ensures u !in Exec(env, Then(p, e)).dfs.sessions && u !in Exec(env, Then(p, e)).dfs.buffers
  {
    var x := View(Exec(env, p), u);
    StepIsLocal(env, Exec(env, p), e, u);
    assert UploadStep(env, x, u, e).session == None && UploadStep(env, x, u, e).buffer == None;
    assert View(Exec(env, Then(p, e)), u).session == None && View(Exec(env, Then(p, e)), u).buffer == None;
  }

  // ---------- sessions live for their whole lease ----------

  /** A closing PUT that gets as far as asking the backend to assemble upload `u`. */
  predicate Assembles(env: Env, s: State, e: Event, u: string) {
    e.Put? && Names(e.identifier, u) && LastChunk(env, View(s, u), e).1
  }

  predicate EndsSession(env: Env, s: State, e: Event, u: string)
    requires u in s.dfs.sessions
  {
    (e.Tick? && Expired(e.at, s.dfs.sessions[u].expiresAt)) || Assembles(env, s, e, u)
  }

  /** What ends a live session: a tick past its lease, or a finish that gets past its last
      chunk; refused finishes and all else keep it. */
  lemma {:induction false} SessionEndsIff(env: Env, s: State, e: Event, u: string)
    requires u in s.dfs.sessions && !Starts(e, u)
    ensures u !in Step(env, s, e).0.dfs.sessions <==> EndsSession(env, s, e, u)
    ensures u in Step(env, s, e).0.dfs.sessions ==> Step(env, s, e).0.dfs.sessions[u] == s.dfs.sessions[u]
  {
    StepIsLocal(env, s, e, u);
    assert View(s, u).session == Some(s.dfs.sessions[u]);
    assert View(Step(env, s, e).0, u).session == UploadStep(env, View(s, u), u, e).session;
  }

  /** `r` continues `p` without opening `u` again. */
  predicate NotReopened(p: Run, r: Run, u: string) {
    r == p || (r.Then? && NotReopened(p, r.before, u) && !Starts(r.event, u))
  }

  /** Since `p` no tick was past `deadline`, and no finish of `u` got past its last chunk. */
  predicate Undisturbed(env: Env, p: Run, r: Run, u: string, deadline: nat) {
    r == p
    || (&& r.Then?
        && Undisturbed(env, p, r.before, u, deadline)
        && (r.event.Tick? ==> !Expired(r.event.at, deadline))
        && !Assembles(env, Exec(env, r.before), r.event, u))
  }

  /** A session lives exactly as long as it is undisturbed, whatever other traffic there is. */
  lemma {:induction false} SessionLives(env: Env, p: Run, r: Run, u: string)
    requires u in Exec(env, p).dfs.sessions && NotReopened(p, r, u)
    ensures u in Exec(env, r).dfs.sessions <==> Undisturbed(env, p, r, u, Exec(env, p).dfs.sessions[u].expiresAt)
    ensures u in Exec(env, r).dfs.sessions ==> Exec(env, r).dfs.sessions[u] == Exec(env, p).dfs.sessions[u]
  {
    if r != p {
      SessionLives(env, p, r.before, u);
      var s := Exec(env, r.before);
      if u in s.dfs.sessions {
        SessionEndsIff(env, s, r.event, u);
      } else {
        StepIsLocal(env, s, r.event, u);
        DeadStep(env, View(s, u), u, r.event);
        assert View(Exec(env, r), u).session == None;
      }
    }
  }

  /** Once a chunk has been tried, an empty closing PUT ends the upload under whatever layer
      key it comes; under a wrong one the reply is 416 and nothing is recorded. */
  lemma {:induction false} WrongKeyFinishEndsUpload(env: Env, s: State, e: Event, u: string)
    requires e.Put? && Names(e.identifier, u) && e.body == Some([]) && s.Counter(u) != 0
    requires u in s.dfs.sessions && s.dfs.sessions[u].id != LayerKey(e.identifier)
    ensures var s' := Step(env, s, e).0;
      && Answer(env, s, e).status == 416
      && u !in s'.dfs.sessions && u !in s'.dfs.buffers
      && s'.store == s.store && s'.dfs.objects == s.dfs.objects
  {
    StepIsLocal(env, s, e, u);
    assert View(Step(env, s, e).0, u).session == None && View(Step(env, s, e).0, u).buffer == None;
  }

  // ---------- and not for longer ----------

  predicate ShortLeases(x: Upload, now: nat) {
    && (x.session.Some? ==> x.session.value.expiresAt <= now + SESSION_TIMEOUT)
    && (x.buffer.Some? ==> x.buffer.value.expiresAt <= now + SESSION_TIMEOUT)
  }

  lemma ShortLeasesStep(env: Env, x: Upload, now: nat, u: string, e: Event)
    requires ShortLeases(x, now) && now <= e.at
    ensures ShortLeases(UploadStep(env, x, u, e), e.at)
  {
  }

  lemma {:induction false} ShortLeasesAlways(env: Env, r: Run, u: string)
    requires ClockNeverGoesBack(r)
    ensures ShortLeases(View(Exec(env, r), u), Now(r))
  {
    match r
    case Boot =>
    case Then(p, e) =>
      ShortLeasesAlways(env, p, u);
      StepIsLocal(env, Exec(env, p), e, u);
      ShortLeasesStep(env, View(Exec(env, p), u), Now(p), u, e);
  }

  /** Abandoned uploads cost the backend nothing for long: the first tick more than a lease
      after the latest request leaves it without sessions and without buffers. */
  lemma {:induction false} CollectorDrains(env: Env, r: Run, at: nat)
    requires ClockNeverGoesBack(r) && Expired(at, Now(r) + SESSION_TIMEOUT)
    ensures var dfs := Exec(env, Then(r, Event.Tick(at))).dfs;
      dfs.sessions == map[] && dfs.buffers == map[]
  {
    var s := Exec(env, r);
    forall u | u in s.dfs.sessions || u in s.dfs.buffers
      ensures u in s.dfs.sessions ==> Expired(at, s.dfs.sessions[u].expiresAt)
      ensures u in s.dfs.buffers ==> Expired(at, s.dfs.buffers[u].expiresAt)
    {
      ShortLeasesAlways(env, r, u);
      assert ShortLeases(View(s, u), Now(r));
    }
  }

  // ---------- part numbers ----------

  predicate WellNumbered(parts: seq<CompletedPart>, counter: int) {
    && (forall i, j :: 0 <= i < j < |parts| ==> parts[i].partNumber < parts[j].partNumber)
    && (forall i :: 0 <= i < |parts| ==> 1 <= parts[i].partNumber <= MAX_UPLOAD_PARTS)
    && (forall i :: 0 <= i < |parts| ==> parts[i].partNumber <= counter)
  }

  lemma OfferNumbered(env: Env, x: Upload, layerKey: string, content: Bytes, at: nat)
    requires WellNumbered(x.parts, x.counter) && 0 <= x.counter < 0x7fff_ffff
    ensures var y := Offer(env, x, layerKey, content, at).0;
      WellNumbered(y.parts, y.counter) && y.counter == x.counter + 1
  {
  }

  lemma NumberedStep(env: Env, x: Upload, requests: nat, u: string, e: Event)
    requires WellNumbered(x.parts, x.counter) && 0 <= x.counter <= requests < 0x7fff_ffff
    ensures var y := UploadStep(env, x, u, e);
      var named := (e.Patch? || e.Put?) && Names(e.identifier, u);
      WellNumbered(y.parts, y.counter) && 0 <= y.counter <= if named then requests + 1 else requests
  {
    if (e.Patch? || e.Put?) && IsTrackingId(e.identifier) {
      OfferNumbered(env, x, LayerKey(e.identifier), Content(e.body), e.at);
    }
  }

  lemma {:induction false} NumberedAlways(env: Env, r: Run, u: string)
    requires Requests(r, u) < 0x8000_0000
    ensures var x := View(Exec(env, r), u);
      WellNumbered(x.parts, x.counter) && 0 <= x.counter <= Requests(r, u)
  {
    match r
    case Boot =>
    case Then(p, e) =>
      NumberedAlways(env, p, u);
      StepIsLocal(env, Exec(env, p), e, u);
      if (e.Patch? || e.Put?) && Names(e.identifier, u) {
        NumberedStep(env, View(Exec(env, p), u), Requests(p, u), u, e);
      } else {
        var x := View(Exec(env, p), u);
        assert UploadStep(env, x, u, e).parts == x.parts && UploadStep(env, x, u, e).counter == x.counter;
      }
  }

  lemma {:induction false} AscendingIsShort(parts: seq<CompletedPart>, counter: int, k: nat)
    requires WellNumbered(parts, counter) && k < |parts|
    ensures parts[k].partNumber >= k + 1
  {
    if k > 0 {
      AscendingIsShort(parts, counter, k - 1);
    }
  }

  /** The part list a finishing PUT hands to the backend is strictly ascending, holds
      numbers 1..1000 only, and so has at most 1000 parts, however many attempts failed. */
  lemma {:induction false} HandedPartsAscend(env: Env, r: Run, e: Event)
    requires e.Put? && IsTrackingId(e.identifier)
    requires Requests(Then(r, e), GetUploadId(e.identifier)) < 0x8000_0000
    ensures var parts := LastChunk(env, View(Exec(env, r), GetUploadId(e.identifier)), e).0.parts;
      && (forall i, j :: 0 <= i < j < |parts| ==> parts[i].partNumber < parts[j].partNumber)
      && (forall i :: 0 <= i < |parts| ==> 1 <= parts[i].partNumber <= MAX_UPLOAD_PARTS)
      && |parts| <= MAX_UPLOAD_PARTS
  {
    NumberedAlways(env, r, GetUploadId(e.identifier));
    LastChunkNumbered(env, View(Exec(env, r), GetUploadId(e.identifier)), e);
  }

  lemma LastChunkNumbered(env: Env, x: Upload, e: Event)
    requires e.Put? && IsTrackingId(e.identifier)
    requires WellNumbered(x.parts, x.counter) && 0 <= x.counter < 0x7fff_ffff
    ensures var y := LastChunk(env, x, e).0; WellNumbered(y.parts, y.counter) && |y.parts| <= MAX_UPLOAD_PARTS
  {
    var y := LastChunk(env, x, e).0;
    if y.parts != [] {
      AscendingIsShort(y.parts, y.counter, |y.parts| - 1);
    }
  }
}
