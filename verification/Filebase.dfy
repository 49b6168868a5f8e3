/** The S3-style backend, which keeps the parts of an upload by part number, and its
    agreement with the append-only buffer of the IPFS backend. */
module Filebase {
  import opened Prelude
  import opened Identifiers
  import opened P2P
  import opened Registry
  import opened UploadView
  import opened UploadSafety

  /** The remote side of one multipart upload: part number to content. */
  type Remote = map<int, Bytes>

  /** The contents of the parts numbered 1..hi, in ascending order: what the service lists. */
  function Listing(m: Remote, hi: nat): seq<Bytes> {
    if hi == 0 then [] else Listing(m, hi - 1) + (if hi in m then [m[hi]] else [])
  }

  const MAX_PARTS: nat := MAX_UPLOAD_PARTS as nat

  predicate Ascending(parts: seq<CompletedPart>) {
    forall i, j :: 0 <= i < j < |parts| ==> parts[i].partNumber < parts[j].partNumber
  }

  function Pieces(m: Remote, parts: seq<CompletedPart>): seq<Bytes>
    requires forall i :: 0 <= i < |parts| ==> parts[i].partNumber in m
  {
    if parts == [] then []
    else Pieces(m, parts[..|parts| - 1]) + [m[parts[|parts| - 1].partNumber]]
  }

  /** The service's completion rule: a non-empty, ascending list of known parts. */
  function Assemble(m: Remote, parts: seq<CompletedPart>): Option<Bytes> {
    if parts != [] && Ascending(parts) && forall i :: 0 <= i < |parts| ==> parts[i].partNumber in m
    then Some(Concat(Pieces(m, parts)))
    else None
  }

  class Filebase {
    var remote: Remote
    var assembled: Option<Bytes>

    constructor ()
      ensures remote == map[] && assembled == None
    {
      remote, assembled := map[], None;
    }

    method UploadPart(digest: string, partNumber: int, content: Bytes, fails: bool)
      returns (part: Option<CompletedPart>)
      modifies this`remote
      ensures part == if partNumber <= MAX_UPLOAD_PARTS && !fails then Some(CompletedPart(digest, partNumber)) else None
      ensures remote == if part.Some? then old(remote)[partNumber := content] else old(remote)
    {
      if partNumber > MAX_UPLOAD_PARTS {
        return None;
      }
      if fails {
        return None;
      }
      remote := remote[partNumber := content];
      part := Some(CompletedPart(digest, partNumber));
    }

    /** Completion is tried three times; `outages[i]` says that try i does not get through, and
        `matches` is what the service finds on comparing content with the checksum sent along. */
    method RetryComplete(parts: seq<CompletedPart>, matches: Bytes -> bool, outages: seq<bool>) returns (ok: bool)
      requires |outages| == 3
      modifies this`assembled
      ensures ok <==>
        Assemble(remote, parts).Some? && matches(Assemble(remote, parts).value) && false in outages
      ensures assembled == if ok then Assemble(remote, parts) else old(assembled)
    {
      ok := false;
      for i := 0 to 3
        invariant !ok
        invariant assembled == old(assembled)
        invariant Assemble(remote, parts).Some? && matches(Assemble(remote, parts).value) ==>
          forall j :: 0 <= j < i ==> outages[j]
      {
        if !outages[i] {
          var whole := Assemble(remote, parts);
          if whole.Some? && matches(whole.value) {
            assembled := whole;
            return true;
          }
        }
      }
    }

    method GetUploadProgress() returns (uploadedSize: nat)
      ensures uploadedSize == |Concat(Listing(remote, MAX_PARTS))|
    {
      var parts := Listing(remote, MAX_PARTS);
      uploadedSize := 0;
      for i := 0 to |parts|
        invariant uploadedSize == |Concat(parts[..i])|
      {
        assert parts[..i + 1][..i] == parts[..i];
        uploadedSize := uploadedSize + |parts[i]|;
      }
      assert parts[..|parts|] == parts;
    }
  }

  // ---------- one upload, two backends ----------

  /** The accepted chunks of an upload with their part numbers, in order. */
  type Log = seq<(CompletedPart, Bytes)>

  function Numbers(log: Log): seq<CompletedPart> {
    if log == [] then [] else Numbers(log[..|log| - 1]) + [log[|log| - 1].0]
  }

  function Chunks(log: Log): seq<Bytes> {
    if log == [] then [] else Chunks(log[..|log| - 1]) + [log[|log| - 1].1]
  }

  /** The remote after the uploads of a log. */
  function Keyed(log: Log): Remote {
    if log == [] then map[]
    else Keyed(log[..|log| - 1])[log[|log| - 1].0.partNumber := log[|log| - 1].1]
  }

  predicate InRange(parts: seq<CompletedPart>) {
    forall i :: 0 <= i < |parts| ==> 1 <= parts[i].partNumber <= MAX_UPLOAD_PARTS
  }

  lemma {:induction false} NumbersLength(log: Log)
    ensures |Numbers(log)| == |log|
  {
    if log != [] {
      NumbersLength(log[..|log| - 1]);
    }
  }

  lemma {:induction false} ListingBelow(m: Remote, n: int, b: Bytes, hi: nat)
    requires hi < n
    ensures Listing(m[n := b], hi) == Listing(m, hi)
  {
    if hi > 0 {
      ListingBelow(m, n, b, hi - 1);
    }
  }

  /** A part numbered above all others is listed last. */
  lemma {:induction false} ListingGrows(m: Remote, n: nat, b: Bytes, hi: nat)
    requires 1 <= n <= hi
    requires forall k :: k in m ==> k < n
    ensures Listing(m[n := b], hi) == Listing(m, hi) + [b]
  {
    if hi == n {
      ListingBelow(m, n, b, hi - 1);
    } else {
      ListingGrows(m, n, b, hi - 1);
    }
  }

  lemma {:induction false} KeyedKeys(log: Log, k: int)
    ensures k in Keyed(log) <==> exists i :: 0 <= i < |Numbers(log)| && Numbers(log)[i].partNumber == k
  {
    if log != [] {
      var front, last := log[..|log| - 1], log[|log| - 1];
      KeyedKeys(front, k);
      NumbersLength(front);
      assert Numbers(log) == Numbers(front) + [last.0];
      if last.0.partNumber == k {
        assert Numbers(log)[|front|].partNumber == k;
      } else if k in Keyed(front) {
        var i :| 0 <= i < |Numbers(front)| && Numbers(front)[i].partNumber == k;
        assert Numbers(log)[i].partNumber == k;
      }
    }
  }

  lemma AscendingPrefix(log: Log)
    requires log != [] && Ascending(Numbers(log)) && InRange(Numbers(log))
    ensures var front, last := log[..|log| - 1], log[|log| - 1];
      && Ascending(Numbers(front)) && InRange(Numbers(front))
      && 1 <= last.0.partNumber <= MAX_UPLOAD_PARTS
      && forall k :: k in Keyed(front) ==> k < last.0.partNumber
  {
    var front, last := log[..|log| - 1], log[|log| - 1];
    var all := Numbers(log);
    NumbersLength(front);
    assert forall i :: 0 <= i < |front| ==> all[i] == Numbers(front)[i];
    assert all[|front|] == last.0;
    forall k | k in Keyed(front)
      ensures k < last.0.partNumber
    {
      KeyedKeys(front, k);
    }
  }

  /** Under ascending numbers the service lists exactly the chunks, in upload order ... */
  lemma {:induction false} ListingIsChunks(log: Log)
    requires Ascending(Numbers(log)) && InRange(Numbers(log))
    ensures Listing(Keyed(log), MAX_PARTS) == Chunks(log)
  {
    if log == [] {
      ListingOfNothing(MAX_PARTS);
    } else {
      var front, last := log[..|log| - 1], log[|log| - 1];
      AscendingPrefix(log);
      ListingIsChunks(front);
      ListingGrows(Keyed(front), last.0.partNumber, last.1, MAX_PARTS);
    }
  }

  lemma {:induction false} ListingOfNothing(hi: nat)
    ensures Listing(map[], hi) == []
  {
    if hi > 0 {
      ListingOfNothing(hi - 1);
    }
  }

  lemma {:induction false} PiecesIgnoreNewKey(m: Remote, n: int, b: Bytes, parts: seq<CompletedPart>)
    requires forall i :: 0 <= i < |parts| ==> parts[i].partNumber in m && parts[i].partNumber != n
    ensures Pieces(m[n := b], parts) == Pieces(m, parts)
  {
    if parts != [] {
      PiecesIgnoreNewKey(m, n, b, parts[..|parts| - 1]);
    }
  }

  /** ... and assembling the listed parts gives the chunks as well. */
  lemma {:induction false} PiecesAreChunks(log: Log)
    requires Ascending(Numbers(log)) && InRange(Numbers(log))
    ensures forall i :: 0 <= i < |Numbers(log)| ==> Numbers(log)[i].partNumber in Keyed(log)
    ensures Pieces(Keyed(log), Numbers(log)) == Chunks(log)
  {
    forall i | 0 <= i < |Numbers(log)|
      ensures Numbers(log)[i].partNumber in Keyed(log)
    {
      KeyedKeys(log, Numbers(log)[i].partNumber);
    }
    if log != [] {
      var front, last := log[..|log| - 1], log[|log| - 1];
      AscendingPrefix(log);
      PiecesAreChunks(front);
      PiecesIgnoreNewKey(Keyed(front), last.0.partNumber, last.1, Numbers(front));
      assert Numbers(log)[..|Numbers(log)| - 1] == Numbers(front);
    }
  }

  /** Replacing a part: the service's progress grows by the whole chunk exactly when the
      number was unused or held nothing. */
  lemma {:induction false} ProgressOfPut(m: Remote, n: int, b: Bytes, hi: nat)
    requires 1 <= n <= hi
    ensures var held := if n in m then |m[n]| else 0;
      |Concat(Listing(m[n := b], hi))| == |Concat(Listing(m, hi))| - held + |b|
  {
    if hi == n {
      ListingBelow(m, n, b, hi - 1);
      ConcatSnoc(Listing(m, hi - 1), b);
      assert Listing(m[n := b], hi) == Listing(m, hi - 1) + [b];
      if n in m {
        ConcatSnoc(Listing(m, hi - 1), m[n]);
      } else {
        assert Listing(m, hi) == Listing(m, hi - 1);
      }
    } else {
      ProgressOfPut(m, n, b, hi - 1);
      if hi in m {
        ConcatSnoc(Listing(m, hi - 1), m[hi]);
        ConcatSnoc(Listing(m[n := b], hi - 1), m[hi]);
      } else {
        assert Listing(m, hi) == Listing(m, hi - 1);
        assert Listing(m[n := b], hi) == Listing(m[n := b], hi - 1);
      }
    }
  }

  // ---------- whole runs ----------

  function Entry(env: Env, s: State, e: Event, u: string): (CompletedPart, Bytes)
    requires e.Patch?
  {
    (CompletedPart(env.digest(Content(e.body)), s.NextPart(u)), Content(e.body))
  }

  /** The chunks a run has accepted for `u`, with the part numbers they went under. */
  function LogOf(env: Env, r: Run, u: string): Log {
    match r
    case Boot => []
    case Then(p, e) =>
      if e.Patch? && Names(e.identifier, u) && Reply(env, r).status == 202
      then LogOf(env, p, u) + [Entry(env, Exec(env, p), e, u)] else LogOf(env, p, u)
  }

  lemma {:induction false} LogHoldsAccepted(env: Env, r: Run, u: string)
    ensures Concat(Chunks(LogOf(env, r, u))) == Accepted(env, r, u)
  {
    match r
    case Boot =>
    case Then(p, e) =>
      LogHoldsAccepted(env, p, u);
      var front := LogOf(env, p, u);
      if e.Patch? && Names(e.identifier, u) && Reply(env, r).status == 202 {
        LogSnoc(front, Entry(env, Exec(env, p), e, u));
        ConcatSnoc(Chunks(front), Content(e.body));
      } else {
        assert NewlyAccepted(env, r, u) == [];
      }
  }

  lemma LogSnoc(log: Log, entry: (CompletedPart, Bytes))
    ensures Chunks(log + [entry]) == Chunks(log) + [entry.1]
    ensures Numbers(log + [entry]) == Numbers(log) + [entry.0]
  {
    assert (log + [entry])[..|log|] == log;
  }

  /** While a session lives its part list only grows, by the part of each taken chunk. */
  lemma PartsStep(env: Env, x: Upload, u: string, e: Event)
    requires UploadStep(env, x, u, e).session.Some? && !Starts(e, u)
    ensures x.session.Some?
    ensures var taken := e.Patch? && Names(e.identifier, u) && PatchUpload(env, x, e).1;
      UploadStep(env, x, u, e).parts == x.parts +
        if taken then [CompletedPart(env.digest(Content(e.body)), Int32(x.counter + 1))] else []
  {
  }

  lemma {:induction false} LogStep(env: Env, p: Run, e: Event, u: string)
    ensures var taken := e.Patch? && Names(e.identifier, u) && PatchUpload(env, View(Exec(env, p), u), e).1;
      Numbers(LogOf(env, Then(p, e), u)) == Numbers(LogOf(env, p, u)) +
        if taken then [CompletedPart(env.digest(Content(e.body)), Exec(env, p).NextPart(u))] else []
  {
    if e.Patch? && Names(e.identifier, u) {
      var s := Exec(env, p);
      PatchReply(env, s, e);
      LogSnoc(LogOf(env, p, u), Entry(env, s, e, u));
      assert Answer(env, s, e).status == 202 <==> PatchUpload(env, View(s, u), e).1;
    }
  }

  lemma {:induction false} PartsOfRun(env: Env, p: Run, e: Event, u: string)
    requires u in Exec(env, Then(p, e)).dfs.sessions && !Starts(e, u)
    ensures u in Exec(env, p).dfs.sessions
    ensures var taken := e.Patch? && Names(e.identifier, u) && PatchUpload(env, View(Exec(env, p), u), e).1;
      Exec(env, Then(p, e)).Parts(u) == Exec(env, p).Parts(u) +
        if taken then [CompletedPart(env.digest(Content(e.body)), Exec(env, p).NextPart(u))] else []
  {
    var x := View(Exec(env, p), u);
    StepIsLocal(env, Exec(env, p), e, u);
    assert View(Exec(env, Then(p, e)), u) == UploadStep(env, x, u, e);
    assert UploadStep(env, x, u, e).session.Some?;
    PartsStep(env, x, u, e);
  }

  lemma {:induction false} NothingLoggedBeforeIssue(env: Env, r: Run, u: string)
    requires Plausible(r) && !Issued(r, u)
    ensures Exec(env, r).Parts(u) == [] && Find(Exec(env, r).dfs.sessions, u) == None
  {
    CoherentAlways(env, r, u);
    var x := View(Exec(env, r), u);
    assert x.session == None && x.parts == [];
  }

  lemma {:induction false} UnissuedLogIsEmpty(env: Env, r: Run, u: string)
    requires Plausible(r) && !Issued(r, u)
    ensures Numbers(LogOf(env, r, u)) == []
  {
    match r
    case Boot =>
    case Then(p, e) =>
      UnissuedLogIsEmpty(env, p, u);
      NothingLoggedBeforeIssue(env, p, u);
      LogStep(env, p, e, u);
  }

  lemma {:induction false} LogHoldsParts(env: Env, r: Run, u: string)
    requires Plausible(r) && u in Exec(env, r).dfs.sessions
    ensures Numbers(LogOf(env, r, u)) == Exec(env, r).Parts(u)
  {
    var p, e := r.before, r.event;
    LogStep(env, p, e, u);
    if Starts(e, u) {
      UnissuedLogIsEmpty(env, p, u);
      NothingLoggedBeforeIssue(env, p, u);
      StepIsLocal(env, Exec(env, p), e, u);
      assert View(Exec(env, r), u).parts == View(Exec(env, p), u).parts;
    } else {
      PartsOfRun(env, p, e, u);
      LogHoldsParts(env, p, u);
    }
  }

  /** The two backends agree on every live upload of every run: fed the same accepted
      chunks, the part-keyed backend assembles, from the part list the registry keeps, the
      very bytes the buffer holds, and reports the same progress. */
  lemma {:induction false} BackendsAgree(env: Env, r: Run, u: string)
    requires Plausible(r) && Requests(r, u) < 0x8000_0000
    requires u in Exec(env, r).dfs.sessions
    ensures var s := Exec(env, r);
      var remote := Keyed(LogOf(env, r, u));
      && (s.Parts(u) != [] ==> Assemble(remote, s.Parts(u)) == Some(View(s, u).Bytes()))
      && (s.Parts(u) == [] ==> Assemble(remote, s.Parts(u)) == None && u !in s.dfs.buffers)
      && |Concat(Listing(remote, MAX_PARTS))| == s.dfs.Progress(u)
  {
    var log := LogOf(env, r, u);
    LogHoldsParts(env, r, u);
    LogHoldsAccepted(env, r, u);
    NumberedAlways(env, r, u);
    CoherentAlways(env, r, u);
    PiecesAreChunks(log);
    ListingIsChunks(log);
  }

  lemma AssembleSnoc(log: Log, part: CompletedPart, b: Bytes)
    requires Ascending(Numbers(log) + [part]) && InRange(Numbers(log) + [part])
    ensures Assemble(Keyed(log)[part.partNumber := b], Numbers(log) + [part]) == Some(Concat(Chunks(log)) + b)
  {
    var longer := log + [(part, b)];
    assert longer[..|longer| - 1] == log;
    PiecesAreChunks(longer);
    ConcatSnoc(Chunks(log), b);
  }

  /** The last chunk of a closing PUT goes the same way: what the part-keyed backend would
      assemble from the list then handed over is what the buffer holds. */
  lemma {:induction false} FinishAgrees(env: Env, r: Run, u: string, e: Event)
    requires Plausible(r) && Requests(Then(r, e), u) < 0x8000_0000
    requires u in Exec(env, r).dfs.sessions
    requires e.Put? && Names(e.identifier, u)
    requires LastChunk(env, View(Exec(env, r), u), e).1 && Content(e.body) != []
    ensures var y := LastChunk(env, View(Exec(env, r), u), e).0;
      var n := Exec(env, r).NextPart(u);
      Assemble(Keyed(LogOf(env, r, u))[n := Content(e.body)], y.parts) == Some(y.Bytes())
  {
    var x := View(Exec(env, r), u);
    LogHoldsParts(env, r, u);
    LogHoldsAccepted(env, r, u);
    CoherentAlways(env, r, u);
    HandedPartsAscend(env, r, e);
    LastChunkAppends(env, x, e);
    AssembleSnoc(LogOf(env, r, u), CompletedPart(env.digest(e.body.value), Int32(x.counter + 1)), e.body.value);
  }

  lemma LastChunkAppends(env: Env, x: Upload, e: Event)
    requires e.Put? && IsTrackingId(e.identifier)
    requires LastChunk(env, x, e).1 && Content(e.body) != []
    ensures e.body.Some?
    ensures var y := LastChunk(env, x, e).0;
      && y.parts == x.parts + [CompletedPart(env.digest(e.body.value), Int32(x.counter + 1))]
      && y.Bytes() == x.Bytes() + e.body.value
  {
  }
}
