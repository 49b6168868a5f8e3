/** The IPFS multipart backend: sessions and byte buffers kept in shared maps, swept by
    a background collector, and the content-addressed node they are flushed to.

    The functions on `Backend` values are the specification; class `IpfsP2p` is the
    program, proved to compute exactly them. Times are nanoseconds since the epoch. */
module P2P {
  import opened Prelude

  const SECOND: nat := 1_000_000_000
  const SESSION_TIMEOUT: nat := 300 * SECOND
  const MAX_UPLOAD_PARTS: int := 1000

  /** `time.Time.Unix()`: whole seconds. */
  function Unix(t: nat): nat {
    t / SECOND
  }

  predicate Expired(now: nat, expiresAt: nat) {
    Unix(now) > Unix(expiresAt)
  }

  /** What the model needs to know of the outside world: the two hash functions, and
      whether stored objects are pinned. */
  datatype Env = Env(digest: Bytes -> string, cid: Bytes -> string, pinning: bool)

  /** Content identifiers name their content, and are never the empty link. */
  ghost predicate SoundCids(env: Env) {
    && (forall a, b :: env.cid(a) == env.cid(b) ==> a == b)
    && (forall a :: env.cid(a) != "")
  }

  datatype Session = Session(id: string, expiresAt: nat)

  datatype PartBuffer = PartBuffer(buf: Bytes, expiresAt: nat)

  datatype CompletedPart = CompletedPart(checksum: string, partNumber: int)

  /** Failures of the node, chosen by the environment for each call. */
  datatype NodeFaults = NodeFaults(addFails: bool, pinFails: bool)

  datatype Backend = Backend(
    sessions: map<string, Session>,
    buffers: map<string, PartBuffer>,
    objects: map<string, Bytes>)
  {
    function CreateMultipartUpload(uploadId: string, layerKey: string, now: nat): Backend {
      this.(sessions := sessions[uploadId := Session(layerKey, now + SESSION_TIMEOUT)])
    }

    /** None is the error result; nothing changes then. */
    function UploadPart(uploadId: string, layerKey: string, partNumber: int, content: Bytes, now: nat)
      : Option<Backend>
    {
      if TakesPart(Find(sessions, uploadId), layerKey, partNumber)
      then Some(this.(buffers := buffers[uploadId := Appended(Find(buffers, uploadId), content, now)]))
      else None
    }

    /** Adds an object to the node; the link is returned only if pinning worked as well. */
    function Upload(env: Env, content: Bytes, f: NodeFaults): (Backend, Option<string>) {
      if f.addFails then (this, None)
      else
        var link := env.cid(content);
        (this.(objects := objects[link := content]),
         if env.pinning && f.pinFails then None else Some(link))
    }

    function Abort(uploadId: string): Backend {
      this.(sessions := sessions - {uploadId}, buffers := buffers - {uploadId})
    }

    function CompleteMultipartUpload(env: Env, uploadId: string, layerKey: string, f: NodeFaults)
      : (Backend, Option<string>)
    {
      if uploadId !in sessions || sessions[uploadId].id != layerKey || uploadId !in buffers then (this, None)
      else
        var (added, link) := Upload(env, buffers[uploadId].buf, f);
        (if link.None? then added else added.Abort(uploadId), link)
    }

    function Progress(uploadId: string): nat {
      if uploadId in buffers then |buffers[uploadId].buf| else 0
    }

    function Collect(now: nat): Backend {
      this.(sessions := map u | u in sessions && !Expired(now, sessions[u].expiresAt) :: sessions[u],
            buffers := map u | u in buffers && !Expired(now, buffers[u].expiresAt) :: buffers[u])
    }
  }

  predicate TakesPart(session: Option<Session>, layerKey: string, partNumber: int) {
    && partNumber <= MAX_UPLOAD_PARTS
    && session.Some?
    && session.value.id == layerKey
  }

  function Appended(buffer: Option<PartBuffer>, content: Bytes, now: nat): PartBuffer {
    match buffer
    case Some(p) => p.(buf := p.buf + content)
    case None => PartBuffer(content, now + SESSION_TIMEOUT)
  }

  class IpfsP2p {
    const env: Env
    var uploadSession: map<string, Session>
    var uploadParts: map<string, PartBuffer>
    var node: map<string, Bytes>

    ghost function State(): Backend
      reads this
    {
      Backend(uploadSession, uploadParts, node)
    }

    constructor (env: Env)
      ensures this.env == env
      ensures State() == Backend(map[], map[], map[])
    {
      this.env := env;
      uploadSession, uploadParts, node := map[], map[], map[];
    }

    method CreateMultipartUpload(sessionId: string, layerKey: string, now: nat)
      modifies this
      ensures State() == old(State()).CreateMultipartUpload(sessionId, layerKey, now)
    {
      uploadSession := uploadSession[sessionId := Session(layerKey, now + SESSION_TIMEOUT)];
    }

    method UploadPart(uploadId: string, layerKey: string, digest: string, partNumber: int, content: Bytes, now: nat)
      returns (part: Option<CompletedPart>)
      modifies this
      ensures var after := old(State()).UploadPart(uploadId, layerKey, partNumber, content, now);
        if after.Some? then State() == after.value && part == Some(CompletedPart(digest, partNumber))
        else State() == old(State()) && part == None
    {
      if partNumber > MAX_UPLOAD_PARTS {
        return None;
      }
      if uploadId !in uploadSession {
        return None;
      }
      var session := uploadSession[uploadId];
      if session.id != layerKey {
        return None;
      }
      if uploadId in uploadParts {
        var buffer := uploadParts[uploadId];
        uploadParts := uploadParts[uploadId := PartBuffer(buffer.buf + content, buffer.expiresAt)];
      } else {
        uploadParts := uploadParts[uploadId := PartBuffer(content, now + SESSION_TIMEOUT)];
      }
      part := Some(CompletedPart(digest, partNumber));
    }

    method Upload(content: Bytes, f: NodeFaults) returns (link: Option<string>)
      modifies this
      ensures (State(), link) == old(State()).Upload(env, content, f)
    {
      if f.addFails {
        return None;
      }
      var cid := env.cid(content);
      node := node[cid := content];
      if env.pinning {
        if f.pinFails {
          return None;
        }
      }
      link := Some(cid);
    }

    method CompleteMultipartUpload(uploadId: string, layerKey: string, completedParts: seq<CompletedPart>,
                                   f: NodeFaults)
      returns (link: Option<string>)
      modifies this
      ensures (State(), link) == old(State()).CompleteMultipartUpload(env, uploadId, layerKey, f)
    {
      if uploadId !in uploadSession {
        return None;
      }
      if layerKey != uploadSession[uploadId].id {
        return None;
      }
      if uploadId !in uploadParts {
        return None;
      }
      link := Upload(uploadParts[uploadId].buf, f);
      if link.Some? {
        uploadSession := uploadSession - {uploadId};
        uploadParts := uploadParts - {uploadId};
      }
    }

    method AbortMultipartUpload(uploadId: string)
      modifies this
      ensures State() == old(State()).Abort(uploadId)
    {
      uploadSession := uploadSession - {uploadId};
      uploadParts := uploadParts - {uploadId};
    }

    method GetUploadProgress(uploadId: string) returns (size: nat)
      ensures size == State().Progress(uploadId)
    {
      size := 0;
      if uploadId in uploadParts {
        size := |uploadParts[uploadId].buf|;
      }
    }

    /** One tick of the collector: both maps are walked, the keys to delete are
        collected, and only then are they deleted. */
    method Gc(now: nat)
      modifies this
      ensures State() == old(State()).Collect(now)
    {
      var deleteParts: set<string>, deleteSessions: set<string> := {}, {};

      var keys := uploadParts.Keys;
      while keys != {}
        invariant keys <= uploadParts.Keys
        invariant deleteParts == set u | u in uploadParts.Keys - keys && Expired(now, uploadParts[u].expiresAt)
      {
        var u :| u in keys;
        if Unix(now) > Unix(uploadParts[u].expiresAt) {
          deleteParts := deleteParts + {u};
        }
        keys := keys - {u};
      }

      keys := uploadSession.Keys;
      while keys != {}
        invariant keys <= uploadSession.Keys
        invariant deleteSessions ==
          set u | u in uploadSession.Keys - keys && Expired(now, uploadSession[u].expiresAt)
      {
        var u :| u in keys;
        if Unix(now) > Unix(uploadSession[u].expiresAt) {
          deleteSessions := deleteSessions + {u};
        }
        keys := keys - {u};
      }

      uploadParts := uploadParts - deleteParts;
      uploadSession := uploadSession - deleteSessions;
    }
  }

  /** Completing an upload ends it only when its object is stored: otherwise session and
      buffer stay, for another try or the collector. */
  lemma CompletionEndsOnSuccess(b: Backend, env: Env, uploadId: string, layerKey: string, f: NodeFaults)
    ensures var (after, link) := b.CompleteMultipartUpload(env, uploadId, layerKey, f);
      && (link.None? ==> after.sessions == b.sessions && after.buffers == b.buffers)
      && (link.Some? ==>
            && uploadId in b.sessions && b.sessions[uploadId].id == layerKey && uploadId in b.buffers
            && link.value == env.cid(b.buffers[uploadId].buf)
            && after.sessions == b.sessions - {uploadId} && after.buffers == b.buffers - {uploadId})
  {
  }
}
