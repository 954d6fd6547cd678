/**
  The watched-folder ingest client. Files change while it reads them, requests are executed late,
  twice or never, and responses get lost; all of that is fixed by oracles indexed by time, so a
  statement about `Watcher` holds for every behaviour of disk, network and server.
*/
module IngestWatch {
  import opened Wrappers
  import opened IngestServer

  const CHUNK_BYTES: nat := 1024 * 1024
  const STABLE_MS: nat := 1200

  type Fingerprint = string

  datatype Stats = Stats(isFile: bool, inode: nat)

  /** What the file system answers at each moment. */
  datatype Disk = Disk(
    names: nat -> seq<string>,
    lookup: (string, nat) -> Option<Stats>,
    fingerprint: (nat, nat) -> Fingerprint,    // of an inode at a moment
    bytes: (nat, nat) -> Bytes,                // of an inode at a moment
    shortRead: nat -> nat,                     // how much a read is willing to return
    clock: nat -> nat,
    contentOf: Fingerprint -> Bytes)

  /**
    An unchanged fingerprint means an unchanged file: while an inode shows the same fingerprint at
    two moments, it holds that fingerprint's content at every moment between them.
  */
  ghost predicate Faithful(disk: Disk) {
    forall i, t1, t, t2 :: t1 <= t <= t2 && disk.fingerprint(i, t1) == disk.fingerprint(i, t2) ==>
      disk.bytes(i, t) == disk.contentOf(disk.fingerprint(i, t1))
  }

  datatype Happening = Deliver(i: nat, store: Store) | Behind(background: Background)

  datatype Fate = Answered | AnswerLost | NotExecuted

  /** What the network and the server do at each moment. */
  datatype Network = Network(
    happenings: nat -> seq<Happening>,
    fate: nat -> Fate,
    store: nat -> Store,        // how the state write of our request at that moment goes
    stopping: nat -> bool,      // whether shutdown has begun
    external: bool)             // whether a webhook engine verifies uploads

  datatype Live<T> = Changed | Live(value: T)

  datatype Fault = NoSuchFile | OtherFault

  type Attempt<T> = Result<T, Fault>

  const SUPPORTED_EXTENSIONS := [".wav", ".mp3", ".m4a", ".aac", ".ogg", ".oga", ".flac", ".opus", ".webm",
                                ".mp4", ".mov", ".mkv", ".mpg", ".mpeg"]

  function LowerCase(s: string): string {
    seq(|s|, i requires 0 <= i < |s| => if 'A' <= s[i] <= 'Z' then s[i] - 'A' + 'a' else s[i])
  }

  /** Where the extension starts: the last dot, unless it opens the name; |name| when there is none. */
  function ExtensionStart(name: string, i: nat): nat
    requires i <= |name|
  {
    if i <= 1 then |name|
    else if name[i - 1] == '.' then i - 1
    else ExtensionStart(name, i - 1)
  }

  predicate Supported(name: string) {
    var start := ExtensionStart(name, |name|);
    start <= |name| && LowerCase(name[start..]) in SUPPORTED_EXTENSIONS
  }

  /** The two maps differ at most in what they say of `name`. */
  ghost predicate SameElsewhere<V(!new)>(a: map<string, V>, b: map<string, V>, name: string) {
    forall other :: other != name ==> (other in a <==> other in b) && (other in a ==> a[other] == b[other])
  }

  /** The entries whose names are in the folder. */
  function Resident<V>(entries: map<string, V>, names: seq<string>): (r: map<string, V>)
    ensures forall name :: name in r <==> name in entries && name in names
    ensures forall name :: name in r ==> r[name] == entries[name]
  {
    map name | name in entries && name in names :: entries[name]
  }

  /** A file whose fate is followed: its name, what is behind it, and its fingerprint. */
  datatype Subject = Subject(name: string, inode: nat, fingerprint: Fingerprint)

  datatype Standing = Standing(completed: bool, free: bool, noted: bool, limit: nat, elapsed: bool)

  datatype Candidate = Candidate(fingerprint: Fingerprint, changedAt: nat)

  class Watcher {
    const runId: string
    const disk: Disk
    const network: Network
    var now: nat
    var candidates: map<string, Candidate>
    var blockedPaths: map<string, Fingerprint>
    var completedPaths: map<string, Fingerprint>
    var done: set<Digest>
    var sessionsByDigest: map<Digest, SessionId>
    var unresumableDigests: set<Digest>
    var refused: set<string>
    /** The moment at which each candidate was noted. */
    ghost var notedAt: map<string, nat>
    /** Every request sent so far; any of them may still arrive. */
    var wire: seq<Request>
    var sessions: Sessions

    /** Requests are honest, sessions hold prefixes of their content, and what is `done` is stored. */
    ghost predicate Valid()
      reads `sessions, `wire, `done, `sessionsByDigest, `completedPaths
    {
      && Faithful(disk)
      && SessionsOk(runId, sessions)
      && (forall i :: 0 <= i < |wire| ==> Honest(runId, wire[i]))
      && (forall d :: d in sessionsByDigest ==> sessionsByDigest[d] == SessionId(runId, d))
      && (forall d :: d in done ==> Finalized(sessions, SessionId(runId, d)))
      && (forall name :: name in completedPaths ==> Ingested(completedPaths[name]))
    }

    /** The file called `name` had this fingerprint at moment `t`. */
    ghost predicate ShowedAt(name: string, fingerprint: Fingerprint, t: nat) {
      var entry := disk.lookup(name, t);
      entry.Some? && entry.value.isFile && disk.fingerprint(entry.value.inode, t) == fingerprint
    }

    /** Each candidate showed its fingerprint at the moment it was noted, and `changedAt` is the time of that. */
    ghost predicate CandidatesOk()
      reads `candidates, `notedAt, `now
    {
      forall name :: name in candidates ==>
        && name in notedAt && notedAt[name] <= now
        && ShowedAt(name, candidates[name].fingerprint, notedAt[name])
        && disk.clock(notedAt[name]) == candidates[name].changedAt
    }

    /** It had this fingerprint at both ends of the window; if it is the same file, its bytes stayed throughout. */
    ghost predicate HeldStill(name: string, fingerprint: Fingerprint, since: nat, until: nat) {
      && since <= until && disk.clock(until) >= disk.clock(since) + STABLE_MS
      && ShowedAt(name, fingerprint, since) && ShowedAt(name, fingerprint, until)
      && (disk.lookup(name, since) == disk.lookup(name, until) ==>
            forall t :: since <= t <= until ==> disk.bytes(disk.lookup(name, until).value.inode, t) == disk.contentOf(fingerprint))
    }

    /** The content behind this fingerprint needs no further work. */
    ghost predicate Ingested(fingerprint: Fingerprint)
      reads `done
    {
      disk.contentOf(fingerprint) == [] || Sha256(disk.contentOf(fingerprint)) in done
    }

    /** `inode` stays at `path`, and its fingerprint never changes. */
    ghost predicate CalmFile(path: string, inode: nat, expected: Fingerprint) {
      forall t: nat :: disk.lookup(path, t) == Some(Stats(true, inode)) && disk.fingerprint(inode, t) == expected
    }

    /** Whatever file the name opens after `since` never shows this fingerprint. */
    ghost predicate Replaced(path: string, expected: Fingerprint, since: nat) {
      && (forall t: nat :: since < t ==> disk.lookup(path, t).Some?)
      && (forall t: nat, u: nat :: since < t <= u ==> disk.fingerprint(disk.lookup(path, t).value.inode, u) != expected)
    }

    /** The name opened a file that showed this fingerprint at some moment in between. */
    ghost predicate SeenBetween(path: string, expected: Fingerprint, from: nat, to: nat) {
      exists t: nat :: from < t <= to && Opens(path, expected, t)
    }

    ghost predicate Opens(path: string, expected: Fingerprint, t: nat) {
      disk.lookup(path, t).Some? && disk.fingerprint(disk.lookup(path, t).value.inode, t) == expected
    }

    /** These bytes are not to be sent again, nor this file taken up as it is. */
    ghost predicate GivenUp(name: string, fingerprint: Fingerprint, digest: Digest)
      reads `unresumableDigests, `blockedPaths
    {
      digest in unresumableDigests && name in blockedPaths && blockedPaths[name] == fingerprint
    }

    // ----- a file that keeps still in a folder that does not disturb it -----

    /** It keeps still, or never shows this content. */
    ghost predicate Harmless(name: string, content: Bytes) {
      || (exists inode, fingerprint :: CalmFile(name, inode, fingerprint))
      || (forall t, fingerprint :: ShowedAt(name, fingerprint, t) ==> disk.contentOf(fingerprint) != content)
    }

    /** `f` is a supported file of the folder that keeps still, and nothing else disturbs its upload. */
    ghost predicate CalmFolder(f: Subject) {
      && Calm(f.name, f.inode, f.fingerprint) && Supported(f.name)
      && (forall t: nat :: f.name in disk.names(t))
      && (forall t: nat :: AllHarmless(disk.names(t), f))
    }

    ghost predicate CompletedAs(f: Subject)
      reads `completedPaths
    {
      f.name in completedPaths && completedPaths[f.name] == f.fingerprint
    }

    /** Neither blocked nor completed with this fingerprint. */
    ghost predicate Free(f: Subject)
      reads `blockedPaths, `completedPaths
    {
      !(f.name in blockedPaths && blockedPaths[f.name] == f.fingerprint) && !CompletedAs(f)
    }

    /** A candidate, noted no later than `limit`. */
    ghost predicate NotedBy(f: Subject, limit: nat)
      reads `candidates, `notedAt, `blockedPaths, `completedPaths
    {
      && Free(f) && f.name in candidates && candidates[f.name].fingerprint == f.fingerprint
      && f.name in notedAt && notedAt[f.name] <= limit
    }

    /** At moment `t`, whatever was noted by then has been stable for long enough. */
    ghost predicate Elapsed(limit: nat, t: nat) {
      forall u: nat :: u <= limit ==> disk.clock(t) >= disk.clock(u) + STABLE_MS
    }

    /** A pause of this many moments always takes the stability window. */
    ghost predicate PauseLasts(pause: nat) {
      forall u: nat, t: nat :: u + pause <= t ==> disk.clock(t) >= disk.clock(u) + STABLE_MS
    }

    /** The content behind this fingerprint is ingested already, or nothing on our side or the server's bars it. */
    ghost predicate Promising(fingerprint: Fingerprint)
      reads `done, `unresumableDigests, `sessions
    {
      var digest := Sha256(disk.contentOf(fingerprint));
      Ingested(fingerprint) || (digest !in unresumableDigests && CanGoOn(SessionId(runId, digest)))
    }

    /** Nothing reaches the server but what we send, and every request is committed and answered. */
    ghost predicate CalmNetwork() {
      forall t: nat ::
        network.happenings(t) == [] && network.fate(t) == Answered && network.store(t) == AtOnce && !network.stopping(t)
    }

    ghost predicate Calm(path: string, inode: nat, expected: Fingerprint) {
      CalmFile(path, inode, expected) && CalmNetwork()
    }

    /** Work on one session leaves all others as they are, on a calm network. */
    twostate predicate OthersKept(id: SessionId)
      reads `sessions
    {
      CalmNetwork() ==> sessions - {id} == old(sessions) - {id}
    }

    /** The server has no session for `id`, or one that can go on. */
    ghost predicate CanGoOn(id: SessionId)
      reads `sessions
    {
      id in sessions ==> CanContinue(sessions[id])
    }

    /** The server has committed the first `n` bytes of this upload and takes more. */
    ghost predicate Ready(id: SessionId, n: nat)
      reads `sessions
    {
      id in sessions && (sessions[id].state.Uploading? || sessions[id].state.Interrupted?)
      && (sessions[id].temp.Some? || (sessions[id].state.Uploading? && n == 0)) && sessions[id].bytesReceived == n
    }

    /** The server asks for more of this upload, but the file it would add it to is gone. */
    ghost predicate Stuck(id: SessionId, n: nat)
      reads `sessions
    {
      id in sessions && sessions[id].state.Uploading? && sessions[id].temp.None? && sessions[id].bytesReceived == n > 0
    }

    /** Time only moves on, what is done stays done, and what is stored stays stored. */
    twostate predicate Advanced()
      reads `now, `done, `sessions
    {
      && now >= old(now)
      && done >= old(done)
      && (forall id: SessionId :: id.runId == runId && Finalized(old(sessions), id) ==> Finalized(sessions, id))
    }

    constructor (runId: string, disk: Disk, network: Network, sessions: Sessions)
      requires Faithful(disk)
      requires forall id :: id in sessions ==> id.runId != runId
      ensures Valid() && CandidatesOk() && this.runId == runId && this.disk == disk && this.network == network
    {
      this.runId, this.disk, this.network, this.sessions := runId, disk, network, sessions;
      now, wire := 0, [];
      candidates, blockedPaths, completedPaths, sessionsByDigest := map[], map[], map[], map[];
      done, unresumableDigests, refused, notedAt := {}, {}, {}, map[];
    }

    // ----- the network -----

    method Execute(request: Request, store: Store) returns (response: Response)
      requires Valid() && Honest(runId, request)
      modifies `sessions
      ensures Valid() && Advanced()
      ensures sessions - {request.id} == old(sessions) - {request.id}
      ensures (sessions, response) == Handle(network.external, store, old(sessions), request)
    {
      HandleKeepsSessionsOk(runId, network.external, store, sessions, request);
      var (sessions', response') := Handle(network.external, store, sessions, request);
      sessions, response := sessions', response';
    }

    /** Late arrivals of earlier requests, and what the server does by itself. */
    method Meanwhile()
      requires Valid()
      modifies `sessions
      ensures Valid() && Advanced()
      ensures network.happenings(now) == [] ==> sessions == old(sessions)
    {
      var happenings := network.happenings(now);
      for i := 0 to |happenings|
        invariant Valid() && Advanced()
        invariant i == 0 ==> sessions == old(sessions)
      {
        match happenings[i]
        case Deliver(k, store) =>
          if k < |wire| {
            var _ := Execute(wire[k], store);
          }
        case Behind(b) =>
          BackgroundKeepsSessionsOk(runId, sessions, b);
          sessions := InBackground(sessions, b);
      }
    }

    /** One request. The answer is the server's at the moment of execution, or nothing. */
    method Send(request: Request) returns (answer: Option<Response>)
      requires Valid() && Honest(runId, request)
      modifies `sessions, `wire, `now
      ensures Valid() && Advanced() && now == old(now) + 1 && wire == old(wire) + [request]
      ensures OthersKept(request.id)
      ensures answer.Some? ==> request.id in sessions || !answer.value.Accepted?
      ensures answer.Some? ==>
                exists before :: SessionsOk(runId, before)
                  && (sessions, answer.value) == Handle(network.external, network.store(now), before, request)
      ensures network.happenings(now) == [] && network.fate(now) == Answered && !network.stopping(now) ==>
                answer.Some? && (sessions, answer.value) == Handle(network.external, network.store(now), old(sessions), request)
    {
      wire := wire + [request];
      now := now + 1;
      Meanwhile();
      if network.stopping(now) || network.fate(now).NotExecuted? {
        return None;
      }
      ghost var before := sessions;
      var response := Execute(request, network.store(now));
      assert SessionsOk(runId, before);
      if network.fate(now).AnswerLost? {
        return None;
      }
      return Some(response);
    }

    // ----- the file system -----

    /** A positioned read: at least one byte, possibly fewer than asked for, or a failure at the end. */
    method ReadChunk(inode: nat, bufferLength: nat, position: nat, totalSize: nat) returns (r: Attempt<Bytes>)
      requires position < totalSize && bufferLength > 0
      modifies `now
      ensures now == old(now) + 1
      ensures r.Success? ==>
                var file := disk.bytes(inode, now);
                && 0 < |r.value| <= totalSize - position && |r.value| <= bufferLength
                && position + |r.value| <= |file| && r.value == file[position..position + |r.value|]
      ensures r.Failure? ==> |disk.bytes(inode, now)| <= position
    {
      now := now + 1;
      var file := disk.bytes(inode, now);
      var length := if bufferLength < totalSize - position then bufferLength else totalSize - position;
      if |file| <= position {
        return Failure(OtherFault);
      }
      var available := if |file| - position < length then |file| - position else length;
      var read := if 0 < disk.shortRead(now) < available then disk.shortRead(now) else available;
      return Success(file[position..position + read]);
    }

    /** The bytes of the file as they are read; they are one content if the fingerprint holds to the end. */
    method HashFile(inode: nat, bufferLength: nat, size: nat, ghost t: nat, ghost expected: Fingerprint)
      returns (r: Attempt<Digest>)
      requires Faithful(disk) && bufferLength > 0
      requires t <= now && disk.fingerprint(inode, t) == expected
      modifies `now
      ensures now >= old(now)
      ensures forall t2 :: t2 >= now && disk.fingerprint(inode, t2) == expected && size == |disk.contentOf(expected)|
                ==> r == Success(Sha256(disk.contentOf(expected)))
    {
      var data: Bytes := [];
      ghost var content := disk.contentOf(expected);
      while |data| < size
        invariant now >= old(now) && |data| <= size
        invariant forall t2 :: t2 >= now && disk.fingerprint(inode, t2) == expected && size == |content|
                    ==> data == content[..|data|]
      {
        var chunk := ReadChunk(inode, bufferLength, |data|, size);
        assert forall t2 :: t2 >= now && disk.fingerprint(inode, t2) == expected ==> disk.bytes(inode, now) == content;
        if chunk.Failure? {
          return Failure(chunk.error);
        }
        data := data + chunk.value;
      }
      assert size == |content| && data == content[..|data|] ==> data == content;
      return Success(Sha256(data));
    }

    /** `withLiveFile` around a hash of the whole file; the size comes from the file unless it is known. */
    method LiveDigest(path: string, expected: Fingerprint, knownSize: Option<nat>)
      returns (r: Attempt<Live<(Digest, nat)>>)
      requires Faithful(disk)
      modifies `now
      ensures now >= old(now)
      ensures r.Success? && r.value.Live? ==>
                var (digest, size) := r.value.value;
                && (knownSize.None? ==> size == |disk.contentOf(expected)|)
                && (knownSize.Some? ==> size == knownSize.value)
                && (size == |disk.contentOf(expected)| ==> digest == Sha256(disk.contentOf(expected)))
      ensures forall inode :: Calm(path, inode, expected) && (knownSize.Some? ==> knownSize.value == |disk.contentOf(expected)|)
                ==> r.Success? && r.value.Live?
      ensures r.Success? && r.value.Live? ==> SeenBetween(path, expected, old(now), now)
      ensures Replaced(path, expected, old(now)) ==> r == Success(Changed)
    {
      now := now + 1;
      var entry := disk.lookup(path, now);
      if entry.None? {
        return Failure(NoSuchFile);
      }
      var inode := entry.value.inode;
      now := now + 1;
      if disk.fingerprint(inode, now) != expected {
        return Success(Changed);
      }
      ghost var t := now;
      assert disk.bytes(inode, t) == disk.contentOf(expected);
      var size := if knownSize.Some? then knownSize.value else |disk.bytes(inode, now)|;
      var digest := Sha256([]);
      if size > 0 {
        var hashed := HashFile(inode, if CHUNK_BYTES < size then CHUNK_BYTES else size, size, t, expected);
        assert forall i :: Calm(path, i, expected) ==> i == inode && disk.fingerprint(inode, now) == expected;
        if hashed.Failure? {
          return Failure(hashed.error);
        }
        digest := hashed.value;
      }
      var live := StillLive(path, inode, expected);
      r := if live.Failure? then Failure(live.error)
           else Success(if live.value then Live((digest, size)) else Changed);
    }

    /** The two checks that close `withLiveFile`: the open file and the path both still match. */
    method StillLive(path: string, inode: nat, expected: Fingerprint) returns (r: Attempt<bool>)
      modifies `now
      ensures now == old(now) + 2
      ensures r == Success(true) ==> disk.fingerprint(inode, old(now) + 1) == expected && Opens(path, expected, now)
      ensures Calm(path, inode, expected) ==> r == Success(true)
    {
      now := now + 1;
      var same := disk.fingerprint(inode, now) == expected;
      now := now + 1;
      var entry := disk.lookup(path, now);
      return Success(same && entry.Some? && disk.fingerprint(entry.value.inode, now) == expected);
    }

    /** `withLiveFile` around one read at `offset`. */
    method LiveChunk(path: string, expected: Fingerprint, offset: nat, size: nat) returns (r: Attempt<Live<Bytes>>)
      requires Faithful(disk) && offset < size
      modifies `now
      ensures now >= old(now)
      ensures r.Success? && r.value.Live? ==>
                var chunk := r.value.value;
                var content := disk.contentOf(expected);
                && 0 < |chunk| <= size - offset && offset + |chunk| <= |content|
                && chunk == content[offset..offset + |chunk|]
      ensures forall inode :: Calm(path, inode, expected) && size == |disk.contentOf(expected)| ==> r.Success? && r.value.Live?
      ensures Replaced(path, expected, old(now)) ==> r == Success(Changed)
    {
      now := now + 1;
      var entry := disk.lookup(path, now);
      if entry.None? {
        return Failure(NoSuchFile);
      }
      var inode := entry.value.inode;
      now := now + 1;
      if disk.fingerprint(inode, now) != expected {
        return Success(Changed);
      }
      ghost var t := now;
      var chunk := ReadChunk(inode, if CHUNK_BYTES < size then CHUNK_BYTES else size, offset, size);
      ghost var tRead := now;
      assert forall i :: Calm(path, i, expected) ==> i == inode && disk.fingerprint(inode, tRead) == expected;
      assert disk.fingerprint(inode, tRead) == expected ==> disk.bytes(inode, tRead) == disk.contentOf(expected);
      if chunk.Failure? {
        return Failure(chunk.error);
      }
      var live := StillLive(path, inode, expected);
      assert live == Success(true) ==> disk.bytes(inode, tRead) == disk.contentOf(expected);
      r := if live.Failure? then Failure(live.error)
           else Success(if live.value then Live(chunk.value) else Changed);
    }

    // ----- sessions -----

    /** The status of a session we know, or nothing when the server has forgotten it. */
    method LoadSessionStatus(id: SessionId) returns (r: Attempt<Option<Status>>)
      requires Valid() && id.runId == runId
      modifies `sessions, `wire, `now
      ensures Valid() && Advanced()
      ensures OthersKept(id)
      ensures r.Success? && r.value.Some? ==> Truthful(id, r.value.value)
      ensures forall path, inode, fp :: Calm(path, inode, fp) ==>
                && sessions == old(sessions)
                && r == Success(if id in sessions then Some(StatusOf(id, sessions[id])) else None)
    {
      var answer := Send(GetStatus(id));
      match answer
      case None => r := Failure(OtherFault);
      case Some(NotFound) => r := Success(None);
      case Some(Refused) => r := Failure(OtherFault);
      case Some(Accepted(status)) =>
        if id in sessions && IsDurablyFinalized(status) {
          DurableMeansFinalized(runId, sessions, id);
        }
        r := Success(Some(status));
    }

    /** A status the server once gave for `id`: a durable finalize is never reported in vain. */
    ghost predicate Truthful(id: SessionId, status: Status)
      reads `sessions
    {
      status.sessionId == id && (IsDurablyFinalized(status) ==> Finalized(sessions, id))
    }

    method NoteFinalized(digest: Digest) returns (r: Attempt<bool>)
      requires Valid() && Finalized(sessions, SessionId(runId, digest))
      modifies `done
      ensures Valid() && done == old(done) + {digest} && r == Success(true)
    {
      done := done + {digest};
      return Success(true);
    }

    /** What became of a finalize whose answer does not say that it worked. */
    method ReconcileFinalizeFailure(id: SessionId, digest: Digest) returns (r: Attempt<bool>)
      requires Valid() && id == SessionId(runId, digest)
      modifies `sessions, `wire, `now, `done
      ensures Valid() && Advanced()
      ensures OthersKept(id)
      ensures done == if r.Success? then old(done) + {digest} else old(done)
      ensures r.Success? ==> r.value
      ensures forall path, inode, fp :: Calm(path, inode, fp) && id in old(sessions) && old(sessions)[id].state.VerificationFailed?
                ==> r.Failure?
    {
      var status := LoadSessionStatus(id);
      if status.Success? && status.value.Some? && IsDurablyFinalized(status.value.value) {
        r := NoteFinalized(digest);
        return;
      }
      return Failure(OtherFault);
    }

    method FinalizeSession(id: SessionId, digest: Digest) returns (r: Attempt<bool>)
      requires Valid() && id == SessionId(runId, digest)
      modifies `sessions, `wire, `now, `sessionsByDigest, `done
      ensures Valid() && Advanced()
      ensures OthersKept(id)
      ensures done == if r.Success? then old(done) + {digest} else old(done)
      ensures r.Success? ==> r.value
      ensures forall path, inode, fp :: Calm(path, inode, fp) && old(Ready(id, |digest.content|)) && |digest.content| > 0
                ==> r.Success?
      ensures forall path, inode, fp :: Calm(path, inode, fp) && old(Stuck(id, |digest.content|)) ==> r.Failure?
    {
      sessionsByDigest := sessionsByDigest[digest := id];
      var accepted := AskToFinalize(id);
      if accepted {
        r := NoteFinalized(digest);
      } else {
        r := ReconcileFinalizeFailure(id, digest);
      }
    }

    method AskToFinalize(id: SessionId) returns (accepted: bool)
      requires Valid() && id.runId == runId
      modifies `sessions, `wire, `now
      ensures Valid() && Advanced()
      ensures OthersKept(id)
      ensures accepted ==> Finalized(sessions, id)
      ensures forall path, inode, fp :: Calm(path, inode, fp) && old(Ready(id, |id.digest.content|)) && |id.digest.content| > 0
                ==> accepted
      ensures forall path, inode, fp :: Calm(path, inode, fp) && old(Stuck(id, |id.digest.content|)) ==>
                !accepted && id in sessions && sessions[id].state.VerificationFailed?
    {
      FinalizeOnce(runId, network.external, AtOnce, sessions, id);
      assert id in sessions ==> SessionOk(id, sessions[id]);
      var answer := Send(FinalizeUpload(id));
      accepted := answer.Some? && answer.value.Accepted?;
      if accepted {
        ghost var before :| SessionsOk(runId, before)
          && (sessions, answer.value) == Handle(network.external, network.store(now), before, FinalizeUpload(id));
        FinalizeOnce(runId, network.external, network.store(now), before, id);
      }
    }

    /** The known session of these bytes, or the one the idempotency key leads to. */
    method GetOrCreateSession(digest: Digest, size: nat) returns (r: Attempt<(bool, Status)>)
      requires Valid() && size == |digest.content|
      modifies `sessions, `wire, `now, `sessionsByDigest
      ensures Valid() && Advanced() && done == old(done)
      ensures OthersKept(SessionId(runId, digest))
      ensures r.Success? ==> Truthful(SessionId(runId, digest), r.value.1)
      ensures forall path, inode, fp :: Calm(path, inode, fp) && size > 0 ==>
                var id := SessionId(runId, digest);
                && r.Success? && id in sessions && r.value.1 == StatusOf(id, sessions[id])
                && (id in old(sessions) ==> sessions == old(sessions))
                && (id !in old(sessions) ==> Ready(id, 0))
    {
      if digest in sessionsByDigest {
        var status := LoadSessionStatus(sessionsByDigest[digest]);
        if status.Failure? {
          return Failure(status.error);
        }
        if status.value.Some? {
          return Success((true, status.value.value));
        }
        sessionsByDigest := sessionsByDigest - {digest};
      }
      r := CreateSession(digest, size);
    }

    method CreateSession(digest: Digest, size: nat) returns (r: Attempt<(bool, Status)>)
      requires Valid() && size == |digest.content|
      modifies `sessions, `wire, `now, `sessionsByDigest
      ensures Valid() && Advanced()
      ensures OthersKept(SessionId(runId, digest))
      ensures r.Success? ==> Truthful(SessionId(runId, digest), r.value.1)
      ensures forall path, inode, fp :: Calm(path, inode, fp) && size > 0 ==>
                var id := SessionId(runId, digest);
                && r.Success? && id in sessions && r.value.1 == StatusOf(id, sessions[id])
                && (id in old(sessions) ==> sessions == old(sessions))
                && (id !in old(sessions) ==> Ready(id, 0))
    {
      var id := SessionId(runId, digest);
      var answer := Send(Create(id, size));
      match answer
      case Some(Accepted(status)) =>
        if IsDurablyFinalized(status) {
          assert id in sessions;
          DurableMeansFinalized(runId, sessions, id);
        }
        sessionsByDigest := sessionsByDigest[digest := status.sessionId];
        r := Success((status.bytesReceived > 0 || status.nextAction.Finalize?, status));
      case _ => r := Failure(OtherFault);
    }

    method Block(name: string, fingerprint: Fingerprint, digest: Digest)
      requires Valid()
      modifies `unresumableDigests, `blockedPaths
      ensures Valid()
      ensures unresumableDigests == old(unresumableDigests) + {digest}
      ensures blockedPaths == old(blockedPaths)[name := fingerprint]
    {
      unresumableDigests := unresumableDigests + {digest};
      blockedPaths := blockedPaths[name := fingerprint];
    }

    // ----- one file -----

    /**
      Hash, find the session, send what is missing, hash again, finalize. `true` means that the bytes
      behind `expected` need no further work: they are empty or stored by the server.
    */
    method IngestFile(name: string, expected: Fingerprint) returns (r: Attempt<bool>)
      requires Valid()
      modifies `now, `sessions, `wire, `sessionsByDigest, `done,
               `unresumableDigests, `blockedPaths
      ensures Valid() && Advanced()
      ensures OthersKept(SessionId(runId, Sha256(disk.contentOf(expected))))
      ensures unresumableDigests <= old(unresumableDigests) + {Sha256(disk.contentOf(expected))}
      ensures SameElsewhere(blockedPaths, old(blockedPaths), name)
      ensures done <= old(done) + {Sha256(disk.contentOf(expected))}
      ensures r == Success(true) ==> Ingested(expected)
      ensures !old(Ingested(expected)) && Sha256(disk.contentOf(expected)) !in old(unresumableDigests) ==>
                forall inode :: Calm(name, inode, expected) ==>
                  (r == Success(true) <==> old(CanGoOn(SessionId(runId, Sha256(disk.contentOf(expected))))))
      ensures forall inode :: Calm(name, inode, expected) && old(Promising(expected)) ==> r == Success(true)
      ensures forall inode ::
                Calm(name, inode, expected) && !old(Ingested(expected)) && Sha256(disk.contentOf(expected)) in old(unresumableDigests)
                ==> r.Failure? && GivenUp(name, expected, Sha256(disk.contentOf(expected))) && sessions == old(sessions)
    {
      var initial := LiveDigest(name, expected, None);
      if initial.Failure? {
        return Failure(initial.error);
      }
      if initial.value.Changed? {
        return Success(false);
      }
      var (digest, size) := initial.value.value;
      if size == 0 || digest in done {
        return Success(true);
      }
      if digest in unresumableDigests {
        blockedPaths := blockedPaths[name := expected];
        return Failure(OtherFault);
      }
      r := UploadContent(name, expected, digest, size);
    }

    /** The session of this content, whatever state an earlier attempt left it in. */
    method UploadContent(name: string, expected: Fingerprint, digest: Digest, size: nat) returns (r: Attempt<bool>)
      requires Valid() && digest == Sha256(disk.contentOf(expected)) && size == |digest.content|
      modifies `now, `sessions, `wire, `sessionsByDigest, `done, `unresumableDigests, `blockedPaths
      ensures Valid() && Advanced()
      ensures OthersKept(SessionId(runId, digest))
      ensures unresumableDigests <= old(unresumableDigests) + {digest}
      ensures SameElsewhere(blockedPaths, old(blockedPaths), name)
      ensures done == if r.Success? then old(done) + {digest} else old(done)
      ensures r.Success? ==> r.value
      ensures forall inode :: Calm(name, inode, expected) && size > 0 ==>
                (r.Success? <==> old(CanGoOn(SessionId(runId, digest))))
    {
      ghost var id := SessionId(runId, digest);
      var session := GetOrCreateSession(digest, size);
      if session.Failure? {
        return Failure(session.error);
      }
      var (resumed, status) := session.value;
      if resumed {
        var again := LiveDigest(name, expected, Some(size));
        if again.Failure? {
          return Failure(again.error);
        }
        if again.value.Changed? || again.value.value.0 != digest {
          Block(name, expected, digest);
          return Failure(OtherFault);
        }
      }
      r := ContinueSession(name, expected, digest, size, status);
    }

    /** What the session's status calls for: nothing more, a restart, or the rest of the upload. */
    method ContinueSession(name: string, expected: Fingerprint, digest: Digest, size: nat, status: Status)
      returns (r: Attempt<bool>)
      requires Valid() && digest == Sha256(disk.contentOf(expected)) && size == |digest.content|
      requires Truthful(SessionId(runId, digest), status)
      modifies `now, `sessions, `wire, `sessionsByDigest, `done, `unresumableDigests, `blockedPaths
      ensures Valid() && Advanced()
      ensures OthersKept(SessionId(runId, digest))
      ensures unresumableDigests <= old(unresumableDigests) + {digest}
      ensures SameElsewhere(blockedPaths, old(blockedPaths), name)
      ensures done == if r.Success? then old(done) + {digest} else old(done)
      ensures r.Success? ==> r.value
      ensures forall inode :: Calm(name, inode, expected) && size > 0 && Current(SessionId(runId, digest), status, old(sessions)) ==>
                (r.Success? <==> old(CanGoOn(SessionId(runId, digest))))
      ensures status.nextAction.Restart? ==> r.Failure? && GivenUp(name, expected, digest)
    {
      if IsDurablyFinalized(status) {
        r := NoteFinalized(digest);
        return;
      }
      if status.nextAction.Restart? {
        Block(name, expected, digest);
        return Failure(OtherFault);
      }
      if status.nextAction.NoAction? || status.bytesExpected != size || status.bytesReceived > size {
        return Failure(OtherFault);
      }
      assert SessionId(runId, digest) in sessions ==> SessionOk(SessionId(runId, digest), sessions[SessionId(runId, digest)]);
      r := SendAndFinalize(name, expected, digest, size, status.bytesReceived);
    }

    /** The status is that of the session as it stands. */
    ghost predicate Current(id: SessionId, status: Status, sessions: Sessions) {
      id in sessions && status == StatusOf(id, sessions[id])
    }

    /** Send what the server lacks, make sure the file is still the one that was hashed, finalize. */
    method SendAndFinalize(name: string, expected: Fingerprint, digest: Digest, size: nat, committed: nat)
      returns (r: Attempt<bool>)
      requires Valid() && committed <= size
      requires digest == Sha256(disk.contentOf(expected)) && size == |digest.content|
      modifies `now, `sessions, `wire, `sessionsByDigest, `done, `unresumableDigests, `blockedPaths
      ensures Valid() && Advanced()
      ensures OthersKept(SessionId(runId, digest))
      ensures unresumableDigests <= old(unresumableDigests) + {digest}
      ensures SameElsewhere(blockedPaths, old(blockedPaths), name)
      ensures done == if r.Success? then old(done) + {digest} else old(done)
      ensures r.Success? ==> r.value
      ensures forall inode :: Calm(name, inode, expected) && size > 0 && old(Ready(SessionId(runId, digest), committed))
                ==> r.Success?
      ensures forall inode :: Calm(name, inode, expected) && old(Stuck(SessionId(runId, digest), committed)) ==> r.Failure?
      ensures r.Success? ==> SeenBetween(name, expected, old(now), now)
      ensures Replaced(name, expected, old(now)) ==> r.Failure? && GivenUp(name, expected, digest)
    {
      r := SendChunks(name, expected, digest, size, committed);
      if r.Failure? {
        return;
      }
      var uploaded := LiveDigest(name, expected, Some(size));
      if uploaded.Failure? {
        return Failure(uploaded.error);
      }
      if uploaded.value.Changed? || uploaded.value.value.0 != digest {
        Block(name, expected, digest);
        return Failure(OtherFault);
      }
      r := FinalizeSession(SessionId(runId, digest), digest);
    }

    /** The upload loop: only the server's committed offset moves it on. */
    method SendChunks(name: string, expected: Fingerprint, digest: Digest, size: nat, committed: nat)
      returns (r: Attempt<bool>)
      requires Valid() && committed <= size
      requires digest == Sha256(disk.contentOf(expected)) && size == |digest.content|
      modifies `now, `sessions, `wire, `unresumableDigests, `blockedPaths
      ensures Valid() && Advanced()
      ensures OthersKept(SessionId(runId, digest))
      ensures unresumableDigests <= old(unresumableDigests) + {digest}
      ensures SameElsewhere(blockedPaths, old(blockedPaths), name)
      ensures forall inode :: Calm(name, inode, expected) && old(Ready(SessionId(runId, digest), committed)) ==>
                r.Success? && Ready(SessionId(runId, digest), size)
      ensures forall inode :: Calm(name, inode, expected) && old(Stuck(SessionId(runId, digest), committed)) ==>
                r.Failure? || (committed == size && Stuck(SessionId(runId, digest), size))
      ensures Replaced(name, expected, old(now)) ==> if committed < size then r.Failure? && GivenUp(name, expected, digest) else r.Success?
    {
      var offset := committed;
      while offset < size
        invariant Valid() && Advanced() && offset <= size
        invariant OthersKept(SessionId(runId, digest))
        invariant unresumableDigests <= old(unresumableDigests) + {digest}
        invariant SameElsewhere(blockedPaths, old(blockedPaths), name)
        invariant forall inode :: Calm(name, inode, expected) && old(Ready(SessionId(runId, digest), committed)) ==>
                    Ready(SessionId(runId, digest), offset)
        invariant forall inode :: Calm(name, inode, expected) && old(Stuck(SessionId(runId, digest), committed)) ==>
                    offset == committed && Stuck(SessionId(runId, digest), committed)
        invariant offset == committed ==> now == old(now)
        invariant Replaced(name, expected, old(now)) ==> offset == committed
      {
        var next := SendChunk(name, expected, digest, size, offset);
        if next.Failure? {
          return Failure(next.error);
        }
        offset := next.value;
      }
      return Success(true);
    }

    /** One round of that loop: read the next chunk of the live file, send it, learn the committed offset. */
    method SendChunk(name: string, expected: Fingerprint, digest: Digest, size: nat, offset: nat)
      returns (r: Attempt<nat>)
      requires Valid() && offset < size
      requires digest == Sha256(disk.contentOf(expected)) && size == |digest.content|
      modifies `now, `sessions, `wire, `unresumableDigests, `blockedPaths
      ensures Valid() && Advanced()
      ensures OthersKept(SessionId(runId, digest))
      ensures unresumableDigests <= old(unresumableDigests) + {digest}
      ensures SameElsewhere(blockedPaths, old(blockedPaths), name)
      ensures r.Success? ==> offset < r.value <= size
      ensures forall inode :: Calm(name, inode, expected) && old(Ready(SessionId(runId, digest), offset)) ==>
                r.Success? && Ready(SessionId(runId, digest), r.value)
      ensures forall inode :: Calm(name, inode, expected) && old(Stuck(SessionId(runId, digest), offset)) ==> r.Failure?
      ensures Replaced(name, expected, old(now)) ==> r.Failure? && GivenUp(name, expected, digest)
    {
      var id := SessionId(runId, digest);
      assert id in sessions ==> SessionOk(id, sessions[id]);
      var chunk := LiveChunk(name, expected, offset, size);
      if chunk.Failure? {
        return Failure(chunk.error);
      }
      if chunk.value.Changed? {
        Block(name, expected, digest);
        return Failure(OtherFault);
      }
      var answer := Send(PutChunk(id, offset, chunk.value.value));
      if answer.None? || !answer.value.Accepted? {
        return Failure(OtherFault);
      }
      var status := answer.value.status;
      if status.sessionId != id || status.bytesReceived <= offset || status.bytesReceived > size {
        return Failure(OtherFault);
      }
      return Success(status.bytesReceived);
    }

    // ----- the folder -----

    ghost predicate Shown(name: string, inode: nat, fingerprint: Fingerprint, t: nat) {
      disk.lookup(name, t) == Some(Stats(true, inode)) && disk.fingerprint(inode, t) == fingerprint
    }

    /** A file that nothing bars is taken up if it was noted long enough ago, stays noted, or is noted now. */
    twostate predicate Judged(name: string, fingerprint: Fingerprint, new stable: Option<Fingerprint>)
      reads this
    {
      if name in old(candidates) && old(candidates)[name].fingerprint == fingerprint then
        if disk.clock(now) >= old(candidates)[name].changedAt + STABLE_MS then stable == Some(fingerprint)
        else stable.None? && name in candidates && candidates[name] == old(candidates)[name] && notedAt == old(notedAt)
      else
        && stable.None? && name in candidates && candidates[name].fingerprint == fingerprint
        && name in notedAt && notedAt[name] == now
    }

    /**
      Takes the file up exactly if it is a supported file, neither blocked nor completed as it is, and
      was noted as it is for long enough; otherwise it is noted now or stays noted, if nothing bars it.
    */
    method WaitUntilStable(name: string) returns (stable: Option<Fingerprint>)
      requires Faithful(disk) && CandidatesOk()
      modifies `now, `candidates, `blockedPaths, `refused, `notedAt
      ensures now == old(now) + 1 && CandidatesOk()
      ensures stable.Some? ==>
                && Supported(name) && name !in candidates && name !in blockedPaths
                && (name in old(blockedPaths) ==> old(blockedPaths)[name] != stable.value)
                && (name in completedPaths ==> completedPaths[name] != stable.value)
                && name in old(notedAt) && HeldStill(name, stable.value, old(notedAt)[name], now)
                && exists inode :: Shown(name, inode, stable.value, now)
      ensures forall inode, fingerprint ::
                Shown(name, inode, fingerprint, now) && Supported(name) && old(Free(Subject(name, inode, fingerprint)))
                ==> Judged(name, fingerprint, stable)
      ensures SameElsewhere(candidates, old(candidates), name) && SameElsewhere(notedAt, old(notedAt), name)
      ensures blockedPaths == old(blockedPaths) || blockedPaths == old(blockedPaths) - {name}
    {
      now := now + 1;
      var shown := NotBarred(name);
      if shown.None? {
        return None;
      }
      stable := NoteOrTake(name, shown.value);
    }

    /** The fingerprint that the file shows now, unless something bars the file. */
    method NotBarred(name: string) returns (shown: Option<Fingerprint>)
      requires CandidatesOk()
      modifies `candidates, `blockedPaths, `refused
      ensures CandidatesOk()
      ensures shown.Some? ==>
                && Supported(name) && name !in blockedPaths && candidates == old(candidates)
                && (name in old(blockedPaths) ==> old(blockedPaths)[name] != shown.value)
                && (name in completedPaths ==> completedPaths[name] != shown.value)
                && exists inode :: Shown(name, inode, shown.value, now)
      ensures forall inode, fingerprint ::
                Shown(name, inode, fingerprint, now) && Supported(name) && old(Free(Subject(name, inode, fingerprint)))
                ==> shown == Some(fingerprint)
      ensures SameElsewhere(candidates, old(candidates), name)
      ensures blockedPaths == old(blockedPaths) || blockedPaths == old(blockedPaths) - {name}
    {
      var entry := disk.lookup(name, now);
      if entry.None? {
        candidates := candidates - {name};
        return None;
      }
      if !entry.value.isFile {
        candidates, blockedPaths := candidates - {name}, blockedPaths - {name};
        return None;
      }
      if !Supported(name) {
        candidates, refused := candidates - {name}, refused + {name};
        return None;
      }
      var fingerprint := disk.fingerprint(entry.value.inode, now);
      assert Shown(name, entry.value.inode, fingerprint, now);
      if name in blockedPaths && blockedPaths[name] == fingerprint {
        candidates := candidates - {name};
        return None;
      }
      blockedPaths := blockedPaths - {name};
      if name in completedPaths && completedPaths[name] == fingerprint {
        candidates := candidates - {name};
        return None;
      }
      return Some(fingerprint);
    }

    method NoteOrTake(name: string, fingerprint: Fingerprint) returns (stable: Option<Fingerprint>)
      requires Faithful(disk) && CandidatesOk() && exists inode :: Shown(name, inode, fingerprint, now)
      modifies `candidates, `notedAt
      ensures CandidatesOk() && Judged(name, fingerprint, stable)
      ensures stable.Some? ==>
                && stable.value == fingerprint && name !in candidates
                && name in old(notedAt) && HeldStill(name, fingerprint, old(notedAt)[name], now)
      ensures SameElsewhere(candidates, old(candidates), name) && SameElsewhere(notedAt, old(notedAt), name)
    {
      ghost var inode :| Shown(name, inode, fingerprint, now);
      assert ShowedAt(name, fingerprint, now);
      if name !in candidates || candidates[name].fingerprint != fingerprint {
        candidates := candidates[name := Candidate(fingerprint, disk.clock(now))];
        notedAt := notedAt[name := now];
        return None;
      }
      if disk.clock(now) < candidates[name].changedAt + STABLE_MS {
        return None;
      }
      candidates := candidates - {name};
      return Some(fingerprint);
    }

    /** What the processing of one entry does for a subject. */
    twostate predicate Helps(name: string, f: Subject, limit: nat)
      reads this
    {
      && Promising(f.fingerprint)
      && (old(CompletedAs(f)) ==> CompletedAs(f))
      && (old(Free(f)) ==> CompletedAs(f) || Free(f))
      && (old(NotedBy(f, limit)) ==> CompletedAs(f) || NotedBy(f, limit))
      && (old(NotedBy(f, now)) ==> CompletedAs(f) || NotedBy(f, now))
      && (name == f.name && old(Free(f)) ==> CompletedAs(f) || NotedBy(f, now))
      && (name == f.name && old(NotedBy(f, limit)) && Elapsed(limit, old(now) + 1) ==> CompletedAs(f))
    }

    /**
      One entry of the folder. For any subject `f` in a folder that does not disturb it: its prospects
      stay, and if the entry is its own, it is noted now or completed, completed for sure when it was
      noted long enough ago.
    */
    method ProcessCandidate(name: string, ghost f: Subject, ghost limit: nat)
      requires Valid() && CandidatesOk()
      modifies this
      ensures Valid() && CandidatesOk() && Advanced() && now > old(now)
      ensures CalmFolder(f) && Harmless(name, disk.contentOf(f.fingerprint)) && old(Promising(f.fingerprint)) ==>
                Helps(name, f, limit)
    {
      var stable := WaitFor(name, f, limit);
      if stable.Some? {
        ghost var inode :| Shown(name, inode, stable.value, now);
        HarmlessIsNoObstacle(name, inode, stable.value, f, now);
        TakeUp(name, stable.value, f);
      }
    }

    /** `WaitUntilStable`, as a subject sees it. */
    method WaitFor(name: string, ghost f: Subject, ghost limit: nat) returns (stable: Option<Fingerprint>)
      requires Faithful(disk) && CandidatesOk()
      modifies `now, `candidates, `blockedPaths, `refused, `notedAt
      ensures now == old(now) + 1 && CandidatesOk()
      ensures stable.Some? ==> name !in candidates && exists inode :: Shown(name, inode, stable.value, now)
      ensures old(Free(f)) ==> Free(f)
      ensures name != f.name ==>
                && (old(NotedBy(f, limit)) ==> NotedBy(f, limit))
                && (old(NotedBy(f, now)) ==> NotedBy(f, now))
      ensures name == f.name && Shown(f.name, f.inode, f.fingerprint, now) && Supported(f.name) ==>
                && (stable.Some? ==> stable.value == f.fingerprint && old(Free(f)))
                && (old(Free(f)) && stable.None? ==> NotedBy(f, now) && (old(NotedBy(f, limit)) ==> NotedBy(f, limit)))
                && (old(NotedBy(f, limit)) && Elapsed(limit, now) ==> stable.Some?)
    {
      stable := WaitUntilStable(name);
    }

    /** Ingest a stable file; what is ingested is completed. */
    method TakeUp(name: string, fingerprint: Fingerprint, ghost f: Subject)
      requires Valid() && CandidatesOk() && name !in candidates
      modifies this
      ensures Valid() && CandidatesOk() && Advanced()
      ensures candidates == old(candidates) && notedAt == old(notedAt)
      ensures SameElsewhere(blockedPaths, old(blockedPaths), name)
      ensures completedPaths == old(completedPaths) || completedPaths == old(completedPaths)[name := fingerprint]
      ensures forall inode :: Calm(name, inode, fingerprint) && old(Promising(fingerprint)) ==>
                completedPaths == old(completedPaths)[name := fingerprint]
      ensures CalmNetwork() && old(Promising(f.fingerprint)) && NoObstacle(name, fingerprint, f) ==> Promising(f.fingerprint)
    {
      var r := IngestBeside(name, fingerprint, f);
      if r == Success(true) {
        completedPaths := completedPaths[name := fingerprint];
      } else if r.Failure? {
        candidates := candidates - {name};
      }
    }

    /** Another content, or the same one in a file that keeps still. */
    ghost predicate NoObstacle(name: string, fingerprint: Fingerprint, f: Subject) {
      disk.contentOf(fingerprint) != disk.contentOf(f.fingerprint) || exists inode :: CalmFile(name, inode, fingerprint)
    }

    lemma HarmlessIsNoObstacle(name: string, inode: nat, fingerprint: Fingerprint, f: Subject, t: nat)
      requires Shown(name, inode, fingerprint, t)
      ensures Harmless(name, disk.contentOf(f.fingerprint)) ==> NoObstacle(name, fingerprint, f)
    {
      assert ShowedAt(name, fingerprint, t);
    }

    /** Ingesting one file leaves the prospects of another as they are. */
    method IngestBeside(name: string, fingerprint: Fingerprint, ghost f: Subject) returns (r: Attempt<bool>)
      requires Valid()
      modifies `now, `sessions, `wire, `sessionsByDigest, `done,
               `unresumableDigests, `blockedPaths
      ensures Valid() && Advanced()
      ensures SameElsewhere(blockedPaths, old(blockedPaths), name)
      ensures r == Success(true) ==> Ingested(fingerprint)
      ensures forall inode :: Calm(name, inode, fingerprint) && old(Promising(fingerprint)) ==> r == Success(true)
      ensures CalmNetwork() && old(Promising(f.fingerprint)) && NoObstacle(name, fingerprint, f) ==> Promising(f.fingerprint)
    {
      ghost var was := sessions;
      r := IngestFile(name, fingerprint);
      SameSession(was, sessions, SessionId(runId, Sha256(disk.contentOf(fingerprint))),
                  SessionId(runId, Sha256(disk.contentOf(f.fingerprint))));
      if disk.contentOf(fingerprint) == disk.contentOf(f.fingerprint) {
        assert old(Promising(f.fingerprint)) == old(Promising(fingerprint)) && Ingested(f.fingerprint) == Ingested(fingerprint);
        assert forall inode :: CalmFile(name, inode, fingerprint) && CalmNetwork() ==> Calm(name, inode, fingerprint);
      } else {
        assert old(Ingested(f.fingerprint)) ==> Ingested(f.fingerprint);
      }
    }

    static lemma SameSession(was: Sessions, now: Sessions, touched: SessionId, id: SessionId)
      ensures was - {touched} == now - {touched} && id != touched ==>
                (id in was <==> id in now) && (id in was ==> was[id] == now[id])
    {
      assert id != touched ==> (id in was <==> id in was - {touched}) && (id in now <==> id in now - {touched});
    }

    /** Exactly what is no longer in the folder is forgotten. */
    method ForgetMissing(names: seq<string>)
      requires Valid() && CandidatesOk()
      modifies `candidates, `completedPaths, `blockedPaths, `refused
      ensures Valid() && CandidatesOk()
      ensures candidates == Resident(old(candidates), names)
      ensures completedPaths == Resident(old(completedPaths), names)
      ensures blockedPaths == Resident(old(blockedPaths), names)
      ensures refused == set name | name in old(refused) && name in names
    {
      candidates, blockedPaths := Resident(candidates, names), Resident(blockedPaths, names);
      refused := set name | name in refused && name in names;
      ForgetCompleted(names);
    }

    method ForgetCompleted(names: seq<string>)
      requires Valid()
      modifies `completedPaths
      ensures Valid() && completedPaths == Resident(old(completedPaths), names)
    {
      completedPaths := Resident(completedPaths, names);
    }

    /** Where a subject stood before a sweep, and whether the window has passed since `limit` for all of it. */
    ghost predicate Follows(f: Subject, start: Standing, seen: bool)
      reads this
    {
      && Promising(f.fingerprint)
      && (start.completed ==> CompletedAs(f))
      && (start.free ==> CompletedAs(f) || (if seen then NotedBy(f, now) else Free(f)))
      && (start.noted ==> CompletedAs(f) || NotedBy(f, start.limit))
      && (start.noted && start.elapsed && seen ==> CompletedAs(f))
    }

    method ProcessNext(name: string, ghost f: Subject, ghost start: Standing, ghost seen: bool)
      requires Valid() && CandidatesOk()
      requires start.elapsed ==> Elapsed(start.limit, now + 1)
      modifies this
      ensures Valid() && CandidatesOk() && Advanced() && now > old(now)
      ensures CalmFolder(f) && Harmless(name, disk.contentOf(f.fingerprint)) && old(Follows(f, start, seen)) ==>
                Follows(f, start, seen || name == f.name)
    {
      ProcessCandidate(name, f, start.limit);
    }

    ghost predicate AllHarmless(names: seq<string>, f: Subject) {
      forall name :: name in names ==> Harmless(name, disk.contentOf(f.fingerprint))
    }

    method ProcessAll(names: seq<string>, ghost f: Subject, ghost start: Standing)
      requires Valid() && CandidatesOk()
      requires start.elapsed ==> forall t :: t > now ==> Elapsed(start.limit, t)
      modifies this
      ensures Valid() && CandidatesOk() && Advanced()
      ensures CalmFolder(f) && AllHarmless(names, f) && old(Follows(f, start, false)) ==> Follows(f, start, f.name in names)
    {
      for i := 0 to |names|
        invariant Valid() && CandidatesOk() && Advanced()
        invariant CalmFolder(f) && AllHarmless(names, f) && old(Follows(f, start, false)) ==>
                    Follows(f, start, f.name in names[..i])
      {
        if network.stopping(now) {
          break;
        }
        assert names[i] in names && names[..i + 1] == names[..i] + [names[i]];
        ProcessNext(names[i], f, start, f.name in names[..i]);
      }
      assert names[..|names|] == names;
    }

    /**
      One pass over the folder. A subject that keeps still in a calm folder is noted, and completed if it
      was noted long enough before.
    */
    method Sweep(ghost f: Subject, ghost start: Standing)
      requires Valid() && CandidatesOk()
      requires start.elapsed ==> forall t :: t > now + 1 ==> Elapsed(start.limit, t)
      modifies this
      ensures Valid() && CandidatesOk() && Advanced()
      ensures CalmFolder(f) && old(Follows(f, start, false)) ==> Follows(f, start, true)
    {
      now := now + 1;
      var names := disk.names(now);
      ProcessAll(names, f, start);
      ForgetAround(names, f, start);
    }

    method ForgetAround(names: seq<string>, ghost f: Subject, ghost start: Standing)
      requires Valid() && CandidatesOk()
      modifies `candidates, `completedPaths, `blockedPaths, `refused
      ensures Valid() && CandidatesOk()
      ensures f.name in names && old(Follows(f, start, true)) ==> Follows(f, start, true)
    {
      ForgetMissing(names);
      assert f.name in names ==> CompletedAs(f) == old(CompletedAs(f)) && Free(f) == old(Free(f));
    }

    /** A pause, and a sweep after it. */
    method SweepAfter(pause: nat, ghost f: Subject)
      requires Valid() && CandidatesOk()
      modifies this
      ensures Valid() && CandidatesOk() && Advanced()
      ensures CalmFolder(f) && old(Promising(f.fingerprint)) ==>
                && Promising(f.fingerprint)
                && (old(CompletedAs(f)) ==> CompletedAs(f))
                && (old(Free(f)) ==> CompletedAs(f) || NotedBy(f, now))
                && (old(NotedBy(f, now)) && PauseLasts(pause) ==> CompletedAs(f))
    {
      ghost var start := Standing(CompletedAs(f), Free(f), NotedBy(f, now), now, PauseLasts(pause));
      now := now + pause;
      Sweep(f, start);
    }

    /**
      A sweep after each of these pauses. Every session this run has finalized holds exactly the bytes
      whose digest keyed it and was finalized once, every digest in `done` is one of them, and every
      completed path was empty or has its digest in `done`. And a supported file that keeps still in a
      calm folder is completed once a sweep has followed another after a pause of the stability window,
      unless it was blocked or its upload had no prospects from the start.
    */
    method Watch(pauses: seq<nat>, ghost f: Subject)
      requires Valid() && CandidatesOk()
      modifies this
      ensures Advanced()
      ensures forall id :: id in sessions && id.runId == runId && sessions[id].media.Some? ==>
                sessions[id].media.value == id.digest.content && sessions[id].moves == 1
      ensures forall d :: d in done ==>
                SessionId(runId, d) in sessions && sessions[SessionId(runId, d)].media == Some(d.content)
      ensures forall name :: name in completedPaths ==>
                disk.contentOf(completedPaths[name]) == [] || Sha256(disk.contentOf(completedPaths[name])) in done
      ensures CalmFolder(f) && old(Promising(f.fingerprint)) && old(Free(f)) && LongPause(pauses) ==>
                CompletedAs(f) && Ingested(f.fingerprint)
    {
      for i := 0 to |pauses|
        invariant Valid() && CandidatesOk() && Advanced()
        invariant CalmFolder(f) && old(Promising(f.fingerprint)) && old(Free(f)) ==>
                    && Promising(f.fingerprint)
                    && (CompletedAs(f) || (!LongPause(pauses[..i]) && (if i > 0 then NotedBy(f, now) else Free(f))))
      {
        assert LongPause(pauses[..i + 1]) ==> LongPause(pauses[..i]) || (i > 0 && PauseLasts(pauses[i]));
        SweepAfter(pauses[i], f);
      }
      assert pauses[..|pauses|] == pauses;
    }

    /** Some pause between two sweeps always takes the stability window. */
    ghost predicate LongPause(pauses: seq<nat>) {
      exists k :: 0 < k < |pauses| && PauseLasts(pauses[k])
    }
  }
}
