/**
  The upload sessions of the ingest service, as the watcher sees them: create is idempotent on
  (run, digest), chunks are appended only at the committed offset, finalize moves the temporary file
  into place.
*/
module IngestServer {
  import opened Wrappers

  type Bytes = seq<bv8>

  /** A collision-free digest: two contents with the same digest are the same content. */
  datatype Digest = Sha256(content: Bytes)

  /** Derived from the idempotency key, so a run has one id for each digest. */
  datatype SessionId = SessionId(runId: string, digest: Digest)

  datatype UploadState = Uploading | Interrupted | Verifying | Verified | VerificationFailed

  datatype Session = Session(
    state: UploadState, bytesReceived: nat, bytesExpected: nat,
    temp: Option<Bytes>,       // the temporary upload file
    media: Option<Bytes>,      // the stored file that the record refers to
    moves: nat)                // how many times finalize has moved a file

  type Sessions = map<SessionId, Session>

  datatype NextAction = Resume | Restart | Finalize | NoAction

  datatype Status = Status(
    sessionId: SessionId, state: UploadState, bytesReceived: nat, bytesExpected: nat, nextAction: NextAction)

  function NextActionOf(s: Session): NextAction {
    if s.state.VerificationFailed? then Restart
    else if s.state.Interrupted? && s.temp.None? then Restart
    else if s.bytesExpected > 0 && s.bytesReceived >= s.bytesExpected && s.temp.Some? then Finalize
    else if s.state.Verifying? || s.state.Verified? then NoAction
    else Resume
  }

  function StatusOf(id: SessionId, s: Session): Status {
    Status(id, s.state, s.bytesReceived, s.bytesExpected, NextActionOf(s))
  }

  function IsDurablyFinalized(status: Status): bool {
    status.nextAction.NoAction? && (status.state.Verified? || status.state.Verifying?)
  }

  datatype Request =
    | Create(id: SessionId, fileSize: nat)
    | GetStatus(id: SessionId)
    | PutChunk(id: SessionId, start: nat, chunk: Bytes)
    | FinalizeUpload(id: SessionId)

  datatype Response = Accepted(status: Status) | NotFound | Refused

  /** The file after a positioned write that starts inside it or at its end. */
  function WriteAt(file: Bytes, start: nat, chunk: Bytes): Bytes
    requires start <= |file|
  {
    file[..start] + chunk + (if start + |chunk| < |file| then file[start + |chunk|..] else [])
  }

  /**
    How the compare-and-swap around a request goes: it commits at once, it commits after a conflict with
    another writer made it start over, or it gives up. What a request did to files before a conflict
    is not undone.
  */
  datatype Store = AtOnce | AfterRetry | Exhausted

  function HandleCreate(store: Store, sessions: Sessions, id: SessionId, fileSize: nat): (Sessions, Response) {
    if fileSize == 0 || store.Exhausted? then (sessions, Refused)
    else if id in sessions then (sessions, Accepted(StatusOf(id, sessions[id])))
    else
      var created := Session(Uploading, 0, fileSize, Some([]), None, 0);
      (sessions[id := created], Accepted(StatusOf(id, created)))
  }

  /** The temporary file after a chunk; a chunk at the start begins it anew. */
  function Written(s: Session, start: nat, chunk: Bytes): Bytes
    requires start == s.bytesReceived && (start > 0 ==> s.temp.Some? && start <= |s.temp.value|)
  {
    WriteAt(if start == 0 then [] else s.temp.value, start, chunk)
  }

  function HandleChunk(store: Store, sessions: Sessions, id: SessionId, start: nat, chunk: Bytes): (Sessions, Response) {
    if id !in sessions then (sessions, Refused)
    else
      var s := sessions[id];
      if s.state.VerificationFailed? || start != s.bytesReceived then (sessions, Refused)
      else if start > 0 && (s.temp.None? || start > |s.temp.value|) then (sessions, Refused)
      else
        var s' := s.(temp := Some(Written(s, start, chunk)));
        if store.Exhausted? then (sessions[id := s'], Refused)
        else
          var s'' := s'.(state := Uploading, bytesReceived := start + |chunk|);
          (sessions[id := s''], Accepted(StatusOf(id, s'')))
  }

  /** All bytes are there to be moved into place. */
  predicate Complete(s: Session) {
    s.temp.Some? && s.bytesReceived == s.bytesExpected && |s.temp.value| == s.bytesExpected
  }

  /** The file is moved before the state is written, so a conflict leaves a move that no record knows of. */
  function HandleFinalize(external: bool, store: Store, sessions: Sessions, id: SessionId): (Sessions, Response) {
    if id !in sessions then (sessions, Refused)
    else
      var s := sessions[id];
      var moved := if Complete(s) then s.(temp := None, moves := s.moves + 1) else s;
      if store.Exhausted? then (sessions[id := moved], Refused)
      else if !Complete(s) || store.AfterRetry? then
        (sessions[id := moved.(state := VerificationFailed)], Refused)
      else
        var s' := moved.(state := if external then Verifying else Verified, media := s.temp);
        (sessions[id := s'], Accepted(StatusOf(id, s')))
  }

  /** One request, run to completion. `external` says whether a webhook engine verifies uploads. */
  function Handle(external: bool, store: Store, sessions: Sessions, request: Request): (Sessions, Response) {
    match request
    case Create(id, fileSize) => HandleCreate(store, sessions, id, fileSize)
    case GetStatus(id) =>
      (sessions, if store.Exhausted? then Refused
                 else if id in sessions then Accepted(StatusOf(id, sessions[id])) else NotFound)
    case PutChunk(id, start, chunk) => HandleChunk(store, sessions, id, start, chunk)
    case FinalizeUpload(id) => HandleFinalize(external, store, sessions, id)
  }

  /** A chunk that starts over writes the same bytes to the same place. */
  lemma {:induction false} RetriedChunkIsTheSame(s: Session, start: nat, chunk: Bytes)
    requires start == s.bytesReceived && (start > 0 ==> s.temp.Some? && start <= |s.temp.value|)
    ensures var once := s.(temp := Some(Written(s, start, chunk)));
            Written(once, start, chunk) == Written(s, start, chunk)
  {
  }

  /** What happens to sessions without a request of ours. */
  datatype Background =
    | Expire(id: SessionId, committed: bool)  // an incomplete upload is cleaned up after a day
    | Forget(id: SessionId)                   // a session that was never finalized goes away
    | Verdict(id: SessionId, passed: bool)    // the external engine reports its verification

  function InBackground(sessions: Sessions, b: Background): Sessions {
    if b.id !in sessions then sessions
    else
      var s := sessions[b.id];
      match b
      case Expire(id, committed) =>
        if (s.state.Uploading? || s.state.Interrupted?) && s.bytesReceived < s.bytesExpected then
          sessions[id := s.(state := if committed then Interrupted else s.state, temp := None)]
        else sessions
      case Forget(id) => if s.media.None? then sessions - {id} else sessions
      case Verdict(id, passed) =>
        if s.state.Verifying? then sessions[id := s.(state := if passed then Verified else VerificationFailed)]
        else sessions
  }

  // ----- the committed bytes are a prefix of the content whose digest names the session -----

  /**
    The temporary file is a prefix of the content, no shorter than what is committed. It is moved once
    at most, when it is complete; what a record refers to is the whole content.
  */
  ghost predicate SessionOk(id: SessionId, s: Session) {
    var content := id.digest.content;
    && s.bytesExpected == |content| > 0
    && s.bytesReceived <= |content|
    && (s.temp.Some? ==>
          s.bytesReceived <= |s.temp.value| <= |content| && s.temp.value == content[..|s.temp.value|] && s.moves == 0)
    && (s.media.Some? ==> s.media.value == content && s.moves == 1)
    && s.moves <= 1
    && (s.moves == 1 ==> s.bytesReceived == |content|)
    && (s.state.Verifying? || s.state.Verified? ==> s.media.Some?)
    && (s.state.Uploading? || s.state.Interrupted? ==> s.media.None?)
  }

  /** An upload that an undisturbed client can still complete, or that is complete. */
  predicate CanContinue(s: Session) {
    || s.state.Verifying? || s.state.Verified?
    || ((s.state.Uploading? || s.state.Interrupted?) && s.temp.Some?)
    || (s.state.Uploading? && s.bytesReceived == 0)
  }

  ghost predicate SessionsOk(run: string, sessions: Sessions) {
    forall id :: id in sessions && id.runId == run ==> SessionOk(id, sessions[id])
  }

  /** A request of `run` that carries nothing but the content its digest stands for. */
  ghost predicate Honest(run: string, request: Request) {
    request.id.runId == run ==>
      var content := request.id.digest.content;
      match request
      case Create(_, fileSize) => fileSize == |content|
      case PutChunk(_, start, chunk) => start + |chunk| <= |content| && chunk == content[start..start + |chunk|]
      case _ => true
  }

  ghost predicate Finalized(sessions: Sessions, id: SessionId) {
    id in sessions && sessions[id].media == Some(id.digest.content)
  }

  lemma {:induction false} ChunkKeepsPrefix(id: SessionId, s: Session, start: nat, chunk: Bytes)
    requires SessionOk(id, s) && start == s.bytesReceived && (start > 0 ==> s.temp.Some?)
    requires start + |chunk| <= |id.digest.content| && chunk == id.digest.content[start..start + |chunk|]
    ensures var file := Written(s, start, chunk);
            start + |chunk| <= |file| <= |id.digest.content| && file == id.digest.content[..|file|]
  {
    var content := id.digest.content;
    var file := if start == 0 then [] else s.temp.value;
    assert file[..start] == content[..start];
    assert content[..start] + chunk == content[..start + |chunk|];
    if start + |chunk| < |file| {
      assert file[start + |chunk|..] == content[start + |chunk|..|file|];
      assert content[..start + |chunk|] + content[start + |chunk|..|file|] == content[..|file|];
    }
  }

  lemma {:induction false} ChunkKeepsSessionOk(
    run: string, store: Store, sessions: Sessions, id: SessionId, start: nat, chunk: Bytes)
    requires SessionsOk(run, sessions) && Honest(run, PutChunk(id, start, chunk)) && id.runId == run && id in sessions
    ensures var sessions' := HandleChunk(store, sessions, id, start, chunk).0;
            id in sessions' && SessionOk(id, sessions'[id])
            && (Finalized(sessions, id) ==> Finalized(sessions', id))
  {
    var s := sessions[id];
    assert SessionOk(id, s);
    if HandleChunk(store, sessions, id, start, chunk).0 != sessions {
      ChunkKeepsPrefix(id, s, start, chunk);
    }
  }

  lemma {:induction false} FinalizeKeepsSessionOk(run: string, external: bool, store: Store, sessions: Sessions, id: SessionId)
    requires SessionsOk(run, sessions) && id.runId == run && id in sessions
    ensures var sessions' := HandleFinalize(external, store, sessions, id).0;
            id in sessions' && SessionOk(id, sessions'[id])
            && (Finalized(sessions, id) ==> Finalized(sessions', id))
  {
    assert SessionOk(id, sessions[id]);
    assert id.digest.content[..|id.digest.content|] == id.digest.content;
  }

  lemma {:induction false} HandleKeepsSessionsOk(run: string, external: bool, store: Store, sessions: Sessions, request: Request)
    requires SessionsOk(run, sessions) && Honest(run, request)
    ensures SessionsOk(run, Handle(external, store, sessions, request).0)
    ensures forall id: SessionId :: id.runId == run && Finalized(sessions, id) ==>
              Finalized(Handle(external, store, sessions, request).0, id)
  {
    var sessions' := Handle(external, store, sessions, request).0;
    var id := request.id;
    if id in sessions && id.runId == run {
      match request {
        case PutChunk(_, start, chunk) => ChunkKeepsSessionOk(run, store, sessions, id, start, chunk);
        case FinalizeUpload(_) => FinalizeKeepsSessionOk(run, external, store, sessions, id);
        case _ =>
      }
    }
    assert forall other :: other in sessions' && other != id ==> other in sessions && sessions'[other] == sessions[other];
    assert forall other :: other in sessions && other != id ==> other in sessions';
  }

  lemma {:induction false} BackgroundKeepsSessionsOk(run: string, sessions: Sessions, b: Background)
    requires SessionsOk(run, sessions)
    ensures SessionsOk(run, InBackground(sessions, b))
    ensures forall id: SessionId :: id.runId == run && Finalized(sessions, id) ==> Finalized(InBackground(sessions, b), id)
  {
    if b.id in sessions && b.id.runId == run {
      assert SessionOk(b.id, sessions[b.id]);
    }
  }

  /** A status that reports a durable finalize is only ever given for a session that holds its content. */
  lemma {:induction false} DurableMeansFinalized(run: string, sessions: Sessions, id: SessionId)
    requires SessionsOk(run, sessions) && id in sessions && id.runId == run
    requires IsDurablyFinalized(StatusOf(id, sessions[id]))
    ensures Finalized(sessions, id)
  {
    assert SessionOk(id, sessions[id]);
  }

  datatype Event = Arrives(request: Request, store: Store) | Happens(background: Background)

  function Serve(external: bool, sessions: Sessions, events: seq<Event>): Sessions {
    if events == [] then sessions
    else
      var before := Serve(external, sessions, events[..|events| - 1]);
      match events[|events| - 1]
      case Arrives(request, store) => Handle(external, store, before, request).0
      case Happens(b) => InBackground(before, b)
  }

  /**
    Over every run of the server, whatever arrives in whatever order, late or more than once, and
    however the store treats it: if the requests of `run` are honest, each of its sessions holds a
    prefix of the content that names it, what is finalized is exactly that content, it is moved at
    most once, and it stays.
  */
  lemma {:induction false} HonestRunsStoreContent(run: string, external: bool, sessions: Sessions, events: seq<Event>)
    requires SessionsOk(run, sessions)
    requires forall i :: 0 <= i < |events| && events[i].Arrives? ==> Honest(run, events[i].request)
    ensures SessionsOk(run, Serve(external, sessions, events))
    ensures forall id: SessionId :: id.runId == run && Finalized(sessions, id) ==> Finalized(Serve(external, sessions, events), id)
  {
    if events != [] {
      var n := |events| - 1;
      HonestRunsStoreContent(run, external, sessions, events[..n]);
      var before := Serve(external, sessions, events[..n]);
      match events[n]
      case Arrives(request, store) => HandleKeepsSessionsOk(run, external, store, before, request);
      case Happens(b) => BackgroundKeepsSessionsOk(run, before, b);
    }
  }

  /**
    A finalize is accepted exactly for a complete temporary file whose state is written at once, and
    then the whole content is stored. A complete file whose state is not written at once is lost. A
    finalize of what is already stored is refused; unless the store gives up it also marks the session
    as failed, although the stored file stays: the watcher must look before it finalizes again.
  */
  lemma {:induction false} FinalizeOnce(run: string, external: bool, store: Store, sessions: Sessions, id: SessionId)
    requires SessionsOk(run, sessions) && id.runId == run
    ensures var (after, response) := Handle(external, store, sessions, FinalizeUpload(id));
            && (response.Accepted? <==>
                 store.AtOnce? && id in sessions && sessions[id].temp.Some? && sessions[id].bytesReceived == sessions[id].bytesExpected)
            && (response.Accepted? ==> Finalized(after, id))
            && (id in sessions && Complete(sessions[id]) && !store.AtOnce? ==>
                 response.Refused? && Lost(after, id)
                 && after[id].state == if store.AfterRetry? then VerificationFailed else sessions[id].state)
            && (Finalized(sessions, id) ==>
                 response.Refused? && Finalized(after, id) && (store.Exhausted? || after[id].state == VerificationFailed))
  {
    if id in sessions {
      assert SessionOk(id, sessions[id]);
      assert id.digest.content[..|id.digest.content|] == id.digest.content;
    }
  }

  /** All bytes arrived, the file was moved, and no record refers to it. */
  ghost predicate Lost(sessions: Sessions, id: SessionId) {
    id in sessions && sessions[id].temp.None? && sessions[id].media.None?
    && sessions[id].bytesReceived == sessions[id].bytesExpected > 0
    && !sessions[id].state.Verifying? && !sessions[id].state.Verified?
  }

  /** Nothing that may happen to its session brings a lost upload back, short of the session going away. */
  lemma {:induction false} LostUploadsStayLost(external: bool, sessions: Sessions, id: SessionId, events: seq<Event>)
    requires Lost(sessions, id)
    requires forall i :: 0 <= i < |events| ==> events[i] != Happens(Forget(id))
    ensures Lost(Serve(external, sessions, events), id)
  {
    if events != [] {
      LostUploadsStayLost(external, sessions, id, events[..|events| - 1]);
    }
  }

  /** One byte, received and complete: a single conflict while it is finalized loses it. */
  lemma {:induction false} ConflictLosesUpload()
    ensures var id := SessionId("run", Sha256([1]));
            var sessions := map[id := Session(Uploading, 1, 1, Some([1]), None, 0)];
            var (after, response) := Handle(false, AfterRetry, sessions, FinalizeUpload(id));
            SessionsOk("run", sessions) && response.Refused? && Lost(after, id) && after[id].state == VerificationFailed
  {
    var id := SessionId("run", Sha256([1]));
    var sessions := map[id := Session(Uploading, 1, 1, Some([1]), None, 0)];
    assert id.digest.content[..1] == [1];
    FinalizeOnce("run", false, AfterRetry, sessions, id);
  }
}
