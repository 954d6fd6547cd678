/**
  What the ingest service does for a client: an upload in any chunks is stored, requests that are
  repeated or out of step change nothing, and the next action a status names is one that works.
*/
module IngestProgress {
  import opened Wrappers
  import opened IngestServer

  // ----- an upload in chunks -----

  function Joined(chunks: seq<Bytes>): Bytes {
    if chunks == [] then [] else Joined(chunks[..|chunks| - 1]) + chunks[|chunks| - 1]
  }

  /** Each chunk is sent at the offset where the one before it ended. */
  function SendAll(external: bool, sessions: Sessions, id: SessionId, chunks: seq<Bytes>, stores: seq<Store>): Sessions
    requires |stores| == |chunks|
    decreases |chunks|
  {
    if chunks == [] then sessions
    else
      var n := |chunks| - 1;
      Handle(external, stores[n], SendAll(external, sessions, id, chunks[..n], stores[..n]),
             PutChunk(id, |Joined(chunks[..n])|, chunks[n])).0
  }

  lemma {:induction false} ChunksAddUp(external: bool, sessions: Sessions, id: SessionId, chunks: seq<Bytes>, stores: seq<Store>)
    requires |stores| == |chunks| && forall i :: 0 <= i < |stores| ==> !stores[i].Exhausted?
    requires id in sessions && sessions[id].state == Uploading && sessions[id].bytesReceived == 0 && sessions[id].temp == Some([])
    ensures SendAll(external, sessions, id, chunks, stores)
         == sessions[id := sessions[id].(bytesReceived := |Joined(chunks)|, temp := Some(Joined(chunks)))]
    decreases |chunks|
  {
    if chunks == [] {
      assert sessions[id := sessions[id]] == sessions;
    } else {
      var n := |chunks| - 1;
      var front := Joined(chunks[..n]);
      ChunksAddUp(external, sessions, id, chunks[..n], stores[..n]);
      assert WriteAt(front, |front|, chunks[n]) == front + chunks[n];
      assert front == [] ==> WriteAt([], 0, chunks[n]) == chunks[n] == front + chunks[n];
    }
  }

  /**
    An upload is stored: created, sent in any chunks (some of them retried by the store) and finalized
    at once, the session refers to exactly the content, moved into place once, and says that nothing is left to do.
  */
  lemma {:induction false} UploadIsStored(
    external: bool, sessions: Sessions, id: SessionId, chunks: seq<Bytes>, stores: seq<Store>, first: Store)
    requires id !in sessions && id.digest.content == Joined(chunks) != []
    requires |stores| == |chunks| && forall i :: 0 <= i < |stores| ==> !stores[i].Exhausted?
    requires !first.Exhausted?
    ensures var (created, answer) := Handle(external, first, sessions, Create(id, |Joined(chunks)|));
            var sent := SendAll(external, created, id, chunks, stores);
            var (after, response) := Handle(external, AtOnce, sent, FinalizeUpload(id));
            && answer.Accepted? && answer.status.nextAction == Resume && answer.status.bytesReceived == 0
            && response.Accepted? && IsDurablyFinalized(response.status)
            && Finalized(after, id) && after[id].moves == 1 && after[id].temp == None
            && after[id].state == (if external then Verifying else Verified)
            && after - {id} == sessions - {id}
  {
    var created := Handle(external, first, sessions, Create(id, |Joined(chunks)|)).0;
    ChunksAddUp(external, created, id, chunks, stores);
    var after := Handle(external, AtOnce, SendAll(external, created, id, chunks, stores), FinalizeUpload(id)).0;
    assert (after - {id}).Keys == (sessions - {id}).Keys;
  }

  // ----- requests out of step -----

  /** A chunk is taken exactly if it starts where the upload stands and there is a file to go on with. */
  lemma {:induction false} ChunkTakenWhen(external: bool, store: Store, sessions: Sessions, id: SessionId, start: nat, chunk: Bytes)
    ensures var (after, response) := Handle(external, store, sessions, PutChunk(id, start, chunk));
            && (response.Accepted? <==>
                  && !store.Exhausted? && id in sessions && sessions[id].state != VerificationFailed
                  && start == sessions[id].bytesReceived
                  && (start > 0 ==> sessions[id].temp.Some? && start <= |sessions[id].temp.value|))
            && (response.Accepted? ==>
                  && after[id].bytesReceived == start + |chunk| && after[id].state == Uploading
                  && after[id].temp.Some? && |after[id].temp.value| >= start + |chunk|
                  && after[id].temp.value[start..start + |chunk|] == chunk
                  && (start > 0 ==> after[id].temp.value[..start] == sessions[id].temp.value[..start])
                  && response.status == StatusOf(id, after[id]))
            && (!response.Accepted? && !store.Exhausted? ==> after == sessions)
            && (id in sessions ==> id in after && after[id].media == sessions[id].media && after[id].moves == sessions[id].moves)
            && after - {id} == sessions - {id}
  {
    var after := Handle(external, store, sessions, PutChunk(id, start, chunk)).0;
    assert (after - {id}).Keys == (sessions - {id}).Keys;
  }

  /** A chunk that arrives again is refused and changes nothing. */
  lemma {:induction false} RepeatedChunkIsRefused(external: bool, store: Store, again: Store, sessions: Sessions, id: SessionId, start: nat, chunk: Bytes)
    requires chunk != [] && Handle(external, store, sessions, PutChunk(id, start, chunk)).1.Accepted?
    ensures var after := Handle(external, store, sessions, PutChunk(id, start, chunk)).0;
            Handle(external, again, after, PutChunk(id, start, chunk)) == (after, Refused)
  {
  }

  /** Creating again, with whatever size, finds the session as it stands; an empty file is never accepted. */
  lemma {:induction false} CreateAgainFinds(external: bool, store: Store, sessions: Sessions, id: SessionId, fileSize: nat)
    ensures var (after, response) := Handle(external, store, sessions, Create(id, fileSize));
            && (response.Accepted? <==> fileSize > 0 && !store.Exhausted?)
            && (!response.Accepted? || id in sessions ==> after == sessions)
            && (response.Accepted? ==> id in after && response.status == StatusOf(id, after[id]))
            && (response.Accepted? && id !in sessions ==>
                  after[id].bytesExpected == fileSize && after[id].bytesReceived == 0 && after[id].state == Uploading
                  && after - {id} == sessions)
  {
    var after := Handle(external, store, sessions, Create(id, fileSize)).0;
    if id !in sessions { assert (after - {id}).Keys == sessions.Keys; }
  }

  /**
    Whatever the sessions look like, a finalize is accepted only for a file of exactly the expected size, all
    of whose bytes are committed. Any other is marked as failed, with its file and its bytes as they are.
  */
  lemma {:induction false} FinalizeTakesCompleteOnly(external: bool, store: Store, sessions: Sessions, id: SessionId)
    ensures var (after, response) := Handle(external, store, sessions, FinalizeUpload(id));
            && (response.Accepted? <==>
                  && store.AtOnce? && id in sessions && sessions[id].temp.Some?
                  && sessions[id].bytesReceived == sessions[id].bytesExpected == |sessions[id].temp.value|)
            && (response.Accepted? ==> after[id].media == sessions[id].temp && after[id].temp == None)
            && (id in sessions && !response.Accepted? && store.AtOnce? ==>
                  after == sessions[id := sessions[id].(state := VerificationFailed)])
            && (id !in sessions ==> after == sessions && response == Refused)
  {
  }

  // ----- the next action -----

  /** The advice of a status, and what comes of following it undisturbed. */
  lemma {:induction false} AdviceWorks(run: string, external: bool, sessions: Sessions, id: SessionId)
    requires SessionsOk(run, sessions) && id in sessions && id.runId == run
    ensures var s := sessions[id];
            var advice := StatusOf(id, s).nextAction;
            && (advice == Finalize ==> Handle(external, AtOnce, sessions, FinalizeUpload(id)).1.Accepted?)
            && (advice == NoAction ==> Finalized(sessions, id) && IsDurablyFinalized(StatusOf(id, s)))
            && (advice == Resume ==> forall chunk ::
                  (Handle(external, AtOnce, sessions, PutChunk(id, s.bytesReceived, chunk)).1.Accepted? <==>
                    s.bytesReceived == 0 || s.temp.Some?))
            && (advice == Restart ==> forall chunk ::
                  (Handle(external, AtOnce, sessions, PutChunk(id, s.bytesReceived, chunk)).1.Accepted? <==>
                    s.state == Interrupted && s.bytesReceived == 0))
  {
    var s := sessions[id];
    assert SessionOk(id, s);
    forall chunk
      ensures Handle(external, AtOnce, sessions, PutChunk(id, s.bytesReceived, chunk)).1.Accepted? <==>
                s.state != VerificationFailed && (s.bytesReceived == 0 || s.temp.Some?)
    {
      ChunkTakenWhen(external, AtOnce, sessions, id, s.bytesReceived, chunk);
    }
    FinalizeTakesCompleteOnly(external, AtOnce, sessions, id);
  }

  /** Expiry takes the file of an incomplete upload, which must then begin again, and leaves every other alone. */
  lemma {:induction false} ExpiryMeansRestart(sessions: Sessions, id: SessionId)
    requires id in sessions
    ensures var s := sessions[id];
            var after := InBackground(sessions, Expire(id, true));
            var incomplete := (s.state == Uploading || s.state == Interrupted) && s.bytesReceived < s.bytesExpected;
            && after.Keys == sessions.Keys
            && (incomplete ==>
                  after[id].state == Interrupted && after[id].temp == None && NextActionOf(after[id]) == Restart
                  && after[id].bytesReceived == s.bytesReceived)
            && (!incomplete ==> after == sessions)
            && forall other :: other in sessions && other != id ==> after[other] == sessions[other]
  {
  }
}
