/** The transitions as the source runs them: look the records up, then change them field by field. */
module WorkflowState {
  import opened Wrappers
  import opened Speakers
  import opened UploadOutcome
  import opened Workflow

  class LiveState {
    var recordings: seq<Recording>
    var sessions: seq<Session>
    var jobs: seq<Job>
    var revisions: seq<Revision>
    var auditEvents: seq<AuditEvent>

    function View(): AppState
      reads this
    {
      AppState(recordings, sessions, jobs, revisions, auditEvents)
    }

    constructor (s: AppState)
      ensures View() == s
    {
      recordings, sessions, jobs, revisions, auditEvents := s.recordings, s.sessions, s.jobs, s.revisions, s.auditEvents;
    }

    method AddAuditEvent(e: AuditEvent)
      modifies `auditEvents
      ensures auditEvents == [e] + old(auditEvents)
    {
      auditEvents := [e] + auditEvents;
    }

    method SetSessionState(at: Refs, state: IntegrityState, lastError: Option<string>, summary: string, now: string)
      requires at.session < |sessions| && at.recording < |recordings|
      modifies `sessions, `recordings
      ensures sessions == old(sessions)[at.session := old(sessions)[at.session].(
                state := state, lastError := lastError, verificationSummary := summary, updatedAt := now)]
      ensures recordings == old(recordings)[at.recording := old(recordings)[at.recording].(
                integrityState := state, verificationSummary := summary, updatedAt := now)]
    {
      sessions := sessions[at.session := sessions[at.session].(state := state)];
      sessions := sessions[at.session := sessions[at.session].(lastError := lastError)];
      sessions := sessions[at.session := sessions[at.session].(verificationSummary := summary)];
      sessions := sessions[at.session := sessions[at.session].(updatedAt := now)];
      recordings := recordings[at.recording := recordings[at.recording].(integrityState := state)];
      recordings := recordings[at.recording := recordings[at.recording].(verificationSummary := summary)];
      recordings := recordings[at.recording := recordings[at.recording].(updatedAt := now)];
    }

    method SetJobState(at: Refs, state: JobState, lastError: Option<string>, now: string)
      requires at.job < |jobs| && at.recording < |recordings|
      modifies `jobs, `recordings
      ensures jobs == old(jobs)[at.job := old(jobs)[at.job].(state := state, lastError := lastError, updatedAt := now)]
      ensures recordings == old(recordings)[at.recording := old(recordings)[at.recording].(transcriptJobState := state)]
    {
      jobs := jobs[at.job := jobs[at.job].(state := state)];
      jobs := jobs[at.job := jobs[at.job].(lastError := lastError, updatedAt := now)];
      recordings := recordings[at.recording := recordings[at.recording].(transcriptJobState := state)];
    }

    method SetStored(at: Refs, mediaPath: string, mimeType: Option<string>, verifiedAt: Option<string>)
      requires at.session < |sessions| && at.recording < |recordings|
      modifies `sessions, `recordings
      ensures sessions == old(sessions)[at.session := old(sessions)[at.session].(verifiedAt := verifiedAt)]
      ensures recordings == old(recordings)[at.recording := old(recordings)[at.recording].(
                mediaPath := Some(mediaPath), mimeType := mimeType)]
    {
      sessions := sessions[at.session := sessions[at.session].(verifiedAt := verifiedAt)];
      recordings := recordings[at.recording := recordings[at.recording].(mediaPath := Some(mediaPath), mimeType := mimeType)];
    }

    method NoteUploadProgress(sessionId: string, bytesReceived: nat, now: string) returns (r: Result<(), string>)
      modifies this
      ensures var c := NoteProgress(sessionId, bytesReceived, now);
              && View() == Apply(old(View()), c) && (r.Success? <==> Transition(old(View()), c).Success?)
              && (r.Success? ==> HasEffect(old(View()), View(), c))
    {
      var refs := ResolveUploadRefs(View(), sessionId);
      if refs.Failure? {
        return Failure(refs.error);
      }
      ghost var c := NoteProgress(sessionId, bytesReceived, now);
      TransitionsBringAbout(View(), c);
      assert Transition(View(), c) == Success(UploadChanged(View(), refs.value, c));
      NoteAt(refs.value, c, bytesReceived, now);
      return Success(());
    }

    method NoteAt(at: Refs, ghost c: Command, bytesReceived: nat, now: string)
      requires at.session < |sessions| && at.recording < |recordings| && at.job < |jobs|
      requires c.NoteProgress? && c == NoteProgress(c.sessionId, bytesReceived, now)
      modifies this
      ensures View() == UploadChanged(old(View()), at, c)
    {
      sessions := sessions[at.session := sessions[at.session].(bytesReceived := Some(bytesReceived))];
      var summary := if Some(bytesReceived) == sessions[at.session].bytesExpected then BYTES_RECEIVED else IN_PROGRESS;
      SetSessionState(at, Uploading, None, summary, now);
      assert jobs == jobs[at.job := jobs[at.job]];
    }

    method ExpireUploadSession(sessionId: string, detail: string, auditId: string, now: string) returns (r: Result<(), string>)
      modifies this
      ensures var c := ExpireUpload(sessionId, detail, auditId, now);
              && View() == Apply(old(View()), c) && (r.Success? <==> Transition(old(View()), c).Success?)
              && (r.Success? ==> HasEffect(old(View()), View(), c))
    {
      var refs := ResolveUploadRefs(View(), sessionId);
      if refs.Failure? {
        return Failure(refs.error);
      }
      ghost var c := ExpireUpload(sessionId, detail, auditId, now);
      TransitionsBringAbout(View(), c);
      assert Transition(View(), c) == Success(UploadChanged(View(), refs.value, c));
      ExpireAt(refs.value, c, detail, auditId, now);
      return Success(());
    }

    method ExpireAt(at: Refs, ghost c: Command, detail: string, auditId: string, now: string)
      requires at.session < |sessions| && at.recording < |recordings| && at.job < |jobs|
      requires c.ExpireUpload? && c == ExpireUpload(c.sessionId, detail, auditId, now)
      modifies this
      ensures View() == UploadChanged(old(View()), at, c)
    {
      SetSessionState(at, Interrupted, Some(detail), detail, now);
      jobs := jobs[at.job := jobs[at.job].(lastError := Some(detail), updatedAt := now)];
      var recording := recordings[at.recording];
      AddAuditEvent(AuditEvent(auditId, recording.workspaceId, recording.id, None, RecordingVerificationFailed, detail));
    }

    method FailUploadSession(sessionId: string, detail: string, auditId: string, now: string) returns (r: Result<(), string>)
      modifies this
      ensures var c := FailUpload(sessionId, detail, auditId, now);
              && View() == Apply(old(View()), c) && (r.Success? <==> Transition(old(View()), c).Success?)
              && (r.Success? ==> HasEffect(old(View()), View(), c))
    {
      var refs := ResolveUploadRefs(View(), sessionId);
      if refs.Failure? {
        return Failure(refs.error);
      }
      ghost var c := FailUpload(sessionId, detail, auditId, now);
      TransitionsBringAbout(View(), c);
      assert Transition(View(), c) == Success(UploadChanged(View(), refs.value, c));
      FailAt(refs.value, c, detail, auditId, now);
      return Success(());
    }

    method FailAt(at: Refs, ghost c: Command, detail: string, auditId: string, now: string)
      requires at.session < |sessions| && at.recording < |recordings| && at.job < |jobs|
      requires c.FailUpload? && c == FailUpload(c.sessionId, detail, auditId, now)
      modifies this
      ensures View() == UploadChanged(old(View()), at, c)
    {
      SetSessionState(at, VerificationFailed, Some(detail), detail, now);
      SetJobState(at, Failed, Some(detail), now);
      var recording := recordings[at.recording];
      AddAuditEvent(AuditEvent(auditId, recording.workspaceId, recording.id, None, RecordingVerificationFailed, detail));
    }

    method FinalizeUploadSession(sessionId: string, mediaPath: string, mimeType: Option<string>, userId: string,
                                 auditId: string, now: string)
      returns (r: Result<(), string>)
      modifies this
      ensures var c := FinalizeUpload(sessionId, mediaPath, mimeType, userId, auditId, now);
              && View() == Apply(old(View()), c) && (r.Success? <==> Transition(old(View()), c).Success?)
              && (r.Success? ==> HasEffect(old(View()), View(), c))
    {
      var refs := ResolveUploadRefs(View(), sessionId);
      if refs.Failure? {
        return Failure(refs.error);
      }
      ghost var c := FinalizeUpload(sessionId, mediaPath, mimeType, userId, auditId, now);
      TransitionsBringAbout(View(), c);
      assert Transition(View(), c) == Success(UploadChanged(View(), refs.value, c));
      FinalizeAt(refs.value, c, mediaPath, mimeType, userId, auditId, now);
      return Success(());
    }

    method FinalizeAt(at: Refs, ghost c: Command, mediaPath: string, mimeType: Option<string>, userId: string,
                      auditId: string, now: string)
      requires at.session < |sessions| && at.recording < |recordings| && at.job < |jobs|
      requires c.FinalizeUpload? && c == FinalizeUpload(c.sessionId, mediaPath, mimeType, userId, auditId, now)
      modifies this
      ensures View() == UploadChanged(old(View()), at, c)
    {
      var external := sessions[at.session].adapter == EXTERNAL_ADAPTER;
      var next := if external then Verifying else Verified;
      var summary := if external then EXTERNAL_SUMMARY else LOCAL_SUMMARY;
      SetSessionState(at, next, None, summary, now);
      SetStored(at, mediaPath, mimeType, if next.Verified? then Some(now) else None);
      SetJobState(at, Queued, None, now);
      var recording := recordings[at.recording];
      AddAuditEvent(AuditEvent(auditId, recording.workspaceId, recording.id, Some(userId), RecordingCreated, summary));
    }

    method CreateSystemDraftRevision(recordingId: string, segments: seq<Segment>, summary: string, revisionId: string, now: string)
      returns (r: Result<(), string>)
      modifies this
      ensures var c := CreateDraft(recordingId, segments, summary, revisionId, now);
              View() == Apply(old(View()), c) && (r.Success? <==> Transition(old(View()), c).Success?)
    {
      var k := FindRecording(recordings, recordingId);
      if k == |recordings| {
        return Failure("Recording not found.");
      }
      var version := NextRevisionVersion(revisions, recordings[k].id);
      var normalized := NormalizeSpeakerLabels(segments);
      if normalized.Failure? {
        return Failure(normalized.error);
      }
      revisions := revisions + [Revision(revisionId, recordingId, version, summary, normalized.value)];
      recordings := recordings[k := recordings[k].(currentRevisionId := Some(revisionId))];
      recordings := recordings[k := recordings[k].(updatedAt := now)];
      return Success(());
    }
  }
}
