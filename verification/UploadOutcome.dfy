/**
  What the upload transitions bring about, said of the records that are found by id: the state each
  ends in, what it stores, and what it leaves alone; and over whole runs, that a recording counts as
  verified only if a local session was finalized for it.
*/
module UploadOutcome {
  import opened Wrappers
  import opened Workflow

  predicate IsUploadChange(c: Command) {
    c.NoteProgress? || c.ExpireUpload? || c.FailUpload? || c.FinalizeUpload?
  }

  // ----- one transition -----

  predicate SameRecording(a: Recording, b: Recording) {
    && a.id == b.id && a.workspaceId == b.workspaceId && a.title == b.title
    && a.uploadedByUserId == b.uploadedByUserId
    && a.ingestionSessionId == b.ingestionSessionId && a.transcriptJobId == b.transcriptJobId
    && a.currentRevisionId == b.currentRevisionId && a.approvedRevisionId == b.approvedRevisionId
    && a.pendingRevisionId == b.pendingRevisionId
  }

  predicate SameMedia(a: Recording, b: Recording) {
    a.mediaPath == b.mediaPath && a.mimeType == b.mimeType
  }

  predicate SameSession(a: Session, b: Session) {
    a.id == b.id && a.recordingId == b.recordingId && a.adapter == b.adapter && a.bytesExpected == b.bytesExpected
  }

  predicate SameJob(a: Job, b: Job) {
    a.id == b.id && a.recordingId == b.recordingId && a.adapter == b.adapter
  }

  /** Nothing but the three resolved records, the audit log aside, has changed. */
  ghost predicate OthersKept(s: AppState, s': AppState, at: Refs) {
    && |s'.recordings| == |s.recordings| && |s'.sessions| == |s.sessions| && |s'.jobs| == |s.jobs|
    && (forall i :: 0 <= i < |s.recordings| && i != at.recording ==> s'.recordings[i] == s.recordings[i])
    && (forall i :: 0 <= i < |s.sessions| && i != at.session ==> s'.sessions[i] == s.sessions[i])
    && (forall i :: 0 <= i < |s.jobs| && i != at.job ==> s'.jobs[i] == s.jobs[i])
    && s'.revisions == s.revisions
  }

  /** The three records before and after a transition on their upload. */
  datatype Change = Change(x0: Session, r0: Recording, j0: Job, x: Session, r: Recording, j: Job)

  /** The byte count is stored, and the summary asks to finalize exactly if all expected bytes are there. */
  predicate ProgressNoted(ch: Change, bytes: nat) {
    && ch.x.bytesReceived == Some(bytes) && ch.x.lastError == None
    && ch.x.state == ch.r.integrityState == Uploading
    && ch.x.verificationSummary == ch.r.verificationSummary
    && (ch.x.verificationSummary == BYTES_RECEIVED <==> ch.x0.bytesExpected == Some(bytes))
    && (ch.x.verificationSummary == IN_PROGRESS <==> ch.x0.bytesExpected != Some(bytes))
    && ch.x.verifiedAt == ch.x0.verifiedAt
    && SameMedia(ch.r0, ch.r) && ch.r.transcriptJobState == ch.r0.transcriptJobState && ch.j == ch.j0
  }

  /** The upload ends with a reason; bytes and media stay as they were. */
  predicate Ended(ch: Change, state: IntegrityState, jobState: JobState, detail: string) {
    && ch.x.state == ch.r.integrityState == state
    && ch.x.lastError == ch.j.lastError == Some(detail)
    && ch.x.verificationSummary == ch.r.verificationSummary == detail
    && ch.j.state == jobState
    && ch.x.bytesReceived == ch.x0.bytesReceived && ch.x.verifiedAt == ch.x0.verifiedAt
    && SameMedia(ch.r0, ch.r)
  }

  /** Path and type are stored and the job is queued; a local upload is verified now, an external one is not. */
  predicate Finalized(ch: Change, storedPath: string, mimeType: Option<string>, now: string) {
    && ch.r.mediaPath == Some(storedPath) && ch.r.mimeType == mimeType
    && ch.j.state == ch.r.transcriptJobState == Queued && ch.j.lastError == None
    && ch.x.lastError == None && ch.x.bytesReceived == ch.x0.bytesReceived
    && ch.x.verificationSummary == ch.r.verificationSummary
    && ch.x.state == ch.r.integrityState
    && (ch.x0.adapter != "external-webhook-engine" ==> ch.x.state == Verified && ch.x.verifiedAt == Some(now))
    && (ch.x0.adapter == "external-webhook-engine" ==> ch.x.state == Verifying && ch.x.verifiedAt == None)
  }

  predicate Brought(ch: Change, c: Command)
    requires IsUploadChange(c)
  {
    match c
    case NoteProgress(_, bytes, _) => ProgressNoted(ch, bytes)
    case ExpireUpload(_, detail, _, _) =>
      Ended(ch, Interrupted, ch.j0.state, detail) && ch.r.transcriptJobState == ch.r0.transcriptJobState
    case FailUpload(_, detail, _, _) =>
      Ended(ch, VerificationFailed, Failed, detail) && ch.r.transcriptJobState == Failed
    case FinalizeUpload(_, storedPath, mimeType, _, _, now) => Finalized(ch, storedPath, mimeType, now)
  }

  /** The newest event, if any, is about this recording, by the user who finalized or by the system. */
  predicate Logged(ch: Change, events: seq<AuditEvent>, c: Command)
    requires IsUploadChange(c)
  {
    if c.NoteProgress? then true
    else
      && events != [] && events[0].recordingId == ch.r.id && events[0].workspaceId == ch.r.workspaceId
      && events[0].id == c.auditId && events[0].detail == ch.r.verificationSummary
      && events[0].actorUserId == (if c.FinalizeUpload? then Some(c.userId) else None)
      && events[0].eventType == (if c.FinalizeUpload? then RecordingCreated else RecordingVerificationFailed)
  }

  function ChangeAt(s: AppState, s': AppState, at: Refs): Change
    requires at.session < |s.sessions| && at.recording < |s.recordings| && at.job < |s.jobs|
    requires at.session < |s'.sessions| && at.recording < |s'.recordings| && at.job < |s'.jobs|
  {
    Change(s.sessions[at.session], s.recordings[at.recording], s.jobs[at.job],
           s'.sessions[at.session], s'.recordings[at.recording], s'.jobs[at.job])
  }

  /** The transition had its effect on the upload of this session and on nothing else. */
  ghost predicate HasEffect(s: AppState, s': AppState, c: Command)
    requires IsUploadChange(c)
  {
    && ResolveUploadRefs(s, c.sessionId).Success?
    && ResolveUploadRefs(s', c.sessionId) == ResolveUploadRefs(s, c.sessionId)
    && var at := ResolveUploadRefs(s, c.sessionId).value;
       OthersKept(s, s', at)
       && var ch := ChangeAt(s, s', at);
          SameRecording(ch.r0, ch.r) && SameSession(ch.x0, ch.x) && SameJob(ch.j0, ch.j)
          && Brought(ch, c) && Logged(ch, s'.auditEvents, c)
  }

  lemma {:induction false} FoundAgain(s: AppState, s': AppState, sessionId: string)
    requires ResolveUploadRefs(s, sessionId).Success?
    requires OthersKept(s, s', ResolveUploadRefs(s, sessionId).value)
    requires var ch := ChangeAt(s, s', ResolveUploadRefs(s, sessionId).value);
             SameRecording(ch.r0, ch.r) && SameSession(ch.x0, ch.x) && SameJob(ch.j0, ch.j)
    ensures ResolveUploadRefs(s', sessionId) == ResolveUploadRefs(s, sessionId)
  {
    var at := ResolveUploadRefs(s, sessionId).value;
    assert s'.sessions[at.session].id == sessionId;
    assert FindSession(s'.sessions, sessionId) == at.session;
    assert s'.recordings[at.recording].id == s'.sessions[at.session].recordingId;
    assert FindRecording(s'.recordings, s'.sessions[at.session].recordingId) == at.recording;
    assert Some(s'.jobs[at.job].id) == s'.recordings[at.recording].transcriptJobId;
    assert FindJob(s'.jobs, s'.recordings[at.recording].transcriptJobId) == at.job;
  }

  /** Every accepted upload transition has this outcome, and a rejected one changes nothing. */
  lemma {:induction false} TransitionsBringAbout(s: AppState, c: Command)
    requires IsUploadChange(c)
    ensures ResolveUploadRefs(s, c.sessionId).Success? ==> HasEffect(s, Apply(s, c), c)
    ensures ResolveUploadRefs(s, c.sessionId).Failure? ==> Apply(s, c) == s
  {
    if ResolveUploadRefs(s, c.sessionId).Success? {
      SummariesDiffer();
      FoundAgain(s, Apply(s, c), c.sessionId);
    }
  }

  lemma {:induction false} SummariesDiffer()
    ensures BYTES_RECEIVED != IN_PROGRESS
  {
    assert |BYTES_RECEIVED| == 63 && |IN_PROGRESS| == 66;
  }

  /** The three records of a new upload, in front, queued and empty, in the name of the uploader. */
  ghost predicate UploadBegun(s: AppState, s': AppState, c: Command)
    requires c.CreateUpload?
  {
    && |s'.recordings| == |s.recordings| + 1 && |s'.sessions| == |s.sessions| + 1 && |s'.jobs| == |s.jobs| + 1
    && s'.recordings[1..] == s.recordings && s'.sessions[1..] == s.sessions && s'.jobs[1..] == s.jobs
    && s'.revisions == s.revisions
    && var r, x, j := s'.recordings[0], s'.sessions[0], s'.jobs[0];
       && r.uploadedByUserId == Some(c.userId) && r.mediaPath == None && r.mimeType == c.mimeType
       && r.title == c.title && r.workspaceId == c.workspaceId
       && r.integrityState == x.state == Uploading && r.transcriptJobState == j.state == Queued
       && x.bytesReceived == Some(0) && x.bytesExpected == Some(c.bytesExpected) && x.verifiedAt == None
       && x.adapter == j.adapter == c.adapter
       && (c.requestedId.Some? ==> x.id == c.requestedId.value)
       && r.currentRevisionId == r.approvedRevisionId == r.pendingRevisionId == None
  }

  /** A created upload is the one found under its session id from then on. */
  lemma {:induction false} CreatedUploadIsFound(s: AppState, c: Command)
    requires c.CreateUpload?
    ensures UploadBegun(s, Apply(s, c), c)
    ensures ResolveUploadRefs(Apply(s, c), NewSessionId(c)) == Success(Refs(0, 0, 0))
  {
    var s' := Apply(s, c);
    assert FindSession(s'.sessions, NewSessionId(c)) == 0;
    assert FindRecording(s'.recordings, c.ids.recording) == 0;
    assert FindJob(s'.jobs, Some(c.ids.job)) == 0;
  }

  /** A recording that arrives in one piece waits for its verification, under ids that lead to it. */
  lemma {:induction false} CreatedRecordingAwaitsVerification(s: AppState, c: Command)
    requires c.CreateRecording?
    ensures ResolveUploadRefs(Apply(s, c), c.ids.session) == Success(Refs(0, 0, 0))
    ensures var s' := Apply(s, c);
            && s'.recordings[1..] == s.recordings && s'.sessions[1..] == s.sessions && s'.jobs[1..] == s.jobs
            && var r, x, j := s'.recordings[0], s'.sessions[0], s'.jobs[0];
               && r.mediaPath == c.mediaPath && r.mimeType == c.mimeType && r.uploadedByUserId == None
               && r.integrityState == x.state == Verifying && r.transcriptJobState == j.state == Queued
               && x.bytesReceived == x.bytesExpected == None && x.verifiedAt == None
               && x.adapter == j.adapter == c.adapter
  {
    var s' := Apply(s, c);
    assert FindSession(s'.sessions, c.ids.session) == 0;
    assert FindRecording(s'.recordings, c.ids.recording) == 0;
    assert FindJob(s'.jobs, Some(c.ids.job)) == 0;
  }

  // ----- whole runs -----

  /** Some command of the run finalized this session, with this path and at this time. */
  ghost predicate FinalizedIn(commands: seq<Command>, r: Recording, x: Session) {
    exists n :: 0 <= n < |commands| && FinalizedBy(commands[n], r, x)
  }

  predicate FinalizedBy(c: Command, r: Recording, x: Session) {
    c.FinalizeUpload? && c.sessionId == x.id && r.mediaPath == Some(c.storedPath) && x.verifiedAt == Some(c.now)
  }

  /** The session is not the external engine's, and its finalization verified the recording. */
  ghost predicate VerifiedLocally(commands: seq<Command>, r: Recording, x: Session) {
    x.adapter != "external-webhook-engine" && FinalizedIn(commands, r, x)
  }

  predicate VerifiedPair(r: Recording, x: Session) {
    SessionLink(r, x) && r.integrityState.Verified?
  }

  ghost predicate VerifiedAreLocal(s: AppState, commands: seq<Command>) {
    forall i, j :: 0 <= i < |s.recordings| && 0 <= j < |s.sessions| && VerifiedPair(s.recordings[i], s.sessions[j]) ==>
      VerifiedLocally(commands, s.recordings[i], s.sessions[j])
  }

  lemma {:induction false} LongerRunKeepsEvidence(commands: seq<Command>, c: Command, r: Recording, x: Session)
    requires VerifiedLocally(commands, r, x)
    ensures VerifiedLocally(commands + [c], r, x)
  {
    var n :| 0 <= n < |commands| && FinalizedBy(commands[n], r, x);
    assert (commands + [c])[n] == commands[n];
  }

  lemma {:induction false} UploadChangeKeepsLocal(s: AppState, commands: seq<Command>, c: Command)
    requires Inv(s) && VerifiedAreLocal(s, commands) && IsUploadChange(c)
    ensures VerifiedAreLocal(Apply(s, c), commands + [c])
  {
    var s' := Apply(s, c);
    TransitionsBringAbout(s, c);
    forall i, j | 0 <= i < |s'.recordings| && 0 <= j < |s'.sessions| && VerifiedPair(s'.recordings[i], s'.sessions[j])
      ensures VerifiedLocally(commands + [c], s'.recordings[i], s'.sessions[j])
    {
      PairAfterChange(s, commands, c, i, j);
    }
  }

  /** A linked pair after the transition is the changed one or was there before. */
  lemma {:induction false} PairAfterChange(s: AppState, commands: seq<Command>, c: Command, i: nat, j: nat)
    requires Inv(s) && VerifiedAreLocal(s, commands) && IsUploadChange(c)
    requires ResolveUploadRefs(s, c.sessionId).Success? ==> HasEffect(s, Apply(s, c), c)
    requires ResolveUploadRefs(s, c.sessionId).Failure? ==> Apply(s, c) == s
    requires i < |Apply(s, c).recordings| && j < |Apply(s, c).sessions|
    requires VerifiedPair(Apply(s, c).recordings[i], Apply(s, c).sessions[j])
    ensures VerifiedLocally(commands + [c], Apply(s, c).recordings[i], Apply(s, c).sessions[j])
  {
    var s' := Apply(s, c);
    var refs := ResolveUploadRefs(s, c.sessionId);
    if refs.Success? && (i == refs.value.recording || j == refs.value.session) {
      var at := refs.value;
      RefsArePartners(s, c.sessionId);
      assert i == at.recording && j == at.session;
      assert Brought(ChangeAt(s, s', at), c);
      assert (commands + [c])[|commands|] == c;
      assert FinalizedBy(c, s'.recordings[i], s'.sessions[j]);
    } else {
      LongerRunKeepsEvidence(commands, c, s.recordings[i], s.sessions[j]);
    }
  }

  lemma {:induction false} CreateKeepsLocal(s: AppState, commands: seq<Command>, c: Command)
    requires Inv(s) && VerifiedAreLocal(s, commands) && Governed(s, c) && (c.CreateRecording? || c.CreateUpload?)
    ensures VerifiedAreLocal(Apply(s, c), commands + [c])
  {
    var s' := Apply(s, c);
    forall i, j | 0 <= i < |s'.recordings| && 0 <= j < |s'.sessions| && VerifiedPair(s'.recordings[i], s'.sessions[j])
      ensures VerifiedLocally(commands + [c], s'.recordings[i], s'.sessions[j])
    {
      assert i > 0;
      assert j > 0;
      LongerRunKeepsEvidence(commands, c, s.recordings[i - 1], s.sessions[j - 1]);
    }
  }

  lemma {:induction false} DraftKeepsLocal(s: AppState, commands: seq<Command>, c: Command)
    requires Inv(s) && VerifiedAreLocal(s, commands) && c.CreateDraft?
    ensures VerifiedAreLocal(Apply(s, c), commands + [c])
  {
    var s' := Apply(s, c);
    forall i, j | 0 <= i < |s'.recordings| && 0 <= j < |s'.sessions| && VerifiedPair(s'.recordings[i], s'.sessions[j])
      ensures VerifiedLocally(commands + [c], s'.recordings[i], s'.sessions[j])
    {
      LongerRunKeepsEvidence(commands, c, s.recordings[i], s.sessions[j]);
      var n :| 0 <= n < |commands + [c]| && FinalizedBy((commands + [c])[n], s.recordings[i], s.sessions[j]);
      assert FinalizedBy((commands + [c])[n], s'.recordings[i], s'.sessions[j]);
    }
  }

  /** All that a run is to keep. */
  ghost predicate Sound(s: AppState, commands: seq<Command>) {
    Inv(s) && VerifiedAreLocal(s, commands)
  }

  lemma {:induction false} ApplyKeepsLocal(s: AppState, commands: seq<Command>, c: Command)
    requires Sound(s, commands) && Governed(s, c)
    ensures Sound(Apply(s, c), commands + [c])
  {
    ApplyKeepsInv(s, c);
    if c.CreateRecording? || c.CreateUpload? { CreateKeepsLocal(s, commands, c); }
    else if c.CreateDraft? { DraftKeepsLocal(s, commands, c); }
    else { UploadChangeKeepsLocal(s, commands, c); }
  }

  const EMPTY := AppState([], [], [], [], [])

  lemma {:induction false} LastStep(s: AppState, commands: seq<Command>, n: nat)
    requires |commands| == n + 1 && GovernedRun(s, commands)
    ensures Governed(Run(s, commands[..n]), commands[n])
    ensures Run(s, commands) == Apply(Run(s, commands[..n]), commands[n])
    ensures commands == commands[..n] + [commands[n]]
  {
  }

  lemma {:induction false} RunsVerifyLocally(s: AppState, commands: seq<Command>)
    requires Sound(s, []) && GovernedRun(s, commands)
    ensures Sound(Run(s, commands), commands)
  {
    if commands != [] {
      var n := |commands| - 1;
      GovernedPrefix(s, commands);
      RunsVerifyLocally(s, commands[..n]);
      LastStep(s, commands, n);
      ApplyKeepsLocal(Run(s, commands[..n]), commands[..n], commands[n]);
    }
  }

  lemma {:induction false} EmptyIsSound()
    ensures Sound(EMPTY, [])
  {
  }

  /**
    After any governed run from the empty state, a recording that counts as verified has a session whose
    adapter is not the external engine and which was finalized in the run: the recording's path is the
    one that was stored then, and the session's time of verification is that of the finalization.
  */
  lemma {:induction false} VerifiedMeansFinalizedLocally(commands: seq<Command>, i: nat)
    requires GovernedRun(EMPTY, commands)
    requires i < |Run(EMPTY, commands).recordings| && Run(EMPTY, commands).recordings[i].integrityState.Verified?
    ensures var s := Run(EMPTY, commands);
            exists j :: 0 <= j < |s.sessions| && SessionLink(s.recordings[i], s.sessions[j])
              && s.sessions[j].adapter != "external-webhook-engine" && s.sessions[j].verifiedAt.Some?
              && FinalizedIn(commands, s.recordings[i], s.sessions[j])
  {
    var s := Run(EMPTY, commands);
    EmptyIsSound();
    RunsVerifyLocally(EMPTY, commands);
    assert HasRight(s.recordings[i], s.sessions, SessionLink);
    var j :| 0 <= j < |s.sessions| && SessionLink(s.recordings[i], s.sessions[j]);
    assert VerifiedLocally(commands, s.recordings[i], s.sessions[j]);
  }

  /** And such a recording exists: a local upload that is created, filled and finalized ends verified. */
  lemma {:induction false} LocalUploadEndsVerified(c: Command, bytes: nat, path: string, mime: Option<string>, user: string, audit: string, now: string)
    requires c.CreateUpload? && c.adapter != "external-webhook-engine"
    ensures var id := NewSessionId(c);
            var run := [c, NoteProgress(id, bytes, now), FinalizeUpload(id, path, mime, user, audit, now)];
            var s := Run(EMPTY, run);
            && |s.recordings| == 1 && s.recordings[0].integrityState == Verified && s.recordings[0].mediaPath == Some(path)
            && |s.sessions| == 1 && s.sessions[0].verifiedAt == Some(now) && s.sessions[0].bytesReceived == Some(bytes)
            && |s.jobs| == 1 && s.jobs[0].state == Queued
  {
    var id := NewSessionId(c);
    var p, f := NoteProgress(id, bytes, now), FinalizeUpload(id, path, mime, user, audit, now);
    CreatedUploadIsFound(EMPTY, c);
    var s1 := Apply(EMPTY, c);
    TransitionsBringAbout(s1, p);
    TransitionsBringAbout(Apply(s1, p), f);
    RunOfThree(EMPTY, c, p, f);
  }

  lemma {:induction false} RunOfThree(s: AppState, a: Command, b: Command, c: Command)
    ensures Run(s, [a, b, c]) == Apply(Apply(Apply(s, a), b), c)
  {
    assert [a, b, c][..2] == [a, b] && [a, b][..1] == [a] && [a][..0] == [];
    assert Run(s, [a]) == Apply(s, a);
    assert Run(s, [a, b]) == Apply(Run(s, [a]), b);
  }
}
