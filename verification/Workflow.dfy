/**
  The workflow transitions on recordings, their upload sessions and their transcript jobs. A record
  is changed in place in the array that holds it; fields that no transition reads or writes
  are not modelled.
*/
module Workflow {
  import opened Search
  import opened Wrappers
  import opened Speakers

  datatype IntegrityState = Capturing | Uploading | Verifying | Verified | VerificationFailed | Interrupted
  datatype JobState = Queued | Running | PartialResult | Completed | Failed | Cancelled

  datatype Recording = Recording(
    id: string, workspaceId: string, title: string, uploadedByUserId: Option<string>,
    mediaPath: Option<string>, mimeType: Option<string>,
    ingestionSessionId: Option<string>, transcriptJobId: Option<string>,
    integrityState: IntegrityState, transcriptJobState: JobState,
    currentRevisionId: Option<string>, approvedRevisionId: Option<string>, pendingRevisionId: Option<string>,
    verificationSummary: string, updatedAt: string)

  datatype Session = Session(
    id: string, recordingId: string, state: IntegrityState, adapter: string,
    bytesReceived: Option<nat>, bytesExpected: Option<nat>, verifiedAt: Option<string>,
    lastError: Option<string>, verificationSummary: string, updatedAt: string)

  datatype Job = Job(
    id: string, recordingId: string, state: JobState, adapter: string, lastError: Option<string>, updatedAt: string)

  datatype Revision = Revision(id: string, recordingId: string, version: int, summary: string, segments: seq<Segment>)

  datatype AuditType = RecordingCreated | RecordingVerificationFailed

  datatype AuditEvent = AuditEvent(
    id: string, workspaceId: string, recordingId: string, actorUserId: Option<string>, eventType: AuditType, detail: string)

  datatype AppState = AppState(
    recordings: seq<Recording>, sessions: seq<Session>, jobs: seq<Job>, revisions: seq<Revision>, auditEvents: seq<AuditEvent>)

  /** The ids a creating transition draws, and the time it reads. */
  datatype Ids = Ids(recording: string, session: string, job: string, audit: string, now: string)

  datatype Command =
    | CreateRecording(ids: Ids, fromBrowser: bool, workspaceId: string, title: string, mediaPath: Option<string>, mimeType: Option<string>, adapter: string)
    | CreateUpload(ids: Ids, fromBrowser: bool, workspaceId: string, title: string, mimeType: Option<string>, userId: string,
                   bytesExpected: nat, adapter: string, requestedId: Option<string>)
    | NoteProgress(sessionId: string, bytesReceived: nat, now: string)
    | ExpireUpload(sessionId: string, detail: string, auditId: string, now: string)
    | FailUpload(sessionId: string, detail: string, auditId: string, now: string)
    | FinalizeUpload(sessionId: string, storedPath: string, mimeType: Option<string>, userId: string, auditId: string, now: string)
    | CreateDraft(recordingId: string, segments: seq<Segment>, summary: string, revisionId: string, now: string)

  const AWAITING := "Awaiting server-side verification."
  const STARTED := "Upload session started. Continue from the last committed byte if the transfer is interrupted."
  const BYTES_RECEIVED := "Upload bytes received. Finalize to begin governed verification."
  const IN_PROGRESS := "Upload in progress. Resume continues from the last committed byte."
  const EXTERNAL_SUMMARY := "Upload complete. Server-side verification is starting."
  const LOCAL_SUMMARY := "Upload verified locally and queued for transcription."
  const EXTERNAL_ADAPTER := "external-webhook-engine"

  // ----- `find` -----

  function FindRecording(rs: seq<Recording>, id: string): (k: nat)
    ensures k <= |rs| && (k < |rs| ==> rs[k].id == id) && forall i :: 0 <= i < k ==> rs[i].id != id
  {
    FindIndex(rs, (r: Recording) => r.id == id)
  }

  function FindSession(xs: seq<Session>, id: string): (k: nat)
    ensures k <= |xs| && (k < |xs| ==> xs[k].id == id) && forall i :: 0 <= i < k ==> xs[i].id != id
  {
    FindIndex(xs, (x: Session) => x.id == id)
  }

  function FindJob(js: seq<Job>, id: Option<string>): (k: nat)
    ensures k <= |js| && (k < |js| ==> Some(js[k].id) == id) && forall i :: 0 <= i < k ==> Some(js[i].id) != id
  {
    FindIndex(js, (j: Job) => Some(j.id) == id)
  }

  datatype Refs = Refs(session: nat, recording: nat, job: nat)

  /** Session by id, its recording, that recording's job. */
  function ResolveUploadRefs(s: AppState, sessionId: string): (r: Result<Refs, string>)
    ensures r.Success? ==>
              && r.value.session < |s.sessions| && r.value.recording < |s.recordings| && r.value.job < |s.jobs|
              && s.sessions[r.value.session].id == sessionId
              && s.recordings[r.value.recording].id == s.sessions[r.value.session].recordingId
              && s.recordings[r.value.recording].transcriptJobId == Some(s.jobs[r.value.job].id)
  {
    var x := FindSession(s.sessions, sessionId);
    if x == |s.sessions| then Failure("Upload session not found.")
    else
      var r := FindRecording(s.recordings, s.sessions[x].recordingId);
      if r == |s.recordings| then Failure("Recording not found.")
      else
        var j := FindJob(s.jobs, s.recordings[r].transcriptJobId);
        if j == |s.jobs| then Failure("Transcript job not found.") else Success(Refs(x, r, j))
  }

  function NextRevisionVersion(revisions: seq<Revision>, recordingId: string): int {
    match MaxVersion(revisions, recordingId)
    case None => 1
    case Some(v) => v + 1
  }

  function MaxVersion(revisions: seq<Revision>, recordingId: string): (m: Option<int>)
    ensures m.None? <==> forall i :: 0 <= i < |revisions| ==> revisions[i].recordingId != recordingId
    ensures m.Some? ==> forall i :: 0 <= i < |revisions| && revisions[i].recordingId == recordingId ==>
                          revisions[i].version <= m.value
    ensures m.Some? ==> exists i :: 0 <= i < |revisions| && revisions[i].recordingId == recordingId && revisions[i].version == m.value
  {
    if revisions == [] then None
    else
      var rest := MaxVersion(revisions[1..], recordingId);
      assert forall i :: 1 <= i < |revisions| ==> revisions[i] == revisions[1..][i - 1];
      assert forall i :: 0 <= i < |revisions| - 1 ==> revisions[1..][i] == revisions[i + 1];
      if revisions[0].recordingId != recordingId then rest
      else if rest.Some? && rest.value > revisions[0].version then rest
      else Some(revisions[0].version)
  }

  // ----- the transitions -----

  /** A new recording with its session and its job, each in front of its array. */
  function Create(s: AppState, r: Recording, x: Session, j: Job, e: AuditEvent): AppState {
    s.(recordings := [r] + s.recordings, sessions := [x] + s.sessions, jobs := [j] + s.jobs,
       auditEvents := [e] + s.auditEvents)
  }

  function NewSessionId(c: Command): string
    requires c.CreateRecording? || c.CreateUpload?
  {
    if c.CreateUpload? && c.requestedId.Some? then c.requestedId.value else c.ids.session
  }

  function RecordingAdded(s: AppState, c: Command): AppState
    requires c.CreateRecording?
  {
    var CreateRecording(ids, fromBrowser, workspaceId, title, mediaPath, mimeType, adapter) := c;
    Create(s,
      Recording(ids.recording, workspaceId, title, None, mediaPath, mimeType, Some(ids.session), Some(ids.job),
                Verifying, Queued, None, None, None, AWAITING, ids.now),
      Session(ids.session, ids.recording, Verifying, adapter, None, None, None, None, AWAITING, ids.now),
      Job(ids.job, ids.recording, Queued, adapter, None, ids.now),
      AuditEvent(ids.audit, workspaceId, ids.recording, None, RecordingCreated,
                 (if fromBrowser then "Browser recording" else "Upload") + " received and queued for verification."))
  }

  function UploadAdded(s: AppState, c: Command): AppState
    requires c.CreateUpload?
  {
    var CreateUpload(ids, fromBrowser, workspaceId, title, mimeType, userId, bytesExpected, adapter, _) := c;
    var sessionId := NewSessionId(c);
    Create(s,
      Recording(ids.recording, workspaceId, title, Some(userId), None, mimeType, Some(sessionId), Some(ids.job),
                Uploading, Queued, None, None, None, STARTED, ids.now),
      Session(sessionId, ids.recording, Uploading, adapter, Some(0), Some(bytesExpected), None, None, STARTED, ids.now),
      Job(ids.job, ids.recording, Queued, adapter, None, ids.now),
      AuditEvent(ids.audit, workspaceId, ids.recording, Some(userId), RecordingCreated,
                 (if fromBrowser then "Browser recording" else "Upload") + " session started."))
  }

  function Audit(s: AppState, e: AuditEvent): AppState {
    s.(auditEvents := [e] + s.auditEvents)
  }

  /** One session, recording and job are replaced where they stand. */
  function Put(s: AppState, at: Refs, x: Session, r: Recording, j: Job): AppState
    requires at.session < |s.sessions| && at.recording < |s.recordings| && at.job < |s.jobs|
  {
    s.(sessions := s.sessions[at.session := x], recordings := s.recordings[at.recording := r], jobs := s.jobs[at.job := j])
  }

  function UploadChanged(s: AppState, at: Refs, c: Command): AppState
    requires at.session < |s.sessions| && at.recording < |s.recordings| && at.job < |s.jobs|
    requires c.NoteProgress? || c.ExpireUpload? || c.FailUpload? || c.FinalizeUpload?
  {
    var x := s.sessions[at.session];
    var r := s.recordings[at.recording];
    var j := s.jobs[at.job];
    match c
    case NoteProgress(_, bytes, now) =>
      var summary := if Some(bytes) == x.bytesExpected then BYTES_RECEIVED else IN_PROGRESS;
      Put(s, at,
          x.(bytesReceived := Some(bytes), state := Uploading, updatedAt := now, lastError := None, verificationSummary := summary),
          r.(integrityState := Uploading, verificationSummary := summary, updatedAt := now),
          j)
    case ExpireUpload(_, detail, auditId, now) =>
      Audit(Put(s, at,
          x.(state := Interrupted, lastError := Some(detail), verificationSummary := detail, updatedAt := now),
          r.(integrityState := Interrupted, verificationSummary := detail, updatedAt := now),
          j.(lastError := Some(detail), updatedAt := now)),
        AuditEvent(auditId, r.workspaceId, r.id, None, RecordingVerificationFailed, detail))
    case FailUpload(_, detail, auditId, now) =>
      Audit(Put(s, at,
          x.(state := VerificationFailed, lastError := Some(detail), verificationSummary := detail, updatedAt := now),
          r.(integrityState := VerificationFailed, transcriptJobState := Failed, verificationSummary := detail, updatedAt := now),
          j.(state := Failed, lastError := Some(detail), updatedAt := now)),
        AuditEvent(auditId, r.workspaceId, r.id, None, RecordingVerificationFailed, detail))
    case FinalizeUpload(_, storedPath, mimeType, userId, auditId, now) =>
      var external := x.adapter == EXTERNAL_ADAPTER;
      var next := if external then Verifying else Verified;
      var summary := if external then EXTERNAL_SUMMARY else LOCAL_SUMMARY;
      Audit(Put(s, at,
          x.(state := next, updatedAt := now, lastError := None, verificationSummary := summary,
             verifiedAt := if external then None else Some(now)),
          r.(mediaPath := Some(storedPath), mimeType := mimeType, integrityState := next, transcriptJobState := Queued,
             verificationSummary := summary, updatedAt := now),
          j.(state := Queued, updatedAt := now, lastError := None)),
        AuditEvent(auditId, r.workspaceId, r.id, Some(userId), RecordingCreated, summary))
  }

  function DraftCreated(s: AppState, c: Command): Result<AppState, string>
    requires c.CreateDraft?
  {
    var k := FindRecording(s.recordings, c.recordingId);
    if k == |s.recordings| then Failure("Recording not found.")
    else
      match NormalizeSpeakerLabels(c.segments)
      case Failure(e) => Failure(e)
      case Success(segments) =>
        var revision := Revision(c.revisionId, c.recordingId, NextRevisionVersion(s.revisions, c.recordingId), c.summary, segments);
        Success(s.(revisions := s.revisions + [revision],
                   recordings := s.recordings[k := s.recordings[k].(currentRevisionId := Some(c.revisionId), updatedAt := c.now)]))
  }

  function Transition(s: AppState, c: Command): Result<AppState, string> {
    if c.CreateRecording? then Success(RecordingAdded(s, c))
    else if c.CreateUpload? then Success(UploadAdded(s, c))
    else if c.CreateDraft? then DraftCreated(s, c)
    else
      match ResolveUploadRefs(s, c.sessionId)
      case Failure(e) => Failure(e)
      case Success(at) => Success(UploadChanged(s, at, c))
  }

  // ----- the three records agree -----

  predicate SessionLink(r: Recording, x: Session) {
    r.ingestionSessionId == Some(x.id) && x.recordingId == r.id && x.state == r.integrityState
  }

  predicate JobLink(r: Recording, j: Job) {
    r.transcriptJobId == Some(j.id) && j.recordingId == r.id && j.state == r.transcriptJobState
  }

  ghost predicate HasRight<A, B>(a: A, bs: seq<B>, link: (A, B) -> bool) {
    exists j :: 0 <= j < |bs| && link(a, bs[j])
  }

  ghost predicate HasLeft<A, B>(as_: seq<A>, b: B, link: (A, B) -> bool) {
    exists i :: 0 <= i < |as_| && link(as_[i], b)
  }

  /** Every element on either side is linked to one on the other side. */
  ghost predicate Linked<A, B>(as_: seq<A>, bs: seq<B>, link: (A, B) -> bool) {
    && (forall i {:trigger HasRight(as_[i], bs, link)} :: 0 <= i < |as_| ==> HasRight(as_[i], bs, link))
    && (forall j {:trigger HasLeft(as_, bs[j], link)} :: 0 <= j < |bs| ==> HasLeft(as_, bs[j], link))
  }

  ghost predicate Inv(s: AppState) {
    && (forall i, j :: 0 <= i < j < |s.recordings| ==> s.recordings[i].id != s.recordings[j].id)
    && (forall i, j :: 0 <= i < j < |s.sessions| ==> s.sessions[i].id != s.sessions[j].id)
    && (forall i, j :: 0 <= i < j < |s.jobs| ==> s.jobs[i].id != s.jobs[j].id)
    && Linked(s.recordings, s.sessions, SessionLink)
    && Linked(s.recordings, s.jobs, JobLink)
    && VersionsDistinct(s.revisions)
  }

  ghost predicate VersionsDistinct(revisions: seq<Revision>) {
    forall i, j :: 0 <= i < j < |revisions| && revisions[i].recordingId == revisions[j].recordingId ==>
      revisions[i].version != revisions[j].version
  }

  predicate SessionIdInUse(s: AppState, id: string) {
    exists i :: 0 <= i < |s.sessions| && s.sessions[i].id == id
  }

  /** Drawn ids are new. A session id that the caller chose is checked by the caller. */
  ghost predicate FreshIds(s: AppState, c: Command) {
    c.CreateRecording? || c.CreateUpload? ==>
      && (forall i :: 0 <= i < |s.recordings| ==> s.recordings[i].id != c.ids.recording)
      && (forall i :: 0 <= i < |s.jobs| ==> s.jobs[i].id != c.ids.job)
      && !SessionIdInUse(s, c.ids.session)
  }

  lemma {:induction false} PutInFrontKeepsLinked<A, B>(as_: seq<A>, bs: seq<B>, link: (A, B) -> bool, a: A, b: B)
    requires Linked(as_, bs, link) && link(a, b)
    ensures Linked([a] + as_, [b] + bs, link)
  {
    var as', bs' := [a] + as_, [b] + bs;
    forall i | 0 <= i < |as'|
      ensures HasRight(as'[i], bs', link)
    {
      if i == 0 { assert link(as'[0], bs'[0]); }
      else {
        assert HasRight(as_[i - 1], bs, link);
        var j :| 0 <= j < |bs| && link(as_[i - 1], bs[j]);
        assert link(as'[i], bs'[j + 1]);
      }
    }
    forall j | 0 <= j < |bs'|
      ensures HasLeft(as', bs'[j], link)
    {
      if j == 0 { assert link(as'[0], bs'[0]); }
      else {
        assert HasLeft(as_, bs[j - 1], link);
        var i :| 0 <= i < |as_| && link(as_[i], bs[j - 1]);
        assert link(as'[i + 1], bs'[j]);
      }
    }
  }

  /** Replacing two partners that have no other partner by two new partners keeps everything linked. */
  lemma {:induction false} ReplaceKeepsLinked<A, B>(
    as_: seq<A>, bs: seq<B>, link: (A, B) -> bool, i: nat, j: nat, a: A, b: B)
    requires Linked(as_, bs, link) && i < |as_| && j < |bs| && link(a, b)
    requires forall k :: 0 <= k < |as_| && k != i ==> !link(as_[k], bs[j])
    requires forall k :: 0 <= k < |bs| && k != j ==> !link(as_[i], bs[k])
    ensures Linked(as_[i := a], bs[j := b], link)
  {
    var as', bs' := as_[i := a], bs[j := b];
    forall k | 0 <= k < |as'|
      ensures HasRight(as'[k], bs', link)
    {
      if k == i { assert link(as'[i], bs'[j]); }
      else {
        assert HasRight(as_[k], bs, link);
        var m :| 0 <= m < |bs| && link(as_[k], bs[m]);
        assert link(as'[k], bs'[m]);
      }
    }
    forall m | 0 <= m < |bs'|
      ensures HasLeft(as', bs'[m], link)
    {
      if m == j { assert link(as'[i], bs'[j]); }
      else {
        assert HasLeft(as_, bs[m], link);
        var k :| 0 <= k < |as_| && link(as_[k], bs[m]);
        assert link(as'[k], bs'[m]);
      }
    }
  }

  /** A resolved session, recording and job are each other's only partners. */
  lemma {:induction false} RefsArePartners(s: AppState, sessionId: string)
    requires Inv(s) && ResolveUploadRefs(s, sessionId).Success?
    ensures var at := ResolveUploadRefs(s, sessionId).value;
            && SessionLink(s.recordings[at.recording], s.sessions[at.session])
            && JobLink(s.recordings[at.recording], s.jobs[at.job])
            && (forall k :: 0 <= k < |s.recordings| && k != at.recording ==> !SessionLink(s.recordings[k], s.sessions[at.session]))
            && (forall k :: 0 <= k < |s.recordings| && k != at.recording ==> !JobLink(s.recordings[k], s.jobs[at.job]))
            && (forall k :: 0 <= k < |s.sessions| && k != at.session ==> !SessionLink(s.recordings[at.recording], s.sessions[k]))
            && (forall k :: 0 <= k < |s.jobs| && k != at.job ==> !JobLink(s.recordings[at.recording], s.jobs[k]))
  {
    var at := ResolveUploadRefs(s, sessionId).value;
    assert HasLeft(s.recordings, s.sessions[at.session], SessionLink);
    var i :| 0 <= i < |s.recordings| && SessionLink(s.recordings[i], s.sessions[at.session]);
    assert i == at.recording;
    assert HasRight(s.recordings[at.recording], s.jobs, JobLink);
    var j :| 0 <= j < |s.jobs| && JobLink(s.recordings[at.recording], s.jobs[j]);
    assert j == at.job;
  }

  /** An upload transition leaves ids and links alone and sets both sides of each link to one state. */
  lemma {:induction false} ChangedRecordsAgree(s: AppState, at: Refs, c: Command)
    requires at.session < |s.sessions| && at.recording < |s.recordings| && at.job < |s.jobs|
    requires c.NoteProgress? || c.ExpireUpload? || c.FailUpload? || c.FinalizeUpload?
    requires SessionLink(s.recordings[at.recording], s.sessions[at.session])
    requires JobLink(s.recordings[at.recording], s.jobs[at.job])
    ensures var s' := UploadChanged(s, at, c);
            var x, r, j := s'.sessions[at.session], s'.recordings[at.recording], s'.jobs[at.job];
            && SessionLink(r, x) && JobLink(r, j)
            && s'.sessions == s.sessions[at.session := x] && s'.recordings == s.recordings[at.recording := r]
            && s'.jobs == s.jobs[at.job := j] && s'.revisions == s.revisions
            && x.id == s.sessions[at.session].id && r.id == s.recordings[at.recording].id && j.id == s.jobs[at.job].id
  {
  }

  /** Replacing partners by partners with the same ids keeps the invariant. */
  lemma {:induction false} ReplacedPartnersKeepInv(s: AppState, s': AppState, sessionId: string)
    requires Inv(s) && ResolveUploadRefs(s, sessionId).Success? && s'.revisions == s.revisions
    requires var at := ResolveUploadRefs(s, sessionId).value;
             && at.session < |s'.sessions| && at.recording < |s'.recordings| && at.job < |s'.jobs|
             && (var x, r, j := s'.sessions[at.session], s'.recordings[at.recording], s'.jobs[at.job];
                 && SessionLink(r, x) && JobLink(r, j)
                 && s'.sessions == s.sessions[at.session := x] && s'.recordings == s.recordings[at.recording := r]
                 && s'.jobs == s.jobs[at.job := j]
                 && x.id == s.sessions[at.session].id && r.id == s.recordings[at.recording].id && j.id == s.jobs[at.job].id)
    ensures Inv(s')
  {
    var at := ResolveUploadRefs(s, sessionId).value;
    RefsArePartners(s, sessionId);
    var x, r, j := s'.sessions[at.session], s'.recordings[at.recording], s'.jobs[at.job];
    ReplaceKeepsLinked(s.recordings, s.sessions, SessionLink, at.recording, at.session, r, x);
    ReplaceKeepsLinked(s.recordings, s.jobs, JobLink, at.recording, at.job, r, j);
  }

  lemma {:induction false} UploadChangeKeepsInv(s: AppState, c: Command)
    requires Inv(s) && (c.NoteProgress? || c.ExpireUpload? || c.FailUpload? || c.FinalizeUpload?)
    ensures Transition(s, c).Success? ==> Inv(Transition(s, c).value)
  {
    if Transition(s, c).Success? {
      var at := ResolveUploadRefs(s, c.sessionId).value;
      RefsArePartners(s, c.sessionId);
      ChangedRecordsAgree(s, at, c);
      ReplacedPartnersKeepInv(s, UploadChanged(s, at, c), c.sessionId);
    }
  }

  /**
    Creating keeps the records linked exactly when the session id is new: with an id in use, two
    recordings would share it. (The ingest service looks the id up before it creates.)
  */
  lemma {:induction false} CreateKeepsInv(s: AppState, c: Command)
    requires Inv(s) && FreshIds(s, c) && (c.CreateRecording? || c.CreateUpload?)
    ensures Transition(s, c).Success?
    ensures Inv(Transition(s, c).value) <==> !SessionIdInUse(s, NewSessionId(c))
  {
    var s' := Transition(s, c).value;
    var r, x, j := s'.recordings[0], s'.sessions[0], s'.jobs[0];
    assert SessionLink(r, x) && JobLink(r, j) && x.id == NewSessionId(c);
    PutInFrontKeepsLinked(s.recordings, s.sessions, SessionLink, r, x);
    PutInFrontKeepsLinked(s.recordings, s.jobs, JobLink, r, j);
    if SessionIdInUse(s, x.id) {
      var i :| 0 <= i < |s.sessions| && s.sessions[i].id == x.id;
      assert s'.sessions[i + 1].id == s'.sessions[0].id;
    }
  }

  /** Replacing a recording by one with the same id, links and states keeps it linked on both sides. */
  lemma {:induction false} SameLinksKeepLinked(s: AppState, k: nat, r: Recording)
    requires Linked(s.recordings, s.sessions, SessionLink) && Linked(s.recordings, s.jobs, JobLink)
    requires k < |s.recordings|
    requires forall x :: SessionLink(r, x) <==> SessionLink(s.recordings[k], x)
    requires forall j :: JobLink(r, j) <==> JobLink(s.recordings[k], j)
    ensures Linked(s.recordings[k := r], s.sessions, SessionLink) && Linked(s.recordings[k := r], s.jobs, JobLink)
  {
    SameLinks(s.recordings, s.sessions, SessionLink, k, r);
    SameLinks(s.recordings, s.jobs, JobLink, k, r);
  }

  lemma {:induction false} SameLinks<A, B>(as_: seq<A>, bs: seq<B>, link: (A, B) -> bool, k: nat, a: A)
    requires Linked(as_, bs, link) && k < |as_|
    requires forall m :: 0 <= m < |bs| ==> (link(a, bs[m]) <==> link(as_[k], bs[m]))
    ensures Linked(as_[k := a], bs, link)
  {
    var as' := as_[k := a];
    forall i | 0 <= i < |as'|
      ensures HasRight(as'[i], bs, link)
    {
      assert HasRight(as_[i], bs, link);
      var m :| 0 <= m < |bs| && link(as_[i], bs[m]);
      assert link(as'[i], bs[m]);
    }
    forall m | 0 <= m < |bs|
      ensures HasLeft(as', bs[m], link)
    {
      assert HasLeft(as_, bs[m], link);
      var i :| 0 <= i < |as_| && link(as_[i], bs[m]);
      assert link(as'[i], bs[m]);
    }
  }

  lemma {:induction false} DraftKeepsInv(s: AppState, c: Command)
    requires Inv(s) && c.CreateDraft?
    ensures Transition(s, c).Success? ==> Inv(Transition(s, c).value)
  {
    if Transition(s, c).Success? {
      var k := FindRecording(s.recordings, c.recordingId);
      SameLinksKeepLinked(s, k, Transition(s, c).value.recordings[k]);
    }
  }

  /**
    A new draft has a version above all earlier ones of its recording, trimmed valid labels on
    otherwise unchanged segments, and becomes the recording's current revision. It fails, before
    anything changes, exactly when the recording is missing or a label has no valid name in it.
  */
  lemma {:induction false} DraftIsNewestAndCurrent(s: AppState, c: Command)
    requires c.CreateDraft?
    ensures Transition(s, c).Success? <==>
              && (exists i :: 0 <= i < |s.recordings| && s.recordings[i].id == c.recordingId)
              && (forall i :: 0 <= i < |c.segments| ==> ValidName(Trim(c.segments[i].speakerLabel)))
    ensures Transition(s, c).Success? ==>
              var s' := Transition(s, c).value;
              var n := |s.revisions|;
              && s'.revisions[..n] == s.revisions && |s'.revisions| == n + 1
              && s'.revisions[n].id == c.revisionId && s'.revisions[n].recordingId == c.recordingId
              && (forall i :: 0 <= i < n && s.revisions[i].recordingId == c.recordingId ==>
                    s.revisions[i].version < s'.revisions[n].version)
              && |s'.revisions[n].segments| == |c.segments| && Normalized(s'.revisions[n].segments)
              && (forall i :: 0 <= i < |c.segments| ==>
                    s'.revisions[n].segments[i] == c.segments[i].(speakerLabel := Trim(c.segments[i].speakerLabel)))
              && (exists k :: 0 <= k < |s'.recordings| && s'.recordings[k].id == c.recordingId
                    && s'.recordings[k].currentRevisionId == Some(c.revisionId))
  {
    NormalizeTrimsLabels(c.segments);
    var k := FindRecording(s.recordings, c.recordingId);
    if Transition(s, c).Success? {
      assert Transition(s, c).value.recordings[k].currentRevisionId == Some(c.revisionId);
    }
  }

  // ----- runs -----

  /** A step of a run: a transition that throws leaves the state as it was. */
  function Apply(s: AppState, c: Command): AppState {
    match Transition(s, c)
    case Success(s') => s'
    case Failure(_) => s
  }

  function Run(s: AppState, commands: seq<Command>): AppState {
    if commands == [] then s else Apply(Run(s, commands[..|commands| - 1]), commands[|commands| - 1])
  }

  /** Ids are new, and the ingest service has looked up the session id it passes. */
  ghost predicate Governed(s: AppState, c: Command) {
    FreshIds(s, c) && (c.CreateUpload? ==> !SessionIdInUse(s, NewSessionId(c)))
  }

  ghost predicate GovernedRun(s: AppState, commands: seq<Command>) {
    forall n :: 0 <= n < |commands| ==> Governed(Run(s, commands[..n]), commands[n])
  }

  lemma {:induction false} GovernedPrefix(s: AppState, commands: seq<Command>)
    requires commands != [] && GovernedRun(s, commands)
    ensures GovernedRun(s, commands[..|commands| - 1])
  {
    var before := commands[..|commands| - 1];
    forall k | 0 <= k < |before|
      ensures Governed(Run(s, before[..k]), before[k])
    {
      assert before[..k] == commands[..k];
    }
  }

  lemma {:induction false} ApplyKeepsInv(s: AppState, c: Command)
    requires Inv(s) && Governed(s, c)
    ensures Inv(Apply(s, c))
  {
    if c.CreateRecording? || c.CreateUpload? { CreateKeepsInv(s, c); }
    else if c.CreateDraft? { DraftKeepsInv(s, c); }
    else { UploadChangeKeepsInv(s, c); }
  }

  /** `after` is `before` with new events in front. */
  ghost predicate GrownAtFront(before: seq<AuditEvent>, after: seq<AuditEvent>) {
    |before| <= |after| && after[|after| - |before|..] == before
  }

  lemma {:induction false} GrowthComposes(a: seq<AuditEvent>, b: seq<AuditEvent>, c: seq<AuditEvent>)
    requires GrownAtFront(a, b) && GrownAtFront(b, c)
    ensures GrownAtFront(a, c)
  {
    assert c[|c| - |a|..] == c[|c| - |b|..][|b| - |a|..];
  }

  /**
    Over every run from a linked state, the empty one included: each recording, its session and its
    job point at each other and agree on their states; versions are distinct per recording; revisions are only
    added; audit events only grow, at the front.
  */
  lemma {:induction false} RunsKeepRecordsLinked(s: AppState, commands: seq<Command>)
    requires Inv(s) && GovernedRun(s, commands)
    ensures Inv(Run(s, commands))
    ensures s.revisions <= Run(s, commands).revisions
    ensures GrownAtFront(s.auditEvents, Run(s, commands).auditEvents)
  {
    if commands != [] {
      var n := |commands| - 1;
      var before := commands[..n];
      GovernedPrefix(s, commands);
      RunsKeepRecordsLinked(s, before);
      var s1 := Run(s, before);
      ApplyKeepsInv(s1, commands[n]);
      AuditGrowsAtTheFront(s1, commands[n]);
      GrowthComposes(s.auditEvents, s1.auditEvents, Apply(s1, commands[n]).auditEvents);
    }
  }

  /** A failed transition writes no event, progress and drafts write none, the others write one. */
  lemma {:induction false} AuditGrowsAtTheFront(s: AppState, c: Command)
    ensures var events := Apply(s, c).auditEvents;
            var grown := |events| - |s.auditEvents|;
            && grown == (if Transition(s, c).Failure? || c.NoteProgress? || c.CreateDraft? then 0 else 1)
            && GrownAtFront(s.auditEvents, events)
    ensures s.revisions <= Apply(s, c).revisions
  {
  }

  /** In a linked state no upload transition can fail on a session that exists. */
  lemma {:induction false} LinkedSessionsResolve(s: AppState, sessionId: string)
    requires Inv(s)
    ensures ResolveUploadRefs(s, sessionId).Success? <==> SessionIdInUse(s, sessionId)
  {
    var x := FindSession(s.sessions, sessionId);
    if x < |s.sessions| {
      assert HasLeft(s.recordings, s.sessions[x], SessionLink);
      var i :| 0 <= i < |s.recordings| && SessionLink(s.recordings[i], s.sessions[x]);
      var r := FindRecording(s.recordings, s.sessions[x].recordingId);
      assert HasRight(s.recordings[r], s.jobs, JobLink);
      var j :| 0 <= j < |s.jobs| && JobLink(s.recordings[r], s.jobs[j]);
    }
  }

  /** An upload under the session id "s", with ids of its own that end in `n`. */
  function UploadUnderS(n: char): Command {
    CreateUpload(Ids("r" + [n], "s" + [n], "j" + [n], "a" + [n], "now"), false, "w", "t", None, "u", 1, "mock", Some("s"))
  }

  lemma {:induction false} FreshSecondUpload(s: AppState)
    requires |s.recordings| == |s.sessions| == |s.jobs| == 1
    requires s.recordings[0].id == "r" + ['1'] && s.sessions[0].id == "s" && s.jobs[0].id == "j" + ['1']
    ensures FreshIds(s, UploadUnderS('2')) && SessionIdInUse(s, NewSessionId(UploadUnderS('2')))
  {
    assert ("r" + ['1'])[1] != ("r" + ['2'])[1] && ("j" + ['1'])[1] != ("j" + ['2'])[1] && |"s"| != |"s" + ['2']|;
  }

  /** Two uploads under one requested session id: the recordings share the session of the second. */
  lemma {:induction false} SharedSessionIdBreaksTheLinks()
    ensures var s1 := Apply(AppState([], [], [], [], []), UploadUnderS('1'));
            Inv(s1) && FreshIds(s1, UploadUnderS('2')) && !Inv(Apply(s1, UploadUnderS('2')))
  {
    var empty := AppState([], [], [], [], []);
    CreateKeepsInv(empty, UploadUnderS('1'));
    var s1 := Apply(empty, UploadUnderS('1'));
    FreshSecondUpload(s1);
    CreateKeepsInv(s1, UploadUnderS('2'));
  }
}
