/**
  What the ledger's operations do for the people they are about: when they are accepted, what the rows
  say afterwards, and what that means for access.
*/
module AssignmentEffects {
  import opened Wrappers
  import opened Workflow
  import opened AssignmentLedger
  import opened CasefileAccess
  import Decimal

  // ----- assigning -----

  /** The role in which an account can be assigned: active reviewers and approvers only, each as what they are. */
  ghost predicate TakesWorkAs(db: Db, userId: string, role: AssignmentRole) {
    var u := FindUser(db.users, userId);
    && u < |db.users| && db.users[u].isActive
    && ((db.users[u].role == Reviewer && role == AsReviewer) || (db.users[u].role == Approver && role == AsApprover))
  }

  ghost predicate AlreadyAssigned(db: Db, userId: string, recordingId: string, role: AssignmentRole) {
    exists k :: 0 <= k < |db.rows| && IsActiveFor(db.rows[k], userId, recordingId, Some(role))
  }

  /** A recording whose ingest did not fail; reviewers come only before approval. */
  ghost predicate OffersWork(db: Db, recordingId: string, role: AssignmentRole) {
    var r := FindRecording(db.recordings, recordingId);
    && r < |db.recordings|
    && db.recordings[r].integrityState !in {Interrupted, VerificationFailed}
    && db.recordings[r].transcriptJobState !in {Failed, Cancelled}
    && (role == AsReviewer ==> db.recordings[r].approvedRevisionId == None || db.recordings[r].approvedRevisionId == Some(""))
  }

  lemma {:induction false} AssignAcceptedWhen(db: Db, a: Action)
    requires a.Assign?
    ensures AssignRecording(db, a).Success? <==>
              exists role :: TakesWorkAs(db, a.userId, role)
                && (AlreadyAssigned(db, a.userId, a.recordingId, role) || OffersWork(db, a.recordingId, role))
    ensures AssignRecording(db, a).Success? ==>
              (AssignRecording(db, a).value.alreadyActive <==>
                exists role :: TakesWorkAs(db, a.userId, role) && AlreadyAssigned(db, a.userId, a.recordingId, role))
    ensures AssignRecording(db, a).Failure? ==> Perform(db, a) == db
  {
    var u := FindUser(db.users, a.userId);
    if u < |db.users| && db.users[u].isActive && (db.users[u].role.Reviewer? || db.users[u].role.Approver?) {
      var role := if db.users[u].role.Reviewer? then AsReviewer else AsApprover;
      assert TakesWorkAs(db, a.userId, role);
      assert forall other :: TakesWorkAs(db, a.userId, other) ==> other == role;
      var k := FindActiveAssignment(db.rows, a.userId, a.recordingId, Some(role));
      assert k < |db.rows| <==> AlreadyAssigned(db, a.userId, a.recordingId, role);
    }
  }

  /** The new row: this user on this recording, in the account's role, active from now, by whom it was given. */
  predicate NewRow(row: Assignment, a: Action, role: AssignmentRole)
    requires a.Assign?
  {
    && row.id == a.newId && row.recordingId == a.recordingId && row.userId == a.userId && row.role == role
    && row.assignedByUserId == a.assignedBy && row.status.Active? && row.isActive
    && row.createdAt == row.updatedAt == a.now
    && row.endedAt == None && row.endReason == None && row.completedRevisionId == None && row.removedByUserId == None
  }

  /** An accepted assign adds that row and its event, unless the user has such a row already. */
  lemma {:induction false} AssignAddsRow(db: Db, a: Action)
    requires a.Assign? && AssignRecording(db, a).Success?
    ensures var db' := Perform(db, a);
            && db'.users == db.users && db'.recordings == db.recordings
            && (AssignRecording(db, a).value.alreadyActive ==> db' == db)
            && (!AssignRecording(db, a).value.alreadyActive ==>
                  && |db'.rows| == |db.rows| + 1 && db'.rows[..|db.rows|] == db.rows
                  && db'.events == db.events + [Created(a.newId)]
                  && exists role :: TakesWorkAs(db, a.userId, role) && NewRow(db'.rows[|db.rows|], a, role))
  {
    var u := FindUser(db.users, a.userId);
    var role := if db.users[u].role.Reviewer? then AsReviewer else AsApprover;
    assert TakesWorkAs(db, a.userId, role);
    if !AssignRecording(db, a).value.alreadyActive {
      assert NewRow(Perform(db, a).rows[|db.rows|], a, role);
    }
  }

  lemma {:induction false} AssigneeHasRow(db: Db, a: Action) returns (k: nat)
    requires a.Assign? && AssignRecording(db, a).Success?
    ensures k < |Perform(db, a).rows| && IsActiveFor(Perform(db, a).rows[k], a.userId, a.recordingId, None)
  {
    AssignAddsRow(db, a);
    if AssignRecording(db, a).value.alreadyActive {
      AssignAcceptedWhen(db, a);
      var role :| TakesWorkAs(db, a.userId, role) && AlreadyAssigned(db, a.userId, a.recordingId, role);
      k :| 0 <= k < |db.rows| && IsActiveFor(db.rows[k], a.userId, a.recordingId, Some(role));
    } else {
      k := |db.rows|;
    }
  }

  /** Whoever is assigned to an existing recording can open it, whatever its revision. */
  lemma {:induction false} AssigneeCanOpen(db: Db, a: Action, p: Principal)
    requires a.Assign? && AssignRecording(db, a).Success? && p.userId == a.userId
    requires FindRecording(db.recordings, a.recordingId) < |db.recordings|
    ensures CanAccess(Perform(db, a), p, a.recordingId) && Visible(Perform(db, a), p, a.recordingId)
  {
    var k := AssigneeHasRow(db, a);
    var db' := Perform(db, a);
    assert db'.recordings == db.recordings by { AssignAddsRow(db, a); }
    ActiveRowOpens(db', p, a.recordingId, k);
  }

  lemma {:induction false} ActiveRowOpens(db: Db, p: Principal, id: string, k: nat)
    requires k < |db.rows| && IsActiveFor(db.rows[k], p.userId, id, None)
    requires FindRecording(db.recordings, id) < |db.recordings|
    ensures CanAccess(db, p, id) && Visible(db, p, id)
  {
    assert HasActiveRow(db, p, id);
    assert ActiveRow(db.rows[k], p);
  }

  /** Nobody else's access changes. */
  lemma {:induction false} AssignLeavesOthers(db: Db, a: Action, p: Principal, id: string)
    requires a.Assign? && (p.userId != a.userId || id != a.recordingId) && !p.role.Admin?
    ensures CanAccess(Perform(db, a), p, id) <==> CanAccess(db, p, id)
  {
    var db' := Perform(db, a);
    if FindRecording(db.recordings, id) < |db.recordings| && db' != db {
      AssignAddsRow(db, a);
      SameRowsSameAccess(db, db', p, id);
    }
  }

  /** Rows that do not concern this user on this recording, added at the end, do not matter. */
  lemma {:induction false} SameRowsSameAccess(db: Db, db': Db, p: Principal, id: string)
    requires !p.role.Admin? && db'.recordings == db.recordings && FindRecording(db.recordings, id) < |db.recordings|
    requires db.rows <= db'.rows
    requires forall i :: |db.rows| <= i < |db'.rows| ==> db'.rows[i].userId != p.userId || db'.rows[i].recordingId != id
    ensures CanAccess(db', p, id) <==> CanAccess(db, p, id)
  {
    AccessMeans(db, p, id);
    AccessMeans(db', p, id);
    if HasActiveRow(db, p, id) {
      var k :| 0 <= k < |db.rows| && IsActiveFor(db.rows[k], p.userId, id, None);
      assert IsActiveFor(db'.rows[k], p.userId, id, None);
    }
    var r := db.recordings[FindRecording(db.recordings, id)];
    if Truthy(r.currentRevisionId) && HasCompletedRow(db, p, id, r.currentRevisionId.value) {
      var k :| 0 <= k < |db.rows| && IsCompletedFor(db.rows[k], p.userId, id, r.currentRevisionId.value);
      assert IsCompletedFor(db'.rows[k], p.userId, id, r.currentRevisionId.value);
    }
  }

  // ----- removing -----

  /** Removing fails exactly for an unknown row, or for an active one whose recording is gone. */
  lemma {:induction false} RemoveAcceptedWhen(db: Db, a: Action)
    requires a.Remove?
    ensures var k := FindRow(db.rows, a.assignmentId);
            RemoveAssignment(db, a).Success? <==>
              k < |db.rows| && (db.rows[k].status == Active ==> FindRecording(db.recordings, db.rows[k].recordingId) < |db.recordings|)
    ensures RemoveAssignment(db, a).Failure? ==> Perform(db, a) == db
  {
  }

  /** The row as an administrator's removal leaves it: ended now, by whom, and otherwise as it was. */
  predicate EndedByAdmin(row: Assignment, was: Assignment, removedBy: string, now: string) {
    && row.status.Removed? && !row.isActive && row.endedAt == Some(now) && row.updatedAt == now
    && row.endReason == Some(RemovedByAdmin) && row.removedByUserId == Some(removedBy)
    && row.id == was.id && row.recordingId == was.recordingId && row.userId == was.userId && row.role == was.role
    && row.assignedByUserId == was.assignedByUserId && row.createdAt == was.createdAt
    && row.completedRevisionId == was.completedRevisionId
  }

  /** An accepted removal ends that row, if it was active, and no other; only then there is an event. */
  lemma {:induction false} RemoveEndsRow(db: Db, a: Action)
    requires a.Remove? && RemoveAssignment(db, a).Success?
    ensures var k, db' := FindRow(db.rows, a.assignmentId), Perform(db, a);
            && db'.users == db.users && db'.recordings == db.recordings && |db'.rows| == |db.rows|
            && (forall i :: 0 <= i < |db.rows| && i != k ==> db'.rows[i] == db.rows[i])
            && (db.rows[k].status == Active ==>
                  EndedByAdmin(db'.rows[k], db.rows[k], a.removedBy, a.now) && db'.events == db.events + [Ended(a.assignmentId, None)])
            && (db.rows[k].status != Active ==> db' == db)
  {
  }

  /** The user of a removed row keeps access only by another right; nobody else notices. */
  lemma {:induction false} RemovalEndsAccess(db: Db, a: Action, p: Principal, id: string)
    requires a.Remove? && RemoveAssignment(db, a).Success? && !p.role.Admin?
    requires FindRecording(db.recordings, id) < |db.recordings|
    ensures var k := FindRow(db.rows, a.assignmentId);
            var r := db.recordings[FindRecording(db.recordings, id)];
            CanAccess(Perform(db, a), p, id) <==>
              || Uploaded(r, p)
              || (exists i :: 0 <= i < |db.rows| && i != k && IsActiveFor(db.rows[i], p.userId, id, None))
              || (Truthy(r.currentRevisionId) && HasCompletedRow(db, p, id, r.currentRevisionId.value))
  {
    var k, db' := FindRow(db.rows, a.assignmentId), Perform(db, a);
    RemoveEndsRow(db, a);
    AccessMeans(db', p, id);
    var r := db.recordings[FindRecording(db.recordings, id)];
    if i :| 0 <= i < |db.rows| && i != k && IsActiveFor(db.rows[i], p.userId, id, None) {
      assert IsActiveFor(db'.rows[i], p.userId, id, None);
    }
    if HasActiveRow(db', p, id) {
      var i :| 0 <= i < |db'.rows| && IsActiveFor(db'.rows[i], p.userId, id, None);
      assert i != k && IsActiveFor(db.rows[i], p.userId, id, None);
    }
    if Truthy(r.currentRevisionId) {
      RemovalKeepsCompleted(db, a, p, id, r.currentRevisionId.value);
    }
  }

  lemma {:induction false} RemovalKeepsCompleted(db: Db, a: Action, p: Principal, id: string, revisionId: string)
    requires a.Remove? && RemoveAssignment(db, a).Success?
    ensures HasCompletedRow(Perform(db, a), p, id, revisionId) <==> HasCompletedRow(db, p, id, revisionId)
  {
    var db' := Perform(db, a);
    RemoveEndsRow(db, a);
    if HasCompletedRow(db, p, id, revisionId) {
      var i :| 0 <= i < |db.rows| && IsCompletedFor(db.rows[i], p.userId, id, revisionId);
      assert IsCompletedFor(db'.rows[i], p.userId, id, revisionId);
    }
    if HasCompletedRow(db', p, id, revisionId) {
      var i :| 0 <= i < |db'.rows| && IsCompletedFor(db'.rows[i], p.userId, id, revisionId);
      assert IsCompletedFor(db.rows[i], p.userId, id, revisionId);
    }
  }

  // ----- completing -----

  /** How many of the first `n` rows are active on the recording. */
  function ActivesBefore(rows: seq<Assignment>, recordingId: string, n: nat): nat
    requires n <= |rows|
  {
    if n == 0 then 0
    else ActivesBefore(rows, recordingId, n - 1) + if rows[n - 1].status == Active && rows[n - 1].recordingId == recordingId then 1 else 0
  }

  predicate EndedByApproval(row: Assignment, was: Assignment, revisionId: string, now: string) {
    && row.status == AssignmentStatus.Completed && !row.isActive && row.endedAt == Some(now) && row.updatedAt == now
    && row.completedRevisionId == Some(revisionId) && row.endReason == None && row.removedByUserId == None
    && row.id == was.id && row.recordingId == was.recordingId && row.userId == was.userId && row.role == was.role
    && row.assignedByUserId == was.assignedByUserId && row.createdAt == was.createdAt
  }

  lemma {:induction false} EventCount(rows: seq<Assignment>, recordingId: string, revisionId: string)
    ensures |CompletionEvents(rows, recordingId, revisionId)| == ActivesBefore(rows, recordingId, |rows|)
  {
    if rows != [] {
      var n := |rows| - 1;
      EventCount(rows[..n], recordingId, revisionId);
      ShorterCount(rows, recordingId, n, n);
    }
  }

  /** The event of an active row stands after those of the active rows before it. */
  lemma {:induction false} EventAt(rows: seq<Assignment>, recordingId: string, revisionId: string, i: nat)
    requires i < |rows| && rows[i].status == Active && rows[i].recordingId == recordingId
    ensures var events := CompletionEvents(rows, recordingId, revisionId);
            var e := ActivesBefore(rows, recordingId, i);
            e < |events| && events[e] == Ended(rows[i].id, Some(revisionId))
  {
    var n := |rows| - 1;
    ShorterCount(rows, recordingId, n, i);
    if i < n {
      EventAt(rows[..n], recordingId, revisionId, i);
    } else {
      EventCount(rows[..n], recordingId, revisionId);
    }
  }

  lemma {:induction false} ShorterCount(rows: seq<Assignment>, recordingId: string, n: nat, i: nat)
    requires i <= n <= |rows|
    ensures ActivesBefore(rows[..n], recordingId, i) == ActivesBefore(rows, recordingId, i)
  {
    if i > 0 { ShorterCount(rows, recordingId, n, i - 1); }
  }

  /**
    Approval ends exactly the active rows of its recording, each with the approved revision, and writes
    one event for each of them, in the order of the rows. It fails exactly if there is such a row and no recording.
  */
  lemma {:induction false} ApprovalEndsActiveRows(db: Db, a: Action)
    requires a.Complete?
    ensures CompleteAssignments(db, a).Success? <==>
              (exists r :: 0 <= r < |db.recordings| && db.recordings[r].id == a.recordingId)
              || ActivesBefore(db.rows, a.recordingId, |db.rows|) == 0
    ensures CompleteAssignments(db, a).Failure? ==> Perform(db, a) == db
    ensures CompleteAssignments(db, a).Success? ==>
              var db' := Perform(db, a);
              && db'.users == db.users && db'.recordings == db.recordings && |db'.rows| == |db.rows|
              && |db'.events| == |db.events| + ActivesBefore(db.rows, a.recordingId, |db.rows|)
              && db'.events[..|db.events|] == db.events
              && forall i :: 0 <= i < |db.rows| ==> EndedRight(db, db', a, i)
  {
    EventCount(db.rows, a.recordingId, a.revisionId);
    if CompleteAssignments(db, a).Success? {
      var db' := Perform(db, a);
      var ended := CompletionEvents(db.rows, a.recordingId, a.revisionId);
      assert db'.events == db.events + ended;
      forall i | 0 <= i < |db.rows|
        ensures EndedRight(db, db', a, i)
      {
        if db.rows[i].status == Active && db.rows[i].recordingId == a.recordingId {
          EventAt(db.rows, a.recordingId, a.revisionId, i);
        } else if ended == [] {
          assert db'.rows[i] == db.rows[i];
        }
      }
    }
  }

  ghost predicate EndedRight(db: Db, db': Db, a: Action, i: nat)
    requires a.Complete? && i < |db.rows| && i < |db'.rows|
  {
    if db.rows[i].status == Active && db.rows[i].recordingId == a.recordingId then
      && EndedByApproval(db'.rows[i], db.rows[i], a.revisionId, a.now)
      && var e := |db.events| + ActivesBefore(db.rows, a.recordingId, i);
         e < |db'.events| && db'.events[e] == Ended(db.rows[i].id, Some(a.revisionId))
    else db'.rows[i] == db.rows[i]
  }

  // ----- on what ground -----

  lemma {:induction false} BeforeIsTransitive(a: string, b: string, c: string)
    requires !Decimal.Before(a, b) && !Decimal.Before(b, c)
    ensures !Decimal.Before(a, c)
  {
    if a != [] && b != [] && c != [] && a[0] == b[0] == c[0] {
      BeforeIsTransitive(a[1..], b[1..], c[1..]);
    }
  }

  lemma {:induction false} NotBeforeItself(a: string)
    ensures !Decimal.Before(a, a)
  {
    if a != [] { NotBeforeItself(a[1..]); }
  }

  lemma {:induction false} BeforeOneWay(a: string, b: string)
    requires Decimal.Before(a, b)
    ensures !Decimal.Before(b, a)
  {
    if a != [] && a[0] == b[0] { BeforeOneWay(a[1..], b[1..]); }
  }

  /** The completed row that is found is one that was updated last. */
  lemma {:induction false} FoundIsLatest(rows: seq<Assignment>, userId: string, recordingId: string, revisionId: string, i: nat)
    requires i < |rows| && IsCompletedFor(rows[i], userId, recordingId, revisionId)
    ensures FindCompleted(rows, userId, recordingId, revisionId).Some?
    ensures !Decimal.Before(FindCompleted(rows, userId, recordingId, revisionId).value.updatedAt, rows[i].updatedAt)
  {
    var rest := FindCompleted(rows[1..], userId, recordingId, revisionId);
    if i > 0 {
      assert rows[i] == rows[1..][i - 1];
      FoundIsLatest(rows[1..], userId, recordingId, revisionId, i - 1);
      if IsCompletedFor(rows[0], userId, recordingId, revisionId) && !Decimal.Before(rows[0].updatedAt, rest.value.updatedAt) {
        BeforeIsTransitive(rows[0].updatedAt, rest.value.updatedAt, rows[i].updatedAt);
      }
    } else if rest.Some? && Decimal.Before(rows[0].updatedAt, rest.value.updatedAt) {
      BeforeOneWay(rows[0].updatedAt, rest.value.updatedAt);
    } else {
      NotBeforeItself(rows[0].updatedAt);
    }
  }

  /**
    The ground of access: oversight for admins, whatever is asked for; then, for an existing recording,
    having uploaded it, before any assignment; then an active assignment, before any completed one;
    then the latest completed one for the revision that is asked for.
  */
  lemma {:induction false} GrantMeans(db: Db, p: Principal, id: string, asked: Option<string>)
    ensures var g := ResolveAccess(db, p, id, asked);
            var r := FindRecording(db.recordings, id);
            var uploader := r < |db.recordings| && db.recordings[r].uploadedByUserId == Some(p.userId);
            var active := HasActiveRow(db, p, id);
            var completed := asked.Some? && asked.value != "" && HasCompletedRow(db, p, id, asked.value);
            && (g == Some(AdminOversight) <==> p.role == Admin)
            && (g == Some(UploaderStatus) <==> p.role != Admin && uploader)
            && ((g.Some? && g.value.ActiveGrant?) <==> p.role != Admin && r < |db.recordings| && !uploader && active)
            && ((g.Some? && g.value.CompletedGrant?) <==> p.role != Admin && r < |db.recordings| && !uploader && !active && completed)
            && (g.Some? && (g.value.ActiveGrant? || g.value.CompletedGrant?) ==> exists k :: 0 <= k < |db.rows| && GroundsGrant(db, p, id, asked, g.value, k))
  {
    var r := FindRecording(db.recordings, id);
    var k := FindActiveAssignment(db.rows, p.userId, id, None);
    assert k < |db.rows| <==> HasActiveRow(db, p, id);
    var g := ResolveAccess(db, p, id, asked);
    if g.Some? && g.value.ActiveGrant? {
      assert GroundsGrant(db, p, id, asked, g.value, k);
    } else if Truthy(asked) {
      var found := FindCompleted(db.rows, p.userId, id, asked.value);
      if found.Some? {
        var i :| 0 <= i < |db.rows| && db.rows[i] == found.value;
        assert HasCompletedRow(db, p, id, asked.value);
        if g.Some? && g.value.CompletedGrant? { LatestGrounds(db, p, id, asked, g.value, i); }
      }
    }
  }

  lemma {:induction false} LatestGrounds(db: Db, p: Principal, id: string, asked: Option<string>, g: Grant, i: nat)
    requires i < |db.rows| && Truthy(asked) && FindCompleted(db.rows, p.userId, id, asked.value) == Some(db.rows[i])
    requires g == CompletedGrant(db.rows[i].role, db.rows[i].id)
    ensures GroundsGrant(db, p, id, asked, g, i)
  {
    forall j | 0 <= j < |db.rows| && IsCompletedFor(db.rows[j], p.userId, id, asked.value)
      ensures !Decimal.Before(db.rows[i].updatedAt, db.rows[j].updatedAt)
    {
      FoundIsLatest(db.rows, p.userId, id, asked.value, j);
    }
  }

  /** The grant names this row and its role. */
  ghost predicate GroundsGrant(db: Db, p: Principal, id: string, asked: Option<string>, g: Grant, k: nat)
    requires k < |db.rows|
  {
    match g
    case ActiveGrant(role, assignmentId) =>
      IsActiveFor(db.rows[k], p.userId, id, None) && db.rows[k].role == role && db.rows[k].id == assignmentId
    case CompletedGrant(role, assignmentId) =>
      && asked.Some? && IsCompletedFor(db.rows[k], p.userId, id, asked.value)
      && db.rows[k].role == role && db.rows[k].id == assignmentId
      && forall j :: 0 <= j < |db.rows| && IsCompletedFor(db.rows[j], p.userId, id, asked.value) ==>
           !Decimal.Before(db.rows[k].updatedAt, db.rows[j].updatedAt)
    case _ => false
  }
}
