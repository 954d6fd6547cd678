/** The three ledger operations as the source runs them: select, insert or update rows, add audit events. */
module AssignmentTables {
  import opened Wrappers
  import opened Workflow
  import opened AssignmentLedger

  class AppDatabase {
    var users: seq<User>
    var recordings: seq<Recording>
    var recordingAssignments: seq<Assignment>
    var auditEvents: seq<AssignmentLedger.Event>

    function View(): Db
      reads this
    {
      Db(users, recordings, recordingAssignments, auditEvents)
    }

    constructor (users: seq<User>, recordings: seq<Recording>)
      ensures View() == Db(users, recordings, [], [])
    {
      this.users, this.recordings, recordingAssignments, auditEvents := users, recordings, [], [];
    }

    method InsertAuditEvent(e: AssignmentLedger.Event)
      modifies `auditEvents
      ensures auditEvents == old(auditEvents) + [e]
    {
      auditEvents := auditEvents + [e];
    }

    /** Says whether the user already had the assignment. */
    method AssignRecordingToUser(recordingId: string, userId: string, assignedBy: string, newId: string, now: string)
      returns (alreadyActive: Result<bool, string>)
      modifies `recordingAssignments, `auditEvents
      ensures var a := Assign(recordingId, userId, assignedBy, newId, now);
              && View() == Perform(old(View()), a)
              && (alreadyActive.Success? <==> AssignRecording(old(View()), a).Success?)
              && (alreadyActive.Success? ==> alreadyActive.value == AssignRecording(old(View()), a).value.alreadyActive)
    {
      var u := FindUser(users, userId);
      if u == |users| || !users[u].isActive {
        return Failure("Choose an active user before assigning a recording.");
      }
      if !users[u].role.Reviewer? && !users[u].role.Approver? {
        return Failure("Only reviewer and approver accounts can receive recording assignments.");
      }
      var role := if users[u].role.Reviewer? then AsReviewer else AsApprover;
      var active := FindActiveAssignment(recordingAssignments, userId, recordingId, Some(role));
      if active < |recordingAssignments| {
        return Success(true);
      }
      var r := FindRecording(recordings, recordingId);
      if r == |recordings| {
        return Failure("Choose a valid recording before updating assignments.");
      }
      if !Compatible(recordings[r], role) {
        return Failure("Review work cannot be assigned.");
      }
      var row := Assignment(newId, recordingId, userId, assignedBy, role, Active, true, now, now, None, None, None, None);
      recordingAssignments := recordingAssignments + [row];
      InsertAuditEvent(Created(newId));
      return Success(false);
    }

    /** A missing recording is noticed after the row is updated; the transaction then rolls back. */
    method RemoveRecordingAssignment(assignmentId: string, removedBy: string, now: string) returns (r: Result<Assignment, string>)
      modifies `recordingAssignments, `auditEvents
      ensures var a := Remove(assignmentId, removedBy, now);
              && View() == Perform(old(View()), a)
              && (r.Success? <==> RemoveAssignment(old(View()), a).Success?)
      ensures r.Success? ==> r.value in recordingAssignments && r.value.id == assignmentId && !r.value.status.Active?
    {
      var k := FindRow(recordingAssignments, assignmentId);
      if k == |recordingAssignments| {
        return Failure("Recording assignment not found.");
      }
      if !recordingAssignments[k].status.Active? {
        return Success(recordingAssignments[k]);
      }
      var before := recordingAssignments;
      recordingAssignments := recordingAssignments[k := EndRemoved(recordingAssignments[k], removedBy, now)];
      var removed := recordingAssignments[k];
      if FindRecording(recordings, removed.recordingId) == |recordings| {
        recordingAssignments := before;
        return Failure("Choose a valid recording before updating assignments.");
      }
      InsertAuditEvent(Ended(removed.id, None));
      return Success(removed);
    }

    /** `UPDATE ... WHERE recordingId = ? AND status = 'active'` */
    method CompleteActiveRows(recordingId: string, revisionId: string, now: string)
      modifies `recordingAssignments
      ensures recordingAssignments == CompleteRows(old(recordingAssignments), recordingId, revisionId, now)
    {
      for i := 0 to |recordingAssignments|
        invariant |recordingAssignments| == |old(recordingAssignments)|
        invariant recordingAssignments[..i] == CompleteRows(old(recordingAssignments), recordingId, revisionId, now)[..i]
        invariant recordingAssignments[i..] == old(recordingAssignments)[i..]
      {
        assert recordingAssignments[i] == recordingAssignments[i..][0] == old(recordingAssignments)[i];
        if ActiveOn(recordingAssignments[i], recordingId) {
          recordingAssignments := recordingAssignments[i := EndCompleted(recordingAssignments[i], revisionId, now)];
        }
      }
    }

    /** One audit event for each of the rows that were active. */
    method InsertCompletionEvents(activeRows: seq<Assignment>, recordingId: string, revisionId: string)
      requires forall i :: 0 <= i < |activeRows| ==> ActiveOn(activeRows[i], recordingId)
      modifies `auditEvents
      ensures auditEvents == old(auditEvents) + CompletionEvents(activeRows, recordingId, revisionId)
    {
      for i := 0 to |activeRows|
        invariant auditEvents == old(auditEvents) + CompletionEvents(activeRows[..i], recordingId, revisionId)
      {
        assert activeRows[..i + 1][..i] == activeRows[..i];
        InsertAuditEvent(Ended(activeRows[i].id, Some(revisionId)));
      }
      assert activeRows[..|activeRows|] == activeRows;
    }

    method SelectActiveRows(recordingId: string) returns (activeRows: seq<Assignment>)
      ensures forall i :: 0 <= i < |activeRows| ==> ActiveOn(activeRows[i], recordingId)
      ensures forall revisionId :: CompletionEvents(activeRows, recordingId, revisionId)
                                == CompletionEvents(recordingAssignments, recordingId, revisionId)
      ensures activeRows == [] ==> forall revisionId :: CompletionEvents(recordingAssignments, recordingId, revisionId) == []
      ensures activeRows != [] ==> forall revisionId :: CompletionEvents(recordingAssignments, recordingId, revisionId) != []
    {
      activeRows := [];
      for i := 0 to |recordingAssignments|
        invariant forall j :: 0 <= j < |activeRows| ==> ActiveOn(activeRows[j], recordingId)
        invariant forall revisionId :: CompletionEvents(activeRows, recordingId, revisionId)
                                    == CompletionEvents(recordingAssignments[..i], recordingId, revisionId)
        invariant forall revisionId :: |CompletionEvents(activeRows, recordingId, revisionId)| == |activeRows|
      {
        assert recordingAssignments[..i + 1][..i] == recordingAssignments[..i];
        if ActiveOn(recordingAssignments[i], recordingId) {
          assert (activeRows + [recordingAssignments[i]])[..|activeRows|] == activeRows;
          activeRows := activeRows + [recordingAssignments[i]];
        }
      }
      assert recordingAssignments[..|recordingAssignments|] == recordingAssignments;
    }

    method CompleteActiveAssignmentsForApproval(recordingId: string, revisionId: string, now: string)
      returns (completed: Result<nat, string>)
      modifies `recordingAssignments, `auditEvents
      ensures var a := Complete(recordingId, revisionId, now);
              && View() == Perform(old(View()), a)
              && (completed.Success? <==> CompleteAssignments(old(View()), a).Success?)
              && (completed.Success? ==> |auditEvents| == |old(auditEvents)| + completed.value)
    {
      var activeRows := SelectActiveRows(recordingId);
      if activeRows == [] {
        return Success(0);
      }
      if FindRecording(recordings, recordingId) == |recordings| {
        return Failure("Choose a valid recording before updating assignments.");
      }
      CompleteActiveRows(recordingId, revisionId, now);
      InsertCompletionEvents(activeRows, recordingId, revisionId);
      EventPerRow(activeRows, recordingId, revisionId);
      return Success(|activeRows|);
    }
  }

  lemma {:induction false} EventPerRow(rows: seq<Assignment>, recordingId: string, revisionId: string)
    requires forall i :: 0 <= i < |rows| ==> ActiveOn(rows[i], recordingId)
    ensures |CompletionEvents(rows, recordingId, revisionId)| == |rows|
  {
    if rows != [] { EventPerRow(rows[..|rows| - 1], recordingId, revisionId); }
  }
}
