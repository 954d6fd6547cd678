/** Who may open a recording: the check for one recording, and the index of all visible ones. */
module CasefileAccess {
  import opened Wrappers
  import opened Workflow
  import opened AssignmentLedger
  import Decimal

  datatype Grant =
    | AdminOversight
    | UploaderStatus
    | ActiveGrant(role: AssignmentRole, assignmentId: string)
    | CompletedGrant(role: AssignmentRole, assignmentId: string)

  predicate IsCompletedFor(row: Assignment, userId: string, recordingId: string, revisionId: string) {
    row.recordingId == recordingId && row.userId == userId && row.status.Completed? && row.completedRevisionId == Some(revisionId)
  }

  /** The completed row of this user for this revision that was updated last, by the text of its time; or none. */
  function FindCompleted(rows: seq<Assignment>, userId: string, recordingId: string, revisionId: string): (r: Option<Assignment>)
    ensures r.Some? ==> r.value in rows && IsCompletedFor(r.value, userId, recordingId, revisionId)
    ensures r.None? ==> forall i :: 0 <= i < |rows| ==> !IsCompletedFor(rows[i], userId, recordingId, revisionId)
  {
    if rows == [] then None
    else
      var rest := FindCompleted(rows[1..], userId, recordingId, revisionId);
      assert forall i :: 1 <= i < |rows| ==> rows[i] == rows[1..][i - 1];
      if !IsCompletedFor(rows[0], userId, recordingId, revisionId) then rest
      else if rest.Some? && Decimal.Before(rows[0].updatedAt, rest.value.updatedAt) then rest
      else Some(rows[0])
  }

  function ResolveAccess(db: Db, p: Principal, recordingId: string, requestedRevisionId: Option<string>): Option<Grant> {
    if p.role.Admin? then Some(AdminOversight)
    else
      var r := FindRecording(db.recordings, recordingId);
      if r == |db.recordings| then None
      else if db.recordings[r].uploadedByUserId == Some(p.userId) then Some(UploaderStatus)
      else
        var k := FindActiveAssignment(db.rows, p.userId, recordingId, None);
        if k < |db.rows| then Some(ActiveGrant(db.rows[k].role, db.rows[k].id))
        else if !Truthy(requestedRevisionId) then None
        else
          match FindCompleted(db.rows, p.userId, recordingId, requestedRevisionId.value)
          case None => None
          case Some(row) => Some(CompletedGrant(row.role, row.id))
  }

  function CurrentRevision(db: Db, recordingId: string): Option<string> {
    var r := FindRecording(db.recordings, recordingId);
    if r == |db.recordings| then None else db.recordings[r].currentRevisionId
  }

  predicate CanAccess(db: Db, p: Principal, recordingId: string) {
    ResolveAccess(db, p, recordingId, CurrentRevision(db, recordingId)).Some?
  }

  // ----- the index -----

  predicate Uploaded(r: Recording, p: Principal) {
    r.uploadedByUserId == Some(p.userId)
  }

  predicate ActiveRow(row: Assignment, p: Principal) {
    row.userId == p.userId && row.status.Active?
  }

  /** The condition of the join: an absent revision id equals nothing. */
  predicate CompletedForCurrent(row: Assignment, r: Recording, p: Principal) {
    row.recordingId == r.id && row.userId == p.userId && row.status.Completed?
    && row.completedRevisionId.Some? && row.completedRevisionId == r.currentRevisionId
  }

  ghost predicate Visible(db: Db, p: Principal, id: string) {
    || (exists i :: 0 <= i < |db.recordings| && db.recordings[i].id == id && Uploaded(db.recordings[i], p))
    || (exists k :: 0 <= k < |db.rows| && db.rows[k].recordingId == id && ActiveRow(db.rows[k], p))
    || (exists k, i :: 0 <= k < |db.rows| && 0 <= i < |db.recordings| && db.rows[k].recordingId == id
          && CompletedForCurrent(db.rows[k], db.recordings[i], p))
  }

  /** `visibleRecordingIdsForPrincipal`: three selects, added to one set; nothing at all for an admin. */
  method VisibleRecordingIds(db: Db, p: Principal) returns (visible: Option<set<string>>)
    ensures visible.None? <==> p.role.Admin?
    ensures visible.Some? ==> forall id :: id in visible.value <==> Visible(db, p, id)
  {
    if p.role.Admin? {
      return None;
    }
    var ids: set<string> := {};
    for i := 0 to |db.recordings|
      invariant forall id :: id in ids <==>
                  exists i' :: 0 <= i' < i && db.recordings[i'].id == id && Uploaded(db.recordings[i'], p)
    {
      if Uploaded(db.recordings[i], p) {
        ids := ids + {db.recordings[i].id};
      }
    }
    ghost var uploaded := ids;
    for k := 0 to |db.rows|
      invariant forall id :: id in ids <==>
                  (id in uploaded
                   || exists k' :: 0 <= k' < k && db.rows[k'].recordingId == id && ActiveRow(db.rows[k'], p))
    {
      if ActiveRow(db.rows[k], p) {
        ids := ids + {db.rows[k].recordingId};
      }
    }
    ghost var active := ids;
    for k := 0 to |db.rows|
      invariant forall id :: id in ids <==> id in active || JoinedBefore(db, p, id, k)
    {
      var joined := false;
      for i := 0 to |db.recordings|
        invariant joined <==> exists i' :: 0 <= i' < i && CompletedForCurrent(db.rows[k], db.recordings[i'], p)
      {
        joined := joined || CompletedForCurrent(db.rows[k], db.recordings[i], p);
      }
      if joined {
        ids := ids + {db.rows[k].recordingId};
      }
    }
    visible := Some(ids);
    forall id
      ensures id in ids <==> Visible(db, p, id)
    {
      assert JoinedBefore(db, p, id, |db.rows|) <==>
        exists k, i :: 0 <= k < |db.rows| && 0 <= i < |db.recordings| && db.rows[k].recordingId == id
          && CompletedForCurrent(db.rows[k], db.recordings[i], p);
    }
  }

  ghost predicate JoinedBefore(db: Db, p: Principal, id: string, n: nat)
    requires n <= |db.rows|
  {
    exists k, i :: 0 <= k < n && 0 <= i < |db.recordings| && db.rows[k].recordingId == id
      && CompletedForCurrent(db.rows[k], db.recordings[i], p)
  }

  // ----- check and index agree -----

  ghost predicate UniqueIds(db: Db) {
    forall i, j :: 0 <= i < j < |db.recordings| ==> db.recordings[i].id != db.recordings[j].id
  }

  ghost predicate HasActiveRow(db: Db, p: Principal, id: string) {
    exists k :: 0 <= k < |db.rows| && IsActiveFor(db.rows[k], p.userId, id, None)
  }

  ghost predicate HasCompletedRow(db: Db, p: Principal, id: string, revisionId: string) {
    exists k :: 0 <= k < |db.rows| && IsCompletedFor(db.rows[k], p.userId, id, revisionId)
  }

  /** What the check comes down to. */
  lemma {:induction false} AccessMeans(db: Db, p: Principal, id: string)
    requires !p.role.Admin? && FindRecording(db.recordings, id) < |db.recordings|
    ensures var r := db.recordings[FindRecording(db.recordings, id)];
            CanAccess(db, p, id) <==>
              || Uploaded(r, p)
              || HasActiveRow(db, p, id)
              || (Truthy(r.currentRevisionId) && HasCompletedRow(db, p, id, r.currentRevisionId.value))
  {
    var r := db.recordings[FindRecording(db.recordings, id)];
    if Truthy(r.currentRevisionId) {
      var found := FindCompleted(db.rows, p.userId, id, r.currentRevisionId.value);
      if found.Some? {
        var k :| 0 <= k < |db.rows| && db.rows[k] == found.value;
        assert IsCompletedFor(db.rows[k], p.userId, id, r.currentRevisionId.value);
      }
    }
  }

  /** What the index comes down to. */
  lemma {:induction false} VisibleMeans(db: Db, p: Principal, id: string)
    requires UniqueIds(db) && FindRecording(db.recordings, id) < |db.recordings|
    ensures var r := db.recordings[FindRecording(db.recordings, id)];
            Visible(db, p, id) <==>
              || Uploaded(r, p)
              || HasActiveRow(db, p, id)
              || (r.currentRevisionId.Some? && HasCompletedRow(db, p, id, r.currentRevisionId.value))
  {
    var n := FindRecording(db.recordings, id);
    var r := db.recordings[n];
    if JoinedBefore(db, p, id, |db.rows|) {
      var k, i :| 0 <= k < |db.rows| && 0 <= i < |db.recordings| && db.rows[k].recordingId == id
        && CompletedForCurrent(db.rows[k], db.recordings[i], p);
      assert i == n && IsCompletedFor(db.rows[k], p.userId, id, r.currentRevisionId.value);
    }
    if r.currentRevisionId.Some? && HasCompletedRow(db, p, id, r.currentRevisionId.value) {
      var k :| 0 <= k < |db.rows| && IsCompletedFor(db.rows[k], p.userId, id, r.currentRevisionId.value);
      assert CompletedForCurrent(db.rows[k], db.recordings[n], p);
    }
    if k :| 0 <= k < |db.rows| && db.rows[k].recordingId == id && ActiveRow(db.rows[k], p) {
      assert IsActiveFor(db.rows[k], p.userId, id, None);
    }
    if HasActiveRow(db, p, id) {
      var k :| 0 <= k < |db.rows| && IsActiveFor(db.rows[k], p.userId, id, None);
      assert ActiveRow(db.rows[k], p);
    }
  }

  /**
    For an existing recording and anyone but an admin, the check allows exactly what the index shows,
    except when the current revision id is the empty string: the check takes that for no revision,
    the join does not.
  */
  lemma {:induction false} CheckAndIndexAgree(db: Db, p: Principal, id: string)
    requires !p.role.Admin? && UniqueIds(db) && FindRecording(db.recordings, id) < |db.recordings|
    ensures var r := db.recordings[FindRecording(db.recordings, id)];
            (CanAccess(db, p, id) <==> Visible(db, p, id)) <==>
              !(r.currentRevisionId == Some("") && HasCompletedRow(db, p, id, "")
                && !Uploaded(r, p) && !HasActiveRow(db, p, id))
  {
    AccessMeans(db, p, id);
    VisibleMeans(db, p, id);
  }

  /**
    Completing the active assignments of a recording. Whoever had one can still open the recording
    exactly when the completed revision is the current one, or the user uploaded it or had completed
    the current one before.
  */
  lemma {:induction false} CompletionKeepsAccess(db: Db, p: Principal, a: Action)
    requires !p.role.Admin? && a.Complete? && FindRecording(db.recordings, a.recordingId) < |db.recordings|
    requires HasActiveRow(db, p, a.recordingId)
    ensures CanAccess(db, p, a.recordingId)
    ensures var r := db.recordings[FindRecording(db.recordings, a.recordingId)];
            CanAccess(Perform(db, a), p, a.recordingId) <==>
              || Uploaded(r, p)
              || (Truthy(r.currentRevisionId) &&
                   (r.currentRevisionId.value == a.revisionId || HasCompletedRow(db, p, a.recordingId, r.currentRevisionId.value)))
  {
    AccessMeans(db, p, a.recordingId);
    var k :| 0 <= k < |db.rows| && IsActiveFor(db.rows[k], p.userId, a.recordingId, None);
    SomeRowIsCompleted(db.rows, a.recordingId, a.revisionId, k);
    var db' := Perform(db, a);
    assert db'.rows == CompleteRows(db.rows, a.recordingId, a.revisionId, a.now);
    AccessMeans(db', p, a.recordingId);
    assert forall i :: 0 <= i < |db'.rows| ==> !IsActiveFor(db'.rows[i], p.userId, a.recordingId, None);
    var r := db.recordings[FindRecording(db.recordings, a.recordingId)];
    if Truthy(r.currentRevisionId) {
      CompletionIsRemembered(db, db', p, a, k, r.currentRevisionId.value);
    }
  }

  lemma {:induction false} CompletionIsRemembered(db: Db, db': Db, p: Principal, a: Action, k: nat, rev: string)
    requires a.Complete? && k < |db.rows| && IsActiveFor(db.rows[k], p.userId, a.recordingId, None)
    requires db'.rows == CompleteRows(db.rows, a.recordingId, a.revisionId, a.now)
    ensures HasCompletedRow(db', p, a.recordingId, rev) <==> rev == a.revisionId || HasCompletedRow(db, p, a.recordingId, rev)
  {
    if HasCompletedRow(db', p, a.recordingId, rev) {
      var i :| 0 <= i < |db'.rows| && IsCompletedFor(db'.rows[i], p.userId, a.recordingId, rev);
      assert rev == a.revisionId || IsCompletedFor(db.rows[i], p.userId, a.recordingId, rev);
    }
    if rev == a.revisionId {
      assert IsCompletedFor(db'.rows[k], p.userId, a.recordingId, rev);
    }
    if HasCompletedRow(db, p, a.recordingId, rev) {
      var i :| 0 <= i < |db.rows| && IsCompletedFor(db.rows[i], p.userId, a.recordingId, rev);
      assert IsCompletedFor(db'.rows[i], p.userId, a.recordingId, rev);
    }
  }

  lemma {:induction false} SomeRowIsCompleted(rows: seq<Assignment>, recordingId: string, revisionId: string, k: nat)
    requires k < |rows| && ActiveOn(rows[k], recordingId)
    ensures CompletionEvents(rows, recordingId, revisionId) != []
  {
    if k < |rows| - 1 {
      SomeRowIsCompleted(rows[..|rows| - 1], recordingId, revisionId, k);
    }
  }

  /**
    A whole-state write that leaves a recording as it is takes access away from exactly those who
    had nothing but a completed assignment: their rows lose the revision they completed.
  */
  lemma {:induction false} WholeStateWriteRevokesCompleted(db: Db, p: Principal, id: string, a: Action)
    requires !p.role.Admin? && a == WholeStateWrite(db.recordings)
    requires FindRecording(db.recordings, id) < |db.recordings|
    ensures var r := db.recordings[FindRecording(db.recordings, id)];
            && (CanAccess(Perform(db, a), p, id) <==> Uploaded(r, p) || HasActiveRow(db, p, id))
            && (CanAccess(db, p, id) && !CanAccess(Perform(db, a), p, id) <==>
                 !Uploaded(r, p) && !HasActiveRow(db, p, id)
                 && Truthy(r.currentRevisionId) && HasCompletedRow(db, p, id, r.currentRevisionId.value))
  {
    var db' := Perform(db, a);
    AccessMeans(db, p, id);
    AccessMeans(db', p, id);
    if HasActiveRow(db, p, id) {
      var k :| 0 <= k < |db.rows| && IsActiveFor(db.rows[k], p.userId, id, None);
      assert IsActiveFor(db'.rows[k], p.userId, id, None);
    }
    if HasActiveRow(db', p, id) {
      var k :| 0 <= k < |db'.rows| && IsActiveFor(db'.rows[k], p.userId, id, None);
      assert IsActiveFor(db.rows[k], p.userId, id, None);
    }
  }

  /** So they agree whenever revisions have names, as every revision that the appliance draws an id for has. */
  lemma {:induction false} NamedRevisionsAgree(db: Db, p: Principal, id: string)
    requires !p.role.Admin? && UniqueIds(db) && FindRecording(db.recordings, id) < |db.recordings|
    requires forall i :: 0 <= i < |db.recordings| ==> db.recordings[i].currentRevisionId != Some("")
    ensures CanAccess(db, p, id) <==> Visible(db, p, id)
  {
    CheckAndIndexAgree(db, p, id);
  }

  // ----- the exceptions, in one recording -----

  const REVIEWER := User("reviewer", Reviewer, true)

  /** The recording with its revision `revisionId`, under review or approved. */
  function Reviewed(revisionId: string, approved: bool): Recording {
    var id := Some(revisionId);
    Recording("recording", "workspace", "title", None, None, None, None, None, Verified, JobState.Completed,
              id, if approved then id else None, if approved then None else id, "", "")
  }

  /** A review from the empty ledger on: the reviewer is assigned, and approval completes the assignment. */
  function Review(revisionId: string): seq<Action> {
    [OtherWrites([REVIEWER], [Reviewed(revisionId, false)]),
     Assign("recording", "reviewer", "admin", "row", "monday"),
     OtherWrites([REVIEWER], [Reviewed(revisionId, true)]),
     Complete("recording", revisionId, "tuesday")]
  }

  const EMPTY_LEDGER := Db([], [], [], [])

  /** Where a review leads: one completed row that knows its revision, and both of its events. */
  lemma {:induction false} ReviewCompletes(revisionId: string)
    ensures var row := Assignment("row", "recording", "reviewer", "admin", AsReviewer, Active, true,
                                  "monday", "monday", None, None, None, None);
            PerformAll(EMPTY_LEDGER, Review(revisionId))
            == Db([REVIEWER], [Reviewed(revisionId, true)], [EndCompleted(row, revisionId, "tuesday")],
                  [Created("row"), Ended("row", Some(revisionId))])
  {
    var row := Assignment("row", "recording", "reviewer", "admin", AsReviewer, Active, true,
                          "monday", "monday", None, None, None, None);
    var uploaded, approved := Reviewed(revisionId, false), Reviewed(revisionId, true);
    FourActions(EMPTY_LEDGER, OtherWrites([REVIEWER], [uploaded]), Assign("recording", "reviewer", "admin", "row", "monday"),
                OtherWrites([REVIEWER], [approved]), Complete("recording", revisionId, "tuesday"));
    var before := Db([REVIEWER], [uploaded], [], []);
    assert Perform(EMPTY_LEDGER, OtherWrites([REVIEWER], [uploaded])) == before;
    AssignmentInsertsRow(before, row);
    var listed := Perform(before, Assign("recording", "reviewer", "admin", "row", "monday"));
    var after := Db([REVIEWER], [approved], [row], [Created("row")]);
    assert Perform(listed, OtherWrites([REVIEWER], [approved])) == after by { assert listed.events == [Created("row")]; }
    ApprovalCompletesRow(after, row, revisionId);
    var created, ended := Created("row"), Ended("row", Some(revisionId));
    assert [created] + [ended] == [created, ended];
  }

  lemma {:induction false} FourActions(db: Db, a: Action, b: Action, c: Action, d: Action)
    ensures PerformAll(db, [a, b, c, d]) == Perform(Perform(Perform(Perform(db, a), b), c), d)
  {
    var all := [a, b, c, d];
    assert all[..3] == [a, b, c] && [a, b, c][..2] == [a, b] && [a, b][..1] == [a] && [a][..0] == [];
    assert PerformAll(db, [a]) == Perform(db, a);
    assert PerformAll(db, [a, b]) == Perform(Perform(db, a), b);
    assert PerformAll(db, [a, b, c]) == Perform(Perform(Perform(db, a), b), c);
  }

  lemma {:induction false} AssignmentInsertsRow(db: Db, row: Assignment)
    requires db.users == [REVIEWER] && db.rows == [] && |db.recordings| == 1 && db.recordings[0].id == "recording"
    requires Compatible(db.recordings[0], AsReviewer)
    requires row == Assignment("row", "recording", "reviewer", "admin", AsReviewer, Active, true,
                               "monday", "monday", None, None, None, None)
    ensures Perform(db, Assign("recording", "reviewer", "admin", "row", "monday"))
         == db.(rows := [row], events := db.events + [Created("row")])
  {
    assert FindUser(db.users, "reviewer") == 0 && FindRecording(db.recordings, "recording") == 0;
  }

  lemma {:induction false} ApprovalCompletesRow(db: Db, row: Assignment, revisionId: string)
    requires db.rows == [row] && ActiveOn(row, "recording") && FindRecording(db.recordings, "recording") < |db.recordings|
    ensures Perform(db, Complete("recording", revisionId, "tuesday"))
         == db.(rows := [EndCompleted(row, revisionId, "tuesday")], events := db.events + [Ended(row.id, Some(revisionId))])
  {
    assert db.rows[..0] == [];
    assert CompletionEvents(db.rows, "recording", revisionId) == [Ended(row.id, Some(revisionId))];
  }

  /** The reviewer of an approved revision can open it until the next whole-state write. */
  lemma {:induction false} ApprovedReviewerLosesAccess()
    ensures var db := PerformAll(EMPTY_LEDGER, Review("v1"));
            var p := Principal("reviewer", Reviewer);
            && CanAccess(db, p, "recording")
            && !CanAccess(Perform(db, WholeStateWrite(db.recordings)), p, "recording")
  {
    ReviewCompletes("v1");
    var db := PerformAll(EMPTY_LEDGER, Review("v1"));
    var p := Principal("reviewer", Reviewer);
    assert FindRecording(db.recordings, "recording") == 0;
    assert IsCompletedFor(db.rows[0], "reviewer", "recording", "v1");
    assert HasCompletedRow(db, p, "recording", "v1");
    AccessMeans(db, p, "recording");
    WholeStateWriteRevokesCompleted(db, p, "recording", WholeStateWrite(db.recordings));
  }

  /** Were a revision's id empty, the same review would end with the check denying what the index shows. */
  lemma {:induction false} EmptyRevisionIdDisagrees()
    ensures var db := PerformAll(EMPTY_LEDGER, Review(""));
            var p := Principal("reviewer", Reviewer);
            !CanAccess(db, p, "recording") && Visible(db, p, "recording")
  {
    ReviewCompletes("");
    var db := PerformAll(EMPTY_LEDGER, Review(""));
    assert FindRecording(db.recordings, "recording") == 0;
    assert CompletedForCurrent(db.rows[0], db.recordings[0], Principal("reviewer", Reviewer));
  }
}
