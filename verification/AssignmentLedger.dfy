/**
  The ledger of recording assignments, and who may open a recording. Rows are inserted and ended,
  never removed; every change writes its audit event in the same transaction.
*/
module AssignmentLedger {
  import opened Search
  import opened Wrappers
  import opened Workflow

  datatype UserRole = Uploader | Reviewer | Approver | Admin

  datatype User = User(id: string, role: UserRole, isActive: bool)

  datatype Principal = Principal(userId: string, role: UserRole)

  datatype AssignmentRole = AsReviewer | AsApprover

  datatype AssignmentStatus = Active | Removed | Completed

  datatype EndReason = RemovedByAdmin

  datatype Assignment = Assignment(
    id: string, recordingId: string, userId: string, assignedByUserId: string, role: AssignmentRole,
    status: AssignmentStatus, isActive: bool, createdAt: string, updatedAt: string,
    endedAt: Option<string>, endReason: Option<EndReason>,
    completedRevisionId: Option<string>, removedByUserId: Option<string>)

  datatype Event = Created(assignmentId: string) | Ended(assignmentId: string, revisionId: Option<string>)

  datatype Db = Db(users: seq<User>, recordings: seq<Recording>, rows: seq<Assignment>, events: seq<Event>)

  datatype Action =
    | Assign(recordingId: string, userId: string, assignedBy: string, newId: string, now: string)
    | Remove(assignmentId: string, removedBy: string, now: string)
    | Complete(recordingId: string, revisionId: string, now: string)
    | OtherWrites(users: seq<User>, recordings: seq<Recording>)   // accounts, uploads, reviews
    | WholeStateWrite(recordings: seq<Recording>)                 // `writeState` of the state store

  // ----- lookups -----

  /** JavaScript truth of a nullable string. */
  predicate Truthy(o: Option<string>) {
    o.Some? && o.value != ""
  }

  function FindUser(users: seq<User>, id: string): (k: nat)
    ensures k <= |users| && (k < |users| ==> users[k].id == id) && forall i :: 0 <= i < k ==> users[i].id != id
  {
    FindIndex(users, (u: User) => u.id == id)
  }

  function FindRow(rows: seq<Assignment>, id: string): (k: nat)
    ensures k <= |rows| && (k < |rows| ==> rows[k].id == id) && forall i :: 0 <= i < k ==> rows[i].id != id
  {
    FindIndex(rows, (row: Assignment) => row.id == id)
  }

  predicate IsActiveFor(row: Assignment, userId: string, recordingId: string, role: Option<AssignmentRole>) {
    row.status.Active? && row.userId == userId && row.recordingId == recordingId && (role.Some? ==> row.role == role.value)
  }

  /** The first active row of this user on this recording, in this role if one is given; or |rows|. */
  function FindActiveAssignment(rows: seq<Assignment>, userId: string, recordingId: string, role: Option<AssignmentRole>): (k: nat)
    ensures k <= |rows| && (k < |rows| ==> IsActiveFor(rows[k], userId, recordingId, role))
    ensures forall i :: 0 <= i < k ==> !IsActiveFor(rows[i], userId, recordingId, role)
  {
    FindIndex(rows, (row: Assignment) => IsActiveFor(row, userId, recordingId, role))
  }

  predicate IngestFailed(r: Recording) {
    r.integrityState.Interrupted? || r.integrityState.VerificationFailed? || r.transcriptJobState.Failed? || r.transcriptJobState.Cancelled?
  }

  predicate Compatible(r: Recording, role: AssignmentRole) {
    !IngestFailed(r) && !(Truthy(r.approvedRevisionId) && role.AsReviewer?)
  }

  // ----- the three operations -----

  datatype Assigned = Assigned(db: Db, alreadyActive: bool)

  function AssignRecording(db: Db, a: Action): Result<Assigned, string>
    requires a.Assign?
  {
    var u := FindUser(db.users, a.userId);
    if u == |db.users| || !db.users[u].isActive then
      Failure("Choose an active user before assigning a recording.")
    else if !db.users[u].role.Reviewer? && !db.users[u].role.Approver? then
      Failure("Only reviewer and approver accounts can receive recording assignments.")
    else
      var role := if db.users[u].role.Reviewer? then AsReviewer else AsApprover;
      if FindActiveAssignment(db.rows, a.userId, a.recordingId, Some(role)) < |db.rows| then
        Success(Assigned(db, true))
      else
        var r := FindRecording(db.recordings, a.recordingId);
        if r == |db.recordings| then Failure("Choose a valid recording before updating assignments.")
        else if !Compatible(db.recordings[r], role) then Failure("Review work cannot be assigned.")
        else
          var row := Assignment(a.newId, a.recordingId, a.userId, a.assignedBy, role, Active, true,
                                a.now, a.now, None, None, None, None);
          Success(Assigned(db.(rows := db.rows + [row], events := db.events + [Created(a.newId)]), false))
  }

  function EndRemoved(row: Assignment, removedBy: string, now: string): Assignment {
    row.(status := Removed, isActive := false, endedAt := Some(now), endReason := Some(RemovedByAdmin),
         removedByUserId := Some(removedBy), updatedAt := now)
  }

  function RemoveAssignment(db: Db, a: Action): Result<Db, string>
    requires a.Remove?
  {
    var k := FindRow(db.rows, a.assignmentId);
    if k == |db.rows| then Failure("Recording assignment not found.")
    else if !db.rows[k].status.Active? then Success(db)
    else if FindRecording(db.recordings, db.rows[k].recordingId) == |db.recordings| then
      Failure("Choose a valid recording before updating assignments.")
    else
      Success(db.(rows := db.rows[k := EndRemoved(db.rows[k], a.removedBy, a.now)],
                  events := db.events + [Ended(a.assignmentId, None)]))
  }

  function EndCompleted(row: Assignment, revisionId: string, now: string): Assignment {
    row.(status := AssignmentStatus.Completed, isActive := false, endedAt := Some(now), endReason := None,
         completedRevisionId := Some(revisionId), removedByUserId := None, updatedAt := now)
  }

  predicate ActiveOn(row: Assignment, recordingId: string) {
    row.status.Active? && row.recordingId == recordingId
  }

  function CompleteRows(rows: seq<Assignment>, recordingId: string, revisionId: string, now: string): (r: seq<Assignment>)
    ensures |r| == |rows|
  {
    seq(|rows|, i requires 0 <= i < |rows| =>
      if ActiveOn(rows[i], recordingId) then EndCompleted(rows[i], revisionId, now) else rows[i])
  }

  function CompletionEvents(rows: seq<Assignment>, recordingId: string, revisionId: string): seq<Event> {
    if rows == [] then []
    else
      var last := rows[|rows| - 1];
      CompletionEvents(rows[..|rows| - 1], recordingId, revisionId)
        + (if ActiveOn(last, recordingId) then [Ended(last.id, Some(revisionId))] else [])
  }

  function CompleteAssignments(db: Db, a: Action): Result<Db, string>
    requires a.Complete?
  {
    var events := CompletionEvents(db.rows, a.recordingId, a.revisionId);
    if events == [] then Success(db)
    else if FindRecording(db.recordings, a.recordingId) == |db.recordings| then
      Failure("Choose a valid recording before updating assignments.")
    else Success(db.(rows := CompleteRows(db.rows, a.recordingId, a.revisionId, a.now), events := db.events + events))
  }

  /**
    `writeState` deletes every revision before it inserts them again, and completedRevisionId is a
    foreign key with ON DELETE SET NULL on a connection that enforces foreign keys.
  */
  function ForgetRevisions(rows: seq<Assignment>): (r: seq<Assignment>)
    ensures |r| == |rows|
  {
    seq(|rows|, i requires 0 <= i < |rows| => rows[i].(completedRevisionId := None))
  }

  /** One committed transaction; one that throws is rolled back. */
  function Perform(db: Db, a: Action): Db {
    match a
    case Assign(_, _, _, _, _) => (match AssignRecording(db, a) case Success(x) => x.db case Failure(_) => db)
    case Remove(_, _, _) => (match RemoveAssignment(db, a) case Success(x) => x case Failure(_) => db)
    case Complete(_, _, _) => (match CompleteAssignments(db, a) case Success(x) => x case Failure(_) => db)
    case OtherWrites(users, recordings) => db.(users := users, recordings := recordings)
    case WholeStateWrite(recordings) => db.(recordings := recordings, rows := ForgetRevisions(db.rows))
  }

  function PerformAll(db: Db, actions: seq<Action>): Db {
    if actions == [] then db else Perform(PerformAll(db, actions[..|actions| - 1]), actions[|actions| - 1])
  }

  // ----- the ledger over all runs -----

  function ActiveCount(rows: seq<Assignment>): nat {
    if rows == [] then 0
    else ActiveCount(rows[..|rows| - 1]) + (if rows[|rows| - 1].status.Active? then 1 else 0)
  }

  function CreatedCount(events: seq<Event>): nat {
    if events == [] then 0 else CreatedCount(events[..|events| - 1]) + (if events[|events| - 1].Created? then 1 else 0)
  }

  function EndedCount(events: seq<Event>): nat {
    if events == [] then 0 else EndedCount(events[..|events| - 1]) + (if events[|events| - 1].Ended? then 1 else 0)
  }

  /** `isActive` and the end fields say what `status` says. */
  predicate RowOk(row: Assignment) {
    && row.isActive == row.status.Active?
    && row.endedAt.None? == row.status.Active?
    && row.endReason == (if row.status.Removed? then Some(RemovedByAdmin) else None)
    && row.removedByUserId.Some? == row.status.Removed?
    && (row.completedRevisionId.Some? ==> row.status.Completed?)
  }

  /** What the partial unique index of the table forbids. */
  predicate BothActiveOnSameKey(a: Assignment, b: Assignment) {
    a.status.Active? && b.status.Active? && a.recordingId == b.recordingId && a.userId == b.userId && a.role == b.role
  }

  ghost predicate RowsOk(rows: seq<Assignment>) {
    && (forall i :: 0 <= i < |rows| ==> RowOk(rows[i]))
    && (forall i, j :: 0 <= i < j < |rows| ==> rows[i].id != rows[j].id)
    && (forall i, j :: 0 <= i < j < |rows| ==> !BothActiveOnSameKey(rows[i], rows[j]))
  }

  ghost predicate Inv(db: Db) {
    && RowsOk(db.rows)
    && CreatedCount(db.events) == EndedCount(db.events) + ActiveCount(db.rows)
  }

  /** What one action may do to the rows: ended rows and the keys of all rows stay, new rows come last. */
  ghost predicate AppendOnly(before: seq<Assignment>, after: seq<Assignment>) {
    && |before| <= |after|
    && forall i :: 0 <= i < |before| ==>
         && after[i].id == before[i].id && after[i].recordingId == before[i].recordingId
         && after[i].userId == before[i].userId && after[i].role == before[i].role
         && (!before[i].status.Active? ==> after[i].(completedRevisionId := before[i].completedRevisionId) == before[i])
  }

  ghost predicate FreshId(db: Db, a: Action) {
    a.Assign? ==> forall i :: 0 <= i < |db.rows| ==> db.rows[i].id != a.newId
  }

  lemma {:induction false} CountsOfSnoc(rows: seq<Assignment>, row: Assignment, events: seq<Event>, e: Event)
    ensures ActiveCount(rows + [row]) == ActiveCount(rows) + if row.status.Active? then 1 else 0
    ensures CreatedCount(events + [e]) == CreatedCount(events) + if e.Created? then 1 else 0
    ensures EndedCount(events + [e]) == EndedCount(events) + if e.Ended? then 1 else 0
  {
    assert (rows + [row])[..|rows|] == rows && (events + [e])[..|events|] == events;
  }

  lemma {:induction false} EndingOneRow(rows: seq<Assignment>, k: nat, row: Assignment)
    requires k < |rows| && rows[k].status.Active? && !row.status.Active?
    ensures ActiveCount(rows) == ActiveCount(rows[k := row]) + 1
  {
    var n := |rows| - 1;
    if k < n {
      EndingOneRow(rows[..n], k, row);
      assert rows[k := row][..n] == rows[..n][k := row];
    } else {
      assert rows[k := row][..n] == rows[..n];
    }
  }

  lemma {:induction false} CompletingRows(rows: seq<Assignment>, recordingId: string, revisionId: string, now: string)
    ensures var ended := CompletionEvents(rows, recordingId, revisionId);
            && ActiveCount(rows) == ActiveCount(CompleteRows(rows, recordingId, revisionId, now)) + |ended|
            && EndedCount(ended) == |ended| && CreatedCount(ended) == 0
  {
    if rows != [] {
      var n := |rows| - 1;
      CompletingRows(rows[..n], recordingId, revisionId, now);
      assert CompleteRows(rows, recordingId, revisionId, now)[..n] == CompleteRows(rows[..n], recordingId, revisionId, now);
      if ActiveOn(rows[n], recordingId) {
        CountsOfSnoc([], rows[n], CompletionEvents(rows[..n], recordingId, revisionId), Ended(rows[n].id, Some(revisionId)));
      } else {
        assert CompletionEvents(rows, recordingId, revisionId) == CompletionEvents(rows[..n], recordingId, revisionId);
      }
    }
  }

  lemma {:induction false} CountsOfConcat(a: seq<Event>, b: seq<Event>)
    ensures CreatedCount(a + b) == CreatedCount(a) + CreatedCount(b)
    ensures EndedCount(a + b) == EndedCount(a) + EndedCount(b)
  {
    if b == [] {
      assert a + b == a;
    } else {
      CountsOfConcat(a, b[..|b| - 1]);
      assert (a + b)[..|a + b| - 1] == a + b[..|b| - 1];
    }
  }

  lemma {:induction false} ForgettingCounts(rows: seq<Assignment>)
    ensures ActiveCount(ForgetRevisions(rows)) == ActiveCount(rows)
  {
    if rows != [] {
      ForgettingCounts(rows[..|rows| - 1]);
      assert ForgetRevisions(rows)[..|rows| - 1] == ForgetRevisions(rows[..|rows| - 1]);
    }
  }

  /** Rows that keep their keys, and are active only where they were, stay sound. */
  lemma {:induction false} EndingKeepsRowsOk(before: seq<Assignment>, after: seq<Assignment>)
    requires RowsOk(before) && |after| == |before|
    requires forall i :: 0 <= i < |after| ==>
               && RowOk(after[i]) && after[i].id == before[i].id && after[i].recordingId == before[i].recordingId
               && after[i].userId == before[i].userId && after[i].role == before[i].role
               && (after[i].status.Active? ==> before[i].status.Active?)
    ensures RowsOk(after)
  {
    forall i, j | 0 <= i < j < |after|
      ensures !BothActiveOnSameKey(after[i], after[j])
    {
      assert !BothActiveOnSameKey(before[i], before[j]);
    }
  }

  lemma {:induction false} InsertKeepsInv(db: Db, row: Assignment)
    requires Inv(db) && row.status.Active? && RowOk(row)
    requires forall i :: 0 <= i < |db.rows| ==> db.rows[i].id != row.id && !BothActiveOnSameKey(db.rows[i], row)
    ensures var db' := db.(rows := db.rows + [row], events := db.events + [Created(row.id)]);
            Inv(db') && AppendOnly(db.rows, db'.rows) && db.events <= db'.events
  {
    CountsOfSnoc(db.rows, row, db.events, Created(row.id));
    RowsGrow(db.rows, row);
  }

  lemma {:induction false} RowsGrow(rows: seq<Assignment>, row: Assignment)
    requires RowsOk(rows) && RowOk(row)
    requires forall i :: 0 <= i < |rows| ==> rows[i].id != row.id && !BothActiveOnSameKey(rows[i], row)
    ensures RowsOk(rows + [row]) && AppendOnly(rows, rows + [row])
  {
    var grown := rows + [row];
    forall i, j | 0 <= i < j < |grown|
      ensures grown[i].id != grown[j].id && !BothActiveOnSameKey(grown[i], grown[j])
    {
      assert grown[i] == rows[i] && (j < |rows| ==> grown[j] == rows[j]);
    }
  }

  /** A row that an assign inserts never meets another active row of its recording, user and role. */
  lemma {:induction false} InsertRespectsUniqueIndex(db: Db, a: Action)
    requires a.Assign? && AssignRecording(db, a).Success? && !AssignRecording(db, a).value.alreadyActive
    ensures var db' := AssignRecording(db, a).value.db;
            var row := db'.rows[|db.rows|];
            && db' == db.(rows := db.rows + [row], events := db.events + [Created(row.id)])
            && row.id == a.newId && row.status.Active? && RowOk(row)
            && row.recordingId == a.recordingId && row.userId == a.userId
            && forall i :: 0 <= i < |db.rows| ==> !BothActiveOnSameKey(db.rows[i], row)
  {
    var row := AssignRecording(db, a).value.db.rows[|db.rows|];
    forall i | 0 <= i < |db.rows|
      ensures !BothActiveOnSameKey(db.rows[i], row)
    {
      assert !IsActiveFor(db.rows[i], a.userId, a.recordingId, Some(row.role));
    }
  }

  lemma {:induction false} AssignKeepsInv(db: Db, a: Action)
    requires Inv(db) && FreshId(db, a) && a.Assign?
    ensures Inv(Perform(db, a)) && AppendOnly(db.rows, Perform(db, a).rows) && db.events <= Perform(db, a).events
  {
    if AssignRecording(db, a).Success? && !AssignRecording(db, a).value.alreadyActive {
      InsertRespectsUniqueIndex(db, a);
      var row := AssignRecording(db, a).value.db.rows[|db.rows|];
      NewIdIsFresh(db, a, row);
      InsertKeepsInv(db, row);
    } else {
      assert Perform(db, a) == db;
    }
  }

  lemma {:induction false} NewIdIsFresh(db: Db, a: Action, row: Assignment)
    requires FreshId(db, a) && a.Assign? && row.id == a.newId
    requires forall i :: 0 <= i < |db.rows| ==> !BothActiveOnSameKey(db.rows[i], row)
    ensures forall i :: 0 <= i < |db.rows| ==> db.rows[i].id != row.id && !BothActiveOnSameKey(db.rows[i], row)
  {
  }

  lemma {:induction false} EndKeepsInv(db: Db, k: nat, row: Assignment)
    requires Inv(db) && k < |db.rows| && db.rows[k].status.Active? && !row.status.Active? && RowOk(row)
    requires row.id == db.rows[k].id
    ensures Inv(db.(rows := db.rows[k := row], events := db.events + [Ended(row.id, None)]))
  {
    EndingOneRow(db.rows, k, row);
    CountsOfSnoc(db.rows, row, db.events, Ended(row.id, None));
  }

  lemma {:induction false} RemoveKeepsInv(db: Db, a: Action)
    requires Inv(db) && a.Remove?
    ensures Inv(Perform(db, a)) && AppendOnly(db.rows, Perform(db, a).rows) && db.events <= Perform(db, a).events
  {
    var k := FindRow(db.rows, a.assignmentId);
    if RemoveAssignment(db, a).Success? && db.rows[k].status.Active? {
      assert RowOk(db.rows[k]);
      EndKeepsInv(db, k, EndRemoved(db.rows[k], a.removedBy, a.now));
    }
  }

  lemma {:induction false} CompletedRowsOk(rows: seq<Assignment>, recordingId: string, revisionId: string, now: string)
    requires RowsOk(rows)
    ensures RowsOk(CompleteRows(rows, recordingId, revisionId, now))
    ensures AppendOnly(rows, CompleteRows(rows, recordingId, revisionId, now))
  {
    EndingKeepsRowsOk(rows, CompleteRows(rows, recordingId, revisionId, now));
  }

  lemma {:induction false} CompleteKeepsInv(db: Db, a: Action)
    requires Inv(db) && a.Complete?
    ensures Inv(Perform(db, a)) && AppendOnly(db.rows, Perform(db, a).rows) && db.events <= Perform(db, a).events
  {
    CompletedRowsOk(db.rows, a.recordingId, a.revisionId, a.now);
    CompletingRows(db.rows, a.recordingId, a.revisionId, a.now);
    CountsOfConcat(db.events, CompletionEvents(db.rows, a.recordingId, a.revisionId));
  }

  lemma {:induction false} ForgettingKeepsInv(db: Db, recordings: seq<Recording>)
    requires Inv(db)
    ensures var db' := db.(recordings := recordings, rows := ForgetRevisions(db.rows));
            Inv(db') && AppendOnly(db.rows, db'.rows)
  {
    ForgettingCounts(db.rows);
    var rows := ForgetRevisions(db.rows);
    assert forall i :: 0 <= i < |rows| ==> rows[i] == db.rows[i].(completedRevisionId := None);
  }

  lemma {:induction false} ActionKeepsInv(db: Db, a: Action)
    requires Inv(db) && FreshId(db, a)
    ensures Inv(Perform(db, a)) && AppendOnly(db.rows, Perform(db, a).rows)
    ensures db.events <= Perform(db, a).events
  {
    match a
    case Assign(_, _, _, _, _) => AssignKeepsInv(db, a);
    case Remove(_, _, _) => RemoveKeepsInv(db, a);
    case Complete(_, _, _) => CompleteKeepsInv(db, a);
    case OtherWrites(_, _) =>
    case WholeStateWrite(recordings) => ForgettingKeepsInv(db, recordings);
  }

  ghost predicate FreshRun(db: Db, actions: seq<Action>) {
    forall n :: 0 <= n < |actions| ==> FreshId(PerformAll(db, actions[..n]), actions[n])
  }

  lemma {:induction false} FreshPrefix(db: Db, actions: seq<Action>)
    requires actions != [] && FreshRun(db, actions)
    ensures FreshRun(db, actions[..|actions| - 1])
  {
    var before := actions[..|actions| - 1];
    forall k | 0 <= k < |before|
      ensures FreshId(PerformAll(db, before[..k]), before[k])
    {
      assert before[..k] == actions[..k];
    }
  }

  /**
    Over every run from a sound ledger, the empty one included: at most one active row for a
    recording, user and role; no row is dropped or reactivated; the fields of a row agree with its
    status; created events are ended events plus active rows; events only grow.
  */
  lemma {:induction false} LedgerIsAppendOnly(db: Db, actions: seq<Action>)
    requires Inv(db) && FreshRun(db, actions)
    ensures Inv(PerformAll(db, actions)) && AppendOnly(db.rows, PerformAll(db, actions).rows)
    ensures db.events <= PerformAll(db, actions).events
  {
    if actions != [] {
      var n := |actions| - 1;
      var before := actions[..n];
      FreshPrefix(db, actions);
      LedgerIsAppendOnly(db, before);
      ActionKeepsInv(PerformAll(db, before), actions[n]);
    }
  }

  /** Assigning twice, or removing twice, is assigning or removing once. */
  lemma {:induction false} RepeatedCallsChangeNothing(db: Db, a: Action, again: Action)
    requires Inv(db) && FreshId(db, a)
    requires (a.Assign? && again.Assign? && again.userId == a.userId && again.recordingId == a.recordingId && AssignRecording(db, a).Success?)
          || (a.Remove? && again.Remove? && again.assignmentId == a.assignmentId && RemoveAssignment(db, a).Success?)
    ensures Perform(Perform(db, a), again) == Perform(db, a)
    ensures again.Assign? ==> AssignRecording(Perform(db, a), again).Success? && AssignRecording(Perform(db, a), again).value.alreadyActive
  {
    if a.Assign? { SecondAssignFindsFirst(db, a, again); } else { SecondRemoveFindsFirst(db, a, again); }
  }

  lemma {:induction false} SecondAssignFindsFirst(db: Db, a: Action, again: Action)
    requires a.Assign? && again.Assign? && again.userId == a.userId && again.recordingId == a.recordingId
    requires AssignRecording(db, a).Success?
    ensures AssignRecording(Perform(db, a), again) == Success(Assigned(Perform(db, a), true))
  {
    var db' := Perform(db, a);
    var role := if db.users[FindUser(db.users, a.userId)].role.Reviewer? then AsReviewer else AsApprover;
    if db' != db {
      assert IsActiveFor(db'.rows[|db.rows|], a.userId, a.recordingId, Some(role));
    }
    assert FindActiveAssignment(db'.rows, a.userId, a.recordingId, Some(role)) < |db'.rows|;
  }

  lemma {:induction false} SecondRemoveFindsFirst(db: Db, a: Action, again: Action)
    requires a.Remove? && again.Remove? && again.assignmentId == a.assignmentId && RemoveAssignment(db, a).Success?
    ensures Perform(Perform(db, a), again) == Perform(db, a)
  {
    var db' := Perform(db, a);
    var k := FindRow(db.rows, a.assignmentId);
    assert forall i :: 0 <= i < k ==> db'.rows[i].id != a.assignmentId;
    assert db'.rows[k].id == a.assignmentId && !db'.rows[k].status.Active?;
  }

  ghost predicate CompletedRowsKnowTheirRevision(db: Db) {
    forall i :: 0 <= i < |db.rows| ==> (db.rows[i].status.Completed? <==> db.rows[i].completedRevisionId.Some?)
  }

  /** Without whole-state writes, a row has a completed revision exactly when it is completed. */
  lemma {:induction false} CompletedRevisionsLast(db: Db, actions: seq<Action>)
    requires Inv(db) && FreshRun(db, actions) && CompletedRowsKnowTheirRevision(db)
    requires forall n :: 0 <= n < |actions| ==> !actions[n].WholeStateWrite?
    ensures CompletedRowsKnowTheirRevision(PerformAll(db, actions))
  {
    if actions != [] {
      var n := |actions| - 1;
      var before := actions[..n];
      FreshPrefix(db, actions);
      CompletedRevisionsLast(db, before);
      OneActionKeepsRevisions(PerformAll(db, before), actions[n]);
    }
  }

  lemma {:induction false} OneActionKeepsRevisions(db: Db, a: Action)
    requires CompletedRowsKnowTheirRevision(db) && !a.WholeStateWrite?
    ensures CompletedRowsKnowTheirRevision(Perform(db, a))
  {
    match a
    case Assign(_, _, _, _, _) => AssignKeepsRevisions(db, a);
    case Remove(_, _, _) => RemoveKeepsRevisions(db, a);
    case _ =>
  }

  lemma {:induction false} AssignKeepsRevisions(db: Db, a: Action)
    requires CompletedRowsKnowTheirRevision(db) && a.Assign?
    ensures CompletedRowsKnowTheirRevision(Perform(db, a))
  {
    if Perform(db, a) != db {
      InsertRespectsUniqueIndex(db, a);
    }
  }

  lemma {:induction false} RemoveKeepsRevisions(db: Db, a: Action)
    requires CompletedRowsKnowTheirRevision(db) && a.Remove?
    ensures CompletedRowsKnowTheirRevision(Perform(db, a))
  {
  }

  /** With one, no row has. */
  lemma {:induction false} WholeStateWriteForgetsRevisions(db: Db, a: Action)
    requires a.WholeStateWrite?
    ensures CompletedRowsKnowTheirRevision(Perform(db, a)) <==>
              forall i :: 0 <= i < |db.rows| ==> !db.rows[i].status.Completed?
  {
    var db' := Perform(db, a);
    forall i | 0 <= i < |db.rows|
      ensures db'.rows[i].status == db.rows[i].status && db'.rows[i].completedRevisionId.None?
    {
    }
    if i :| 0 <= i < |db.rows| && db.rows[i].status.Completed? {
      assert db'.rows[i].status.Completed?;
    }
  }
}
