/**
  The store's own code: a database object that other clients change between any two of our
  statements, and `loadState`, `writeState`, `withState` as the loops they are.
*/
module StateStoreClient {
  import opened Wrappers
  import opened StateStore

  /** Everything that `others` commit from moment `from` up to moment `to`, oldest first. */
  function Landed(others: nat -> seq<AppState>, from: nat, to: nat): seq<AppState>
  {
    if to <= from then [] else Landed(others, from, to - 1) + others(to - 1)
  }

  /** One of the attempts of `mutate` turns `before` into `after`. */
  ghost predicate ComputedBy(mutate: Mutate, before: AppState, after: AppState) {
    exists attempt: nat :: attempt < MAX_WRITE_RETRIES && mutate(attempt, before) == Mutated(after)
  }

  /** Some attempt of `mutate` raises `error` on one of these states. */
  ghost predicate RaisedBy(mutate: Mutate, states: seq<AppState>, error: Error) {
    exists attempt: nat :: attempt < MAX_WRITE_RETRIES && RaisesOn(mutate, attempt, states, error)
  }

  ghost predicate RaisesOn(mutate: Mutate, attempt: nat, states: seq<AppState>, error: Error) {
    exists i :: 0 <= i < |states| && mutate(attempt, states[i]) == Threw(error)
  }

  /** How many of the first `n` attempts raise a conflict of their own on one of these states. */
  ghost function OwnConflicts(mutate: Mutate, states: seq<AppState>, n: nat): nat {
    if n == 0 then 0
    else OwnConflicts(mutate, states, n - 1) + if RaisesOn(mutate, n - 1, states, StateConflict) then 1 else 0
  }

  lemma {:induction false} OwnConflictsGrow(mutate: Mutate, states: seq<AppState>, more: seq<AppState>, n: nat)
    requires states <= more
    ensures OwnConflicts(mutate, states, n) <= OwnConflicts(mutate, more, n)
  {
    if n > 0 {
      OwnConflictsGrow(mutate, states, more, n - 1);
      if RaisesOn(mutate, n - 1, states, StateConflict) {
        var i :| 0 <= i < |states| && mutate(n - 1, states[i]) == Threw(StateConflict);
        assert more[i] == states[i];
      }
    }
  }

  ghost predicate NeverConflicts(mutate: Mutate) {
    forall attempt: nat, s: AppState :: mutate(attempt, s) != Threw(StateConflict)
  }

  lemma {:induction false} NoOwnConflicts(mutate: Mutate, states: seq<AppState>, n: nat)
    ensures NeverConflicts(mutate) ==> OwnConflicts(mutate, states, n) == 0
  {
    if n > 0 { NoOwnConflicts(mutate, states, n - 1); }
  }

  lemma {:induction false} LandedGrows(others: nat -> seq<AppState>, from: nat, mid: nat, to: nat)
    requires from <= mid <= to
    ensures Landed(others, from, mid) <= Landed(others, from, to)
  {
    if mid < to { LandedGrows(others, from, mid, to - 1); }
  }

  lemma {:induction false} OneMore<T>(base: seq<T>, added: seq<T>, i: nat)
    requires i < |added|
    ensures (base + added[..i]) + [added[i]] == base + added[..i + 1]
  {
  }

  lemma {:induction false} LandedNext(others: nat -> seq<AppState>, from: nat, to: nat, h: seq<AppState>)
    requires from <= to
    ensures h + Landed(others, from, to + 1) == (h + Landed(others, from, to)) + others(to)
  {
  }

  /** Nobody else ever commits. */
  ghost predicate Alone(others: nat -> seq<AppState>) {
    forall k: nat :: others(k) == []
  }

  lemma {:induction false} NothingLands(others: nat -> seq<AppState>, from: nat, to: nat)
    requires Alone(others)
    ensures Landed(others, from, to) == []
  {
    if to > from { NothingLands(others, from, to - 1); }
  }

  ghost predicate AllConflict(mutate: Mutate, s: AppState, n: nat) {
    forall before: nat :: before < n ==> mutate(before, s) == Threw(StateConflict)
  }

  /** On `s`, every attempt before this one raises a conflict, and this one does something else or is the last. */
  ghost predicate Decides(mutate: Mutate, s: AppState, attempt: nat) {
    && attempt < MAX_WRITE_RETRIES && AllConflict(mutate, s, attempt)
    && (attempt + 1 < MAX_WRITE_RETRIES ==> mutate(attempt, s) != Threw(StateConflict))
  }

  /** The outcome of the attempt that decides. */
  ghost predicate DecidedBy(mutate: Mutate, s: AppState, h: seq<AppState>, history: seq<AppState>,
                            r: Result<AppState, Error>, attempt: nat) {
    Decides(mutate, s, attempt) ==>
      match mutate(attempt, s)
      case Mutated(next) => r == Success(next) && history == h + [next]
      case Threw(error) => r == Failure(error) && history == h
  }

  /** The first attempt that raises no conflict decides; if there is none, the last one. */
  ghost predicate Decided(mutate: Mutate, s: AppState, h: seq<AppState>, history: seq<AppState>, r: Result<AppState, Error>) {
    forall attempt: nat :: DecidedBy(mutate, s, h, history, r, attempt)
  }

  /** Each of the attempts so far has met a conflict: others' commits since `h`, or one of its own. */
  ghost predicate Accounted(mutate: Mutate, h: seq<AppState>, history: seq<AppState>, attempts: nat) {
    |history| - |h| + OwnConflicts(mutate, history, attempts) >= attempts
  }

  lemma {:induction false} OneMoreConflict(
    mutate: Mutate, h: seq<AppState>, was: seq<AppState>, history: seq<AppState>, attempts: nat)
    requires Accounted(mutate, h, was, attempts) && was <= history
    requires RaisesOn(mutate, attempts, history, StateConflict) || |history| > |was|
    ensures Accounted(mutate, h, history, attempts + 1)
  {
    OwnConflictsGrow(mutate, was, history, attempts);
  }

  /** Once an attempt has decided, or all have conflicted, the decision of the call left alone is known. */
  lemma {:induction false} AttemptDecides(
    mutate: Mutate, s: AppState, h: seq<AppState>, history: seq<AppState>, r: Result<AppState, Error>, attempts: nat)
    requires AllConflict(mutate, s, attempts) && attempts <= MAX_WRITE_RETRIES
    requires attempts == MAX_WRITE_RETRIES ==> r == Failure(StateConflict) && history == h
    requires attempts < MAX_WRITE_RETRIES ==>
               match mutate(attempts, s)
               case Mutated(next) => r == Success(next) && history == h + [next]
               case Threw(error) => error == OtherError && r == Failure(error) && history == h
    ensures Decided(mutate, s, h, history, r)
  {
  }

  /** A failed call is explained by what the mutate raised on committed states and by others' commits. */
  ghost predicate FailureHasReason(mutate: Mutate, h: seq<AppState>, history: seq<AppState>, r: Result<AppState, Error>) {
    && (r == Failure(OtherError) ==> RaisedBy(mutate, history, OtherError))
    && (r == Failure(StateConflict) ==> Accounted(mutate, h, history, MAX_WRITE_RETRIES))
  }

  /** How one round of `withState` ends. */
  datatype Round = Done(state: AppState) | Raised | OwnConflict | Overtaken | LoadGaveUp

  /** What is known between two rounds; `alone` says that nobody else commits. */
  ghost predicate UnderWay(mutate: Mutate, alone: bool, h: seq<AppState>, history: seq<AppState>, attempts: nat)
    requires h != []
  {
    && Accounted(mutate, h, history, attempts)
    && (alone ==> history == h && AllConflict(mutate, h[|h| - 1], attempts))
  }

  /** What one round that began with the history `was` has to do with the history it leaves. */
  ghost predicate RoundOk(mutate: Mutate, alone: bool, attempts: nat, was: seq<AppState>, history: seq<AppState>, round: Round)
    requires was != []
  {
    && was <= history
    && (round.Raised? ==> RaisesOn(mutate, attempts, history, OtherError))
    && (round.OwnConflict? ==> RaisesOn(mutate, attempts, history, StateConflict))
    && (round.Overtaken? ==> |history| > |was|)
    && (round.LoadGaveUp? ==> |history| >= |was| + MAX_WRITE_RETRIES)
    && (alone ==> RoundAlone(mutate, attempts, was, history, round))
  }

  /** Left alone, a round does what the mutate does on the newest state. */
  ghost predicate RoundAlone(mutate: Mutate, attempts: nat, was: seq<AppState>, history: seq<AppState>, round: Round)
    requires was != []
  {
    match mutate(attempts, was[|was| - 1])
    case Mutated(next) => round == Done(next) && history == was + [next]
    case Threw(StateConflict) => round.OwnConflict? && history == was
    case Threw(OtherError) => round.Raised? && history == was
  }

  function ResultOf(round: Round): Result<AppState, Error> {
    match round
    case Done(state) => Success(state)
    case Raised => Failure(OtherError)
    case _ => Failure(StateConflict)
  }

  lemma {:induction false} NextRound(
    mutate: Mutate, alone: bool, h: seq<AppState>, was: seq<AppState>, history: seq<AppState>, attempts: nat, round: Round)
    requires h != [] && was != [] && UnderWay(mutate, alone, h, was, attempts)
    requires RoundOk(mutate, alone, attempts, was, history, round) && (round.OwnConflict? || round.Overtaken?)
    ensures UnderWay(mutate, alone, h, history, attempts + 1)
  {
    OneMoreConflict(mutate, h, was, history, attempts);
  }

  lemma {:induction false} LastRound(
    mutate: Mutate, alone: bool, h: seq<AppState>, was: seq<AppState>, history: seq<AppState>, attempts: nat, round: Round,
    s: AppState, r: Result<AppState, Error>)
    requires h != [] && was != [] && |was| >= |h| && UnderWay(mutate, alone, h, was, attempts) && attempts < MAX_WRITE_RETRIES
    requires RoundOk(mutate, alone, attempts, was, history, round) && !round.OwnConflict? && !round.Overtaken?
    requires s == h[|h| - 1] && r == ResultOf(round)
    ensures FailureHasReason(mutate, h, history, r)
    ensures alone ==> Decided(mutate, s, h, history, r)
  {
    if alone { AttemptDecides(mutate, s, h, history, r, attempts); }
  }

  datatype Snapshot = Snapshot(version: nat, state: AppState)

  class Database {
    var stateVersion: nat
    var tables: AppState
    /** Counts our accesses: `others(moment)` lands just before the access at that moment. */
    var moment: nat
    const others: nat -> seq<AppState>
    /** Every state the database has held, one for each version from `firstVersion` on. */
    ghost var history: seq<AppState>
    ghost const firstVersion: nat

    ghost predicate Valid()
      reads this
    {
      && |history| > 0
      && stateVersion == firstVersion + |history| - 1
      && tables == history[|history| - 1]
    }

    constructor (version: nat, state: AppState, others: nat -> seq<AppState>)
      ensures Valid() && stateVersion == version == firstVersion && tables == state
      ensures history == [state] && moment == 0 && this.others == others
    {
      stateVersion, tables, moment, history := version, state, 0, [state];
      this.others, firstVersion := others, version;
    }

    /** Since moment `m`, when the history was `h`, only others have committed. */
    ghost predicate OnlyOthersSince(m: nat, h: seq<AppState>)
      reads this
    {
      m <= moment && history == h + Landed(others, m, moment)
    }

    /** Since then others have committed, and last this state, which the mutate made of the one before it. */
    ghost predicate CommittedLast(mutate: Mutate, m: nat, h: seq<AppState>, state: AppState)
      reads this
    {
      var landed := h + Landed(others, m, moment);
      landed != [] && history == landed + [state] && ComputedBy(mutate, landed[|landed| - 1], state)
    }

    /** Other clients commit whatever they commit before our next access. */
    method Interference(ghost m: nat, ghost h: seq<AppState>)
      requires Valid() && OnlyOthersSince(m, h)
      modifies this
      ensures Valid() && OnlyOthersSince(m, h)
      ensures moment == old(moment) + 1
      ensures history == old(history) + others(old(moment))
      ensures stateVersion == old(stateVersion) + |others(old(moment))|
      ensures stateVersion == old(stateVersion) ==> tables == old(tables)
    {
      var commits := others(moment);
      moment := moment + 1;
      for i := 0 to |commits|
        invariant Valid() && moment == old(moment) + 1
        invariant history == old(history) + commits[..i]
        invariant stateVersion == old(stateVersion) + i
        invariant i == 0 ==> tables == old(tables)
      {
        OneMore(old(history), commits, i);
        tables, stateVersion, history := commits[i], stateVersion + 1, history + [commits[i]];
      }
      assert commits[..|commits|] == commits;
      LandedNext(others, m, old(moment), h);
    }

    /** Compare and swap of the whole state. */
    method WriteState(state: AppState, expectedVersion: nat) returns (r: Result<(), Error>)
      requires Valid()
      modifies this
      ensures Valid() && moment == old(moment) + 1
      ensures var landed := old(history) + others(old(moment));
              if expectedVersion == firstVersion + |landed| - 1
              then r == Success(()) && history == landed + [state]
              else r == Failure(StateConflict) && history == landed
    {
      assert OnlyOthersSince(moment, history);
      Interference(moment, history);
      if stateVersion != expectedVersion {
        return Failure(StateConflict);
      }
      tables := state;
      stateVersion := stateVersion + 1;
      history := history + [state];
      r := Success(());
    }

    /** The two version reads and the eight table reads between them. */
    method ReadPass(ghost m: nat, ghost h: seq<AppState>)
      returns (beforeVersion: nat, state: AppState, afterVersion: nat)
      requires Valid() && OnlyOthersSince(m, h)
      modifies this
      ensures Valid() && OnlyOthersSince(m, h) && moment > old(moment)
      ensures old(stateVersion) <= beforeVersion <= afterVersion == stateVersion
      ensures beforeVersion == afterVersion ==> state == tables
    {
      Interference(m, h);
      beforeVersion := stateVersion;
      Interference(m, h);
      var policyRows := tables.policyProfiles;
      Interference(m, h);
      var workspaceRows := tables.workspaces;
      Interference(m, h);
      var recordingRows := tables.recordings;
      Interference(m, h);
      var ingestionRows := tables.ingestionSessions;
      Interference(m, h);
      var jobRows := tables.transcriptJobs;
      Interference(m, h);
      var revisionRows := tables.revisions;
      Interference(m, h);
      var approvalRows := tables.approvals;
      Interference(m, h);
      var auditRows := tables.auditEvents;
      Interference(m, h);
      afterVersion := stateVersion;
      state := AppState(policyRows, workspaceRows, recordingRows, ingestionRows, jobRows,
                        revisionRows, approvalRows, auditRows);
    }

    /**
      Up to three passes. A snapshot that is returned is one committed state; giving up takes at
      least three commits by others.
    */
    method LoadState(ghost m: nat, ghost h: seq<AppState>) returns (r: Result<Snapshot, Error>)
      requires Valid() && OnlyOthersSince(m, h)
      modifies this
      ensures Valid() && OnlyOthersSince(m, h) && moment > old(moment)
      ensures r.Success? ==>
                && old(stateVersion) <= r.value.version <= stateVersion
                && r.value.state == history[r.value.version - firstVersion]
      ensures r.Failure? ==>
                r.error == StateConflict && stateVersion >= old(stateVersion) + MAX_WRITE_RETRIES
    {
      var attempts := 0;
      while attempts < MAX_WRITE_RETRIES
        invariant attempts <= MAX_WRITE_RETRIES
        invariant Valid() && OnlyOthersSince(m, h) && (if attempts > 0 then moment > old(moment) else moment == old(moment))
        invariant stateVersion >= old(stateVersion) + attempts
      {
        var beforeVersion, state, afterVersion := ReadPass(m, h);
        if beforeVersion != afterVersion {
          attempts := attempts + 1;
          continue;
        }
        return Success(Snapshot(afterVersion, state));
      }
      r := Failure(StateConflict);
    }

    /** The same, and what it leaves of the history. */
    method Load(ghost m: nat, ghost h: seq<AppState>) returns (r: Result<Snapshot, Error>)
      requires Valid() && OnlyOthersSince(m, h)
      modifies this
      ensures Valid() && OnlyOthersSince(m, h)
      ensures old(history) <= history && (Alone(others) ==> history == old(history))
      ensures r.Success? ==>
                && old(stateVersion) <= r.value.version <= stateVersion
                && r.value.state == history[r.value.version - firstVersion]
                && (Alone(others) ==> r.value == Snapshot(stateVersion, tables))
      ensures r.Failure? ==> |history| >= |old(history)| + MAX_WRITE_RETRIES
    {
      ghost var k := moment;
      r := LoadState(m, h);
      LandedGrows(others, m, k, moment);
      if Alone(others) {
        NothingLands(others, m, k);
        NothingLands(others, m, moment);
      }
    }

    /** One round: load, mutate, write. */
    method Attempt(mutate: Mutate, attempts: nat, ghost m: nat, ghost h: seq<AppState>) returns (r: Round)
      requires Valid() && OnlyOthersSince(m, h) && attempts < MAX_WRITE_RETRIES
      modifies this
      ensures Valid() && RoundOk(mutate, Alone(others), attempts, old(history), history, r)
      ensures r.Done? ==> CommittedLast(mutate, m, h, r.state)
      ensures !r.Done? ==> OnlyOthersSince(m, h)
    {
      ghost var was := history;
      var loaded := Load(m, h);
      if loaded.Failure? {
        return LoadGaveUp;
      }
      var Snapshot(version, state) := loaded.value;
      match mutate(attempts, state)
      case Threw(StateConflict) => return OwnConflict;
      case Threw(OtherError) => return Raised;
      case Mutated(next) =>
        ghost var seen := history;
        ghost var late := others(moment);
        var written := WriteState(next, version);
        assert Alone(others) ==> late == [] && seen + late == was;
        assert h + Landed(others, m, moment) == seen + late;
        return if written.Success? then Done(next) else Overtaken;
    }

    /**
      On success the history gains what others committed meanwhile and then, as the very last entry,
      the mutate's result on the state just before it. On failure it gains only the others' commits, and
      there is a reason: another error that the mutate raised on a committed state, or three conflicts,
      each of them a commit by others or raised by the mutate itself. Left alone, the first attempt that
      raises no conflict decides.
    */
    method WithState(mutate: Mutate) returns (r: Result<AppState, Error>)
      requires Valid()
      modifies this
      ensures Valid()
      ensures var landed := old(history) + Landed(others, old(moment), moment);
              match r
              case Success(state) =>
                && history == landed + [state]
                && ComputedBy(mutate, landed[|landed| - 1], state)
              case Failure(_) => history == landed
      ensures r == Failure(OtherError) ==> RaisedBy(mutate, history, OtherError)
      ensures r == Failure(StateConflict) ==>
                |Landed(others, old(moment), moment)| + OwnConflicts(mutate, history, MAX_WRITE_RETRIES) >= MAX_WRITE_RETRIES
      ensures r == Failure(StateConflict) && NeverConflicts(mutate) ==>
                |Landed(others, old(moment), moment)| >= MAX_WRITE_RETRIES
      ensures Alone(others) ==> Decided(mutate, old(tables), old(history), history, r)
    {
      r := Rounds(mutate, moment, history);
      NoOwnConflicts(mutate, history, MAX_WRITE_RETRIES);
    }

    method Rounds(mutate: Mutate, ghost m: nat, ghost h: seq<AppState>) returns (r: Result<AppState, Error>)
      requires Valid() && m == moment && h == history
      modifies this
      ensures Valid() && FailureHasReason(mutate, h, history, r)
      ensures r.Success? ==> CommittedLast(mutate, m, h, r.value)
      ensures r.Failure? ==> OnlyOthersSince(m, h)
      ensures Alone(others) ==> Decided(mutate, old(tables), h, history, r)
    {
      var attempts := 0;
      while attempts < MAX_WRITE_RETRIES
        invariant attempts <= MAX_WRITE_RETRIES
        invariant Valid() && OnlyOthersSince(m, h)
        invariant |history| >= |h| && UnderWay(mutate, Alone(others), h, history, attempts)
      {
        ghost var was := history;
        var round := Attempt(mutate, attempts, m, h);
        if round.OwnConflict? || round.Overtaken? {
          NextRound(mutate, Alone(others), h, was, history, attempts, round);
          attempts := attempts + 1;
          continue;
        }
        r := ResultOf(round);
        LastRound(mutate, Alone(others), h, was, history, attempts, round, old(tables), r);
        return;
      }
      r := Failure(StateConflict);
      if Alone(others) {
        AttemptDecides(mutate, old(tables), h, history, r, attempts);
      }
    }
  }
}
