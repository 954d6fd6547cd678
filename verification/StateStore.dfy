/**
  The optimistic-concurrency store: any number of clients run `withState` or `readSynchronizedState`
  against one database, interleaved at every table read and every transaction.

  A client reads the version, reads eight tables one by one, reads the version again, runs its
  mutate on the snapshot, and replaces the whole state if the version has not moved.
*/
module StateStore {
  import opened Wrappers

  const MAX_WRITE_RETRIES := 3
  const TABLES := 8

  /** The rows of one table, in the order its select returns them. */
  type Rows = seq<string>

  datatype AppState = AppState(
    policyProfiles: Rows, workspaces: Rows, recordings: Rows, ingestionSessions: Rows,
    transcriptJobs: Rows, revisions: Rows, approvals: Rows, auditEvents: Rows)

  /** Table number `i`, counted in the order in which `loadState` selects them. */
  function Table(s: AppState, i: nat): Rows
    requires i < TABLES
  {
    match i
    case 0 => s.policyProfiles
    case 1 => s.workspaces
    case 2 => s.recordings
    case 3 => s.ingestionSessions
    case 4 => s.transcriptJobs
    case 5 => s.revisions
    case 6 => s.approvals
    case _ => s.auditEvents
  }

  function Assemble(rows: seq<Rows>): AppState
    requires |rows| == TABLES
  {
    AppState(rows[0], rows[1], rows[2], rows[3], rows[4], rows[5], rows[6], rows[7])
  }

  lemma {:induction false} AssembledFromOneState(rows: seq<Rows>, s: AppState)
    requires |rows| == TABLES
    requires forall i :: 0 <= i < TABLES ==> rows[i] == Table(s, i)
    ensures Assemble(rows) == s
  {
    assert rows[0] == Table(s, 0) && rows[1] == Table(s, 1) && rows[2] == Table(s, 2) && rows[3] == Table(s, 3);
    assert rows[4] == Table(s, 4) && rows[5] == Table(s, 5) && rows[6] == Table(s, 6) && rows[7] == Table(s, 7);
  }

  datatype Error = StateConflict | OtherError

  /** What a mutate does to the snapshot it is given. */
  datatype Outcome = Mutated(state: AppState) | Threw(error: Error)

  /** A mutate may draw ids and read the clock, so its outcome also depends on which attempt runs it. */
  type Mutate = (nat, AppState) -> Outcome

  datatype Job = WithState(mutate: Mutate) | ReadSynchronized(synchronize: Mutate)

  function MutateOf(job: Job): Mutate {
    match job
    case WithState(m) => m
    case ReadSynchronized(m) => m
  }

  datatype Phase =
    | BeginLoad(loads: nat)                                  // top of the loop in loadState
    | Reading(loads: nat, before: nat, rows: seq<Rows>)      // between the two version reads
    | Loaded(version: nat, state: AppState)                  // loadState has returned
    | Writing(version: nat, state: AppState)                 // mutate has returned
    | Returned(commit: Option<nat>)                          // which commit, if it had to write
    | Thrown(error: Error)

  datatype Client = Client(attempts: nat, phase: Phase)

  datatype Author = ByClient(id: nat, attempt: nat) | ByGovernedTransaction(operation: AppState -> AppState)

  datatype Commit = Commit(author: Author, pre: AppState, post: AppState)

  /** The database, the clients, and (as a history) every commit so far. */
  datatype World = World(version: nat, state: AppState, log: seq<Commit>, clients: map<nat, Client>)

  datatype Genesis = Genesis(version: nat, state: AppState, clients: set<nat>)

  datatype Action =
    | ReadVersionBefore(c: nat)
    | ReadTable(c: nat)
    | ReadVersionAfter(c: nat)
    | ApplyMutate(c: nat)
    | WriteState(c: nat)
    | WriteFails(c: nat)                                     // the transaction rolls back on some other error
    | GovernedTransaction(operation: AppState -> AppState)

  function Init(g: Genesis): World {
    World(g.version, g.state, [], map c | c in g.clients :: Client(0, BeginLoad(0)))
  }

  /** The catch branch of `withState`: count the attempt, and give up after the third. */
  function Retry(attempts: nat): Client {
    if attempts + 1 < MAX_WRITE_RETRIES then Client(attempts + 1, BeginLoad(0))
    else Client(attempts + 1, Thrown(StateConflict))
  }

  function AfterMutate(job: Job, me: Client): Client
    requires me.phase.Loaded?
  {
    var Loaded(version, state) := me.phase;
    match job
    case WithState(mutate) =>
      (match mutate(me.attempts, state)
       case Mutated(next) => me.(phase := Writing(version, next))
       case Threw(StateConflict) => Retry(me.attempts)
       case Threw(OtherError) => me.(phase := Thrown(OtherError)))
    case ReadSynchronized(synchronize) =>
      (match synchronize(me.attempts, state)
       case Mutated(next) =>
         if next == state then me.(phase := Returned(None)) else me.(phase := Writing(version, next))
       case Threw(error) => me.(phase := Thrown(error)))
  }

  function SetClient(w: World, c: nat, me: Client): World {
    w.(clients := w.clients[c := me])
  }

  function CommitState(w: World, author: Author, post: AppState): World {
    World(w.version + 1, post, w.log + [Commit(author, w.state, post)], w.clients)
  }

  /** One atomic step; an action whose client is not at that point of its code changes nothing. */
  function Step(jobs: nat -> Job, w: World, a: Action): World {
    match a
    case ReadVersionBefore(c) =>
      if c in w.clients && w.clients[c].phase.BeginLoad? then
        var me := w.clients[c];
        SetClient(w, c, me.(phase := Reading(me.phase.loads, w.version, [])))
      else w
    case ReadTable(c) =>
      if c in w.clients && w.clients[c].phase.Reading? && |w.clients[c].phase.rows| < TABLES then
        var me := w.clients[c];
        var rows := me.phase.rows;
        SetClient(w, c, me.(phase := me.phase.(rows := rows + [Table(w.state, |rows|)])))
      else w
    case ReadVersionAfter(c) =>
      if c in w.clients && w.clients[c].phase.Reading? && |w.clients[c].phase.rows| == TABLES then
        var me := w.clients[c];
        var Reading(loads, before, rows) := me.phase;
        if before == w.version then
          SetClient(w, c, me.(phase := Loaded(w.version, Assemble(rows))))
        else if loads + 1 < MAX_WRITE_RETRIES then
          SetClient(w, c, me.(phase := BeginLoad(loads + 1)))
        else
          // readState stands outside the try block: an exhausted load is not retried
          SetClient(w, c, me.(phase := Thrown(StateConflict)))
      else w
    case ApplyMutate(c) =>
      if c in w.clients && w.clients[c].phase.Loaded? then
        SetClient(w, c, AfterMutate(jobs(c), w.clients[c]))
      else w
    case WriteState(c) =>
      if c in w.clients && w.clients[c].phase.Writing? then
        var me := w.clients[c];
        if w.version != me.phase.version then
          SetClient(w, c, Retry(me.attempts))
        else
          SetClient(CommitState(w, ByClient(c, me.attempts), me.phase.state), c,
                    me.(phase := Returned(Some(|w.log|))))
      else w
    case WriteFails(c) =>
      if c in w.clients && w.clients[c].phase.Writing? then
        SetClient(w, c, w.clients[c].(phase := Thrown(OtherError)))
      else w
    case GovernedTransaction(operation) =>
      CommitState(w, ByGovernedTransaction(operation), operation(w.state))
  }

  /** The world after a schedule: every interleaving of every number of clients is one of these. */
  function Run(jobs: nat -> Job, g: Genesis, schedule: seq<Action>): World {
    if schedule == [] then Init(g)
    else Step(jobs, Run(jobs, g, schedule[..|schedule| - 1]), schedule[|schedule| - 1])
  }

  /** The state that was current at version `v`. */
  function StateAt(g: Genesis, w: World, v: nat): AppState
    requires g.version <= v <= g.version + |w.log|
  {
    if v == g.version then g.state else w.log[v - g.version - 1].post
  }

  // ----- what every step keeps -----

  /** What the author of a commit computes from a given state. */
  function Result(jobs: nat -> Job, author: Author, s: AppState): Outcome {
    match author
    case ByClient(c, attempt) => MutateOf(jobs(c))(attempt, s)
    case ByGovernedTransaction(operation) => Mutated(operation(s))
  }

  ghost predicate Chain(jobs: nat -> Job, g: Genesis, w: World) {
    && w.version == g.version + |w.log|
    && w.state == StateAt(g, w, w.version)
    && forall i :: 0 <= i < |w.log| ==>
         && w.log[i].pre == StateAt(g, w, g.version + i)
         && Result(jobs, w.log[i].author, w.log[i].pre) == Mutated(w.log[i].post)
  }

  ghost predicate ClientOk(jobs: nat -> Job, g: Genesis, w: World, c: nat)
    requires w.version == g.version + |w.log|
    requires c in w.clients
  {
    var me := w.clients[c];
    match me.phase
    case BeginLoad(loads) => true
    case Reading(_, before, rows) =>
      && g.version <= before <= w.version && |rows| <= TABLES
      && (before == w.version ==> forall i :: 0 <= i < |rows| ==> rows[i] == Table(w.state, i))
    case Loaded(version, state) =>
      g.version <= version <= w.version && state == StateAt(g, w, version)
    case Writing(version, state) =>
      && g.version <= version <= w.version
      && MutateOf(jobs(c))(me.attempts, StateAt(g, w, version)) == Mutated(state)
    case Returned(Some(i)) => i < |w.log| && w.log[i].author == ByClient(c, me.attempts)
    case Returned(None) => true
    case Thrown(_) => true
  }

  /** A commit belongs to a client that has returned with exactly that commit. */
  ghost predicate CommitsOwned(w: World) {
    forall i :: 0 <= i < |w.log| && w.log[i].author.ByClient? ==>
      var c := w.log[i].author.id;
      c in w.clients && w.clients[c].phase == Returned(Some(i))
  }

  ghost predicate Inv(jobs: nat -> Job, g: Genesis, w: World) {
    && Chain(jobs, g, w)
    && (forall c :: c in w.clients ==> ClientOk(jobs, g, w, c))
    && CommitsOwned(w)
  }

  lemma {:induction false} CommitKeepsInv(jobs: nat -> Job, g: Genesis, w: World, author: Author, post: AppState)
    requires Inv(jobs, g, w)
    requires Result(jobs, author, w.state) == Mutated(post)
    ensures var w' := CommitState(w, author, post);
            && Chain(jobs, g, w')
            && (forall c :: c in w.clients ==> ClientOk(jobs, g, w', c))
  {
    var w' := CommitState(w, author, post);
    forall v | g.version <= v <= w.version
      ensures StateAt(g, w', v) == StateAt(g, w, v)
    {
    }
    forall c | c in w.clients
      ensures ClientOk(jobs, g, w', c)
    {
      assert ClientOk(jobs, g, w, c);
    }
  }

  /** A step that only moves client `c`, and takes no commit away from it, keeps the invariant. */
  lemma {:induction false} OneClientMoves(jobs: nat -> Job, g: Genesis, w: World, c: nat, me: Client)
    requires Inv(jobs, g, w) && c in w.clients
    requires ClientOk(jobs, g, SetClient(w, c, me), c)
    requires w.clients[c].phase.Returned? ==> me == w.clients[c]
    ensures Inv(jobs, g, SetClient(w, c, me))
  {
    var w' := SetClient(w, c, me);
    forall v | g.version <= v <= w.version
      ensures StateAt(g, w', v) == StateAt(g, w, v)
    {
    }
    forall d | d in w'.clients
      ensures ClientOk(jobs, g, w', d)
    {
      if d != c { assert ClientOk(jobs, g, w, d); }
    }
  }

  lemma {:induction false} LoadIsSnapshot(jobs: nat -> Job, g: Genesis, w: World, c: nat)
    requires Inv(jobs, g, w) && c in w.clients && w.clients[c].phase.Reading?
    requires |w.clients[c].phase.rows| == TABLES && w.clients[c].phase.before == w.version
    ensures Assemble(w.clients[c].phase.rows) == w.state
  {
    assert ClientOk(jobs, g, w, c);
    AssembledFromOneState(w.clients[c].phase.rows, w.state);
  }

  lemma {:induction false} ReadKeepsInv(jobs: nat -> Job, g: Genesis, w: World, a: Action)
    requires Inv(jobs, g, w) && (a.ReadVersionBefore? || a.ReadTable? || a.ReadVersionAfter?)
    ensures Inv(jobs, g, Step(jobs, w, a))
  {
    var w' := Step(jobs, w, a);
    if w' != w {
      assert ClientOk(jobs, g, w, a.c);
      var me := w.clients[a.c];
      if a.ReadVersionAfter? && me.phase.before == w.version {
        LoadIsSnapshot(jobs, g, w, a.c);
      }
      assert w' == SetClient(w, a.c, w'.clients[a.c]);
      assert ClientOk(jobs, g, w', a.c);
      OneClientMoves(jobs, g, w, a.c, w'.clients[a.c]);
    }
  }

  lemma {:induction false} ApplyKeepsInv(jobs: nat -> Job, g: Genesis, w: World, a: Action)
    requires Inv(jobs, g, w) && (a.ApplyMutate? || a.WriteFails?)
    ensures Inv(jobs, g, Step(jobs, w, a))
  {
    var w' := Step(jobs, w, a);
    if w' != w {
      assert ClientOk(jobs, g, w, a.c);
      OneClientMoves(jobs, g, w, a.c, w'.clients[a.c]);
    }
  }

  /** The client that commits returns with its commit, and nobody else's commit is touched. */
  lemma {:induction false} WriterReturns(jobs: nat -> Job, g: Genesis, w: World, c: nat, post: AppState)
    requires Inv(jobs, g, w) && c in w.clients && w.clients[c].phase.Writing?
    requires Result(jobs, ByClient(c, w.clients[c].attempts), w.state) == Mutated(post)
    ensures var me := w.clients[c];
            Inv(jobs, g, SetClient(CommitState(w, ByClient(c, me.attempts), post), c, me.(phase := Returned(Some(|w.log|)))))
  {
    var me := w.clients[c];
    var w1 := CommitState(w, ByClient(c, me.attempts), post);
    var w2 := SetClient(w1, c, me.(phase := Returned(Some(|w.log|))));
    CommitKeepsInv(jobs, g, w, ByClient(c, me.attempts), post);
    assert Chain(jobs, g, w2) by {
      assert forall v :: g.version <= v <= w1.version ==> StateAt(g, w2, v) == StateAt(g, w1, v);
    }
    forall d | d in w2.clients
      ensures ClientOk(jobs, g, w2, d)
    {
      if d != c {
        assert ClientOk(jobs, g, w1, d);
        assert forall v :: g.version <= v <= w1.version ==> StateAt(g, w2, v) == StateAt(g, w1, v);
      }
    }
    assert CommitsOwned(w2);
  }

  lemma {:induction false} WriteKeepsInv(jobs: nat -> Job, g: Genesis, w: World, c: nat)
    requires Inv(jobs, g, w) && c in w.clients && w.clients[c].phase.Writing?
    ensures Inv(jobs, g, Step(jobs, w, WriteState(c)))
  {
    assert ClientOk(jobs, g, w, c);
    var me := w.clients[c];
    if w.version == me.phase.version {
      WriterReturns(jobs, g, w, c, me.phase.state);
    } else {
      OneClientMoves(jobs, g, w, c, Retry(me.attempts));
    }
  }

  lemma {:induction false} StepKeepsInv(jobs: nat -> Job, g: Genesis, w: World, a: Action)
    requires Inv(jobs, g, w)
    ensures Inv(jobs, g, Step(jobs, w, a))
  {
    match a
    case GovernedTransaction(operation) =>
      CommitKeepsInv(jobs, g, w, ByGovernedTransaction(operation), operation(w.state));
    case WriteState(c) =>
      if c in w.clients && w.clients[c].phase.Writing? { WriteKeepsInv(jobs, g, w, c); }
    case ReadVersionBefore(_) => ReadKeepsInv(jobs, g, w, a);
    case ReadTable(_) => ReadKeepsInv(jobs, g, w, a);
    case ReadVersionAfter(_) => ReadKeepsInv(jobs, g, w, a);
    case ApplyMutate(_) => ApplyKeepsInv(jobs, g, w, a);
    case WriteFails(_) => ApplyKeepsInv(jobs, g, w, a);
  }

  lemma {:induction false} RunKeepsInv(jobs: nat -> Job, g: Genesis, schedule: seq<Action>)
    ensures Inv(jobs, g, Run(jobs, g, schedule))
  {
    if schedule != [] {
      RunKeepsInv(jobs, g, schedule[..|schedule| - 1]);
      StepKeepsInv(jobs, g, Run(jobs, g, schedule[..|schedule| - 1]), schedule[|schedule| - 1]);
    }
  }

  // ----- the promises -----

  /** Runs the authors of the commits one after the other, alone. */
  function SerialRun(jobs: nat -> Job, s: AppState, log: seq<Commit>): Option<AppState> {
    if log == [] then Some(s)
    else
      match SerialRun(jobs, s, log[..|log| - 1])
      case None => None
      case Some(before) =>
        match Result(jobs, log[|log| - 1].author, before)
        case Mutated(after) => Some(after)
        case Threw(_) => None
  }

  lemma {:induction false} ChainIsSerial(jobs: nat -> Job, g: Genesis, w: World, n: nat)
    requires Chain(jobs, g, w) && n <= |w.log|
    ensures SerialRun(jobs, g.state, w.log[..n]) == Some(StateAt(g, w, g.version + n))
  {
    if n > 0 {
      assert w.log[..n][..n - 1] == w.log[..n - 1];
      ChainIsSerial(jobs, g, w, n - 1);
    }
  }

  /**
    Serializability. Whatever the interleaving, the database holds what the committed jobs compute
    when they run one after the other with nobody else around, and the version counts them.
  */
  lemma {:induction false} EveryRunIsSerializable(jobs: nat -> Job, g: Genesis, schedule: seq<Action>)
    ensures var w := Run(jobs, g, schedule);
            && SerialRun(jobs, g.state, w.log) == Some(w.state)
            && w.version == g.version + |w.log|
  {
    RunKeepsInv(jobs, g, schedule);
    var w := Run(jobs, g, schedule);
    assert w.log[..|w.log|] == w.log;
    ChainIsSerial(jobs, g, w, |w.log|);
  }

  /** No lost update: each commit is its author's result on the state the previous commit left. */
  lemma {:induction false} NoLostUpdates(jobs: nat -> Job, g: Genesis, schedule: seq<Action>, i: nat)
    requires i < |Run(jobs, g, schedule).log|
    ensures var log := Run(jobs, g, schedule).log;
            && log[i].pre == (if i == 0 then g.state else log[i - 1].post)
            && Result(jobs, log[i].author, log[i].pre) == Mutated(log[i].post)
  {
    RunKeepsInv(jobs, g, schedule);
  }

  /** The seqlock: a load that returns saw all eight tables of one committed state. */
  lemma {:induction false} LoadsAreSnapshots(jobs: nat -> Job, g: Genesis, schedule: seq<Action>, c: nat)
    requires c in g.clients
    ensures var w := Run(jobs, g, schedule);
            c in w.clients && (w.clients[c].phase.Loaded? ==>
              && g.version <= w.clients[c].phase.version <= w.version == g.version + |w.log|
              && w.clients[c].phase.state == StateAt(g, w, w.clients[c].phase.version))
  {
    RunKeepsInv(jobs, g, schedule);
    ClientsStay(jobs, g, schedule);
    var w := Run(jobs, g, schedule);
    assert ClientOk(jobs, g, w, c);
  }

  lemma {:induction false} ClientsStay(jobs: nat -> Job, g: Genesis, schedule: seq<Action>)
    ensures Run(jobs, g, schedule).clients.Keys == g.clients
  {
    if schedule != [] {
      ClientsStay(jobs, g, schedule[..|schedule| - 1]);
    }
  }

  /**
    A client that returned from a write committed exactly once; one that threw, that gave up, that
    had nothing to write or that is still running has committed nothing.
  */
  lemma {:induction false} CommitsExactlyOnce(jobs: nat -> Job, g: Genesis, schedule: seq<Action>, c: nat)
    requires c in g.clients
    ensures var w := Run(jobs, g, schedule);
            && c in w.clients
            && (forall i :: 0 <= i < |w.log| ==>
                  ((w.log[i].author.ByClient? && w.log[i].author.id == c)
                   <==> w.clients[c].phase == Returned(Some(i))))
  {
    RunKeepsInv(jobs, g, schedule);
    ClientsStay(jobs, g, schedule);
    var w := Run(jobs, g, schedule);
    assert ClientOk(jobs, g, w, c);
  }

  // ----- giving up means that the others got through -----

  /** The conflicts a client has met never outnumber the commits that have landed since version `start`. */
  ghost predicate ConflictsPaid(start: nat, w: World, c: nat)
    requires c in w.clients
  {
    var me := w.clients[c];
    match me.phase
    case BeginLoad(loads) => start + me.attempts + loads <= w.version
    case Reading(loads, before, _) => start + me.attempts + loads <= before <= w.version
    case Loaded(version, _) => start + me.attempts <= version <= w.version
    case Writing(version, _) => start + me.attempts <= version <= w.version
    case Returned(_) => true
    case Thrown(StateConflict) => start + MAX_WRITE_RETRIES <= w.version
    case Thrown(OtherError) => true
  }

  ghost predicate NeverThrowsConflict(job: Job) {
    forall attempt: nat, s: AppState :: MutateOf(job)(attempt, s) != Threw(StateConflict)
  }

  lemma {:induction false} StepKeepsConflictsPaid(jobs: nat -> Job, start: nat, w: World, a: Action, c: nat)
    requires NeverThrowsConflict(jobs(c))
    requires c in w.clients && ConflictsPaid(start, w, c)
    ensures c in Step(jobs, w, a).clients && ConflictsPaid(start, Step(jobs, w, a), c)
    ensures w.log <= Step(jobs, w, a).log
  {
    if a == ApplyMutate(c) && w.clients[c].phase.Loaded? {
      var me := w.clients[c];
      assert MutateOf(jobs(c))(me.attempts, me.phase.state) != Threw(StateConflict);
    }
  }

  lemma {:induction false} RunOneMore(jobs: nat -> Job, g: Genesis, before: seq<Action>, since: seq<Action>)
    requires since != []
    ensures Run(jobs, g, before + since)
         == Step(jobs, Run(jobs, g, before + since[..|since| - 1]), since[|since| - 1])
  {
    assert (before + since)[..|before + since| - 1] == before + since[..|since| - 1];
  }

  lemma {:induction false} ConflictsStayPaid(
    jobs: nat -> Job, g: Genesis, before: seq<Action>, since: seq<Action>, c: nat)
    requires NeverThrowsConflict(jobs(c))
    requires var w0 := Run(jobs, g, before); c in w0.clients && w0.clients[c] == Client(0, BeginLoad(0))
    ensures var w0, w := Run(jobs, g, before), Run(jobs, g, before + since);
            c in w.clients && ConflictsPaid(w0.version, w, c) && w0.log <= w.log
  {
    if since == [] {
      assert before + since == before;
      assert ConflictsPaid(Run(jobs, g, before).version, Run(jobs, g, before), c);
    } else {
      var n := |since| - 1;
      ConflictsStayPaid(jobs, g, before, since[..n], c);
      RunOneMore(jobs, g, before, since);
      StepKeepsConflictsPaid(jobs, Run(jobs, g, before).version, Run(jobs, g, before + since[..n]), since[n], c);
    }
  }

  /**
    Take any moment at which a client has yet to execute its first statement. If the client, whose own
    code raises no conflict, later gives up with a conflict, then at least three commits have landed
    since that moment, and none of them is its own: somebody else always makes progress.
  */
  lemma {:induction false} GivingUpMeansOthersCommitted(
    jobs: nat -> Job, g: Genesis, before: seq<Action>, since: seq<Action>, c: nat)
    requires c in g.clients && NeverThrowsConflict(jobs(c))
    requires var w0 := Run(jobs, g, before); c in w0.clients && w0.clients[c] == Client(0, BeginLoad(0))
    ensures var w0, w := Run(jobs, g, before), Run(jobs, g, before + since);
            && c in w.clients && w0.log <= w.log
            && (w.clients[c].phase == Thrown(StateConflict) ==>
                  && |w.log| >= |w0.log| + MAX_WRITE_RETRIES
                  && forall i :: |w0.log| <= i < |w.log| ==> !(w.log[i].author.ByClient? && w.log[i].author.id == c))
  {
    ConflictsStayPaid(jobs, g, before, since, c);
    RunKeepsInv(jobs, g, before);
    RunKeepsInv(jobs, g, before + since);
    CommitsExactlyOnce(jobs, g, before + since, c);
  }

  // ----- a client left alone commits -----

  function Repeat(jobs: nat -> Job, w: World, a: Action, n: nat): World {
    if n == 0 then w else Step(jobs, Repeat(jobs, w, a, n - 1), a)
  }

  lemma {:induction false} ReadsInOrder(jobs: nat -> Job, w: World, c: nat, loads: nat, n: nat)
    requires n <= TABLES && c in w.clients && w.clients[c].phase == Reading(loads, w.version, [])
    ensures var w' := Repeat(jobs, w, ReadTable(c), n);
            && w' == w.(clients := w'.clients) && c in w'.clients
            && w'.clients == w.clients[c := w'.clients[c]]
            && w'.clients[c] == w.clients[c].(phase := w'.clients[c].phase)
            && w'.clients[c].phase.Reading? && |w'.clients[c].phase.rows| == n
            && w'.clients[c].phase.loads == loads && w'.clients[c].phase.before == w.version
            && forall i :: 0 <= i < n ==> w'.clients[c].phase.rows[i] == Table(w.state, i)
  {
    if n > 0 {
      ReadsInOrder(jobs, w, c, loads, n - 1);
    }
  }

  /** Undisturbed, one pass through the code commits the mutate's result on the current state. */
  lemma {:induction false} UndisturbedClientCommits(jobs: nat -> Job, w: World, c: nat, next: AppState)
    requires c in w.clients && w.clients[c].phase.BeginLoad? && jobs(c).WithState?
    requires jobs(c).mutate(w.clients[c].attempts, w.state) == Mutated(next)
    ensures var w1 := Step(jobs, w, ReadVersionBefore(c));
            var w2 := Repeat(jobs, w1, ReadTable(c), TABLES);
            var w3 := Step(jobs, Step(jobs, Step(jobs, w2, ReadVersionAfter(c)), ApplyMutate(c)), WriteState(c));
            w3 == World(w.version + 1, next,
                        w.log + [Commit(ByClient(c, w.clients[c].attempts), w.state, next)],
                        w.clients[c := Client(w.clients[c].attempts, Returned(Some(|w.log|)))])
  {
    var w1 := Step(jobs, w, ReadVersionBefore(c));
    ReadsInOrder(jobs, w1, c, w.clients[c].phase.loads, TABLES);
    var w2 := Repeat(jobs, w1, ReadTable(c), TABLES);
    AssembledFromOneState(w2.clients[c].phase.rows, w.state);
    var w4 := Step(jobs, Step(jobs, w2, ReadVersionAfter(c)), ApplyMutate(c));
    assert w4.clients[c] == Client(w.clients[c].attempts, Writing(w.version, next));
    var w3 := Step(jobs, w4, WriteState(c));
    assert w3.clients == w.clients[c := Client(w.clients[c].attempts, Returned(Some(|w.log|)))];
  }

  /**
    Undisturbed, a synchronizing reader returns without writing exactly if nothing needed to be written,
    and otherwise commits what it computed; an error of its own is passed on.
  */
  lemma {:induction false} UndisturbedReaderSynchronizes(jobs: nat -> Job, w: World, c: nat)
    requires c in w.clients && w.clients[c].phase.BeginLoad? && jobs(c).ReadSynchronized?
    ensures var me := w.clients[c];
            var w1 := Step(jobs, w, ReadVersionBefore(c));
            var w2 := Repeat(jobs, w1, ReadTable(c), TABLES);
            var w4 := Step(jobs, Step(jobs, w2, ReadVersionAfter(c)), ApplyMutate(c));
            match jobs(c).synchronize(me.attempts, w.state)
            case Threw(error) => w4 == w.(clients := w.clients[c := me.(phase := Thrown(error))])
            case Mutated(next) =>
              if next == w.state then w4 == w.(clients := w.clients[c := me.(phase := Returned(None))])
              else Step(jobs, w4, WriteState(c)) ==
                     World(w.version + 1, next, w.log + [Commit(ByClient(c, me.attempts), w.state, next)],
                           w.clients[c := Client(me.attempts, Returned(Some(|w.log|)))])
  {
    var me := w.clients[c];
    var w1 := Step(jobs, w, ReadVersionBefore(c));
    ReadsInOrder(jobs, w1, c, me.phase.loads, TABLES);
    var w2 := Repeat(jobs, w1, ReadTable(c), TABLES);
    AssembledFromOneState(w2.clients[c].phase.rows, w.state);
    var w3 := Step(jobs, w2, ReadVersionAfter(c));
    assert w3 == w.(clients := w.clients[c := Client(me.attempts, Loaded(w.version, w.state))]);
    AppliedInPlace(jobs, w, w3, c);
  }

  lemma {:induction false} AppliedInPlace(jobs: nat -> Job, w: World, w3: World, c: nat)
    requires c in w.clients && w3 == w.(clients := w.clients[c := Client(w.clients[c].attempts, Loaded(w.version, w.state))])
    ensures var w4 := Step(jobs, w3, ApplyMutate(c));
            w4 == w.(clients := w.clients[c := AfterMutate(jobs(c), w3.clients[c])])
  {
    var w4 := Step(jobs, w3, ApplyMutate(c));
    assert w4.clients == w.clients[c := AfterMutate(jobs(c), w3.clients[c])];
  }
}
