/**
  The coalescing sweep scheduler of the ingest watcher. The event loop runs one callback at a time;
  each action below is one such callback, and a schedule is any sequence of them.
*/
module SweepScheduler {
  import opened Wrappers

  /** An async runner is inside a sweep, or has left its loop while its `finally` is still to come. */
  datatype Phase = Sweeping | Leaving

  datatype Shutdown = NotCalled | Waiting(promise: Option<nat>) | Resolved

  datatype State = State(
    stopping: bool,
    sweepRequested: bool,
    activeSweep: Option<nat>,        // the promise of a runner, named by the runner's number
    runners: map<nat, Phase>,        // every runner that has not settled
    created: nat,                    // runners created so far
    shutdown: Shutdown,
    starts: nat,                     // history: sweeps started so far
    requests: seq<nat>)              // history: for each accepted request, the starts before it

  datatype Action = Schedule | SweepEnds(runner: nat) | RunnerSettles(runner: nat) | ShutDown | ShutdownResolves

  const INITIAL := State(false, false, None, map[], 0, NotCalled, 0, [])

  /** The head of the runner's loop. */
  function LoopHead(s: State, runner: nat): State {
    if s.sweepRequested && !s.stopping then
      s.(sweepRequested := false, starts := s.starts + 1, runners := s.runners[runner := Sweeping])
    else s.(runners := s.runners[runner := Leaving])
  }

  function ScheduleSweep(s: State): State {
    if s.stopping then s
    else
      var asked := s.(sweepRequested := true, requests := s.requests + [s.starts]);
      if asked.activeSweep.Some? then asked
      else
        // the runner starts at once, up to the first await inside its first sweep
        LoopHead(asked, s.created).(activeSweep := Some(s.created), created := s.created + 1)
  }

  /** `finally`: clear the promise, and start over if a request came in after the loop had ended. */
  function Finally(s: State, runner: nat): State {
    var settled := s.(runners := s.runners - {runner}, activeSweep := None);
    if settled.sweepRequested && !settled.stopping then ScheduleSweep(settled) else settled
  }

  function Step(s: State, a: Action): State {
    match a
    case Schedule => ScheduleSweep(s)
    case SweepEnds(r) => if r in s.runners && s.runners[r].Sweeping? then LoopHead(s, r) else s
    case RunnerSettles(r) => if r in s.runners && s.runners[r].Leaving? then Finally(s, r) else s
    case ShutDown =>
      if s.shutdown.NotCalled? then s.(stopping := true, shutdown := Waiting(s.activeSweep)) else s
    case ShutdownResolves =>
      // the awaited promise has settled once its runner's `finally` has run
      if s.shutdown.Waiting? && (s.shutdown.promise.Some? ==> s.shutdown.promise.value !in s.runners) then
        s.(shutdown := Resolved)
      else s
  }

  function Run(s: State, schedule: seq<Action>): State {
    if schedule == [] then s
    else Step(Run(s, schedule[..|schedule| - 1]), schedule[|schedule| - 1])
  }

  ghost predicate Inv(s: State) {
    && s.runners.Keys == (if s.activeSweep.Some? then {s.activeSweep.value} else {})
    && (forall r :: r in s.runners ==> r < s.created)
    && (s.sweepRequested && !s.stopping ==> s.activeSweep.Some?)
    && (forall i :: 0 <= i < |s.requests| ==>
          s.requests[i] <= s.starts && (s.requests[i] == s.starts ==> s.sweepRequested || s.stopping))
    && (!s.shutdown.NotCalled? ==> s.stopping)
    && (s.shutdown.Waiting? && s.shutdown.promise.None? ==> s.activeSweep.None?)
    && (s.shutdown.Waiting? && s.activeSweep.Some? ==> s.shutdown.promise == s.activeSweep)
    && (s.shutdown.Resolved? ==> s.activeSweep.None?)
  }

  lemma {:induction false} StepKeepsInv(s: State, a: Action)
    requires Inv(s)
    ensures Inv(Step(s, a))
  {
    match a
    case RunnerSettles(r) =>
      if r in s.runners && s.runners[r].Leaving? {
        assert (s.runners - {r}).Keys == {};
      }
    case _ =>
  }

  lemma {:induction false} RunKeepsInv(schedule: seq<Action>)
    ensures Inv(Run(INITIAL, schedule))
  {
    if schedule != [] {
      RunKeepsInv(schedule[..|schedule| - 1]);
      StepKeepsInv(Run(INITIAL, schedule[..|schedule| - 1]), schedule[|schedule| - 1]);
    }
  }

  /** Sweeps never overlap: two unsettled runners are the same runner. */
  lemma {:induction false} OneSweepAtATime(schedule: seq<Action>, r: nat, r': nat)
    requires r in Run(INITIAL, schedule).runners && r' in Run(INITIAL, schedule).runners
    ensures r == r'
  {
    RunKeepsInv(schedule);
  }

  /**
    No request is lost: as long as nothing stops the watcher, either a sweep has started after the
    request, or a runner is at work and still sees the request.
  */
  lemma {:induction false} RequestsAreRemembered(schedule: seq<Action>, i: nat)
    requires i < |Run(INITIAL, schedule).requests| && !Run(INITIAL, schedule).stopping
    ensures var s := Run(INITIAL, schedule);
            s.requests[i] < s.starts || (s.sweepRequested && s.activeSweep.Some? && s.activeSweep.value in s.runners)
  {
    RunKeepsInv(schedule);
  }

  /** When everything is quiet, every request has been followed by a sweep that started after it. */
  lemma {:induction false} QuietMeansServed(schedule: seq<Action>, i: nat)
    requires Run(INITIAL, schedule).runners == map[] && !Run(INITIAL, schedule).stopping
    requires i < |Run(INITIAL, schedule).requests|
    ensures Run(INITIAL, schedule).requests[i] < Run(INITIAL, schedule).starts
  {
    RunKeepsInv(schedule);
  }

  /** An open request is served by the very next step of the one runner there is. */
  lemma {:induction false} NextRunnerStepServes(schedule: seq<Action>)
    requires !Run(INITIAL, schedule).stopping && Run(INITIAL, schedule).sweepRequested
    ensures var s := Run(INITIAL, schedule);
            && s.activeSweep.Some? && s.activeSweep.value in s.runners
            && Step(s, if s.runners[s.activeSweep.value].Sweeping? then SweepEnds(s.activeSweep.value)
                       else RunnerSettles(s.activeSweep.value)).starts == s.starts + 1
  {
    RunKeepsInv(schedule);
  }

  /** Once shutdown has resolved, no sweep runs and none ever starts, whatever comes in. */
  lemma {:induction false} ShutdownIsFinal(before: seq<Action>, after: seq<Action>)
    requires Run(INITIAL, before).shutdown.Resolved?
    ensures var s := Run(Run(INITIAL, before), after);
            s.runners == map[] && s.starts == Run(INITIAL, before).starts && s.shutdown.Resolved? && Inv(s)
  {
    RunKeepsInv(before);
    if after != [] {
      ShutdownIsFinal(before, after[..|after| - 1]);
      StepKeepsInv(Run(Run(INITIAL, before), after[..|after| - 1]), after[|after| - 1]);
    }
  }

  /** And it does resolve: the runner it waits for needs at most two more steps of its own. */
  lemma {:induction false} ShutdownResolvesSoon(schedule: seq<Action>)
    requires Run(INITIAL, schedule).shutdown.Waiting?
    ensures var s := Run(INITIAL, schedule);
            var s' := if s.activeSweep.None? then s
                      else Step(Step(s, SweepEnds(s.activeSweep.value)), RunnerSettles(s.activeSweep.value));
            Step(s', ShutdownResolves).shutdown.Resolved?
  {
    RunKeepsInv(schedule);
    var s := Run(INITIAL, schedule);
    if s.activeSweep.Some? {
      var s1 := Step(s, SweepEnds(s.activeSweep.value));
      StepKeepsInv(s, SweepEnds(s.activeSweep.value));
      StepKeepsInv(s1, RunnerSettles(s.activeSweep.value));
    }
  }

  // ----- how many sweeps, and when -----

  function Scheduled(schedule: seq<Action>): nat {
    if schedule == [] then 0
    else Scheduled(schedule[..|schedule| - 1]) + if schedule[|schedule| - 1].Schedule? then 1 else 0
  }

  /** No sweep is made up: there are never more sweeps, the one still owed included, than were asked for. */
  lemma {:induction false} SweepsWereAskedFor(schedule: seq<Action>)
    ensures var s := Run(INITIAL, schedule);
            s.starts + (if s.sweepRequested then 1 else 0) <= Scheduled(schedule)
  {
    if schedule != [] {
      SweepsWereAskedFor(schedule[..|schedule| - 1]);
    }
  }

  /** A request is refused once stopping; else it is recorded, and starts a sweep at once or waits for the active one. */
  lemma {:induction false} RequestStartsOrWaits(s: State)
    requires Inv(s)
    ensures var r := Step(s, Schedule);
            && (s.stopping ==> r == s)
            && (!s.stopping ==> r.requests == s.requests + [s.starts])
            && (!s.stopping && s.activeSweep.None? ==>
                  r.starts == s.starts + 1 && !r.sweepRequested && r.runners == map[s.created := Sweeping] && r.activeSweep == Some(s.created))
            && (!s.stopping && s.activeSweep.Some? ==>
                  r.starts == s.starts && r.sweepRequested && r.runners == s.runners && r.activeSweep == s.activeSweep)
  {
    if !s.stopping && s.activeSweep.None? {
      assert s.runners == map[];
    }
  }

  function Repeated(s: State, n: nat): State {
    if n == 0 then s else Step(Repeated(s, n - 1), Schedule)
  }

  lemma {:induction false} RepeatedWaits(s: State, r: nat, n: nat)
    requires Inv(s) && !s.stopping && s.activeSweep == Some(r)
    ensures var m := Repeated(s, n);
            && Inv(m) && m.runners == s.runners && m.activeSweep == s.activeSweep && !m.stopping
            && m.starts == s.starts && m.shutdown == s.shutdown && m.created == s.created
            && m.sweepRequested == (s.sweepRequested || n > 0)
  {
    if n > 0 {
      RepeatedWaits(s, r, n - 1);
      StepKeepsInv(Repeated(s, n - 1), Schedule);
    }
  }

  /** Any number of requests during a sweep come to one more sweep, after which the runner leaves. */
  lemma {:induction false} BurstIsOneSweep(s: State, r: nat, n: nat)
    requires Inv(s) && !s.stopping && s.activeSweep == Some(r) && s.runners == map[r := Sweeping] && n > 0
    ensures var next := Step(Repeated(s, n), SweepEnds(r));
            && next.starts == s.starts + 1 && next.runners == map[r := Sweeping]
            && var last := Step(next, SweepEnds(r));
               && last.starts == s.starts + 1 && last.runners == map[r := Leaving]
               && Step(last, RunnerSettles(r)).runners == map[] && Step(last, RunnerSettles(r)).starts == s.starts + 1
  {
    RepeatedWaits(s, r, n);
    var next := Step(Repeated(s, n), SweepEnds(r));
    var last := Step(next, SweepEnds(r));
    assert last.runners - {r} == map[];
  }

  /** From the call of shutdown on, no sweep starts. */
  lemma {:induction false} StoppedStartsNothing(s: State, after: seq<Action>)
    requires s.stopping
    ensures Run(s, after).stopping && Run(s, after).starts == s.starts
    ensures Step(s, ShutDown).stopping
  {
    if after != [] {
      StoppedStartsNothing(s, after[..|after| - 1]);
    }
  }

  lemma {:induction false} ShutDownStops(s: State)
    requires s.shutdown.NotCalled?
    ensures var r := Step(s, ShutDown);
            r.stopping && r.shutdown == Waiting(s.activeSweep) && r.starts == s.starts && r.runners == s.runners
    ensures Step(Step(s, ShutDown), ShutDown) == Step(s, ShutDown)
  {
  }

  // ----- the code that changes the flags -----

  class Scheduler {
    var stopping: bool
    var sweepRequested: bool
    var activeSweep: Option<nat>
    var runners: map<nat, Phase>
    var created: nat
    var shutdown: Shutdown
    ghost var starts: nat
    ghost var requests: seq<nat>

    ghost function View(): State
      reads this
    {
      State(stopping, sweepRequested, activeSweep, runners, created, shutdown, starts, requests)
    }

    constructor ()
      ensures View() == INITIAL
    {
      stopping, sweepRequested, activeSweep, runners, created, shutdown := false, false, None, map[], 0, NotCalled;
      starts, requests := 0, [];
    }

    method RunLoop(runner: nat)
      modifies this
      ensures View() == LoopHead(old(View()), runner)
    {
      if sweepRequested && !stopping {
        sweepRequested := false;
        starts := starts + 1;
        runners := runners[runner := Sweeping];
      } else {
        runners := runners[runner := Leaving];
      }
    }

    method Request()
      modifies this
      ensures View() == ScheduleSweep(old(View()))
    {
      if stopping {
        return;
      }
      sweepRequested := true;
      requests := requests + [starts];
      if activeSweep.Some? {
        return;
      }
      var runner := created;
      created := created + 1;
      RunLoop(runner);
      activeSweep := Some(runner);
    }

    method Settle(runner: nat)
      modifies this
      ensures View() == Finally(old(View()), runner)
    {
      runners := runners - {runner};
      activeSweep := None;
      if sweepRequested && !stopping {
        Request();
      }
    }

    method BeginShutdown()
      modifies this
      ensures View() == Step(old(View()), ShutDown)
    {
      if !shutdown.NotCalled? {
        return;
      }
      stopping := true;
      shutdown := Waiting(activeSweep);
    }

    /** Any run of the event loop, keeping everything proved of `Run`. */
    method EventLoop(schedule: seq<Action>)
      requires View() == INITIAL
      modifies this
      ensures View() == Run(INITIAL, schedule) && Inv(View())
    {
      for i := 0 to |schedule|
        invariant View() == Run(INITIAL, schedule[..i])
      {
        assert schedule[..i + 1][..i] == schedule[..i];
        match schedule[i]
        case Schedule => Request();
        case SweepEnds(r) => if r in runners && runners[r].Sweeping? { RunLoop(r); }
        case RunnerSettles(r) => if r in runners && runners[r].Leaving? { Settle(r); }
        case ShutDown => BeginShutdown();
        case ShutdownResolves =>
          if shutdown.Waiting? && (shutdown.promise.Some? ==> shutdown.promise.value !in runners) {
            shutdown := Resolved;
          }
      }
      assert schedule[..|schedule|] == schedule;
      RunKeepsInv(schedule);
    }
  }
}
