/**
  The worker's heartbeat sender: callers update fields and flush, a loop thread posts. The state
  lock makes each of its three critical sections one step; the send lock is held across a post.
  Thread 0 is the loop, every other thread is a caller of `update`, `flush` and `stop`.
*/
module Heartbeat {
  import opened Wrappers

  datatype Fields = Fields(
    state: string, progress: Option<int>, etaSeconds: int, diarizationStatus: string,
    transcribedUntilMs: Option<int>, audioDurationMs: Option<int>, segmentsSeen: Option<int>)

  /** The keyword arguments of `update`; absent means unchanged. */
  datatype Patch = Patch(
    state: Option<string>, progress: Option<int>, etaSeconds: Option<int>, diarizationStatus: Option<string>,
    transcribedUntilMs: Option<int>, audioDurationMs: Option<int>, segmentsSeen: Option<int>)

  function Or<T>(o: Option<T>, default: T): T {
    match o case Some(v) => v case None => default
  }

  function OrElse<T>(o: Option<T>, default: Option<T>): Option<T> {
    if o.Some? then o else default
  }

  function MergeStage(f: Fields, p: Patch): Fields {
    f.(state := Or(p.state, f.state), progress := OrElse(p.progress, f.progress),
       etaSeconds := Or(p.etaSeconds, f.etaSeconds), diarizationStatus := Or(p.diarizationStatus, f.diarizationStatus))
  }

  function MergeCounts(f: Fields, p: Patch): Fields {
    f.(transcribedUntilMs := OrElse(p.transcribedUntilMs, f.transcribedUntilMs),
       audioDurationMs := OrElse(p.audioDurationMs, f.audioDurationMs),
       segmentsSeen := OrElse(p.segmentsSeen, f.segmentsSeen))
  }

  function Merge(f: Fields, p: Patch): Fields {
    MergeCounts(MergeStage(f, p), p)
  }

  predicate Changes(p: Patch) {
    p != Patch(None, None, None, None, None, None, None)
  }

  function Max(a: nat, b: nat): nat { if a < b then b else a }

  /** Where a thread is. `Waking` and everything up to a snapshot will still notice a new version. */
  datatype Pc =
    | Calling                                // a caller between two calls
    | Waking                                 // left the state lock, about to set the wake flag
    | WantSend(pendingOnly: bool)
    | HasSend(pendingOnly: bool)             // holds the send lock, about to take the snapshot
    | Posting(version: nat)                  // holds the send lock, the request is out
    | Posted(version: nat)                   // holds the send lock, about to record the version
    | LoopTop
    | LoopWaiting
    | LoopWoken(forUpdate: bool)             // about to clear the wake flag
    | LoopCleared(forUpdate: bool)           // about to test the stop flag
    | LoopDelay                              // about to compute the delay under the send lock
    | LoopSleeping
    | Exited

  datatype Post = Post(version: nat, payload: Fields)

  datatype World = World(
    fields: Fields, updateVersion: nat, sentVersion: nat,
    wake: bool, stop: bool, sendLock: Option<nat>, threads: map<nat, Pc>,
    versions: seq<Fields>,                   // history: the fields at each version
    posts: seq<Post>,                        // history: every post, in the order they went out
    lastDelivered: Option<Post>,             // history
    failedVersion: nat)                      // history: the highest version a failed post carried

  datatype Action =
    | Update(t: nat, patch: Patch)
    | SetWake(t: nat)
    | Flush(t: nat)
    | Stop(t: nat)
    | AcquireSend(t: nat)
    | TakeSnapshot(t: nat)
    | PostReturns(t: nat, delivered: bool)
    | RecordSent(t: nat)
    | TestStop
    | WaitReturns(forUpdate: bool)
    | ClearWake
    | TestStopAgain
    | ReadDelay(sleep: bool)
    | SleepEnds

  function Init(f: Fields, callers: set<nat>): World {
    World(f, 0, 0, false, false, None,
          map t | t in callers + {0} :: if t == 0 then LoopTop else Calling,
          [f], [], None, 0)
  }

  predicate At(w: World, t: nat, pc: Pc) {
    t in w.threads && w.threads[t] == pc
  }

  function Goto(w: World, t: nat, pc: Pc): World {
    w.(threads := w.threads[t := pc])
  }

  /** Give the send lock back and return to where the post was called from. */
  function Release(w: World, t: nat): World {
    Goto(w.(sendLock := None), t, if t == 0 then LoopTop else Calling)
  }

  /** The first critical section: `update` under the state lock. */
  function UpdateBy(w: World, t: nat, patch: Patch): World {
    if !At(w, t, Calling) || !Changes(patch) then w
    else
      var f := Merge(w.fields, patch);
      Goto(w.(fields := f, updateVersion := w.updateVersion + 1, versions := w.versions + [f]), t, Waking)
  }

  /** The second: read version and payload under both locks. */
  function SnapshotBy(w: World, t: nat): World {
    if t in w.threads && w.threads[t].HasSend? then
      if w.threads[t].pendingOnly && w.sentVersion >= w.updateVersion then Release(w, t)
      else Goto(w.(posts := w.posts + [Post(w.updateVersion, w.fields)]), t, Posting(w.updateVersion))
    else w
  }

  function PostReturnsTo(w: World, t: nat, delivered: bool): World {
    if t in w.threads && w.threads[t].Posting? && |w.posts| > 0 then
      var version := w.threads[t].version;
      if delivered then Goto(w.(lastDelivered := Some(w.posts[|w.posts| - 1])), t, Posted(version))
      else Release(w.(failedVersion := Max(w.failedVersion, version)), t)
    else w
  }

  /** The third: record the version that was sent. */
  function RecordBy(w: World, t: nat): World {
    if t in w.threads && w.threads[t].Posted? then
      Release(w.(sentVersion := Max(w.sentVersion, w.threads[t].version)), t)
    else w
  }

  function Step(w: World, a: Action): World {
    match a
    case Update(t, patch) => UpdateBy(w, t, patch)
    case TakeSnapshot(t) => SnapshotBy(w, t)
    case PostReturns(t, delivered) => PostReturnsTo(w, t, delivered)
    case RecordSent(t) => RecordBy(w, t)
    case SetWake(t) => if At(w, t, Waking) then Goto(w.(wake := true), t, Calling) else w
    case Flush(t) => if At(w, t, Calling) then Goto(w, t, WantSend(true)) else w
    case Stop(t) => if At(w, t, Calling) then Goto(w.(stop := true), t, Waking) else w
    case AcquireSend(t) =>
      if t in w.threads && w.threads[t].WantSend? && w.sendLock.None? then
        Goto(w.(sendLock := Some(t)), t, HasSend(w.threads[t].pendingOnly))
      else w
    case TestStop => if At(w, 0, LoopTop) then Goto(w, 0, if w.stop then Exited else LoopWaiting) else w
    case WaitReturns(forUpdate) =>
      if At(w, 0, LoopWaiting) && (forUpdate ==> w.wake) then Goto(w, 0, LoopWoken(forUpdate)) else w
    case ClearWake =>
      if 0 in w.threads && w.threads[0].LoopWoken? then
        Goto(w.(wake := false), 0, LoopCleared(w.threads[0].forUpdate))
      else w
    case TestStopAgain =>
      if 0 in w.threads && w.threads[0].LoopCleared? then
        Goto(w, 0, if w.stop then Exited else if w.threads[0].forUpdate then LoopDelay else WantSend(false))
      else w
    case ReadDelay(sleep) =>
      if At(w, 0, LoopDelay) && w.sendLock.None? then Goto(w, 0, if sleep then LoopSleeping else WantSend(true)) else w
    case SleepEnds => if At(w, 0, LoopSleeping) then Goto(w, 0, if w.stop then Exited else WantSend(true)) else w
  }

  function Run(w: World, schedule: seq<Action>): World {
    if schedule == [] then w
    else Step(Run(w, schedule[..|schedule| - 1]), schedule[|schedule| - 1])
  }

  // ----- what every step keeps -----

  predicate Holding(pc: Pc) {
    pc.HasSend? || pc.Posting? || pc.Posted?
  }

  ghost predicate LocksOk(w: World) {
    forall t :: t in w.threads ==> (Holding(w.threads[t]) <==> w.sendLock == Some(t))
  }

  ghost predicate VersionsOk(w: World) {
    && |w.versions| == w.updateVersion + 1
    && w.fields == w.versions[w.updateVersion]
    && w.sentVersion <= w.updateVersion && w.failedVersion <= w.updateVersion
  }

  ghost predicate PostsOk(w: World)
    requires VersionsOk(w)
  {
    && (forall i :: 0 <= i < |w.posts| ==>
          w.posts[i].version <= w.updateVersion && w.posts[i].payload == w.versions[w.posts[i].version])
    && (forall i, j :: 0 <= i <= j < |w.posts| ==> w.posts[i].version <= w.posts[j].version)
    && (forall t :: t in w.threads && (w.threads[t].Posting? || w.threads[t].Posted?) ==>
          |w.posts| > 0 && w.posts[|w.posts| - 1].version == w.threads[t].version)
  }

  /** The recorded version is the last delivered one, except while that is still being recorded. */
  ghost predicate SentOk(w: World) {
    match w.lastDelivered
    case None => w.sentVersion == 0 && forall t :: t in w.threads ==> !w.threads[t].Posted?
    case Some(p) =>
      && p in w.posts && w.sentVersion <= p.version
      && (forall t :: t in w.threads && w.threads[t].Posted? ==> w.threads[t].version == p.version)
      && ((forall t :: t in w.threads ==> !w.threads[t].Posted?) ==> w.sentVersion == p.version)
  }

  /** A thread that will bring the newest version out, or is doing so. */
  predicate Covers(w: World, pc: Pc) {
    BeforeSnapshot(pc) || (Sending(pc) && pc.version == w.updateVersion)
  }

  ghost predicate Covered(w: World) {
    exists t :: t in w.threads && Covers(w, w.threads[t])
  }

  predicate Pending(w: World) {
    w.sentVersion < w.updateVersion
  }

  ghost predicate WakeOk(w: World) {
    Pending(w) && w.failedVersion < w.updateVersion && !w.stop ==> w.wake || Covered(w)
  }

  ghost predicate Inv(w: World) {
    LocksOk(w) && VersionsOk(w) && PostsOk(w) && SentOk(w) && WakeOk(w)
  }

  lemma {:induction false} StepKeepsLocks(w: World, a: Action)
    requires LocksOk(w)
    ensures LocksOk(Step(w, a))
  {
  }

  predicate Sending(pc: Pc) {
    pc.Posting? || pc.Posted?
  }

  /** The four actions that touch versions or posts. */
  predicate Concerns(a: Action) {
    a.Update? || a.TakeSnapshot? || a.PostReturns? || a.RecordSent?
  }

  /** Neither fields nor posts change, and no thread enters or leaves a post. */
  ghost predicate PostsLeftAlone(w: World, w': World) {
    && w' == w.(threads := w'.threads, wake := w'.wake, stop := w'.stop, sendLock := w'.sendLock)
    && w'.threads.Keys == w.threads.Keys
    && forall t :: t in w.threads && (Sending(w.threads[t]) || Sending(w'.threads[t])) ==>
         w'.threads[t] == w.threads[t]
  }

  lemma {:induction false} MovingOutsidePosts(w: World, w': World, t: nat, pc: Pc)
    requires t in w.threads && !Sending(w.threads[t]) && !Sending(pc)
    requires w' == w.(threads := w.threads[t := pc], wake := w'.wake, stop := w'.stop, sendLock := w'.sendLock)
    ensures PostsLeftAlone(w, w')
  {
  }

  lemma {:induction false} CallerStepsLeavePostsAlone(w: World, a: Action)
    requires a.SetWake? || a.Flush? || a.Stop? || a.AcquireSend?
    ensures PostsLeftAlone(w, Step(w, a))
  {
    var w' := Step(w, a);
    if w' != w { MovingOutsidePosts(w, w', a.t, w'.threads[a.t]); }
  }

  lemma {:induction false} LoopStepsLeavePostsAlone(w: World, a: Action)
    requires a.TestStop? || a.WaitReturns? || a.ClearWake? || a.TestStopAgain? || a.ReadDelay? || a.SleepEnds?
    ensures PostsLeftAlone(w, Step(w, a))
  {
    var w' := Step(w, a);
    if w' != w { MovingOutsidePosts(w, w', 0, w'.threads[0]); }
  }

  /** The send lock admits one poster. */
  lemma {:induction false} OnePoster(w: World, t: nat)
    requires LocksOk(w) && t in w.threads && Holding(w.threads[t])
    ensures forall u :: u in w.threads && u != t ==> !Holding(w.threads[u])
  {
  }

  lemma {:induction false} SnapshotKeepsPosts(w: World, t: nat)
    requires LocksOk(w) && VersionsOk(w) && PostsOk(w) && SentOk(w)
    ensures VersionsOk(SnapshotBy(w, t)) && PostsOk(SnapshotBy(w, t)) && SentOk(SnapshotBy(w, t))
  {
    var w' := SnapshotBy(w, t);
    if w' != w {
      OnePoster(w, t);
      if w'.posts == w.posts {
        QuietKeepsPosts(w, w');
      } else {
        PostOut(w, w', t);
      }
    }
  }

  /** A post that goes out carries the newest version, so versions keep their order. */
  lemma {:induction false} PostOut(w: World, w': World, t: nat)
    requires VersionsOk(w) && PostsOk(w) && SentOk(w)
    requires t in w.threads && w.threads[t].HasSend?
    requires forall u :: u in w.threads && u != t ==> !Sending(w.threads[u])
    requires w' == Goto(w.(posts := w.posts + [Post(w.updateVersion, w.fields)]), t, Posting(w.updateVersion))
    ensures VersionsOk(w') && PostsOk(w') && SentOk(w')
  {
    assert forall u :: u in w'.threads ==> !w'.threads[u].Posted?;
    assert forall u :: u in w.threads ==> !w.threads[u].Posted?;
    assert SentOk(w') by {
      assert w.lastDelivered.Some? ==> w.lastDelivered.value in w'.posts;
    }
    assert PostsOk(w') by {
      assert forall i :: 0 <= i < |w.posts| ==> w'.posts[i] == w.posts[i];
    }
  }

  lemma {:induction false} UpdateKeepsPosts(w: World, t: nat, patch: Patch)
    requires VersionsOk(w) && PostsOk(w) && SentOk(w)
    ensures var w' := UpdateBy(w, t, patch); VersionsOk(w') && PostsOk(w') && SentOk(w')
  {
    var w' := UpdateBy(w, t, patch);
    if w' != w {
      QuietKeepsPosts(w, w');
    }
  }

  lemma {:induction false} PostReturnsKeepsPosts(w: World, t: nat, delivered: bool)
    requires LocksOk(w) && VersionsOk(w) && PostsOk(w) && SentOk(w)
    ensures var w' := PostReturnsTo(w, t, delivered); VersionsOk(w') && PostsOk(w') && SentOk(w')
  {
    var w' := PostReturnsTo(w, t, delivered);
    if w' != w {
      OnePoster(w, t);
      assert w'.threads[t].Posted? <==> delivered;
    }
  }

  lemma {:induction false} RecordKeepsPosts(w: World, t: nat)
    requires LocksOk(w) && VersionsOk(w) && PostsOk(w) && SentOk(w)
    ensures var w' := RecordBy(w, t); VersionsOk(w') && PostsOk(w') && SentOk(w')
  {
    var w' := RecordBy(w, t);
    if w' != w {
      OnePoster(w, t);
    }
  }

  lemma {:induction false} StepKeepsPosts(w: World, a: Action)
    requires LocksOk(w) && VersionsOk(w) && PostsOk(w) && SentOk(w)
    ensures var w' := Step(w, a); VersionsOk(w') && PostsOk(w') && SentOk(w')
  {
    match a
    case Update(t, patch) => UpdateKeepsPosts(w, t, patch);
    case TakeSnapshot(t) => SnapshotKeepsPosts(w, t);
    case PostReturns(t, delivered) => PostReturnsKeepsPosts(w, t, delivered);
    case RecordSent(t) => RecordKeepsPosts(w, t);
    case _ => QuietStepKeepsPosts(w, a);
  }

  lemma {:induction false} QuietStepKeepsPosts(w: World, a: Action)
    requires !Concerns(a) && VersionsOk(w) && PostsOk(w) && SentOk(w)
    ensures var w' := Step(w, a); VersionsOk(w') && PostsOk(w') && SentOk(w')
  {
    match a {
      case SetWake(_) => CallerStepsLeavePostsAlone(w, a);
      case Flush(_) => CallerStepsLeavePostsAlone(w, a);
      case Stop(_) => CallerStepsLeavePostsAlone(w, a);
      case AcquireSend(_) => CallerStepsLeavePostsAlone(w, a);
      case _ => LoopStepsLeavePostsAlone(w, a);
    }
    assert PostsLeftAlone(w, Step(w, a));
    QuietKeepsPosts(w, Step(w, a));
  }

  lemma {:induction false} QuietKeepsPosts(w: World, w': World)
    requires VersionsOk(w) && PostsOk(w) && SentOk(w) && VersionsOk(w')
    requires w.versions <= w'.versions
    requires w'.posts == w.posts && w'.lastDelivered == w.lastDelivered && w'.sentVersion == w.sentVersion
    requires w'.threads.Keys == w.threads.Keys
    requires forall t :: t in w.threads && (Sending(w.threads[t]) || Sending(w'.threads[t])) ==>
               w'.threads[t] == w.threads[t]
    ensures PostsOk(w') && SentOk(w')
  {
    assert forall u :: u in w'.threads && w'.threads[u].Posted? <==> u in w.threads && w.threads[u].Posted?;
  }

  predicate BeforeSnapshot(pc: Pc) {
    pc.Waking? || pc.WantSend? || pc.HasSend? || pc.LoopWoken? || pc.LoopCleared? || pc.LoopDelay? || pc.LoopSleeping?
  }

  /** Without a stop, a thread on its way to a snapshot stays on it until it has posted the newest version. */
  lemma {:induction false} CoverPersists(w: World, a: Action, t: nat)
    requires VersionsOk(w) && t in w.threads && Covers(w, w.threads[t])
    requires var w' := Step(w, a);
             Pending(w') && w'.failedVersion < w'.updateVersion && !w'.stop && !w'.wake && !a.Update?
    ensures var w' := Step(w, a); t in w'.threads && Covers(w', w'.threads[t])
  {
  }

  lemma {:induction false} StepKeepsWake(w: World, a: Action)
    requires Inv(w)
    ensures WakeOk(Step(w, a))
  {
    var w' := Step(w, a);
    if w' != w && Pending(w') && w'.failedVersion < w'.updateVersion && !w'.stop && !w'.wake {
      if a.Update? {
        assert Covers(w', w'.threads[a.t]);
      } else if a == ClearWake {
        assert Covers(w', w'.threads[0]);
      } else {
        var t :| t in w.threads && Covers(w, w.threads[t]);
        CoverPersists(w, a, t);
      }
    }
  }

  lemma {:induction false} RunKeepsInv(f: Fields, callers: set<nat>, schedule: seq<Action>)
    ensures Inv(Run(Init(f, callers), schedule))
  {
    if schedule != [] {
      RunKeepsInv(f, callers, schedule[..|schedule| - 1]);
      var w := Run(Init(f, callers), schedule[..|schedule| - 1]);
      var a := schedule[|schedule| - 1];
      StepKeepsLocks(w, a);
      StepKeepsPosts(w, a);
      StepKeepsWake(w, a);
    }
  }

  // ----- the promises -----

  /** Posts go out in version order, and each carries the fields of exactly its version. */
  lemma {:induction false} PostedVersionsNeverDecrease(f: Fields, callers: set<nat>, schedule: seq<Action>, i: nat, j: nat)
    requires i <= j < |Run(Init(f, callers), schedule).posts|
    ensures var w := Run(Init(f, callers), schedule);
            && |w.versions| == w.updateVersion + 1
            && w.posts[i].version <= w.posts[j].version <= w.updateVersion
            && w.posts[i].payload == w.versions[w.posts[i].version]
  {
    RunKeepsInv(f, callers, schedule);
  }

  /** Once something has been delivered, being caught up means that the server has the current fields. */
  lemma {:induction false} CaughtUpMeansCurrent(f: Fields, callers: set<nat>, schedule: seq<Action>)
    requires Run(Init(f, callers), schedule).lastDelivered.Some?
    requires Run(Init(f, callers), schedule).sentVersion == Run(Init(f, callers), schedule).updateVersion
    ensures var w := Run(Init(f, callers), schedule);
            w.lastDelivered.value == Post(w.updateVersion, w.fields)
  {
    RunKeepsInv(f, callers, schedule);
  }

  predicate Carries(pc: Pc, version: nat) {
    pc == Posting(version) || pc == Posted(version)
  }

  /**
    No update is forgotten: while one is pending, no post carrying it has failed and nobody has asked
    to stop, the wake flag is up, or some thread is about to raise it, has yet to take its snapshot,
    or is posting the newest version.
  */
  lemma {:induction false} PendingUpdatesAreCovered(f: Fields, callers: set<nat>, schedule: seq<Action>)
    requires var w := Run(Init(f, callers), schedule);
             Pending(w) && w.failedVersion < w.updateVersion && !w.stop
    ensures var w := Run(Init(f, callers), schedule);
            w.wake || (exists t :: t in w.threads && (BeforeSnapshot(w.threads[t]) || Carries(w.threads[t], w.updateVersion)))
  {
    RunKeepsInv(f, callers, schedule);
    var w := Run(Init(f, callers), schedule);
    if !w.wake {
      var t :| t in w.threads && Covers(w, w.threads[t]);
      assert BeforeSnapshot(w.threads[t]) || Carries(w.threads[t], w.updateVersion);
    }
  }

  /** One undisturbed post of a pending update brings the server up to date. */
  lemma {:induction false} SenderCatchesUp(w: World, t: nat)
    requires Inv(w) && t in w.threads && w.threads[t].WantSend? && w.sendLock.None? && Pending(w)
    ensures var w1 := Step(Step(w, AcquireSend(t)), TakeSnapshot(t));
            var w2 := Step(Step(w1, PostReturns(t, true)), RecordSent(t));
            && w2.sentVersion == w2.updateVersion == w.updateVersion && w2.sendLock.None?
            && w2.lastDelivered == Some(Post(w.updateVersion, w.fields)) && w2.fields == w.fields
  {
    var post := Post(w.updateVersion, w.fields);
    var held := Step(w, AcquireSend(t));
    assert held == Goto(w.(sendLock := Some(t)), t, HasSend(w.threads[t].pendingOnly));
    var w1 := Step(held, TakeSnapshot(t));
    assert w1 == Goto(held.(posts := w.posts + [post]), t, Posting(w.updateVersion));
    HeldPostArrives(w1, t, w.posts, post);
  }

  lemma {:induction false} HeldPostArrives(w: World, t: nat, earlier: seq<Post>, post: Post)
    requires At(w, t, Posting(post.version)) && w.posts == earlier + [post]
    requires w.sentVersion <= post.version
    ensures Step(Step(w, PostReturns(t, true)), RecordSent(t))
         == Release(w.(lastDelivered := Some(post), sentVersion := post.version), t)
  {
    var posted := Step(w, PostReturns(t, true));
    assert posted == Goto(w.(lastDelivered := Some(post)), t, Posted(post.version));
    assert posted.threads[t := if t == 0 then LoopTop else Calling] == w.threads[t := if t == 0 then LoopTop else Calling];
  }

  /** A raised wake flag is enough for the loop: its next round reaches the send of that update. */
  lemma {:induction false} WakeLeadsToSend(w: World)
    requires Inv(w) && At(w, 0, LoopTop) && w.wake && !w.stop && w.sendLock.None? && Pending(w)
    ensures var w1 := Step(Step(w, TestStop), WaitReturns(true));
            var w2 := Step(Step(Step(w1, ClearWake), TestStopAgain), ReadDelay(false));
            At(w2, 0, WantSend(true)) && w2.sendLock.None? && Pending(w2) && w2.fields == w.fields
            && w2.updateVersion == w.updateVersion
  {
    var w1 := Step(Step(w, TestStop), WaitReturns(true));
    assert w1 == Goto(w, 0, LoopWoken(true));
    WokenLoopSends(w1);
  }

  lemma {:induction false} WokenLoopSends(w: World)
    requires At(w, 0, LoopWoken(true)) && !w.stop && w.sendLock.None?
    ensures Step(Step(Step(w, ClearWake), TestStopAgain), ReadDelay(false)) == Goto(w.(wake := false), 0, WantSend(true))
  {
    var w1 := Step(w, ClearWake);
    assert w1 == Goto(w.(wake := false), 0, LoopCleared(true));
    var w2 := Step(w1, TestStopAgain);
    assert w2 == Goto(w.(wake := false), 0, LoopDelay);
  }

  /**
    A wait that times out leads to a post, whether or not an update is pending: the periodic heartbeat
    goes out with the current fields.
  */
  lemma {:induction false} TimeoutLeadsToPost(w: World)
    requires Inv(w) && At(w, 0, LoopTop) && !w.stop && w.sendLock.None?
    ensures var w1 := Step(Step(w, TestStop), WaitReturns(false));
            var w2 := Step(Step(w1, ClearWake), TestStopAgain);
            var w3 := Step(Step(w2, AcquireSend(0)), TakeSnapshot(0));
            && w3.posts == w.posts + [Post(w.updateVersion, w.fields)]
            && At(w3, 0, Posting(w.updateVersion)) && w3.sendLock == Some(0)
  {
    var w2 := Goto(w.(wake := false), 0, WantSend(false));
    TimeoutLeadsToSend(w);
    UnconditionalSendPosts(w2, 0);
  }

  lemma {:induction false} TimeoutLeadsToSend(w: World)
    requires At(w, 0, LoopTop) && !w.stop
    ensures Step(Step(Step(Step(w, TestStop), WaitReturns(false)), ClearWake), TestStopAgain)
         == Goto(w.(wake := false), 0, WantSend(false))
  {
    var w1 := Step(Step(w, TestStop), WaitReturns(false));
    assert w1 == Goto(w, 0, LoopWoken(false));
  }

  /** A sender that is not content with pending updates posts in any case. */
  lemma {:induction false} UnconditionalSendPosts(w: World, t: nat)
    requires At(w, t, WantSend(false)) && w.sendLock.None?
    ensures Step(Step(w, AcquireSend(t)), TakeSnapshot(t))
         == Goto(w.(sendLock := Some(t), posts := w.posts + [Post(w.updateVersion, w.fields)]), t, Posting(w.updateVersion))
  {
    var held := Step(w, AcquireSend(t));
    assert held == Goto(w.(sendLock := Some(t)), t, HasSend(false));
  }

  /** A wake-up that finds the last post too recent sleeps, and sends when the sleep ends. */
  lemma {:induction false} DelayedWakeSends(w: World)
    requires At(w, 0, LoopDelay) && !w.stop && w.sendLock.None?
    ensures Step(Step(w, ReadDelay(true)), SleepEnds) == Step(w, ReadDelay(false)) == Goto(w, 0, WantSend(true))
  {
    assert Step(w, ReadDelay(true)) == Goto(w, 0, LoopSleeping);
  }

  /** A flush with nothing pending posts nothing and gives the lock back. */
  lemma {:induction false} IdleFlushPostsNothing(w: World, t: nat)
    requires At(w, t, Calling) && t != 0 && w.sendLock.None? && !Pending(w)
    ensures Step(Step(Step(w, Flush(t)), AcquireSend(t)), TakeSnapshot(t)) == w
  {
    var held := Step(Step(w, Flush(t)), AcquireSend(t));
    assert held == Goto(w.(sendLock := Some(t)), t, HasSend(true));
    assert w.threads[t := Calling] == w.threads;
  }

  /** A post that fails gives the lock back, and what was pending still is. */
  lemma {:induction false} FailedPostStaysPending(w: World, t: nat)
    requires Inv(w) && t in w.threads && w.threads[t].Posting?
    ensures var w' := Step(w, PostReturns(t, false));
            && w'.sendLock.None? && At(w', t, if t == 0 then LoopTop else Calling)
            && (Pending(w') <==> Pending(w)) && w'.lastDelivered == w.lastDelivered && w'.posts == w.posts
  {
  }

  /** Once stop is called the loop ends at its next test, and an ended loop never moves again. */
  lemma {:induction false} StopEndsTheLoop(w: World, a: Action)
    requires 0 in w.threads && w.stop
    ensures At(w, 0, LoopTop) ==> At(Step(w, TestStop), 0, Exited)
    ensures w.threads[0].LoopCleared? ==> At(Step(w, TestStopAgain), 0, Exited)
    ensures At(w, 0, LoopSleeping) ==> At(Step(w, SleepEnds), 0, Exited)
    ensures Step(w, a).stop && (At(w, 0, Exited) ==> At(Step(w, a), 0, Exited))
  {
  }

  /** An update that changes something is pending, keeps every field it does not name, and will raise the flag. */
  lemma {:induction false} UpdateIsPending(w: World, t: nat, p: Patch)
    requires Inv(w) && At(w, t, Calling) && Changes(p)
    ensures var w' := Step(w, Update(t, p));
            && Pending(w') && At(w', t, Waking) && At(Step(w', SetWake(t)), t, Calling) && Step(w', SetWake(t)).wake
            && (p.state.Some? ==> w'.fields.state == p.state.value) && (p.state.None? ==> w'.fields.state == w.fields.state)
            && (p.etaSeconds.Some? ==> w'.fields.etaSeconds == p.etaSeconds.value)
            && (p.etaSeconds.None? ==> w'.fields.etaSeconds == w.fields.etaSeconds)
            && (p.diarizationStatus.Some? ==> w'.fields.diarizationStatus == p.diarizationStatus.value)
            && (p.diarizationStatus.None? ==> w'.fields.diarizationStatus == w.fields.diarizationStatus)
            && Named(p.progress, w.fields.progress, w'.fields.progress)
            && Named(p.transcribedUntilMs, w.fields.transcribedUntilMs, w'.fields.transcribedUntilMs)
            && Named(p.audioDurationMs, w.fields.audioDurationMs, w'.fields.audioDurationMs)
            && Named(p.segmentsSeen, w.fields.segmentsSeen, w'.fields.segmentsSeen)
  {
  }

  /** The new value if one is given, the old one otherwise. */
  predicate Named(given: Option<int>, before: Option<int>, after: Option<int>) {
    (given.Some? ==> after == given) && (given.None? ==> after == before)
  }

  // ----- the sender's own code -----

  /** The fields, flags and locks of the sender, and where each of its threads is. */
  class HeartbeatLoop {
    var state: string
    var progress: Option<int>
    var etaSeconds: int
    var diarizationStatus: string
    var transcribedUntilMs: Option<int>
    var audioDurationMs: Option<int>
    var segmentsSeen: Option<int>
    var updateVersion: nat
    var sentVersion: nat
    var wake: bool
    var stopping: bool
    var sendLock: Option<nat>
    var threads: map<nat, Pc>
    ghost var versions: seq<Fields>
    var posts: seq<Post>
    ghost var lastDelivered: Option<Post>
    ghost var failedVersion: nat

    function CurrentFields(): Fields
      reads this
    {
      Fields(state, progress, etaSeconds, diarizationStatus, transcribedUntilMs, audioDurationMs, segmentsSeen)
    }

    ghost function View(): World
      reads this
    {
      World(CurrentFields(), updateVersion, sentVersion, wake, stopping, sendLock, threads,
            versions, posts, lastDelivered, failedVersion)
    }

    constructor (callers: set<nat>)
      ensures View() == Init(Fields("running", None, 90, "pending", None, None, None), callers)
    {
      state, progress, etaSeconds, diarizationStatus := "running", None, 90, "pending";
      transcribedUntilMs, audioDurationMs, segmentsSeen := None, None, None;
      updateVersion, sentVersion, wake, stopping, sendLock := 0, 0, false, false, None;
      threads := map t | t in callers + {0} :: if t == 0 then LoopTop else Calling;
      versions := [Fields("running", None, 90, "pending", None, None, None)];
      posts, lastDelivered, failedVersion := [], None, 0;
    }

    method SetStage(p: Patch) returns (changed: bool)
      modifies `state, `progress, `etaSeconds, `diarizationStatus
      ensures CurrentFields() == MergeStage(old(CurrentFields()), p)
      ensures changed <==> p.state.Some? || p.progress.Some? || p.etaSeconds.Some? || p.diarizationStatus.Some?
    {
      changed := false;
      if p.state.Some? { state := p.state.value; changed := true; }
      if p.progress.Some? { progress := p.progress; changed := true; }
      if p.etaSeconds.Some? { etaSeconds := p.etaSeconds.value; changed := true; }
      if p.diarizationStatus.Some? { diarizationStatus := p.diarizationStatus.value; changed := true; }
    }

    method SetCounts(p: Patch) returns (changed: bool)
      modifies `transcribedUntilMs, `audioDurationMs, `segmentsSeen
      ensures CurrentFields() == MergeCounts(old(CurrentFields()), p)
      ensures changed <==> p.transcribedUntilMs.Some? || p.audioDurationMs.Some? || p.segmentsSeen.Some?
    {
      changed := false;
      if p.transcribedUntilMs.Some? { transcribedUntilMs := p.transcribedUntilMs; changed := true; }
      if p.audioDurationMs.Some? { audioDurationMs := p.audioDurationMs; changed := true; }
      if p.segmentsSeen.Some? { segmentsSeen := p.segmentsSeen; changed := true; }
    }

    /** The argument-by-argument part of `update`. */
    method SetFields(p: Patch) returns (changed: bool)
      modifies `state, `progress, `etaSeconds, `diarizationStatus,
               `transcribedUntilMs, `audioDurationMs, `segmentsSeen
      ensures changed == Changes(p) && CurrentFields() == Merge(old(CurrentFields()), p)
    {
      var stage := SetStage(p);
      var counts := SetCounts(p);
      changed := stage || counts;
    }

    /** `update` under the state lock; a caller that changed something goes on to raise the wake flag. */
    method UpdateSection(t: nat, p: Patch)
      requires At(View(), t, Calling)
      modifies this
      ensures View() == UpdateBy(old(View()), t, p)
    {
      var changed := SetFields(p);
      assert !changed ==> CurrentFields() == old(CurrentFields());
      if changed {
        updateVersion := updateVersion + 1;
        versions := versions + [CurrentFields()];
        threads := threads[t := Waking];
      }
    }

    /** The head of `_post_heartbeat` under both locks: either there is nothing to do, or this goes out. */
    method SnapshotSection(t: nat) returns (post: Option<Post>)
      requires t in threads && threads[t].HasSend?
      modifies `threads, `sendLock, `posts
      ensures View() == SnapshotBy(old(View()), t)
      ensures post.Some? ==> posts == old(posts) + [post.value] && threads[t] == Posting(post.value.version)
      ensures post.None? ==> sendLock == None && posts == old(posts) && !old(Pending(View()))
    {
      var version := updateVersion;
      var hasPendingUpdate := sentVersion < version;
      if threads[t].pendingOnly && !hasPendingUpdate {
        Leave(t);
        return None;
      }
      post := Some(Post(version, CurrentFields()));
      posts := posts + [post.value];
      threads := threads[t := Posting(version)];
    }

    /** The request comes back, or raises and gives the locks back on the way out. */
    method PostReturned(t: nat, delivered: bool)
      requires t in threads && threads[t].Posting? && |posts| > 0
      modifies `threads, `sendLock, `lastDelivered, `failedVersion
      ensures View() == PostReturnsTo(old(View()), t, delivered)
    {
      var version := threads[t].version;
      if delivered {
        lastDelivered := Some(posts[|posts| - 1]);
        threads := threads[t := Posted(version)];
      } else {
        failedVersion := Max(failedVersion, version);
        Leave(t);
      }
    }

    /** The tail of `_post_heartbeat` under both locks. */
    method RecordSection(t: nat)
      requires t in threads && threads[t].Posted?
      modifies `sentVersion, `threads, `sendLock
      ensures View() == RecordBy(old(View()), t)
    {
      var version := threads[t].version;
      sentVersion := if sentVersion < version then version else sentVersion;
      Leave(t);
    }

    /** Out of the send lock, back to where the post was called from. */
    method Leave(t: nat)
      modifies `threads, `sendLock
      ensures View() == Release(old(View()), t)
    {
      sendLock := None;
      threads := threads[t := if t == 0 then LoopTop else Calling];
    }

    /** The statements of a calling thread outside the critical sections. */
    method CallerStep(a: Action)
      requires a.SetWake? || a.Flush? || a.Stop? || a.AcquireSend?
      modifies `threads, `wake, `stopping, `sendLock
      ensures View() == Step(old(View()), a)
    {
      if a.t in threads {
        match a
        case SetWake(t) => if threads[t].Waking? { wake := true; threads := threads[t := Calling]; }
        case Flush(t) => if threads[t].Calling? { threads := threads[t := WantSend(true)]; }
        case Stop(t) => if threads[t].Calling? { stopping := true; threads := threads[t := Waking]; }
        case AcquireSend(t) =>
          if threads[t].WantSend? && sendLock.None? {
            sendLock := Some(t);
            threads := threads[t := HasSend(threads[t].pendingOnly)];
          }
      }
    }

    /** The statements of `_run` between two posts. */
    method LoopStep(a: Action)
      requires a.TestStop? || a.WaitReturns? || a.ClearWake? || a.TestStopAgain? || a.ReadDelay? || a.SleepEnds?
      modifies `threads, `wake
      ensures View() == Step(old(View()), a)
    {
      if 0 in threads {
        match a
        case TestStop => if threads[0].LoopTop? { threads := threads[0 := if stopping then Exited else LoopWaiting]; }
        case WaitReturns(forUpdate) =>
          if threads[0].LoopWaiting? && (forUpdate ==> wake) { threads := threads[0 := LoopWoken(forUpdate)]; }
        case ClearWake =>
          if threads[0].LoopWoken? { wake := false; threads := threads[0 := LoopCleared(threads[0].forUpdate)]; }
        case TestStopAgain =>
          if threads[0].LoopCleared? {
            var next := if threads[0].forUpdate then LoopDelay else WantSend(false);
            threads := threads[0 := if stopping then Exited else next];
          }
        case ReadDelay(sleep) =>
          if threads[0].LoopDelay? && sendLock.None? { threads := threads[0 := if sleep then LoopSleeping else WantSend(true)]; }
        case SleepEnds =>
          if threads[0].LoopSleeping? { threads := threads[0 := if stopping then Exited else WantSend(true)]; }
      }
    }

    method Act(a: Action)
      modifies this
      ensures View() == Step(old(View()), a)
    {
      match a {
        case Update(t, patch) =>
          if t in threads && threads[t].Calling? { UpdateSection(t, patch); }
        case TakeSnapshot(t) =>
          if t in threads && threads[t].HasSend? { var _ := SnapshotSection(t); }
        case PostReturns(t, delivered) =>
          if t in threads && threads[t].Posting? && |posts| > 0 { PostReturned(t, delivered); }
        case RecordSent(t) =>
          if t in threads && threads[t].Posted? { RecordSection(t); }
        case SetWake(_) => CallerStep(a);
        case Flush(_) => CallerStep(a);
        case Stop(_) => CallerStep(a);
        case AcquireSend(_) => CallerStep(a);
        case _ => LoopStep(a);
      }
    }

    /** Any interleaving of callers and loop, with everything proved of such runs. */
    method Interleave(callers: set<nat>, schedule: seq<Action>)
      requires View() == Init(CurrentFields(), callers)
      modifies this
      ensures View() == Run(old(View()), schedule) && Inv(View())
      ensures forall i, j :: 0 <= i <= j < |posts| ==> posts[i].version <= posts[j].version
      ensures forall i :: 0 <= i < |posts| ==> posts[i].version < |versions| && posts[i].payload == versions[posts[i].version]
      ensures lastDelivered.Some? && sentVersion == updateVersion ==>
                lastDelivered.value == Post(updateVersion, CurrentFields())
    {
      ghost var f := CurrentFields();
      for i := 0 to |schedule|
        invariant View() == Run(Init(f, callers), schedule[..i])
      {
        assert schedule[..i + 1][..i] == schedule[..i];
        Act(schedule[i]);
      }
      assert schedule[..|schedule|] == schedule;
      RunKeepsInv(f, callers, schedule);
      if lastDelivered.Some? && sentVersion == updateVersion {
        CaughtUpMeansCurrent(f, callers, schedule);
      }
    }
  }
}
