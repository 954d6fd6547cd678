/**
  Recording from the microphone. Each press of Start makes a generation, an object that the handlers
  of the browser keep a reference to, so an event may reach a generation that is long over. The steps
  below are the user's actions and the browser's events, in any order the browser can produce.
*/
module CaptureAudio {
  import opened Wrappers

  type Bytes = seq<bv8>

  datatype CaptureState = Unsupported | Idle | Recording | Paused | Ready | Denied

  datatype RecorderState = Inactive | Running | Suspended

  /** The fields of a generation, followed by what the browser holds for it. */
  datatype Generation = Generation(
    active: bool, chunks: seq<Bytes>, stopRequested: bool, hasStream: bool, hasRecorder: bool, listening: bool,
    asking: bool, acquired: bool, stopped: bool, started: bool, recorder: RecorderState)

  datatype Delivery = Delivery(gen: nat, file: Bytes)

  datatype State = State(
    supported: bool, mounted: bool, captureState: CaptureState,
    gens: seq<Generation>, current: Option<nat>, delivered: seq<Delivery>)

  datatype StartOutcome = NoRecorder | RecorderRefuses | RecorderRuns

  datatype Event =
    | Start(seen: CaptureState)
    | Granted(gen: nat, outcome: StartOutcome)
    | Refused(gen: nat)
    | TrackEnded(gen: nat, throws: bool)
    | RecorderDied(gen: nat)
    | Data(gen: nat, data: Bytes)
    | RecorderStopped(gen: nat)
    | Pause(seen: CaptureState, throws: bool)
    | Resume(seen: CaptureState, throws: bool)
    | Stop(seen: CaptureState, throws: bool)
    | Discard(throws: bool)
    | Unmount(throws: bool)

  /** The bytes of a Blob made of these parts. */
  function Joined(chunks: seq<Bytes>): Bytes {
    if chunks == [] then [] else Joined(chunks[..|chunks| - 1]) + chunks[|chunks| - 1]
  }

  function Initial(supported: bool): State {
    State(supported, true, if supported then Idle else Unsupported, [], None, [])
  }

  /** The browser answers a pending request once, and records only with a recorder that was started. */
  predicate Possible(s: State, e: Event) {
    match e
    case Granted(g, _) => g < |s.gens| && s.gens[g].asking
    case Refused(g) => g < |s.gens| && s.gens[g].asking
    case TrackEnded(g, _) => g < |s.gens| && s.gens[g].acquired
    case RecorderDied(g) => g < |s.gens| && s.gens[g].started
    case Data(g, _) => g < |s.gens| && s.gens[g].started
    case RecorderStopped(g) => g < |s.gens| && s.gens[g].started
    case _ => true
  }

  predicate IsCurrent(s: State, g: nat)
    requires g < |s.gens|
  {
    s.gens[g].active && s.current == Some(g)
  }

  function Released(c: Generation, stopRecorder: bool, throws: bool): Generation {
    var stopping := stopRecorder && c.hasRecorder && c.recorder != Inactive;
    c.(active := false, chunks := [], hasStream := false, hasRecorder := false, listening := false,
       stopRequested := if stopping && throws then false else c.stopRequested,
       recorder := if stopping && !throws then Inactive else c.recorder,
       stopped := c.stopped || c.hasStream)
  }

  function Release(s: State, g: nat, stopRecorder: bool, throws: bool): State
    requires g < |s.gens|
  {
    s.(gens := s.gens[g := Released(s.gens[g], stopRecorder, throws)],
       current := if s.current == Some(g) then None else s.current)
  }

  function Abandon(s: State, g: nat, throws: bool): State
    requires g < |s.gens|
  {
    if IsCurrent(s, g) then Release(s, g, true, throws).(captureState := Idle) else s
  }

  function StartStep(s: State, seen: CaptureState): State {
    if !s.supported then s.(captureState := Unsupported)
    else if seen != Idle || s.current.Some? then s
    else s.(gens := s.gens + [Generation(true, [], false, false, false, false, true, false, false, false, Inactive)],
            current := Some(|s.gens|))
  }

  /** The stream kept, with a recorder and its listeners unless the constructor throws. */
  function Taken(c: Generation, outcome: StartOutcome): Generation {
    if outcome == NoRecorder then c.(hasStream := true)
    else c.(hasStream := true, hasRecorder := true, listening := true,
            started := c.started || outcome == RecorderRuns,
            recorder := if outcome == RecorderRuns then Running else c.recorder)
  }

  /** What is done with a stream that arrived in time. */
  function Begin(s: State, g: nat, outcome: StartOutcome): State
    requires g < |s.gens|
  {
    var held := s.(gens := s.gens[g := Taken(s.gens[g], outcome)]);
    if outcome == RecorderRuns then held.(captureState := Recording)
    else Release(held, g, true, false).(captureState := Denied)
  }

  /** A generation whose request was answered with a stream; one that comes too late is stopped at once. */
  function Answered(c: Generation, late: bool): Generation {
    c.(asking := false, acquired := true, stopped := c.stopped || late)
  }

  function GrantedStep(s: State, g: nat, outcome: StartOutcome): State
    requires g < |s.gens|
  {
    var late := !IsCurrent(s, g);
    var answered := s.(gens := s.gens[g := Answered(s.gens[g], late)]);
    if late then answered else Begin(answered, g, outcome)
  }

  function RefusedStep(s: State, g: nat): State
    requires g < |s.gens|
  {
    var asked := s.(gens := s.gens[g := s.gens[g].(asking := false)]);
    if IsCurrent(s, g) then Release(asked, g, true, false).(captureState := Denied) else asked
  }

  function DataStep(s: State, g: nat, data: Bytes): State
    requires g < |s.gens|
  {
    if s.gens[g].listening && IsCurrent(s, g) && data != []
    then s.(gens := s.gens[g := s.gens[g].(chunks := s.gens[g].chunks + [data])])
    else s
  }

  function StoppedStep(s: State, g: nat): State
    requires g < |s.gens|
  {
    var dead := s.(gens := s.gens[g := s.gens[g].(recorder := Inactive)]);
    if !s.gens[g].listening || !IsCurrent(s, g) then dead
    else if !s.gens[g].stopRequested then Abandon(dead, g, false)
    else Release(dead, g, false, false)
      .(captureState := Ready, delivered := s.delivered + [Delivery(g, Joined(s.gens[g].chunks))])
  }

  predicate HasRecorder(s: State) {
    s.current.Some? && s.current.value < |s.gens| && s.gens[s.current.value].hasRecorder
  }

  function PauseStep(s: State, seen: CaptureState, throws: bool): State {
    if seen != Recording || !HasRecorder(s) || s.gens[s.current.value].recorder != Running || throws then s
    else
      var g := s.current.value;
      s.(gens := s.gens[g := s.gens[g].(recorder := Suspended)], captureState := Paused)
  }

  function ResumeStep(s: State, seen: CaptureState, throws: bool): State {
    if seen != Paused || !HasRecorder(s) || s.gens[s.current.value].recorder != Suspended || throws then s
    else
      var g := s.current.value;
      s.(gens := s.gens[g := s.gens[g].(recorder := Running)], captureState := Recording)
  }

  function StopAsked(c: Generation, throws: bool): Generation {
    c.(stopRequested := true, recorder := if throws then c.recorder else Inactive)
  }

  function StopStep(s: State, seen: CaptureState, throws: bool): State {
    if (seen != Recording && seen != Paused) || !HasRecorder(s) || s.gens[s.current.value].recorder == Inactive then s
    else
      var g := s.current.value;
      s.(gens := s.gens[g := StopAsked(s.gens[g], throws)])
  }

  function ReleaseCurrent(s: State, throws: bool): State {
    if s.current.Some? && s.current.value < |s.gens| then Release(s, s.current.value, true, throws) else s
  }

  function Step(s: State, e: Event): State
    requires Possible(s, e)
  {
    match e
    case Start(seen) => StartStep(s, seen)
    case Granted(g, outcome) => GrantedStep(s, g, outcome)
    case Refused(g) => RefusedStep(s, g)
    case TrackEnded(g, throws) => if s.gens[g].listening && !s.gens[g].stopRequested then Abandon(s, g, throws) else s
    case RecorderDied(g) => s.(gens := s.gens[g := s.gens[g].(recorder := Inactive)])
    case Data(g, data) => DataStep(s, g, data)
    case RecorderStopped(g) => StoppedStep(s, g)
    case Pause(seen, throws) => PauseStep(s, seen, throws)
    case Resume(seen, throws) => ResumeStep(s, seen, throws)
    case Stop(seen, throws) => StopStep(s, seen, throws)
    case Discard(throws) => ReleaseCurrent(s, throws).(captureState := if s.supported then Idle else Unsupported)
    case Unmount(throws) => ReleaseCurrent(s, throws).(mounted := false)
  }

  // ----- what every run keeps -----

  /** A generation that is over holds nothing, and an unstopped stream belongs to one that is not. */
  ghost predicate GenerationOk(c: Generation) {
    && (c.acquired && !c.stopped ==> c.hasStream)
    && (c.hasStream ==> c.active && c.acquired && !c.stopped)
    && (c.hasRecorder ==> c.active && c.started && c.hasStream)
    && (c.listening <==> c.hasRecorder)
    && (c.active && c.started ==> c.hasRecorder)
    && (c.asking ==> !c.acquired && !c.started && !c.stopped)
    && (!c.active || !c.started ==> c.chunks == [])
  }

  ghost predicate CurrentOk(s: State) {
    && (s.current.Some? ==> s.current.value < |s.gens| && s.gens[s.current.value].active)
    && forall g :: 0 <= g < |s.gens| && s.gens[g].active ==> s.current == Some(g)
  }

  ghost predicate DeliveredOk(s: State) {
    && (forall i :: 0 <= i < |s.delivered| ==>
          var g := s.delivered[i].gen; g < |s.gens| && !s.gens[g].active && s.gens[g].stopRequested)
    && (forall i, j :: 0 <= i < j < |s.delivered| ==> s.delivered[i].gen != s.delivered[j].gen)
  }

  /** The screen shows a recording exactly while there is one. */
  ghost predicate ScreenOk(s: State) {
    s.mounted ==> ((s.captureState == Recording || s.captureState == Paused) <==> HasRecorder(s))
  }

  ghost predicate Inv(s: State) {
    && (forall g :: 0 <= g < |s.gens| ==> GenerationOk(s.gens[g]))
    && CurrentOk(s) && DeliveredOk(s) && ScreenOk(s)
    && (!s.supported ==> s.gens == [])
  }

  lemma {:induction false} ReleaseKeepsInv(s: State, g: nat, stopRecorder: bool, throws: bool)
    requires g < |s.gens| && s.current == Some(g)
    requires forall h :: 0 <= h < |s.gens| && h != g ==> GenerationOk(s.gens[h])
    requires CurrentOk(s) && DeliveredOk(s)
    requires var c := s.gens[g];
             && c.active && (c.acquired && !c.stopped ==> c.hasStream) && (c.asking ==> !c.acquired && !c.started && !c.stopped && !c.hasStream)
    ensures var r := Release(s, g, stopRecorder, throws);
            && (forall h :: 0 <= h < |r.gens| ==> GenerationOk(r.gens[h]))
            && CurrentOk(r) && DeliveredOk(r) && r.current == None
  {
  }

  lemma {:induction false} StartKeepsInv(s: State, seen: CaptureState)
    requires Inv(s)
    ensures Inv(StartStep(s, seen))
  {
  }

  lemma {:induction false} GrantedKeepsInv(s: State, g: nat, outcome: StartOutcome)
    requires Inv(s) && g < |s.gens| && s.gens[g].asking
    ensures Inv(GrantedStep(s, g, outcome))
  {
    if IsCurrent(s, g) {
      var a := s.(gens := s.gens[g := Answered(s.gens[g], false)]);
      if outcome != RecorderRuns {
        ReleaseKeepsInv(a.(gens := a.gens[g := Taken(a.gens[g], outcome)]), g, true, false);
      }
    }
  }

  lemma {:induction false} RefusedKeepsInv(s: State, g: nat)
    requires Inv(s) && g < |s.gens| && s.gens[g].asking
    ensures Inv(RefusedStep(s, g))
  {
    if IsCurrent(s, g) {
      ReleaseKeepsInv(s.(gens := s.gens[g := s.gens[g].(asking := false)]), g, true, false);
    }
  }

  lemma {:induction false} AbandonKeepsInv(s: State, g: nat, throws: bool)
    requires Inv(s) && g < |s.gens|
    ensures Inv(Abandon(s, g, throws))
  {
    if IsCurrent(s, g) { ReleaseKeepsInv(s, g, true, throws); }
  }

  lemma {:induction false} StoppedKeepsInv(s: State, g: nat)
    requires Inv(s) && g < |s.gens|
    ensures Inv(StoppedStep(s, g))
  {
    var dead := s.(gens := s.gens[g := s.gens[g].(recorder := Inactive)]);
    assert Inv(dead);
    AbandonKeepsInv(dead, g, false);
    if IsCurrent(s, g) { ReleaseKeepsInv(dead, g, false, false); }
  }

  /** A change of the current generation's recorder or stop request alone. */
  lemma {:induction false} RecorderChangeKeepsInv(s: State, g: nat, c: Generation, captureState: CaptureState)
    requires Inv(s) && g < |s.gens|
    requires c == s.gens[g].(recorder := c.recorder, stopRequested := c.stopRequested)
    requires c.stopRequested || !s.gens[g].stopRequested
    requires captureState == s.captureState || ((captureState == Recording || captureState == Paused) && HasRecorder(s))
    ensures Inv(s.(gens := s.gens[g := c], captureState := captureState))
  {
    var r := s.(gens := s.gens[g := c], captureState := captureState);
    assert GenerationOk(s.gens[g]) && GenerationOk(c);
    assert HasRecorder(r) <==> HasRecorder(s);
  }

  lemma {:induction false} PauseKeepsInv(s: State, seen: CaptureState, throws: bool)
    requires Inv(s)
    ensures Inv(PauseStep(s, seen, throws)) && Inv(ResumeStep(s, seen, throws))
  {
    if HasRecorder(s) {
      var g := s.current.value;
      RecorderChangeKeepsInv(s, g, s.gens[g].(recorder := Suspended), Paused);
      RecorderChangeKeepsInv(s, g, s.gens[g].(recorder := Running), Recording);
    }
  }

  lemma {:induction false} StopKeepsInv(s: State, seen: CaptureState, throws: bool)
    requires Inv(s)
    ensures Inv(StopStep(s, seen, throws))
  {
    if HasRecorder(s) {
      var g := s.current.value;
      RecorderChangeKeepsInv(s, g, StopAsked(s.gens[g], throws), s.captureState);
    }
  }

  lemma {:induction false} DataKeepsInv(s: State, g: nat, data: Bytes)
    requires Inv(s) && g < |s.gens|
    ensures Inv(DataStep(s, g, data))
  {
    assert GenerationOk(s.gens[g]);
  }

  lemma {:induction false} ReleaseCurrentKeepsInv(s: State, throws: bool)
    requires Inv(s)
    ensures var r := ReleaseCurrent(s, throws);
            && Inv(r.(captureState := if s.supported then Idle else Unsupported)) && Inv(r.(mounted := false))
            && r.current == None && r.delivered == s.delivered
            && forall g :: 0 <= g < |r.gens| && r.gens[g].acquired ==> r.gens[g].stopped
  {
    if s.current.Some? { ReleaseKeepsInv(s, s.current.value, true, throws); }
  }

  lemma {:induction false} StepKeepsInv(s: State, e: Event)
    requires Inv(s) && Possible(s, e)
    ensures Inv(Step(s, e))
  {
    match e
    case Start(seen) => StartKeepsInv(s, seen);
    case Granted(g, outcome) => GrantedKeepsInv(s, g, outcome);
    case Refused(g) => RefusedKeepsInv(s, g);
    case TrackEnded(g, throws) => AbandonKeepsInv(s, g, throws);
    case RecorderDied(g) => RecorderChangeKeepsInv(s, g, s.gens[g].(recorder := Inactive), s.captureState);
    case Data(g, data) => DataKeepsInv(s, g, data);
    case RecorderStopped(g) => StoppedKeepsInv(s, g);
    case Pause(seen, throws) => PauseKeepsInv(s, seen, throws);
    case Resume(seen, throws) => PauseKeepsInv(s, seen, throws);
    case Stop(seen, throws) => StopKeepsInv(s, seen, throws);
    case Discard(throws) => ReleaseCurrentKeepsInv(s, throws);
    case Unmount(throws) => ReleaseCurrentKeepsInv(s, throws);
  }

  // ----- runs -----

  /** A sequence of events the browser and the user can produce, from a state. */
  predicate PossibleRun(s: State, events: seq<Event>)
    decreases |events|, 0
  {
    events == [] ||
    var n := |events| - 1;
    PossibleRun(s, events[..n]) && Possible(After(s, events[..n]), events[n])
  }

  function After(s: State, events: seq<Event>): State
    requires PossibleRun(s, events)
    decreases |events|, 1
  {
    if events == [] then s else Step(After(s, events[..|events| - 1]), events[|events| - 1])
  }

  lemma {:induction false} RunKeepsInv(s: State, events: seq<Event>)
    requires Inv(s) && PossibleRun(s, events)
    ensures Inv(After(s, events))
  {
    if events != [] {
      var n := |events| - 1;
      RunKeepsInv(s, events[..n]);
      StepKeepsInv(After(s, events[..n]), events[n]);
    }
  }

  /** Every stream the browser handed out has been stopped or is held by the current generation. */
  lemma {:induction false} NoStreamLeaks(supported: bool, events: seq<Event>, g: nat)
    requires PossibleRun(Initial(supported), events)
    requires g < |After(Initial(supported), events).gens|
    ensures var s := After(Initial(supported), events);
            s.gens[g].acquired ==> s.gens[g].stopped || (s.current == Some(g) && s.gens[g].active && s.gens[g].hasStream)
  {
    RunKeepsInv(Initial(supported), events);
  }

  /** Nothing is held, so nothing can be delivered. */
  ghost predicate Quiet(s: State) {
    s.current == None && forall g :: 0 <= g < |s.gens| && s.gens[g].acquired ==> s.gens[g].stopped
  }

  lemma {:induction false} QuietStaysQuiet(s: State, e: Event)
    requires Inv(s) && Quiet(s) && Possible(s, e) && !e.Start?
    ensures Quiet(Step(s, e)) && Step(s, e).delivered == s.delivered
  {
  }

  /**
    Once the component is unmounted, or the take discarded, every stream is stopped, and whatever
    arrives late (a permission, data, a stop) leaves it so and delivers nothing, until Start.
  */
  lemma {:induction false} LateEventsDoNothing(s: State, last: Event, late: seq<Event>)
    requires Inv(s) && (last.Unmount? || last.Discard?)
    requires PossibleRun(Step(s, last), late) && forall i :: 0 <= i < |late| ==> !late[i].Start?
    ensures var r := After(Step(s, last), late);
            Quiet(r) && r.delivered == s.delivered
  {
    if late == [] {
      ReleaseCurrentKeepsInv(s, last.throws);
    } else {
      var n := |late| - 1;
      LateEventsDoNothing(s, last, late[..n]);
      StepKeepsInv(s, last);
      RunKeepsInv(Step(s, last), late[..n]);
      QuietStaysQuiet(After(Step(s, last), late[..n]), late[n]);
    }
  }

  // ----- what is delivered -----

  /** All the bytes the recorder of a generation has handed over. */
  function DataOf(events: seq<Event>, g: nat): Bytes {
    if events == [] then []
    else
      var e := events[|events| - 1];
      DataOf(events[..|events| - 1], g) + (if e.Data? && e.gen == g then e.data else [])
  }

  /** Stop was pressed while this generation was recording. */
  ghost predicate StopPressed(s: State, events: seq<Event>, g: nat)
    requires PossibleRun(s, events)
    decreases |events|
  {
    events != [] &&
    var n := |events| - 1;
    || StopPressed(s, events[..n], g)
    || (events[n].Stop? && After(s, events[..n]).current == Some(g) && HasRecorder(After(s, events[..n])))
  }

  /** A current generation has kept all its data, and remembers a stop only if Stop was pressed. */
  ghost predicate Faithful(supported: bool, events: seq<Event>)
    requires PossibleRun(Initial(supported), events)
  {
    var s := After(Initial(supported), events);
    forall g :: 0 <= g < |s.gens| ==>
      && (s.gens[g].active ==> Joined(s.gens[g].chunks) == DataOf(events, g))
      && (s.gens[g].stopRequested ==> StopPressed(Initial(supported), events, g))
  }

  lemma {:induction false} NoDataYet(supported: bool, events: seq<Event>, g: nat)
    requires PossibleRun(Initial(supported), events)
    requires g >= |After(Initial(supported), events).gens|
    ensures DataOf(events, g) == []
  {
    if events != [] {
      var n := |events| - 1;
      GenerationsGrow(After(Initial(supported), events[..n]), events[n]);
      NoDataYet(supported, events[..n], g);
    }
  }

  lemma {:induction false} GenerationsGrow(s: State, e: Event)
    requires Possible(s, e)
    ensures |s.gens| <= |Step(s, e).gens|
  {
  }

  lemma {:induction false} RunsAreFaithful(supported: bool, events: seq<Event>)
    requires PossibleRun(Initial(supported), events)
    ensures Faithful(supported, events)
  {
    if events != [] {
      var n := |events| - 1;
      RunsAreFaithful(supported, events[..n]);
      RunKeepsInv(Initial(supported), events[..n]);
      var s := After(Initial(supported), events[..n]);
      var r := Step(s, events[n]);
      NoDataYet(supported, events[..n], |s.gens|);
      forall g | 0 <= g < |r.gens|
        ensures r.gens[g].active ==> Joined(r.gens[g].chunks) == DataOf(events, g)
        ensures r.gens[g].stopRequested ==> StopPressed(Initial(supported), events, g)
      {
        StepIsFaithful(s, events[n], g);
      }
    }
  }

  /** How a generation may change: more data, a request to stop, or its end. */
  ghost predicate Continues(was: Generation, now: Generation, more: Bytes, stop: bool) {
    && (now.active ==> was.active && Joined(now.chunks) == Joined(was.chunks) + more)
    && (now.stopRequested ==> was.stopRequested || stop)
  }

  lemma {:induction false} GrantedIsFaithful(s: State, h: nat, outcome: StartOutcome, g: nat)
    requires h < |s.gens| && g < |s.gens|
    ensures g < |GrantedStep(s, h, outcome).gens|
    ensures Continues(s.gens[g], GrantedStep(s, h, outcome).gens[g], [], false)
  {
    var r := GrantedStep(s, h, outcome);
    if g == h {
      match outcome {
        case NoRecorder => assert IsCurrent(s, h) ==> !r.gens[h].active;
        case RecorderRefuses => assert IsCurrent(s, h) ==> !r.gens[h].active;
        case RecorderRuns => assert r.gens[h].chunks == s.gens[h].chunks;
      }
    } else {
      assert r.gens[g] == s.gens[g];
    }
  }

  lemma {:induction false} StartIsFaithful(s: State, e: Event, g: nat)
    requires Possible(s, e) && g < |s.gens| && (e.Start? || e.Granted? || e.Refused?)
    ensures g < |Step(s, e).gens| && Continues(s.gens[g], Step(s, e).gens[g], [], false)
  {
    match e {
      case Granted(h, outcome) => GrantedIsFaithful(s, h, outcome, g);
      case Refused(h) => assert g != h ==> Step(s, e).gens[g] == s.gens[g];
      case _ =>
    }
  }

  lemma {:induction false} ButtonIsFaithful(s: State, e: Event, g: nat)
    requires Inv(s) && Possible(s, e) && g < |s.gens|
    requires e.Pause? || e.Resume? || e.Stop? || e.Discard? || e.Unmount?
    ensures g < |Step(s, e).gens|
    ensures Continues(s.gens[g], Step(s, e).gens[g], [], e.Stop? && s.current == Some(g) && HasRecorder(s))
  {
  }

  lemma {:induction false} BrowserIsFaithful(s: State, e: Event, g: nat)
    requires Inv(s) && Possible(s, e) && g < |s.gens|
    requires e.Data? || e.TrackEnded? || e.RecorderDied? || e.RecorderStopped?
    ensures g < |Step(s, e).gens|
    ensures Continues(s.gens[g], Step(s, e).gens[g], if e.Data? && e.gen == g then e.data else [], false)
  {
    if e.Data? && e.gen == g && e.data != [] {
      assert (s.gens[g].chunks + [e.data])[..|s.gens[g].chunks|] == s.gens[g].chunks;
    }
  }

  lemma {:induction false} StepIsFaithful(s: State, e: Event, g: nat)
    requires Inv(s) && Possible(s, e) && g < |Step(s, e).gens|
    ensures g < |s.gens| ==>
              Continues(s.gens[g], Step(s, e).gens[g], if e.Data? && e.gen == g then e.data else [],
                        e.Stop? && s.current == Some(g) && HasRecorder(s))
    ensures g >= |s.gens| ==>
              g == |s.gens| && e.Start? && Step(s, e).gens[g].chunks == [] && !Step(s, e).gens[g].stopRequested
  {
    if g < |s.gens| {
      if e.Start? || e.Granted? || e.Refused? {
        StartIsFaithful(s, e, g);
      } else if e.Data? || e.TrackEnded? || e.RecorderDied? || e.RecorderStopped? {
        BrowserIsFaithful(s, e, g);
      } else {
        ButtonIsFaithful(s, e, g);
      }
    }
  }

  /** A step delivers exactly when the recorder of the current generation stops after Stop was asked. */
  lemma {:induction false} DeliversWhen(s: State, e: Event)
    requires Inv(s) && Possible(s, e)
    ensures Step(s, e).delivered ==
              if e.RecorderStopped? && IsCurrent(s, e.gen) && s.gens[e.gen].stopRequested
              then s.delivered + [Delivery(e.gen, Joined(s.gens[e.gen].chunks))]
              else s.delivered
  {
  }

  /**
    Over any run: a file that is delivered belongs to a generation that delivered nothing before, for
    which Stop was pressed, and it is exactly the data of that generation, in order.
  */
  lemma {:induction false} DeliveriesAreComplete(supported: bool, events: seq<Event>, e: Event)
    requires PossibleRun(Initial(supported), events + [e])
    ensures PossibleRun(Initial(supported), events)
    ensures var before := After(Initial(supported), events);
            var after := After(Initial(supported), events + [e]);
            after.delivered != before.delivered ==>
              && e.RecorderStopped?
              && after.delivered == before.delivered + [Delivery(e.gen, DataOf(events, e.gen))]
              && StopPressed(Initial(supported), events, e.gen)
              && forall i :: 0 <= i < |before.delivered| ==> before.delivered[i].gen != e.gen
  {
    assert (events + [e])[..|events|] == events;
    var before := After(Initial(supported), events);
    RunKeepsInv(Initial(supported), events);
    RunsAreFaithful(supported, events);
    DeliversWhen(before, e);
  }
}
