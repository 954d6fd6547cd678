/** The recording component itself: a reference to the current generation and the handlers that use it. */
module CaptureComponent {
  import opened Wrappers
  import opened CaptureAudio

  /** `asking` to `recorderState` stand for the browser's stream and recorder of this generation. */
  class CaptureGeneration {
    const id: nat
    var active: bool
    var chunks: seq<Bytes>
    var stopRequested: bool
    var hasStream: bool
    var hasRecorder: bool
    var listening: bool
    var asking: bool
    var acquired: bool
    var stopped: bool
    var started: bool
    var recorderState: RecorderState

    constructor (id: nat)
      ensures this.id == id
      ensures View() ==
                Generation(true, [], false, false, false, false, true, false, false, false, Inactive)
    {
      this.id := id;
      active, chunks, stopRequested := true, [], false;
      hasStream, hasRecorder, listening := false, false, false;
      asking, acquired, stopped, started, recorderState := true, false, false, false, Inactive;
    }

    ghost function View(): Generation
      reads this
    {
      Generation(active, chunks, stopRequested, hasStream, hasRecorder, listening,
                 asking, acquired, stopped, started, recorderState)
    }

    /** Detach the listeners, stop the recorder and the stream, and forget them and the data. */
    method LetGo(stopRecorder: bool, throws: bool)
      modifies this
      ensures View() == Released(old(View()), stopRecorder, throws)
    {
      active := false;
      listening := false;
      if stopRecorder && hasRecorder && recorderState != Inactive {
        if throws {
          stopRequested := false;
        } else {
          recorderState := Inactive;
        }
      }
      if hasStream {
        stopped := true;
      }
      chunks := [];
      hasRecorder := false;
      hasStream := false;
    }

    /** The browser hands out the stream; a late one is stopped. */
    method Answer(late: bool)
      modifies this
      ensures View() == Answered(old(View()), late)
    {
      asking, acquired := false, true;
      if late {
        stopped := true;
      }
    }

    method RequestStop(throws: bool)
      modifies this
      ensures View() == StopAsked(old(View()), throws)
    {
      stopRequested := true;
      if !throws {
        recorderState := Inactive;
      }
    }

    /** Keep the stream and a recorder, with their listeners, and start it if it starts. */
    method Take(outcome: StartOutcome)
      modifies this
      ensures View() == Taken(old(View()), outcome)
    {
      hasStream := true;
      if outcome != NoRecorder {
        hasRecorder, listening := true, true;
        if outcome == RecorderRuns {
          started, recorderState := true, Running;
        }
      }
    }
  }

  class Component {
    const supported: bool
    var mounted: bool
    var captureState: CaptureState
    var captureRef: CaptureGeneration?
    var delivered: seq<Delivery>
    /** Every generation so far: what the browser's listeners refer to. */
    var generations: seq<CaptureGeneration>
    /** What each of them looks like. */
    ghost var views: seq<Generation>

    ghost predicate Known(capture: CaptureGeneration)
      reads this
    {
      capture.id < |generations| && generations[capture.id] == capture
    }

    ghost predicate Valid()
      reads this, generations
    {
      && |generations| == |views|
      && (forall i :: 0 <= i < |generations| ==> generations[i].id == i && generations[i].View() == views[i])
      && (captureRef != null ==> Known(captureRef))
    }

    ghost function View(): State
      reads this
    {
      State(supported, mounted, captureState, views,
            if captureRef == null then None else Some(captureRef.id), delivered)
    }

    constructor (supported: bool)
      ensures Valid() && View() == Initial(supported) && generations == []
    {
      this.supported := supported;
      mounted, captureRef, delivered, generations, views := true, null, [], [], [];
      captureState := if supported then Idle else Unsupported;
    }

    method ReleaseCapture(capture: CaptureGeneration, stopRecorder: bool, throws: bool)
      requires Valid() && Known(capture)
      modifies this`views, this`captureRef, capture
      ensures Valid() && View() == Release(old(View()), capture.id, stopRecorder, throws)
    {
      if captureRef == capture {
        captureRef := null;
      }
      capture.LetGo(stopRecorder, throws);
      views := views[capture.id := capture.View()];
    }

    method AbandonInterruptedCapture(capture: CaptureGeneration, throws: bool)
      requires Valid() && Known(capture)
      modifies this`views, this`captureRef, this`captureState, capture
      ensures Valid() && View() == Abandon(old(View()), capture.id, throws)
    {
      if !capture.active || captureRef != capture {
        return;
      }
      ReleaseCapture(capture, true, throws);
      captureState := Idle;
    }

    /** Start, up to the request for the microphone. */
    method StartRecording(seen: CaptureState)
      requires Valid()
      modifies this`captureRef, this`captureState, this`generations, this`views
      ensures Valid() && View() == Step(old(View()), Start(seen))
      ensures |old(generations)| <= |generations| && generations[..|old(generations)|] == old(generations)
      ensures forall k :: |old(generations)| <= k < |generations| ==> fresh(generations[k])
    {
      if !supported {
        captureState := Unsupported;
        return;
      }
      if seen != Idle || captureRef != null {
        return;
      }
      var capture := new CaptureGeneration(|generations|);
      generations, views := generations + [capture], views + [capture.View()];
      captureRef := capture;
    }

    /** Start, once the browser has answered with a stream. */
    method PermissionGranted(capture: CaptureGeneration, outcome: StartOutcome)
      requires Valid() && Known(capture) && capture.asking
      modifies this`views, this`captureRef, this`captureState, capture
      ensures Valid() && View() == GrantedStep(old(View()), capture.id, outcome)
    {
      var late := !capture.active || captureRef != capture;
      capture.Answer(late);
      views := views[capture.id := capture.View()];
      if !late {
        BeginRecording(capture, outcome);
      }
    }

    method BeginRecording(capture: CaptureGeneration, outcome: StartOutcome)
      requires Valid() && Known(capture)
      modifies this`views, this`captureRef, this`captureState, capture
      ensures Valid() && View() == Begin(old(View()), capture.id, outcome)
    {
      capture.Take(outcome);
      views := views[capture.id := capture.View()];
      if outcome == RecorderRuns {
        captureState := Recording;
      } else {
        StartFailed(capture);
      }
    }

    method StartFailed(capture: CaptureGeneration)
      requires Valid() && Known(capture)
      modifies this`views, this`captureRef, this`captureState, capture
      ensures Valid() && View() == Release(old(View()), capture.id, true, false).(captureState := Denied)
    {
      ReleaseCapture(capture, true, false);
      captureState := Denied;
    }

    method PermissionRefused(capture: CaptureGeneration)
      requires Valid() && Known(capture) && capture.asking
      modifies this`views, this`captureRef, this`captureState, capture
      ensures Valid() && View() == Step(old(View()), Refused(capture.id))
    {
      capture.asking := false;
      views := views[capture.id := capture.View()];
      if !capture.active || captureRef != capture {
        return;
      }
      StartFailed(capture);
    }

    method TrackEndedListener(capture: CaptureGeneration, throws: bool)
      requires Valid() && Known(capture) && capture.acquired
      modifies this`views, this`captureRef, this`captureState, capture
      ensures Valid() && View() == Step(old(View()), TrackEnded(capture.id, throws))
    {
      if capture.listening && !capture.stopRequested {
        AbandonInterruptedCapture(capture, throws);
      }
    }

    method DataAvailableListener(capture: CaptureGeneration, data: Bytes)
      requires Valid() && Known(capture) && capture.started
      modifies this`views, capture
      ensures Valid() && View() == Step(old(View()), Data(capture.id, data))
    {
      if capture.listening && capture.active && captureRef == capture && |data| > 0 {
        capture.chunks := capture.chunks + [data];
        views := views[capture.id := capture.View()];
      }
    }

    method StopListener(capture: CaptureGeneration)
      requires Valid() && Known(capture) && capture.started
      modifies this`views, this`captureRef, this`captureState, this`delivered, capture
      ensures Valid() && View() == StoppedStep(old(View()), capture.id)
    {
      capture.recorderState := Inactive;
      views := views[capture.id := capture.View()];
      if !capture.listening || !capture.active || captureRef != capture {
        return;
      }
      if !capture.stopRequested {
        AbandonInterruptedCapture(capture, false);
        return;
      }
      assert IsCurrent(old(View()), capture.id);
      Deliver(capture);
    }

    method Deliver(capture: CaptureGeneration)
      requires Valid() && Known(capture)
      modifies this`views, this`captureRef, this`captureState, this`delivered, capture
      ensures Valid()
      ensures View() ==
                var was := old(View());
                Release(was, capture.id, false, false)
                .(captureState := Ready,
                  delivered := was.delivered + [Delivery(capture.id, Joined(was.gens[capture.id].chunks))])
    {
      var file := Joined(capture.chunks);
      ReleaseCapture(capture, false, false);
      captureState := Ready;
      delivered := delivered + [Delivery(capture.id, file)];
    }

    method PauseRecording(seen: CaptureState, throws: bool)
      requires Valid()
      modifies this`views, this`captureState, captureRef
      ensures Valid() && View() == Step(old(View()), Pause(seen, throws))
    {
      if seen != Recording || captureRef == null || !captureRef.hasRecorder || captureRef.recorderState != Running {
        return;
      }
      if !throws {
        captureRef.recorderState := Suspended;
        views := views[captureRef.id := captureRef.View()];
        captureState := Paused;
      }
    }

    method ResumeRecording(seen: CaptureState, throws: bool)
      requires Valid()
      modifies this`views, this`captureState, captureRef
      ensures Valid() && View() == Step(old(View()), Resume(seen, throws))
    {
      if seen != Paused || captureRef == null || !captureRef.hasRecorder || captureRef.recorderState != Suspended {
        return;
      }
      if !throws {
        captureRef.recorderState := Running;
        views := views[captureRef.id := captureRef.View()];
        captureState := Recording;
      }
    }

    method StopRecording(seen: CaptureState, throws: bool)
      requires Valid()
      modifies this`views, captureRef
      ensures Valid() && View() == Step(old(View()), Stop(seen, throws))
    {
      if seen != Recording && seen != Paused {
        return;
      }
      if captureRef == null || !captureRef.hasRecorder || captureRef.recorderState == Inactive {
        return;
      }
      captureRef.RequestStop(throws);
      views := views[captureRef.id := captureRef.View()];
    }

    method DiscardRecording(throws: bool)
      requires Valid()
      modifies this`views, this`captureRef, this`captureState, captureRef
      ensures Valid() && View() == Step(old(View()), Discard(throws))
    {
      if captureRef != null {
        ReleaseCapture(captureRef, true, throws);
      }
      captureState := if supported then Idle else Unsupported;
    }

    method Unmounted(throws: bool)
      requires Valid()
      modifies this`views, this`captureRef, this`mounted, captureRef
      ensures Valid() && View() == Step(old(View()), Unmount(throws))
    {
      if captureRef != null {
        ReleaseCapture(captureRef, true, throws);
      }
      mounted := false;
    }

    /** One of the user's actions, each with what the browser does with the call it makes. */
    method UserAction(e: Event)
      requires Valid() && (e.Start? || e.Pause? || e.Resume? || e.Stop? || e.Discard? || e.Unmount?)
      modifies this, captureRef
      ensures Valid() && View() == Step(old(View()), e)
      ensures |old(generations)| <= |generations| && generations[..|old(generations)|] == old(generations)
      ensures forall k :: |old(generations)| <= k < |generations| ==> fresh(generations[k])
    {
      match e
      case Start(seen) => StartRecording(seen);
      case Pause(seen, throws) => PauseRecording(seen, throws);
      case Resume(seen, throws) => ResumeRecording(seen, throws);
      case Stop(seen, throws) => StopRecording(seen, throws);
      case Discard(throws) => DiscardRecording(throws);
      case Unmount(throws) => Unmounted(throws);
    }

    /** An event of the browser, delivered to the generation its listener belongs to. */
    method BrowserEvent(e: Event)
      requires Valid() && Possible(View(), e)
      requires !(e.Start? || e.Pause? || e.Resume? || e.Stop? || e.Discard? || e.Unmount?)
      modifies this, generations
      ensures Valid() && View() == Step(old(View()), e) && generations == old(generations)
    {
      var capture := generations[e.gen];
      match e
      case Granted(_, outcome) => PermissionGranted(capture, outcome);
      case Refused(_) => PermissionRefused(capture);
      case TrackEnded(_, throws) => TrackEndedListener(capture, throws);
      case RecorderDied(_) => RecorderInactive(capture);
      case Data(_, data) => DataAvailableListener(capture, data);
      case RecorderStopped(_) => StopListener(capture);
    }

    method Dispatch(e: Event)
      requires Valid() && Possible(View(), e)
      modifies this, generations
      ensures Valid() && View() == Step(old(View()), e)
      ensures |old(generations)| <= |generations| && generations[..|old(generations)|] == old(generations)
      ensures forall k :: |old(generations)| <= k < |generations| ==> fresh(generations[k])
    {
      assert captureRef != null ==> captureRef in generations;
      if e.Start? || e.Pause? || e.Resume? || e.Stop? || e.Discard? || e.Unmount? {
        UserAction(e);
      } else {
        BrowserEvent(e);
      }
    }

    lemma KnownByNumber(capture: CaptureGeneration)
      requires Valid() && capture in generations
      ensures Known(capture) && views[capture.id] == capture.View()
      ensures captureRef != null && captureRef.id == capture.id ==> captureRef == capture
    {
    }

    /** The browser's recorder ends by itself; no listener hears of it yet. */
    method RecorderInactive(capture: CaptureGeneration)
      requires Valid() && Known(capture) && capture.started
      modifies this`views, capture
      ensures Valid() && View() == Step(old(View()), RecorderDied(capture.id))
    {
      capture.recorderState := Inactive;
      views := views[capture.id := capture.View()];
    }
  }

  /** A component under any sequence of events is the transition system. */
  method RunEvents(supported: bool, events: seq<Event>) returns (c: Component)
    requires PossibleRun(Initial(supported), events)
    ensures c.Valid() && c.View() == After(Initial(supported), events)
  {
    c := new Component(supported);
    for i := 0 to |events|
      invariant PossibleRun(Initial(supported), events[..i])
      invariant c.Valid() && c.View() == After(Initial(supported), events[..i])
      invariant fresh(c) && forall k :: 0 <= k < |c.generations| ==> fresh(c.generations[k])
    {
      PrefixIsPossible(Initial(supported), events, i + 1);
      assert events[..i + 1][..i] == events[..i];
      c.Dispatch(events[i]);
    }
    assert events[..|events|] == events;
  }

  /**
    At the end of any run no stream leaks: each one acquired is stopped or held by the generation the
    component refers to. And if the last event delivered a file, it is exactly the data of its
    generation, which delivered nothing before and for which Stop was pressed.
  */
  method EventLoop(supported: bool, events: seq<Event>) returns (c: Component)
    requires PossibleRun(Initial(supported), events)
    ensures c.Valid() && c.View() == After(Initial(supported), events)
    ensures forall capture :: capture in c.generations && capture.acquired ==>
              capture.stopped || (c.captureRef == capture && capture.active && capture.hasStream)
    ensures events != [] && c.delivered != After(Initial(supported), events[..|events| - 1]).delivered ==>
              DeliveredWhole(supported, events[..|events| - 1], events[|events| - 1], c.delivered)
  {
    c := RunEvents(supported, events);
    forall capture | capture in c.generations && capture.acquired
      ensures capture.stopped || (c.captureRef == capture && capture.active && capture.hasStream)
    {
      c.KnownByNumber(capture);
      NoStreamLeaks(supported, events, capture.id);
    }
    if events != [] {
      var n := |events| - 1;
      assert events[..n] + [events[n]] == events;
      DeliveriesAreComplete(supported, events[..n], events[n]);
    }
  }

  /** The one delivery that the last event added is whole, asked for, and its generation's first. */
  ghost predicate DeliveredWhole(supported: bool, before: seq<Event>, e: Event, delivered: seq<Delivery>)
    requires PossibleRun(Initial(supported), before)
  {
    var earlier := After(Initial(supported), before).delivered;
    && e.RecorderStopped?
    && delivered == earlier + [Delivery(e.gen, DataOf(before, e.gen))]
    && StopPressed(Initial(supported), before, e.gen)
    && forall i :: 0 <= i < |earlier| ==> earlier[i].gen != e.gen
  }

  lemma {:induction false} PrefixIsPossible(s: State, events: seq<Event>, n: nat)
    requires PossibleRun(s, events) && n <= |events|
    ensures PossibleRun(s, events[..n])
  {
    if n < |events| {
      PrefixIsPossible(s, events[..|events| - 1], n);
      assert events[..|events| - 1][..n] == events[..n];
    } else {
      assert events[..n] == events;
    }
  }
}
