/**
  What the buttons and the browser's events bring about: a take begins, survives everything that does
  not end it, and is delivered in full once Stop was pressed; everything else that ends a take lets go of it.
*/
module CaptureTakes {
  import opened Wrappers
  import opened CaptureAudio

  // ----- a take begins -----

  /** Start makes a generation and asks for the microphone exactly if the shown state is idle and none is current. */
  lemma {:induction false} StartAsks(s: State, seen: CaptureState)
    requires Inv(s)
    ensures var r := Step(s, Start(seen));
            && (|r.gens| == |s.gens| + 1 <==> s.supported && seen == Idle && s.current == None)
            && (|r.gens| == |s.gens| || |r.gens| == |s.gens| + 1)
            && (|r.gens| > |s.gens| ==>
                  IsCurrent(r, |s.gens|) && r.gens[|s.gens|].asking && r.gens[|s.gens|].chunks == []
                  && !r.gens[|s.gens|].stopRequested && r.captureState == s.captureState)
            && (|r.gens| == |s.gens| ==> r == s.(captureState := if s.supported then s.captureState else Unsupported))
            && r.gens[..|s.gens|] == s.gens && r.delivered == s.delivered
  {
  }

  /** The generation has the microphone, its recorder is in this state, and nobody has asked it to stop. */
  ghost predicate Records(s: State, g: nat, recorder: RecorderState) {
    && g < |s.gens| && IsCurrent(s, g) && HasRecorder(s) && s.gens[g].listening
    && s.gens[g].hasStream && !s.gens[g].stopped && s.gens[g].started && s.gens[g].recorder == recorder
  }

  /** Permission for the current generation: it records if the recorder runs, and is denied and let go if not. */
  lemma {:induction false} PermissionDecides(s: State, g: nat, outcome: StartOutcome)
    requires Inv(s) && g < |s.gens| && s.gens[g].asking
    ensures var r := Step(s, Granted(g, outcome));
            && (IsCurrent(s, g) && outcome == RecorderRuns ==>
                  Records(r, g, Running) && r.captureState == Recording && r.gens[g].stopRequested == s.gens[g].stopRequested)
            && (IsCurrent(s, g) && outcome != RecorderRuns ==> Quiet(r) && r.captureState == Denied)
            && (!IsCurrent(s, g) ==> r.gens[g].stopped && r.captureState == s.captureState && r.current == s.current)
            && r.delivered == s.delivered
  {
    GrantedKeepsInv(s, g, outcome);
  }

  /** A refused permission shows up as denied if the generation is still wanted, and not at all if not. */
  lemma {:induction false} RefusalDecides(s: State, g: nat)
    requires Inv(s) && g < |s.gens| && s.gens[g].asking
    ensures var r := Step(s, Refused(g));
            && (IsCurrent(s, g) ==> Quiet(r) && r.captureState == Denied)
            && (!IsCurrent(s, g) ==> r.captureState == s.captureState && r.current == s.current)
            && r.delivered == s.delivered
  {
    RefusedKeepsInv(s, g);
  }

  // ----- pausing -----

  /** Pause suspends a running recorder and Resume brings exactly the same state back; both keep the data. */
  lemma {:induction false} PauseThenResume(s: State, g: nat)
    requires Inv(s) && Records(s, g, Running) && s.captureState == Recording
    ensures var p := Step(s, Pause(Recording, false));
            && Records(p, g, Suspended) && p.captureState == Paused && p.gens[g].chunks == s.gens[g].chunks
            && Step(p, Resume(Paused, false)) == s
  {
    var p := Step(s, Pause(Recording, false));
    var r := Step(p, Resume(Paused, false));
    assert r.gens[g] == s.gens[g];
    assert r.gens == s.gens;
  }

  /** A press that meets a recorder in another state, or a recorder that throws, changes nothing. */
  lemma {:induction false} PressesThatDoNothing(s: State, seen: CaptureState, throws: bool)
    requires Inv(s)
    ensures throws || seen != Recording || s.current == None ==> Step(s, Pause(seen, throws)) == s
    ensures throws || seen != Paused || s.current == None ==> Step(s, Resume(seen, throws)) == s
    ensures s.current.Some? && !s.gens[s.current.value].hasRecorder ==>
              Step(s, Pause(seen, throws)) == Step(s, Resume(seen, throws)) == Step(s, Stop(seen, throws)) == s
    ensures (seen != Recording && seen != Paused) || s.current == None ==> Step(s, Stop(seen, throws)) == s
  {
  }

  // ----- what ends a take -----

  /** A lost track ends a take that nobody asked to stop; after Stop it is expected and ignored. */
  lemma {:induction false} LostTrackEndsTake(s: State, g: nat, throws: bool)
    requires Inv(s) && g < |s.gens| && s.gens[g].acquired && s.gens[g].listening
    ensures var r := Step(s, TrackEnded(g, throws));
            && (!s.gens[g].stopRequested ==> Quiet(r) && r.captureState == Idle)
            && (s.gens[g].stopRequested ==> r == s)
            && r.delivered == s.delivered
  {
    AbandonKeepsInv(s, g, throws);
  }

  /** A recorder that stops unasked ends the take without a file. */
  lemma {:induction false} UnaskedStopEndsTake(s: State, g: nat)
    requires Inv(s) && g < |s.gens| && s.gens[g].started && IsCurrent(s, g) && !s.gens[g].stopRequested
    ensures var r := Step(s, RecorderStopped(g));
            Quiet(r) && r.captureState == Idle && r.delivered == s.delivered
  {
    StoppedKeepsInv(s, g);
  }

  /** Discard lets go of everything and shows a state from which Start works again. */
  lemma {:induction false} DiscardReadiesStart(s: State, throws: bool)
    requires Inv(s)
    ensures var r := Step(s, Discard(throws));
            && Quiet(r) && r.captureState == (if s.supported then Idle else Unsupported) && r.delivered == s.delivered
            && (s.supported ==> |Step(r, Start(r.captureState)).gens| == |r.gens| + 1)
  {
    ReleaseCurrentKeepsInv(s, throws);
  }

  // ----- a take goes on until it is delivered -----

  /** The generation is current and its listeners are in place. */
  ghost predicate Held(s: State, g: nat) {
    g < |s.gens| && IsCurrent(s, g) && s.gens[g].listening
  }

  /** None of the events that end this take: giving it up, its recorder's stop, or the loss of a track before Stop. */
  ghost predicate Benign(s: State, e: Event, g: nat)
    requires g < |s.gens|
  {
    && !e.Discard? && !e.Unmount?
    && !(e.RecorderStopped? && e.gen == g)
    && !(e.TrackEnded? && e.gen == g && !s.gens[g].stopRequested)
  }

  lemma {:induction false} HeldThroughOne(s: State, e: Event, g: nat)
    requires Inv(s) && Held(s, g) && Possible(s, e) && Benign(s, e, g)
    ensures Held(Step(s, e), g)
    ensures s.gens[g].stopRequested ==> Step(s, e).gens[g].stopRequested
    ensures Step(s, e).delivered == s.delivered
  {
    DeliversWhen(s, e);
  }

  /** From where Stop was pressed: none of the events gives the take up or is the recorder's stop. */
  predicate NotGivenUp(events: seq<Event>, g: nat) {
    forall i :: 0 <= i < |events| ==> !events[i].Discard? && !events[i].Unmount? && !(events[i].RecorderStopped? && events[i].gen == g)
  }

  lemma {:induction false} HeldAfterStop(s: State, events: seq<Event>, g: nat)
    requires Inv(s) && Held(s, g) && s.gens[g].stopRequested
    requires PossibleRun(s, events) && NotGivenUp(events, g)
    ensures var r := After(s, events);
            Inv(r) && Held(r, g) && r.gens[g].stopRequested && r.delivered == s.delivered
  {
    RunKeepsInv(s, events);
    if events != [] {
      var n := |events| - 1;
      HeldAfterStop(s, events[..n], g);
      HeldThroughOne(After(s, events[..n]), events[n], g);
    }
  }

  /** A press of Stop that the component does not refuse. */
  ghost predicate StopTakes(s: State, seen: CaptureState, g: nat) {
    (seen == Recording || seen == Paused) && (Records(s, g, Running) || Records(s, g, Suspended))
  }

  lemma {:induction false} StopIsRemembered(s: State, seen: CaptureState, throws: bool, g: nat)
    requires Inv(s) && StopTakes(s, seen, g)
    ensures var r := Step(s, Stop(seen, throws));
            && Inv(r) && Held(r, g) && r.gens[g].stopRequested && r.delivered == s.delivered
            && r.gens[g].chunks == s.gens[g].chunks && r.captureState == s.captureState
            && (!throws ==> r.gens[g].recorder == Inactive)
  {
    StopKeepsInv(s, seen, throws);
  }

  lemma {:induction false} RunAppends(s: State, a: seq<Event>, b: seq<Event>)
    requires PossibleRun(s, a + b)
    ensures PossibleRun(s, a) && PossibleRun(After(s, a), b) && After(s, a + b) == After(After(s, a), b)
    decreases |b|
  {
    if b == [] {
      assert a + b == a;
    } else {
      var n := |b| - 1;
      assert (a + b)[..|a + b| - 1] == a + b[..n];
      RunAppends(s, a, b[..n]);
    }
  }

  /**
    Over any run: once Stop is pressed on a recorder that runs or is suspended, whatever else happens
    (data, lost tracks, late permissions, more presses) short of giving the take up, the recorder's stop
    delivers a file with all the data the recorder ever handed over, before and after the press, and the
    component is ready and holds nothing.
  */
  lemma {:induction false} PressedStopDelivers(supported: bool, events: seq<Event>, g: nat, seen: CaptureState, throws: bool, late: seq<Event>)
    requires PossibleRun(Initial(supported), events) && StopTakes(After(Initial(supported), events), seen, g)
    requires PossibleRun(Initial(supported), events + [Stop(seen, throws)] + late) && NotGivenUp(late, g)
    ensures var all := events + [Stop(seen, throws)] + late;
            var s := After(Initial(supported), all);
            && Possible(s, RecorderStopped(g))
            && var r := Step(s, RecorderStopped(g));
               && r.delivered == After(Initial(supported), events).delivered + [Delivery(g, DataOf(all, g))]
               && r.captureState == Ready && Quiet(r)
  {
    var pressed := events + [Stop(seen, throws)];
    var all := pressed + late;
    var s0 := After(Initial(supported), events);
    RunKeepsInv(Initial(supported), events);
    RunAppends(Initial(supported), pressed, late);
    StopIsRemembered(s0, seen, throws, g);
    assert pressed[..|events|] == events;
    assert After(Initial(supported), pressed) == Step(s0, Stop(seen, throws));
    HeldAfterStop(Step(s0, Stop(seen, throws)), late, g);
    RunsAreFaithful(supported, all);
    AskedStopDelivers(After(Initial(supported), all), g);
  }

  lemma {:induction false} AskedStopDelivers(s: State, g: nat)
    requires Inv(s) && Held(s, g) && s.gens[g].stopRequested
    ensures Possible(s, RecorderStopped(g))
    ensures var r := Step(s, RecorderStopped(g));
            && r.delivered == s.delivered + [Delivery(g, Joined(s.gens[g].chunks))]
            && r.captureState == Ready && Quiet(r)
  {
    assert GenerationOk(s.gens[g]);
    StoppedKeepsInv(s, g);
  }

  /** Until Stop, a take survives every event but those that end it, and keeps its recorder and its microphone. */
  lemma {:induction false} TakeGoesOn(s: State, events: seq<Event>, g: nat)
    requires Inv(s) && Held(s, g) && PossibleRun(s, events)
    requires forall n :: 0 <= n < |events| && PossibleRun(s, events[..n]) && Held(After(s, events[..n]), g) ==>
               Benign(After(s, events[..n]), events[n], g)
    ensures Held(After(s, events), g) && After(s, events).gens[g].hasStream && After(s, events).delivered == s.delivered
  {
    RunKeepsInv(s, events);
    if events != [] {
      var n := |events| - 1;
      forall k | 0 <= k < n && PossibleRun(s, events[..n][..k]) && Held(After(s, events[..n][..k]), g)
        ensures Benign(After(s, events[..n][..k]), events[..n][k], g)
      {
        assert events[..n][..k] == events[..k];
      }
      RunKeepsInv(s, events[..n]);
      TakeGoesOn(s, events[..n], g);
      HeldThroughOne(After(s, events[..n]), events[n], g);
    }
    assert GenerationOk(After(s, events).gens[g]);
  }
}
