/**
  Stacked dialogs. The stack of open dialogs and the saved document state are shared by all of them,
  and dialogs may close in any order.
*/
module ModalStack {
  import opened Search
  import opened Wrappers

  const BASE_Z_INDEX := 1000

  datatype Entry = Entry(backdrop: nat, id: nat)

  datatype Attributes = Attributes(zIndex: nat, inert: bool, ariaHidden: bool)

  /** The document state kept from before the first dialog: the app root, its inert flag, and the overflow. */
  datatype Saved = Saved(root: Option<nat>, wasInert: bool, overflow: string)

  datatype State = State(
    stack: seq<Entry>, saved: Option<Saved>,
    overflow: string, inertRoots: set<nat>, backdrops: map<nat, Attributes>)

  /** A dialog opens, finding this element (or none) as the app root; a dialog closes. */
  datatype Event = Open(entry: Entry, root: Option<nat>) | Close(id: nat)

  predicate InStack(stack: seq<Entry>, id: nat) {
    exists i :: 0 <= i < |stack| && stack[i].id == id
  }

  predicate Shown(stack: seq<Entry>, backdrop: nat) {
    exists i :: 0 <= i < |stack| && stack[i].backdrop == backdrop
  }

  /** The effect of a dialog runs once per opening, on a backdrop of its own. */
  predicate Possible(s: State, e: Event) {
    e.Open? ==> !InStack(s.stack, e.entry.id) && !Shown(s.stack, e.entry.backdrop)
  }

  function AttributesAt(stack: seq<Entry>, i: nat): Attributes {
    Attributes(BASE_Z_INDEX + i, i + 1 != |stack|, i + 1 != |stack|)
  }

  /** The backdrops once the first n of the stack are written. */
  function Synced(stack: seq<Entry>, n: nat, backdrops: map<nat, Attributes>): map<nat, Attributes>
    requires n <= |stack|
  {
    if n == 0 then backdrops
    else Synced(stack, n - 1, backdrops)[stack[n - 1].backdrop := AttributesAt(stack, n - 1)]
  }

  function IndexOf(stack: seq<Entry>, id: nat): (k: nat)
    ensures k <= |stack| && (k < |stack| ==> stack[k].id == id)
    ensures forall i :: 0 <= i < k ==> stack[i].id != id
  {
    FindIndex(stack, (e: Entry) => e.id == id)
  }

  /** `splice(index, 1)` at the entry with this id, if there is one. */
  function Without(stack: seq<Entry>, id: nat): seq<Entry> {
    var k := IndexOf(stack, id);
    if k < |stack| then stack[..k] + stack[k + 1..] else stack
  }

  function Cover(s: State, root: Option<nat>): State {
    s.(saved := Some(Saved(root, root.Some? && root.value in s.inertRoots, s.overflow)),
       overflow := "hidden",
       inertRoots := if root.Some? then s.inertRoots + {root.value} else s.inertRoots)
  }

  function Uncover(s: State): State {
    match s.saved
    case None => s
    case Some(saved) =>
      s.(saved := None, overflow := saved.overflow,
         inertRoots := if saved.root.Some? && !saved.wasInert then s.inertRoots - {saved.root.value} else s.inertRoots)
  }

  function OpenStep(s: State, entry: Entry, root: Option<nat>): State {
    var covered := if s.stack == [] then Cover(s, root) else s;
    var stack := s.stack + [entry];
    covered.(stack := stack, backdrops := Synced(stack, |stack|, s.backdrops))
  }

  function CloseStep(s: State, id: nat): State {
    var stack := Without(s.stack, id);
    var synced := s.(stack := stack, backdrops := Synced(stack, |stack|, s.backdrops));
    if IndexOf(s.stack, id) < |s.stack| && stack == [] then Uncover(synced) else synced
  }

  function Step(s: State, e: Event): State
    requires Possible(s, e)
  {
    match e
    case Open(entry, root) => OpenStep(s, entry, root)
    case Close(id) => CloseStep(s, id)
  }

  // ----- what every run keeps -----

  ghost predicate Distinct(stack: seq<Entry>) {
    forall i, j :: 0 <= i < j < |stack| ==> stack[i].id != stack[j].id && stack[i].backdrop != stack[j].backdrop
  }

  /** Layers follow the stack, and only the top one is interactive. */
  ghost predicate LayersOk(s: State) {
    forall i :: 0 <= i < |s.stack| ==>
      s.stack[i].backdrop in s.backdrops && s.backdrops[s.stack[i].backdrop] == AttributesAt(s.stack, i)
  }

  /** What the page was like before the first dialog. */
  datatype Page = Page(overflow: string, inertRoots: set<nat>)

  ghost predicate PageOk(s: State, page: Page) {
    match s.saved
    case None => s.stack == [] && s.overflow == page.overflow && s.inertRoots == page.inertRoots
    case Some(saved) =>
      && s.stack != [] && s.overflow == "hidden" && saved.overflow == page.overflow
      && saved.wasInert == (saved.root.Some? && saved.root.value in page.inertRoots)
      && s.inertRoots == if saved.root.Some? then page.inertRoots + {saved.root.value} else page.inertRoots
  }

  ghost predicate Inv(s: State, page: Page) {
    Distinct(s.stack) && LayersOk(s) && PageOk(s, page)
  }

  lemma {:induction false} SyncedAt(stack: seq<Entry>, n: nat, backdrops: map<nat, Attributes>, i: nat)
    requires Distinct(stack) && i < n <= |stack|
    ensures stack[i].backdrop in Synced(stack, n, backdrops)
    ensures Synced(stack, n, backdrops)[stack[i].backdrop] == AttributesAt(stack, i)
  {
    if i < n - 1 { SyncedAt(stack, n - 1, backdrops, i); }
  }

  /** Backdrops that are not in the stack are left alone. */
  lemma {:induction false} SyncedElsewhere(stack: seq<Entry>, n: nat, backdrops: map<nat, Attributes>, b: nat)
    requires n <= |stack| && !Shown(stack, b)
    ensures b in Synced(stack, n, backdrops) <==> b in backdrops
    ensures b in backdrops ==> Synced(stack, n, backdrops)[b] == backdrops[b]
  {
    if n > 0 { SyncedElsewhere(stack, n - 1, backdrops, b); }
  }

  lemma {:induction false} WithoutAt(stack: seq<Entry>, id: nat, i: nat)
    requires Distinct(stack) && i < |Without(stack, id)|
    ensures var k := IndexOf(stack, id);
            var from := if i < k then i else i + 1;
            from < |stack| && Without(stack, id)[i] == stack[from] && stack[from].id != id
  {
    var k := IndexOf(stack, id);
    if i < k {
      assert Without(stack, id)[i] == stack[i];
    } else if k < |stack| {
      Spliced(stack, k, i);
      assert stack[k].id != stack[i + 1].id;
    }
  }

  lemma {:induction false} Spliced(stack: seq<Entry>, k: nat, i: nat)
    requires k <= i && i + 1 < |stack|
    ensures (stack[..k] + stack[k + 1..])[i] == stack[i + 1]
  {
    assert (stack[..k] + stack[k + 1..])[i] == stack[k + 1..][i - k];
  }

  lemma {:induction false} WithoutStaysDistinct(stack: seq<Entry>, id: nat)
    requires Distinct(stack)
    ensures Distinct(Without(stack, id))
  {
    var r := Without(stack, id);
    forall i, j | 0 <= i < j < |r|
      ensures r[i].id != r[j].id && r[i].backdrop != r[j].backdrop
    {
      WithoutAt(stack, id, i);
      WithoutAt(stack, id, j);
    }
  }

  lemma {:induction false} InWithout(stack: seq<Entry>, id: nat, x: nat)
    requires InStack(stack, x) && x != id
    ensures InStack(Without(stack, id), x)
  {
    var k := IndexOf(stack, id);
    var i :| 0 <= i < |stack| && stack[i].id == x;
    if k == |stack| {
    } else if i < k {
      FoundAt(stack[..k] + stack[k + 1..], i, x);
    } else {
      assert (stack[..k] + stack[k + 1..])[i - 1] == stack[i];
      FoundAt(stack[..k] + stack[k + 1..], i - 1, x);
    }
  }

  lemma {:induction false} FoundAt(stack: seq<Entry>, i: nat, id: nat)
    requires i < |stack| && stack[i].id == id
    ensures InStack(stack, id)
  {
  }

  lemma {:induction false} SyncedIsOk(s: State, backdrops: map<nat, Attributes>)
    requires Distinct(s.stack) && s.backdrops == Synced(s.stack, |s.stack|, backdrops)
    ensures LayersOk(s)
  {
    forall i | 0 <= i < |s.stack|
      ensures s.stack[i].backdrop in s.backdrops && s.backdrops[s.stack[i].backdrop] == AttributesAt(s.stack, i)
    {
      SyncedAt(s.stack, |s.stack|, backdrops, i);
    }
  }

  lemma {:induction false} StepKeepsInv(s: State, page: Page, e: Event)
    requires Inv(s, page) && Possible(s, e)
    ensures Inv(Step(s, e), page)
  {
    match e {
      case Open(entry, root) => OpenKeepsInv(s, page, entry, root);
      case Close(id) => CloseKeepsInv(s, page, id);
    }
  }

  lemma {:induction false} OpenKeepsInv(s: State, page: Page, entry: Entry, root: Option<nat>)
    requires Inv(s, page) && !InStack(s.stack, entry.id) && !Shown(s.stack, entry.backdrop)
    ensures Inv(OpenStep(s, entry, root), page)
  {
    assert Distinct(s.stack + [entry]);
    SyncedIsOk(OpenStep(s, entry, root), s.backdrops);
  }

  lemma {:induction false} CloseKeepsInv(s: State, page: Page, id: nat)
    requires Inv(s, page)
    ensures Inv(CloseStep(s, id), page)
  {
    WithoutStaysDistinct(s.stack, id);
    SyncedIsOk(CloseStep(s, id), s.backdrops);
    CloseKeepsPage(s, page, id);
  }

  lemma {:induction false} CloseKeepsPage(s: State, page: Page, id: nat)
    requires PageOk(s, page)
    ensures PageOk(CloseStep(s, id), page)
  {
    if s.saved.Some? && CloseStep(s, id).saved.None? {
      assert CloseStep(s, id).inertRoots == page.inertRoots;
    }
  }

  // ----- runs -----

  predicate PossibleRun(s: State, events: seq<Event>)
    decreases |events|, 0
  {
    events == [] ||
    var n := |events| - 1;
    PossibleRun(s, events[..n]) && Possible(After(s, events[..n]), events[n])
  }

  function After(s: State, events: seq<Event>): State
    requires PossibleRun(s, events)
    decreases |events|, 1
  {
    if events == [] then s else Step(After(s, events[..|events| - 1]), events[|events| - 1])
  }

  lemma {:induction false} RunKeepsInv(s: State, page: Page, events: seq<Event>)
    requires Inv(s, page) && PossibleRun(s, events)
    ensures Inv(After(s, events), page)
  {
    if events != [] {
      var n := |events| - 1;
      RunKeepsInv(s, page, events[..n]);
      StepKeepsInv(After(s, events[..n]), page, events[n]);
    }
  }

  /** No dialog is open. */
  predicate Closed(s: State) { s.stack == [] && s.saved == None }

  /** When the last dialog closes, in whatever order, the page is as it was before the first opened. */
  lemma {:induction false} PageIsRestored(s: State, events: seq<Event>)
    requires Closed(s) && PossibleRun(s, events) && After(s, events).stack == []
    ensures Closed(After(s, events))
    ensures After(s, events).overflow == s.overflow && After(s, events).inertRoots == s.inertRoots
  {
    RunKeepsInv(s, Page(s.overflow, s.inertRoots), events);
  }

  /** The app root found by the dialog that opened when none was open, in the latest such case. */
  function CoveringRoot(s: State, events: seq<Event>): Option<nat>
    requires PossibleRun(s, events)
  {
    if events == [] then None
    else
      var n := |events| - 1;
      if After(s, events[..n]).stack != [] then CoveringRoot(s, events[..n])
      else if events[n].Open? then events[n].root
      else None
  }

  lemma {:induction false} SavedRootIsCovering(s: State, events: seq<Event>)
    requires Closed(s) && PossibleRun(s, events) && After(s, events).stack != []
    ensures After(s, events).saved.Some? && After(s, events).saved.value.root == CoveringRoot(s, events)
  {
    var n := |events| - 1;
    var page := Page(s.overflow, s.inertRoots);
    RunKeepsInv(s, page, events[..n]);
    SavedInOneStep(After(s, events[..n]), page, events[n]);
    if After(s, events[..n]).stack != [] {
      SavedRootIsCovering(s, events[..n]);
    }
  }

  /** What is saved is saved by the dialog that opens first, and stays while a dialog is open. */
  lemma {:induction false} SavedInOneStep(s: State, page: Page, e: Event)
    requires PageOk(s, page) && Possible(s, e) && Step(s, e).stack != []
    ensures s.stack != [] ==> Step(s, e).saved == s.saved && s.saved.Some?
    ensures s.stack == [] ==> e.Open? && Step(s, e).saved.Some? && Step(s, e).saved.value.root == e.root
  {
  }

  /** While a dialog is open the page does not scroll, and of its roots the one found first is inert in addition. */
  lemma {:induction false} PageIsCovered(s: State, events: seq<Event>)
    requires Closed(s) && PossibleRun(s, events) && After(s, events).stack != []
    ensures var r := After(s, events);
            var root := CoveringRoot(s, events);
            r.overflow == "hidden" && r.inertRoots == s.inertRoots + if root.Some? then {root.value} else {}
  {
    RunKeepsInv(s, Page(s.overflow, s.inertRoots), events);
    SavedRootIsCovering(s, events);
  }

  // ----- which dialog is on top -----

  predicate About(e: Event, id: nat) {
    match e case Open(entry, _) => entry.id == id case Close(closed) => closed == id
  }

  /** Where this dialog was last opened, if it has not been closed since. */
  function OpenedAt(events: seq<Event>, id: nat): Option<nat> {
    if events == [] then None
    else
      var n := |events| - 1;
      if About(events[n], id) then (if events[n].Open? then Some(n) else None) else OpenedAt(events[..n], id)
  }

  lemma {:induction false} OpenedAtIsPast(events: seq<Event>, id: nat)
    ensures OpenedAt(events, id).Some? ==> OpenedAt(events, id).value < |events|
  {
    if events != [] { OpenedAtIsPast(events[..|events| - 1], id); }
  }

  /** This entry is the one its dialog was last opened with. */
  ghost predicate OpenedAs(events: seq<Event>, entry: Entry) {
    var at := OpenedAt(events, entry.id);
    at.Some? && at.value < |events| && events[at.value].Open? && events[at.value].entry == entry
  }

  /** The dialogs still open, in order of opening, each with the backdrop it was opened with. */
  ghost predicate InOrder(stack: seq<Entry>, events: seq<Event>) {
    && (forall i :: 0 <= i < |stack| ==> OpenedAs(events, stack[i]))
    && (forall i, j :: 0 <= i < j < |stack| ==>
          OpenedAt(events, stack[i].id).value < OpenedAt(events, stack[j].id).value)
  }

  /** Nothing that is still open is missing from the stack. */
  ghost predicate Complete(stack: seq<Entry>, events: seq<Event>) {
    forall id :: OpenedAt(events, id).Some? ==> InStack(stack, id)
  }

  lemma {:induction false} StackIsInOrder(s: State, events: seq<Event>)
    requires Closed(s) && PossibleRun(s, events)
    ensures InOrder(After(s, events).stack, events)
    ensures Complete(After(s, events).stack, events)
  {
    if events != [] {
      var n := |events| - 1;
      StackIsInOrder(s, events[..n]);
      RunKeepsInv(s, Page(s.overflow, s.inertRoots), events[..n]);
      var was := After(s, events[..n]).stack;
      match events[n]
      case Open(entry, root) =>
        OpenKeepsOrder(was, events, entry);
        OpenKeepsComplete(was, events, entry);
      case Close(id) =>
        CloseKeepsOrder(was, events, id);
        CloseKeepsComplete(was, events, id);
    }
  }

  lemma {:induction false} OpenKeepsOrder(was: seq<Entry>, events: seq<Event>, entry: Entry)
    requires events != [] && InOrder(was, events[..|events| - 1]) && !InStack(was, entry.id)
    requires events[|events| - 1].Open? && events[|events| - 1].entry == entry
    ensures InOrder(was + [entry], events)
  {
    var n := |events| - 1;
    forall i | 0 <= i < |was|
      ensures OpenedAt(events, was[i].id) == OpenedAt(events[..n], was[i].id)
      ensures OpenedAt(events, was[i].id).Some? && OpenedAt(events, was[i].id).value < n && OpenedAs(events, was[i])
    {
      OpenedAtIsPast(events[..n], was[i].id);
      assert OpenedAs(events[..n], was[i]);
    }
  }

  lemma {:induction false} OpenKeepsComplete(was: seq<Entry>, events: seq<Event>, entry: Entry)
    requires events != [] && Complete(was, events[..|events| - 1])
    requires events[|events| - 1].Open? && events[|events| - 1].entry == entry
    ensures Complete(was + [entry], events)
  {
    var now := was + [entry];
    forall id | OpenedAt(events, id).Some?
      ensures InStack(now, id)
    {
      if id == entry.id {
        assert now[|was|].id == id;
      } else {
        assert InStack(was, id);
        var i :| 0 <= i < |was| && was[i].id == id;
        assert now[i].id == id;
      }
    }
  }

  lemma {:induction false} CloseKeepsOrder(was: seq<Entry>, events: seq<Event>, id: nat)
    requires events != [] && Distinct(was) && InOrder(was, events[..|events| - 1])
    requires events[|events| - 1].Close? && events[|events| - 1].id == id
    ensures InOrder(Without(was, id), events)
  {
    var n := |events| - 1;
    var now := Without(was, id);
    forall i | 0 <= i < |now|
      ensures OpenedAt(events, now[i].id) == OpenedAt(events[..n], now[i].id)
      ensures OpenedAs(events, now[i])
    {
      WithoutAt(was, id, i);
    }
    forall i, j | 0 <= i < j < |now|
      ensures OpenedAt(events, now[i].id).value < OpenedAt(events, now[j].id).value
    {
      WithoutAt(was, id, i);
      WithoutAt(was, id, j);
    }
  }

  lemma {:induction false} CloseKeepsComplete(was: seq<Entry>, events: seq<Event>, id: nat)
    requires events != [] && Complete(was, events[..|events| - 1])
    requires events[|events| - 1].Close? && events[|events| - 1].id == id
    ensures Complete(Without(was, id), events)
  {
    forall x | OpenedAt(events, x).Some?
      ensures InStack(Without(was, id), x)
    {
      assert OpenedAt(events[..|events| - 1], x).Some?;
      InWithout(was, id, x);
    }
  }

  /** It is open, and every other open dialog was opened before it. */
  ghost predicate OpenedLast(events: seq<Event>, id: nat) {
    && OpenedAt(events, id).Some?
    && forall other :: OpenedAt(events, other).Some? ==>
         OpenedAt(events, other).value <= OpenedAt(events, id).value
  }

  lemma {:induction false} TopWasOpenedLast(stack: seq<Entry>, events: seq<Event>, i: nat)
    requires InOrder(stack, events) && Complete(stack, events) && i < |stack|
    ensures OpenedLast(events, stack[i].id) <==> i == |stack| - 1
  {
    var top := stack[|stack| - 1].id;
    assert OpenedAt(events, top).Some?;
    if i == |stack| - 1 {
      forall id | OpenedAt(events, id).Some?
        ensures OpenedAt(events, id).value <= OpenedAt(events, top).value
      {
        assert InStack(stack, id);
        var j :| 0 <= j < |stack| && stack[j].id == id;
      }
    } else {
      assert OpenedAt(events, top).value > OpenedAt(events, stack[i].id).value;
    }
  }

  /**
    At every point of every run, the one dialog that is not inert is the one opened last of those
    still open, and the backdrops lie above each other in order of opening, from 1000 on.
  */
  lemma {:induction false} LastOpenedIsInteractive(s: State, events: seq<Event>, i: nat)
    requires Closed(s) && PossibleRun(s, events) && i < |After(s, events).stack|
    ensures var r := After(s, events);
            && r.stack[i].backdrop in r.backdrops
            && OpenedAs(events, r.stack[i])
            && r.backdrops[r.stack[i].backdrop].zIndex == 1000 + i
            && (!r.backdrops[r.stack[i].backdrop].inert <==> OpenedLast(events, r.stack[i].id))
            && (!r.backdrops[r.stack[i].backdrop].ariaHidden <==> !r.backdrops[r.stack[i].backdrop].inert)
  {
    var r := After(s, events);
    RunKeepsInv(s, Page(s.overflow, s.inertRoots), events);
    StackIsInOrder(s, events);
    TopWasOpenedLast(r.stack, events, i);
  }

  // ----- the shared variables and the effect -----

  class Document {
    var modalStack: seq<Entry>
    var modalDocumentState: Option<Saved>
    var overflow: string
    var inertRoots: set<nat>
    var backdrops: map<nat, Attributes>

    ghost function View(): State
      reads this
    {
      State(modalStack, modalDocumentState, overflow, inertRoots, backdrops)
    }

    constructor (overflow: string, inertRoots: set<nat>)
      ensures Closed(View()) && View().overflow == overflow && View().inertRoots == inertRoots
    {
      modalStack, modalDocumentState, backdrops := [], None, map[];
      this.overflow, this.inertRoots := overflow, inertRoots;
    }

    method SyncModalStack()
      modifies this`backdrops
      ensures backdrops == Synced(modalStack, |modalStack|, old(backdrops))
    {
      for index := 0 to |modalStack|
        invariant backdrops == Synced(modalStack, index, old(backdrops))
      {
        var isTop := index == |modalStack| - 1;
        backdrops := backdrops[modalStack[index].backdrop := Attributes(BASE_Z_INDEX + index, !isTop, !isTop)];
      }
    }

    /** The effect of a dialog that opens. */
    method OpenModal(entry: Entry, appRoot: Option<nat>)
      requires Possible(View(), Open(entry, appRoot))
      modifies this
      ensures View() == Step(old(View()), Open(entry, appRoot))
    {
      if |modalStack| == 0 {
        var wasInert := appRoot.Some? && appRoot.value in inertRoots;
        modalDocumentState := Some(Saved(appRoot, wasInert, overflow));
        overflow := "hidden";
        if appRoot.Some? && !wasInert {
          inertRoots := inertRoots + {appRoot.value};
        }
      }
      modalStack := modalStack + [entry];
      SyncModalStack();
    }

    /** The clean-up of a dialog that closes; says whether the focus goes back to where it came from. */
    method CloseModal(id: nat) returns (refocus: bool)
      modifies this
      ensures View() == Step(old(View()), Close(id))
      ensures refocus <==> old(modalStack) != [] && IndexOf(old(modalStack), id) == |old(modalStack)| - 1
    {
      var stackIndex := FindIndex(id);
      var found := stackIndex < |modalStack|;
      refocus := found && stackIndex == |modalStack| - 1;
      if found {
        modalStack := modalStack[..stackIndex] + modalStack[stackIndex + 1..];
      }
      SyncModalStack();
      if found && |modalStack| == 0 && modalDocumentState.Some? {
        var saved := modalDocumentState.value;
        overflow := saved.overflow;
        if saved.root.Some? && !saved.wasInert {
          inertRoots := inertRoots - {saved.root.value};
        }
        modalDocumentState := None;
      }
    }

    method FindIndex(id: nat) returns (k: nat)
      ensures k == IndexOf(modalStack, id)
    {
      k := 0;
      while k < |modalStack| && modalStack[k].id != id
        invariant k <= |modalStack| && forall i :: 0 <= i < k ==> modalStack[i].id != id
      {
        k := k + 1;
      }
      assert k <= IndexOf(modalStack, id) by {
        assert forall i :: 0 <= i < k ==> modalStack[i].id != id;
      }
    }
  }
}
