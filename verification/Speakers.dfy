/** Transcript segments, speaker names, and renaming a speaker across a transcript. */
module Speakers {
  import opened Wrappers

  datatype Segment = Segment(
    id: string, speakerLabel: string, startMs: int, endMs: int, text: string, confidence: real)

  const SPEAKER_NAME_MAX_LENGTH := 80

  // ----- trimming -----

  /** White space and line ends, as String.prototype.trim and \s know them. */
  predicate IsSpace(c: char) {
    '\U{0009}' <= c <= '\U{000d}' || c == ' ' || c == '\U{00a0}' || c == '\U{1680}'
    || '\U{2000}' <= c <= '\U{200a}' || c == '\U{2028}' || c == '\U{2029}' || c == '\U{202f}'
    || c == '\U{205f}' || c == '\U{3000}' || c == '\U{feff}'
  }

  ghost predicate AllSpace(s: string) {
    forall i :: 0 <= i < |s| ==> IsSpace(s[i])
  }

  /** Nothing to trim at either end. */
  predicate Trimmed(s: string) {
    s != [] ==> !IsSpace(s[0]) && !IsSpace(s[|s| - 1])
  }

  function TrimStart(s: string): string {
    if s != [] && IsSpace(s[0]) then TrimStart(s[1..]) else s
  }

  function TrimEnd(s: string): string {
    if s != [] && IsSpace(s[|s| - 1]) then TrimEnd(s[..|s| - 1]) else s
  }

  function Trim(s: string): string {
    TrimEnd(TrimStart(s))
  }

  lemma {:induction false} TrimStartDrops(s: string) returns (before: string)
    ensures s == before + TrimStart(s) && AllSpace(before)
    ensures TrimStart(s) != [] ==> !IsSpace(TrimStart(s)[0])
  {
    before := [];
    if s != [] && IsSpace(s[0]) {
      var rest := TrimStartDrops(s[1..]);
      before := [s[0]] + rest;
    }
  }

  lemma {:induction false} TrimEndDrops(s: string) returns (after: string)
    ensures s == TrimEnd(s) + after && AllSpace(after)
    ensures TrimEnd(s) != [] ==> !IsSpace(TrimEnd(s)[|TrimEnd(s)| - 1])
  {
    after := [];
    if s != [] && IsSpace(s[|s| - 1]) {
      var rest := TrimEndDrops(s[..|s| - 1]);
      after := rest + [s[|s| - 1]];
    }
  }

  lemma {:induction false} TrimRemovesOnlySpace(s: string)
    ensures Trimmed(Trim(s))
    ensures exists before: string, after: string ::
              s == before + Trim(s) + after && AllSpace(before) && AllSpace(after)
  {
    var before := TrimStartDrops(s);
    var after := TrimEndDrops(TrimStart(s));
    assert s == before + Trim(s) + after;
    if Trim(s) != [] { assert TrimStart(s)[0] == Trim(s)[0]; }
  }

  lemma {:induction false} TrimLeavesTrimmed(s: string)
    requires Trimmed(s)
    ensures Trim(s) == s
  {
  }

  // ----- names -----

  /** The length of a JavaScript string: characters beyond the basic plane take two units. */
  function Utf16Length(s: string): nat {
    if s == "" then 0 else Utf16Length(s[..|s| - 1]) + (if s[|s| - 1] as int >= 0x1_0000 then 2 else 1)
  }

  /** It is the number of characters exactly when all of them are in the basic plane, and twice that at most. */
  lemma {:induction false} Utf16LengthBounds(s: string)
    ensures |s| <= Utf16Length(s) <= 2 * |s|
    ensures Utf16Length(s) == |s| <==> forall i :: 0 <= i < |s| ==> s[i] as int < 0x1_0000
  {
    if s != "" {
      var n := |s| - 1;
      Utf16LengthBounds(s[..n]);
      assert forall i :: 0 <= i < n ==> s[..n][i] == s[i];
    }
  }

  function ValidateSpeakerName(value: string): Result<string, string> {
    var name := Trim(value);
    if name == "" then Failure("Enter a speaker name.")
    else if Utf16Length(name) > SPEAKER_NAME_MAX_LENGTH then Failure("Speaker names are limited to 80 characters.")
    else Success(name)
  }

  predicate ValidName(name: string) {
    name != "" && Trimmed(name) && Utf16Length(name) <= SPEAKER_NAME_MAX_LENGTH
  }

  lemma {:induction false} ValidatedNamesAreValid(value: string)
    ensures ValidateSpeakerName(value).Success? <==> ValidName(Trim(value))
    ensures ValidateSpeakerName(value).Success? ==> ValidateSpeakerName(value).value == Trim(value)
    ensures ValidName(value) <==> ValidateSpeakerName(value) == Success(value)
  {
    TrimRemovesOnlySpace(value);
    if Trimmed(value) { TrimLeavesTrimmed(value); }
  }

  function NormalizeSpeakerLabels(segments: seq<Segment>): Result<seq<Segment>, string> {
    if segments == [] then Success([])
    else
      match ValidateSpeakerName(segments[0].speakerLabel)
      case Failure(e) => Failure(e)
      case Success(name) =>
        match NormalizeSpeakerLabels(segments[1..])
        case Failure(e) => Failure(e)
        case Success(rest) => Success([segments[0].(speakerLabel := name)] + rest)
  }

  ghost predicate Normalized(segments: seq<Segment>) {
    forall i :: 0 <= i < |segments| ==> ValidName(segments[i].speakerLabel)
  }

  /**
    Normalizing succeeds exactly when every speaker has a valid name in it; it then trims the labels
    and touches nothing else.
  */
  lemma {:induction false} NormalizeTrimsLabels(segments: seq<Segment>)
    ensures NormalizeSpeakerLabels(segments).Success? <==>
              (forall i :: 0 <= i < |segments| ==> ValidName(Trim(segments[i].speakerLabel)))
    ensures NormalizeSpeakerLabels(segments).Success? ==>
              var r := NormalizeSpeakerLabels(segments).value;
              && |r| == |segments| && Normalized(r)
              && forall i :: 0 <= i < |segments| ==>
                   r[i] == segments[i].(speakerLabel := Trim(segments[i].speakerLabel))
  {
    if segments != [] {
      var rest := segments[1..];
      NormalizeTrimsLabels(rest);
      ValidatedNamesAreValid(segments[0].speakerLabel);
      assert forall i :: 1 <= i < |segments| ==> segments[i] == rest[i - 1];
      assert forall i :: 0 <= i < |rest| ==> rest[i] == segments[i + 1];
    }
  }

  lemma {:induction false} NormalizedStays(segments: seq<Segment>)
    requires Normalized(segments)
    ensures NormalizeSpeakerLabels(segments) == Success(segments)
  {
    if segments != [] {
      NormalizedStays(segments[1..]);
      assert segments == [segments[0].(speakerLabel := segments[0].speakerLabel)] + segments[1..];
      ValidatedNamesAreValid(segments[0].speakerLabel);
    }
  }

  // ----- counting -----

  function Count(segments: seq<Segment>, speaker: string): nat {
    if segments == [] then 0
    else Count(segments[..|segments| - 1], speaker) + (if segments[|segments| - 1].speakerLabel == speaker then 1 else 0)
  }

  lemma {:induction false} CountPositive(segments: seq<Segment>, speaker: string)
    ensures Count(segments, speaker) <= |segments|
    ensures Count(segments, speaker) > 0 <==> exists i :: 0 <= i < |segments| && segments[i].speakerLabel == speaker
  {
    if segments != [] {
      var n := |segments| - 1;
      CountPositive(segments[..n], speaker);
      if segments[n].speakerLabel != speaker && (exists i :: 0 <= i < |segments| && segments[i].speakerLabel == speaker) {
        var i :| 0 <= i < |segments| && segments[i].speakerLabel == speaker;
        assert segments[..n][i].speakerLabel == speaker;
      }
    }
  }

  datatype SpeakerCount = SpeakerCount(speaker: string, segmentCount: nat)

  /** `counts.set(label, (counts.get(label) ?? 0) + 1)` on a map that keeps insertion order. */
  function Bump(counts: seq<SpeakerCount>, speaker: string): seq<SpeakerCount> {
    if counts == [] then [SpeakerCount(speaker, 1)]
    else if counts[0].speaker == speaker then [SpeakerCount(speaker, counts[0].segmentCount + 1)] + counts[1..]
    else [counts[0]] + Bump(counts[1..], speaker)
  }

  function Tally(segments: seq<Segment>): seq<SpeakerCount> {
    if segments == [] then []
    else Bump(Tally(segments[..|segments| - 1]), segments[|segments| - 1].speakerLabel)
  }

  function Lookup(counts: seq<SpeakerCount>, speaker: string): nat {
    if counts == [] then 0
    else if counts[0].speaker == speaker then counts[0].segmentCount
    else Lookup(counts[1..], speaker)
  }

  function Total(counts: seq<SpeakerCount>): nat {
    if counts == [] then 0 else counts[0].segmentCount + Total(counts[1..])
  }

  function Names(counts: seq<SpeakerCount>): seq<string> {
    if counts == [] then [] else [counts[0].speaker] + Names(counts[1..])
  }

  /** The labels without repetition, each where it first appears. */
  function FirstAppearances(segments: seq<Segment>): seq<string> {
    if segments == [] then []
    else
      var before := FirstAppearances(segments[..|segments| - 1]);
      var last := segments[|segments| - 1].speakerLabel;
      if last in before then before else before + [last]
  }

  lemma {:induction false} BumpCountsOne(counts: seq<SpeakerCount>, speaker: string, other: string)
    ensures Total(Bump(counts, speaker)) == Total(counts) + 1
    ensures Lookup(Bump(counts, speaker), other) == Lookup(counts, other) + (if other == speaker then 1 else 0)
    ensures Names(Bump(counts, speaker)) ==
              if speaker in Names(counts) then Names(counts) else Names(counts) + [speaker]
  {
    if counts != [] {
      BumpCountsOne(counts[1..], speaker, other);
      assert Names(counts) == [counts[0].speaker] + Names(counts[1..]);
    }
  }

  /** The tally lists each label once, in order of first appearance, with its number of segments. */
  lemma {:induction false} TallyCounts(segments: seq<Segment>, speaker: string)
    ensures Names(Tally(segments)) == FirstAppearances(segments)
    ensures Lookup(Tally(segments), speaker) == Count(segments, speaker)
    ensures Total(Tally(segments)) == |segments|
    ensures speaker in FirstAppearances(segments) <==> Count(segments, speaker) > 0
    ensures forall i, j :: 0 <= i < j < |FirstAppearances(segments)| ==>
              FirstAppearances(segments)[i] != FirstAppearances(segments)[j]
  {
    if segments != [] {
      var before := segments[..|segments| - 1];
      TallyCounts(before, speaker);
      BumpCountsOne(Tally(before), segments[|segments| - 1].speakerLabel, speaker);
    }
  }

  /** The loop of `listSpeakers`. */
  method ListSpeakers(segments: seq<Segment>) returns (counts: seq<SpeakerCount>)
    ensures counts == Tally(segments)
    ensures Names(counts) == FirstAppearances(segments)
    ensures forall speaker :: Lookup(counts, speaker) == Count(segments, speaker)
  {
    counts := [];
    for n := 0 to |segments|
      invariant counts == Tally(segments[..n])
    {
      assert segments[..n + 1][..n] == segments[..n];
      counts := Bump(counts, segments[n].speakerLabel);
    }
    assert segments[..|segments|] == segments;
    forall speaker
      ensures Lookup(counts, speaker) == Count(segments, speaker)
    {
      TallyCounts(segments, speaker);
    }
    TallyCounts(segments, "");
  }

  // ----- renaming -----

  datatype RenamePlan = RenamePlan(
    fromSpeaker: string, toSpeaker: string, renamedSegmentCount: nat,
    existingTargetSegmentCount: nat, mergesWithExisting: bool, segmentIds: seq<string>)

  function IdsOf(segments: seq<Segment>, speaker: string): seq<string> {
    if segments == [] then []
    else
      var last := segments[|segments| - 1];
      IdsOf(segments[..|segments| - 1], speaker) + (if last.speakerLabel == speaker then [last.id] else [])
  }

  lemma {:induction false} IdsOfSpeaker(segments: seq<Segment>, speaker: string, id: string)
    ensures |IdsOf(segments, speaker)| == Count(segments, speaker)
    ensures id in IdsOf(segments, speaker) <==>
              exists i :: 0 <= i < |segments| && segments[i].speakerLabel == speaker && segments[i].id == id
  {
    if segments != [] {
      var n := |segments| - 1;
      IdsOfSpeaker(segments[..n], speaker, id);
      assert forall i :: 0 <= i < n ==> segments[i] == segments[..n][i];
    }
  }

  function PlanSpeakerRename(segments: seq<Segment>, fromSpeaker: string, toSpeaker: string): Result<RenamePlan, string> {
    match ValidateSpeakerName(toSpeaker)
    case Failure(e) => Failure(e)
    case Success(to) =>
      if fromSpeaker == to then Failure("Choose a speaker name different from the current one.")
      else
        var moving := Count(segments, fromSpeaker);
        if moving == 0 then Failure("No segments are attributed to the speaker.")
        else
          var existing := Count(segments, to);
          Success(RenamePlan(fromSpeaker, to, moving, existing, existing > 0, IdsOf(segments, fromSpeaker)))
  }

  function ApplySpeakerRename(segments: seq<Segment>, fromSpeaker: string, toSpeaker: string): (r: seq<Segment>)
    ensures |r| == |segments|
  {
    seq(|segments|, i requires 0 <= i < |segments| =>
      if segments[i].speakerLabel == fromSpeaker then segments[i].(speakerLabel := toSpeaker) else segments[i])
  }

  /**
    A rename is possible exactly for a speaker of the transcript, to another name that is valid once
    trimmed; it is announced as a merge exactly if that name is in use. Applying it changes nothing but
    the label of the segments of that speaker.
  */
  lemma {:induction false} RenamePossibleWhen(segments: seq<Segment>, from: string, toSpeaker: string)
    ensures PlanSpeakerRename(segments, from, toSpeaker).Success? <==>
              && ValidName(Trim(toSpeaker)) && from != Trim(toSpeaker)
              && exists i :: 0 <= i < |segments| && segments[i].speakerLabel == from
    ensures PlanSpeakerRename(segments, from, toSpeaker).Success? ==>
              var plan := PlanSpeakerRename(segments, from, toSpeaker).value;
              && plan.fromSpeaker == from && plan.toSpeaker == Trim(toSpeaker)
              && (plan.mergesWithExisting <==> exists i :: 0 <= i < |segments| && segments[i].speakerLabel == plan.toSpeaker)
              && var after := ApplySpeakerRename(segments, from, plan.toSpeaker);
                 forall i :: 0 <= i < |segments| ==>
                   after[i] == segments[i].(speakerLabel := if segments[i].speakerLabel == from then plan.toSpeaker else segments[i].speakerLabel)
  {
    ValidatedNamesAreValid(toSpeaker);
    CountPositive(segments, from);
    CountPositive(segments, Trim(toSpeaker));
  }

  /** The plan lists exactly the segments that applying it changes, as many ids as it announces. */
  lemma {:induction false} PlanListsWhatMoves(segments: seq<Segment>, from: string, toSpeaker: string, id: string)
    requires PlanSpeakerRename(segments, from, toSpeaker).Success?
    ensures var plan := PlanSpeakerRename(segments, from, toSpeaker).value;
            var after := ApplySpeakerRename(segments, from, plan.toSpeaker);
            && |plan.segmentIds| == plan.renamedSegmentCount
            && (id in plan.segmentIds <==>
                  exists i :: 0 <= i < |segments| && after[i] != segments[i] && segments[i].id == id)
  {
    var plan := PlanSpeakerRename(segments, from, toSpeaker).value;
    var after := ApplySpeakerRename(segments, from, plan.toSpeaker);
    IdsOfSpeaker(segments, from, id);
    assert forall i :: 0 <= i < |segments| ==> (after[i] != segments[i] <==> segments[i].speakerLabel == from);
  }

  lemma {:induction false} RenameCounts(segments: seq<Segment>, from: string, to: string, speaker: string)
    requires from != to
    ensures Count(ApplySpeakerRename(segments, from, to), speaker) ==
              if speaker == from then 0
              else if speaker == to then Count(segments, from) + Count(segments, to)
              else Count(segments, speaker)
  {
    if segments != [] {
      var n := |segments| - 1;
      RenameCounts(segments[..n], from, to, speaker);
      assert ApplySpeakerRename(segments, from, to)[..n] == ApplySpeakerRename(segments[..n], from, to);
    }
  }

  /**
    A rename moves segments and loses none: the target ends with what the plan announced, the source
    with none, every other speaker with what it had.
  */
  lemma {:induction false} RenameConserves(segments: seq<Segment>, from: string, toSpeaker: string, other: string)
    requires PlanSpeakerRename(segments, from, toSpeaker).Success?
    ensures var plan := PlanSpeakerRename(segments, from, toSpeaker).value;
            var after := ApplySpeakerRename(segments, plan.fromSpeaker, plan.toSpeaker);
            && |after| == |segments|
            && Count(after, plan.toSpeaker) == plan.renamedSegmentCount + plan.existingTargetSegmentCount
            && plan.renamedSegmentCount > 0 && Count(after, from) == 0
            && (other != from && other != plan.toSpeaker ==> Count(after, other) == Count(segments, other))
            && (Normalized(segments) ==> Normalized(after))
  {
    var plan := PlanSpeakerRename(segments, from, toSpeaker).value;
    RenameCounts(segments, from, plan.toSpeaker, plan.toSpeaker);
    RenameCounts(segments, from, plan.toSpeaker, from);
    RenameCounts(segments, from, plan.toSpeaker, other);
    ValidatedNamesAreValid(toSpeaker);
  }

  /**
    On normalized labels, renaming back is always possible, and it restores the transcript exactly
    when the rename did not merge two speakers.
  */
  lemma {:induction false} RenameBackRestores(segments: seq<Segment>, from: string, toSpeaker: string)
    requires Normalized(segments) && PlanSpeakerRename(segments, from, toSpeaker).Success?
    ensures var plan := PlanSpeakerRename(segments, from, toSpeaker).value;
            var after := ApplySpeakerRename(segments, from, plan.toSpeaker);
            var back := PlanSpeakerRename(after, plan.toSpeaker, from);
            && back.Success?
            && (ApplySpeakerRename(after, back.value.fromSpeaker, back.value.toSpeaker) == segments
                <==> !plan.mergesWithExisting)
  {
    var plan := PlanSpeakerRename(segments, from, toSpeaker).value;
    var to := plan.toSpeaker;
    var after := ApplySpeakerRename(segments, from, to);
    RenameConserves(segments, from, toSpeaker, from);
    CountPositive(segments, from);
    CountPositive(segments, to);
    ValidatedNamesAreValid(from);
    var again := ApplySpeakerRename(after, to, from);
    if plan.mergesWithExisting {
      var i :| 0 <= i < |segments| && segments[i].speakerLabel == to;
      assert again[i].speakerLabel == from;
    } else {
      forall i | 0 <= i < |segments|
        ensures again[i] == segments[i]
      {
      }
    }
  }
}
