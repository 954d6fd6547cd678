/**
  Voting transcript segments onto speakers by overlap in time. A Python dict keeps insertion order
  and `max` returns the first maximum, so ties go to the speaker whose overlap is met first.
*/
module SpeakerVote {
  import opened Search
  import opened Wrappers
  import opened Speakers
  import Decimal

  datatype Track = Track(start: real, end: real, speaker: string)

  datatype TrackMs = TrackMs(start: int, end: int, speaker: string)

  /** `int(seconds * 1000)`, which truncates toward zero. */
  function Milliseconds(seconds: real): int {
    if seconds >= 0.0 then (seconds * 1000.0).Floor else -((-seconds * 1000.0).Floor)
  }

  function InMilliseconds(tracks: seq<Track>): (r: seq<TrackMs>)
    ensures |r| == |tracks|
  {
    seq(|tracks|, i requires 0 <= i < |tracks| =>
      TrackMs(Milliseconds(tracks[i].start), Milliseconds(tracks[i].end), tracks[i].speaker))
  }

  function Overlap(s: Segment, t: TrackMs): int {
    (if s.endMs < t.end then s.endMs else t.end) - (if s.startMs > t.start then s.startMs else t.start)
  }

  /** Truncation moves by less than a millisecond, toward zero. */
  lemma {:induction false} MillisecondsTruncate(seconds: real)
    ensures seconds >= 0.0 ==> seconds * 1000.0 - 1.0 < Milliseconds(seconds) as real <= seconds * 1000.0
    ensures seconds <= 0.0 ==> seconds * 1000.0 <= Milliseconds(seconds) as real < seconds * 1000.0 + 1.0
  {
    var x := -seconds * 1000.0;
    assert x.Floor as real <= x < x.Floor as real + 1.0;
  }

  // ----- what the vote means -----

  predicate During(ms: int, start: int, end: int) {
    start <= ms < end
  }

  /** The milliseconds that lie in the segment and in the track. */
  ghost function SharedMs(s: Segment, t: TrackMs): set<int> {
    set ms: int | s.startMs <= ms < s.endMs && During(ms, t.start, t.end)
  }

  ghost function Between(lo: int, hi: int): set<int> {
    set ms: int | lo <= ms < hi && During(ms, lo, hi)
  }

  lemma {:induction false} BetweenCount(lo: int, hi: int)
    ensures |Between(lo, hi)| == if lo < hi then hi - lo else 0
    decreases hi - lo
  {
    if lo < hi {
      BetweenCount(lo, hi - 1);
      assert Between(lo, hi) == Between(lo, hi - 1) + {hi - 1};
    } else {
      assert Between(lo, hi) == {};
    }
  }

  /** The difference of the bounds measures the shared time, and is positive exactly if there is any. */
  lemma {:induction false} OverlapIsSharedTime(s: Segment, t: TrackMs)
    ensures Overlap(s, t) > 0 <==> SharedMs(s, t) != {}
    ensures |SharedMs(s, t)| == if Overlap(s, t) > 0 then Overlap(s, t) else 0
    ensures forall ms :: ms in SharedMs(s, t) <==> s.startMs <= ms < s.endMs && t.start <= ms < t.end
  {
    var lo := if s.startMs > t.start then s.startMs else t.start;
    var hi := if s.endMs < t.end then s.endMs else t.end;
    assert SharedMs(s, t) == Between(lo, hi);
    BetweenCount(lo, hi);
    if SharedMs(s, t) != {} {
      var ms :| ms in SharedMs(s, t);
    }
  }

  /** The time a speaker's tracks share with the segment. */
  ghost function TotalOverlap(s: Segment, tracks: seq<TrackMs>, speaker: string): nat {
    if tracks == [] then 0
    else
      var n := |tracks| - 1;
      TotalOverlap(s, tracks[..n], speaker) + if tracks[n].speaker == speaker then |SharedMs(s, tracks[n])| else 0
  }

  /** The first track of this speaker that shares time with the segment, or |tracks|. */
  ghost function FirstOverlap(s: Segment, tracks: seq<TrackMs>, speaker: string): (k: nat)
    ensures k <= |tracks|
    ensures k < |tracks| ==> tracks[k].speaker == speaker && SharedMs(s, tracks[k]) != {}
    ensures forall i :: 0 <= i < k ==> !(tracks[i].speaker == speaker && SharedMs(s, tracks[i]) != {})
  {
    if tracks == [] || (tracks[0].speaker == speaker && SharedMs(s, tracks[0]) != {}) then 0
    else 1 + FirstOverlap(s, tracks[1..], speaker)
  }

  /** More time, or as much and met earlier. */
  predicate Beats(time: nat, first: nat, otherTime: nat, otherFirst: nat) {
    otherTime <= time && (otherTime == time ==> first < otherFirst)
  }

  /** Nobody shares more time, and whoever shares as much is met later. */
  ghost predicate IsChosen(s: Segment, tracks: seq<TrackMs>, speaker: string) {
    && TotalOverlap(s, tracks, speaker) > 0
    && forall other :: other != speaker && TotalOverlap(s, tracks, other) > 0 ==>
         Beats(TotalOverlap(s, tracks, speaker), FirstOverlap(s, tracks, speaker),
               TotalOverlap(s, tracks, other), FirstOverlap(s, tracks, other))
  }

  /** No track has a millisecond in common with the segment. */
  ghost predicate SharesNoTime(s: Segment, tracks: seq<TrackMs>) {
    forall i :: 0 <= i < |tracks| ==> SharedMs(s, tracks[i]) == {}
  }

  // ----- how it is computed -----

  datatype Vote = Vote(speaker: string, overlap: nat)

  /** `votes[speaker] = votes.get(speaker, 0) + overlap` on a dict that keeps insertion order. */
  function AddVote(votes: seq<Vote>, speaker: string, overlap: nat): seq<Vote> {
    if votes == [] then [Vote(speaker, overlap)]
    else if votes[0].speaker == speaker then [Vote(speaker, votes[0].overlap + overlap)] + votes[1..]
    else [votes[0]] + AddVote(votes[1..], speaker, overlap)
  }

  function Votes(s: Segment, tracks: seq<TrackMs>): seq<Vote> {
    if tracks == [] then []
    else
      var n := |tracks| - 1;
      var before := Votes(s, tracks[..n]);
      if Overlap(s, tracks[n]) > 0 then AddVote(before, tracks[n].speaker, Overlap(s, tracks[n])) else before
  }

  /** The first entry with the largest overlap. */
  function FirstMax(votes: seq<Vote>): (k: nat)
    requires votes != []
    ensures k < |votes|
    ensures forall i :: 0 <= i < |votes| ==> votes[i].overlap <= votes[k].overlap
    ensures forall i :: 0 <= i < k ==> votes[i].overlap < votes[k].overlap
  {
    if |votes| == 1 then 0
    else
      var n := |votes| - 1;
      var k := FirstMax(votes[..n]);
      assert forall i :: 0 <= i < n ==> votes[i] == votes[..n][i];
      if votes[n].overlap > votes[k].overlap then n else k
  }

  function Choose(s: Segment, tracks: seq<TrackMs>): Option<string> {
    var votes := Votes(s, tracks);
    if votes == [] then None else Some(votes[FirstMax(votes)].speaker)
  }

  function IndexOf(votes: seq<Vote>, speaker: string): (k: nat)
    ensures k <= |votes| && (k < |votes| ==> votes[k].speaker == speaker)
    ensures forall i :: 0 <= i < k ==> votes[i].speaker != speaker
  {
    FindIndex(votes, (v: Vote) => v.speaker == speaker)
  }

  function OverlapIn(votes: seq<Vote>, speaker: string): nat {
    var k := IndexOf(votes, speaker);
    if k < |votes| then votes[k].overlap else 0
  }

  lemma {:induction false} AddVoteIndex(votes: seq<Vote>, speaker: string, overlap: nat, other: string)
    ensures var r := AddVote(votes, speaker, overlap);
            && |r| == (if IndexOf(votes, speaker) < |votes| then |votes| else |votes| + 1)
            && IndexOf(r, other) ==
                 (if IndexOf(votes, other) < |votes| then IndexOf(votes, other)
                  else if other == speaker then |votes| else |r|)
  {
    if votes != [] {
      AddVoteIndex(votes[1..], speaker, overlap, other);
      var r := AddVote(votes, speaker, overlap);
      if votes[0].speaker == speaker {
        assert r[1..] == votes[1..];
      } else {
        assert r[1..] == AddVote(votes[1..], speaker, overlap);
      }
    }
  }

  lemma {:induction false} AddVoteValue(votes: seq<Vote>, speaker: string, overlap: nat, i: nat)
    requires i < |AddVote(votes, speaker, overlap)|
    ensures AddVote(votes, speaker, overlap)[i].overlap ==
              (if i < |votes| then votes[i].overlap else 0) + (if i == IndexOf(votes, speaker) then overlap else 0)
  {
    if votes != [] && votes[0].speaker != speaker && i > 0 {
      AddVoteValue(votes[1..], speaker, overlap, i - 1);
    }
  }

  lemma {:induction false} AddVoteAddsOnce(votes: seq<Vote>, speaker: string, overlap: nat, other: string)
    ensures var r := AddVote(votes, speaker, overlap);
            && OverlapIn(r, other) == OverlapIn(votes, other) + (if other == speaker then overlap else 0)
            && |r| == (if IndexOf(votes, speaker) < |votes| then |votes| else |votes| + 1)
            && IndexOf(r, other) ==
                 (if IndexOf(votes, other) < |votes| then IndexOf(votes, other)
                  else if other == speaker then |votes| else |r|)
  {
    AddVoteIndex(votes, speaker, overlap, other);
    var k := IndexOf(AddVote(votes, speaker, overlap), other);
    if k < |AddVote(votes, speaker, overlap)| {
      AddVoteValue(votes, speaker, overlap, k);
    }
  }

  lemma {:induction false} FirstOverlapOfSnoc(s: Segment, tracks: seq<TrackMs>, speaker: string)
    requires tracks != []
    ensures var n := |tracks| - 1;
            FirstOverlap(s, tracks, speaker) ==
              if FirstOverlap(s, tracks[..n], speaker) < n then FirstOverlap(s, tracks[..n], speaker)
              else if tracks[n].speaker == speaker && SharedMs(s, tracks[n]) != {} then n else n + 1
  {
    var n := |tracks| - 1;
    assert forall i :: 0 <= i < n ==> tracks[i] == tracks[..n][i];
  }

  /** The dict holds each speaker's total, and holds exactly those who overlap. */
  lemma {:induction false} VotesAreTotals(s: Segment, tracks: seq<TrackMs>, speaker: string)
    ensures OverlapIn(Votes(s, tracks), speaker) == TotalOverlap(s, tracks, speaker)
    ensures IndexOf(Votes(s, tracks), speaker) < |Votes(s, tracks)| <==> TotalOverlap(s, tracks, speaker) > 0
    ensures FirstOverlap(s, tracks, speaker) < |tracks| <==> TotalOverlap(s, tracks, speaker) > 0
  {
    if tracks != [] {
      var n := |tracks| - 1;
      VotesAreTotals(s, tracks[..n], speaker);
      OverlapIsSharedTime(s, tracks[n]);
      FirstOverlapOfSnoc(s, tracks, speaker);
      if Overlap(s, tracks[n]) > 0 {
        AddVoteAddsOnce(Votes(s, tracks[..n]), tracks[n].speaker, Overlap(s, tracks[n]), speaker);
      }
    }
  }

  /** The dict lists the speakers in order of their first overlap. */
  lemma {:induction false} VotesAreInOrder(s: Segment, tracks: seq<TrackMs>, a: string, b: string)
    requires TotalOverlap(s, tracks, a) > 0 && TotalOverlap(s, tracks, b) > 0 && a != b
    ensures IndexOf(Votes(s, tracks), a) < IndexOf(Votes(s, tracks), b)
       <==> FirstOverlap(s, tracks, a) < FirstOverlap(s, tracks, b)
  {
    var n := |tracks| - 1;
    VotesAreTotals(s, tracks[..n], a);
    VotesAreTotals(s, tracks[..n], b);
    OverlapIsSharedTime(s, tracks[n]);
    FirstOverlapOfSnoc(s, tracks, a);
    FirstOverlapOfSnoc(s, tracks, b);
    if TotalOverlap(s, tracks[..n], a) > 0 && TotalOverlap(s, tracks[..n], b) > 0 {
      VotesAreInOrder(s, tracks[..n], a, b);
    }
    if Overlap(s, tracks[n]) > 0 {
      AddVoteAddsOnce(Votes(s, tracks[..n]), tracks[n].speaker, Overlap(s, tracks[n]), a);
      AddVoteAddsOnce(Votes(s, tracks[..n]), tracks[n].speaker, Overlap(s, tracks[n]), b);
    }
  }

  ghost predicate Distinct(votes: seq<Vote>) {
    forall i :: 0 <= i < |votes| ==> IndexOf(votes, votes[i].speaker) == i
  }

  lemma {:induction false} VotesDistinct(s: Segment, tracks: seq<TrackMs>)
    ensures Distinct(Votes(s, tracks))
  {
    if tracks != [] {
      var n := |tracks| - 1;
      VotesDistinct(s, tracks[..n]);
      if Overlap(s, tracks[n]) > 0 {
        AddVoteKeepsDistinct(Votes(s, tracks[..n]), tracks[n].speaker, Overlap(s, tracks[n]));
      }
    }
  }

  lemma {:induction false} AddVoteKeepsDistinct(votes: seq<Vote>, speaker: string, overlap: nat)
    requires Distinct(votes)
    ensures Distinct(AddVote(votes, speaker, overlap))
  {
    var r := AddVote(votes, speaker, overlap);
    forall i | 0 <= i < |r|
      ensures IndexOf(r, r[i].speaker) == i
    {
      AddVoteSpeakers(votes, speaker, overlap);
      AddVoteAddsOnce(votes, speaker, overlap, r[i].speaker);
    }
  }

  lemma {:induction false} AddVoteSpeakers(votes: seq<Vote>, speaker: string, overlap: nat)
    ensures var r := AddVote(votes, speaker, overlap);
            && |votes| <= |r| <= |votes| + 1
            && (forall i :: 0 <= i < |votes| ==> r[i].speaker == votes[i].speaker)
            && (|r| > |votes| ==> r[|votes|].speaker == speaker && IndexOf(votes, speaker) == |votes|)
  {
    if votes != [] {
      AddVoteSpeakers(votes[1..], speaker, overlap);
    }
  }

  lemma {:induction false} NoVotes(s: Segment, tracks: seq<TrackMs>)
    ensures Votes(s, tracks) == [] <==> SharesNoTime(s, tracks)
  {
    if tracks != [] {
      var n := |tracks| - 1;
      NoVotes(s, tracks[..n]);
      OverlapIsSharedTime(s, tracks[n]);
      assert forall i :: 0 <= i < n ==> tracks[..n][i] == tracks[i];
    }
  }

  lemma {:induction false} LargestBeats(s: Segment, tracks: seq<TrackMs>, speaker: string, other: string)
    requires Votes(s, tracks) != [] && speaker == Votes(s, tracks)[FirstMax(Votes(s, tracks))].speaker
    requires IndexOf(Votes(s, tracks), speaker) == FirstMax(Votes(s, tracks))
    requires other != speaker && TotalOverlap(s, tracks, other) > 0
    ensures Beats(TotalOverlap(s, tracks, speaker), FirstOverlap(s, tracks, speaker),
                  TotalOverlap(s, tracks, other), FirstOverlap(s, tracks, other))
  {
    var votes := Votes(s, tracks);
    VotesAreTotals(s, tracks, speaker);
    VotesAreTotals(s, tracks, other);
    VotesAreInOrder(s, tracks, speaker, other);
    var j := IndexOf(votes, other);
    assert votes[j].overlap <= votes[FirstMax(votes)].overlap;
  }

  /** The computed choice is the chosen speaker, and there is none exactly when nobody overlaps. */
  lemma {:induction false} ChoiceIsChosen(s: Segment, tracks: seq<TrackMs>)
    ensures Choose(s, tracks).Some? ==> IsChosen(s, tracks, Choose(s, tracks).value)
    ensures Choose(s, tracks).None? <==> SharesNoTime(s, tracks)
  {
    NoVotes(s, tracks);
    var votes := Votes(s, tracks);
    if votes != [] {
      var k := FirstMax(votes);
      var speaker := votes[k].speaker;
      VotesDistinct(s, tracks);
      assert IndexOf(votes, speaker) == k;
      VotesAreTotals(s, tracks, speaker);
      forall other | other != speaker && TotalOverlap(s, tracks, other) > 0
        ensures Beats(TotalOverlap(s, tracks, speaker), FirstOverlap(s, tracks, speaker),
                      TotalOverlap(s, tracks, other), FirstOverlap(s, tracks, other))
      {
        LargestBeats(s, tracks, speaker, other);
      }
    }
  }

  lemma {:induction false} ChosenIsUnique(s: Segment, tracks: seq<TrackMs>, a: string, b: string)
    requires IsChosen(s, tracks, a) && IsChosen(s, tracks, b)
    ensures a == b
  {
  }

  // ----- labels -----

  function SpeakerLabel(n: nat): string {
    "Speaker " + Decimal.Text(n)
  }

  lemma {:induction false} LabelsDiffer(m: nat, n: nat)
    ensures SpeakerLabel(m) == SpeakerLabel(n) <==> m == n
  {
    Decimal.TextRoundTrip(m);
    Decimal.TextRoundTrip(n);
    assert SpeakerLabel(m)[8..] == Decimal.Text(m) && SpeakerLabel(n)[8..] == Decimal.Text(n);
  }

  /** Where a speaker stands in the order of first use, counted from one. */
  function NumberOf(order: seq<string>, speaker: string): (n: nat)
    ensures 1 <= n <= |order| + 1
    ensures n <= |order| ==> order[n - 1] == speaker
    ensures n > |order| ==> speaker !in order
  {
    if order == [] || order[0] == speaker then 1 else 1 + NumberOf(order[1..], speaker)
  }

  function Choices(segments: seq<Segment>, tracks: seq<TrackMs>): (r: seq<Option<string>>)
    ensures |r| == |segments|
  {
    seq(|segments|, i requires 0 <= i < |segments| => Choose(segments[i], tracks))
  }

  /** Speakers in order of first use, and the number of each segment's label. */
  datatype Labels = Labels(order: seq<string>, numbers: seq<nat>)

  function LastNumber(numbers: seq<nat>): nat {
    if numbers == [] then 1 else numbers[|numbers| - 1]
  }

  function Extend(l: Labels, choice: Option<string>): Labels {
    match choice
    case None => l.(numbers := l.numbers + [LastNumber(l.numbers)])
    case Some(speaker) =>
      Labels(if speaker in l.order then l.order else l.order + [speaker],
             l.numbers + [NumberOf(l.order, speaker)])
  }

  function Number(choices: seq<Option<string>>): (l: Labels)
    ensures |l.numbers| == |choices|
  {
    if choices == [] then Labels([], [])
    else Extend(Number(choices[..|choices| - 1]), choices[|choices| - 1])
  }

  function Assign(segments: seq<Segment>, tracks: seq<TrackMs>): (l: Labels)
    ensures |l.numbers| == |segments|
  {
    Number(Choices(segments, tracks))
  }

  /** A segment that was voted on carries its speaker's number, any other the number before it. */
  ghost predicate NumberedAs(choice: Option<string>, l: Labels, i: nat)
    requires i < |l.numbers|
  {
    match choice
    case Some(speaker) => 1 <= l.numbers[i] <= |l.order| && l.order[l.numbers[i] - 1] == speaker
    case None => l.numbers[i] == LastNumber(l.numbers[..i])
  }

  ghost predicate LabelledAsChosen(choices: seq<Option<string>>, l: Labels) {
    && |l.numbers| == |choices|
    && (forall i, j :: 0 <= i < j < |l.order| ==> l.order[i] != l.order[j])
    && (forall i :: 0 <= i < |choices| ==> NumberedAs(choices[i], l, i))
  }

  ghost predicate StepsByOne(numbers: seq<nat>) {
    forall i :: 0 <= i < |numbers| && numbers[i] > 1 ==> numbers[i] - 1 in numbers[..i]
  }

  ghost predicate UsesUpTo(numbers: seq<nat>, k: nat) {
    forall n: nat :: 1 <= n <= k ==> n in numbers
  }

  /** A new number is one more than all numbers before it, so numbers run 1..k in order of first use. */
  ghost predicate NumberedByFirstUse(l: Labels) {
    && (forall i :: 0 <= i < |l.numbers| ==> 1 <= l.numbers[i] <= (if |l.order| > 1 then |l.order| else 1))
    && StepsByOne(l.numbers)
    && UsesUpTo(l.numbers, |l.order|)
  }

  lemma {:induction false} ExtendKeepsLabels(choices: seq<Option<string>>, l: Labels, choice: Option<string>)
    requires LabelledAsChosen(choices, l)
    ensures LabelledAsChosen(choices + [choice], Extend(l, choice))
  {
    var r := Extend(l, choice);
    forall i | 0 <= i < |choices + [choice]|
      ensures NumberedAs((choices + [choice])[i], r, i)
    {
      if i < |choices| {
        assert NumberedAs(choices[i], l, i);
        assert r.numbers[..i] == l.numbers[..i];
      } else {
        assert r.numbers[..i] == l.numbers;
      }
    }
  }

  lemma {:induction false} SnocStepsByOne(numbers: seq<nat>, next: nat)
    requires StepsByOne(numbers) && (next > 1 ==> next - 1 in numbers)
    ensures StepsByOne(numbers + [next])
  {
    var r := numbers + [next];
    forall i | 0 <= i < |r| && r[i] > 1
      ensures r[i] - 1 in r[..i]
    {
      assert r[..i] == numbers[..i];
      if i == |numbers| { assert numbers[..i] == numbers; }
    }
  }

  lemma {:induction false} SnocUsesUpTo(numbers: seq<nat>, k: nat, next: nat)
    requires UsesUpTo(numbers, k)
    ensures UsesUpTo(numbers + [next], if next == k + 1 then next else k)
  {
    forall n: nat | 1 <= n <= k || n == next
      ensures n in numbers + [next]
    {
      if n == next {
        assert (numbers + [next])[|numbers|] == n;
      } else {
        assert n in numbers;
      }
    }
  }

  lemma {:induction false} KeptNumber(l: Labels)
    requires NumberedByFirstUse(l)
    ensures LastNumber(l.numbers) >= 1 && LastNumber(l.numbers) <= (if |l.order| > 1 then |l.order| else 1)
    ensures LastNumber(l.numbers) > 1 ==> LastNumber(l.numbers) - 1 in l.numbers
  {
    if l.numbers != [] && LastNumber(l.numbers) > 1 {
      assert LastNumber(l.numbers) - 1 in l.numbers[..|l.numbers| - 1];
    }
  }

  lemma {:induction false} GivenNumber(l: Labels, speaker: string)
    requires NumberedByFirstUse(l)
    ensures var next := NumberOf(l.order, speaker);
            && (next > 1 ==> next - 1 in l.numbers)
            && (speaker in l.order <==> next <= |l.order|)
  {
    var next: nat := NumberOf(l.order, speaker) - 1;
    assert next >= 1 ==> next in l.numbers;
  }

  lemma {:induction false} ExtendKeepsFirstUse(l: Labels, choice: Option<string>)
    requires NumberedByFirstUse(l)
    ensures NumberedByFirstUse(Extend(l, choice))
  {
    match choice
    case None =>
      KeptNumber(l);
      NextNumberKeepsFirstUse(l, l.order, LastNumber(l.numbers));
    case Some(speaker) =>
      GivenNumber(l, speaker);
      NextNumberKeepsFirstUse(l, Extend(l, choice).order, NumberOf(l.order, speaker));
  }

  lemma {:induction false} NextNumberKeepsFirstUse(l: Labels, order: seq<string>, next: nat)
    requires NumberedByFirstUse(l) && |l.order| <= |order|
    requires 1 <= next <= (if |order| > 1 then |order| else 1) && (next > 1 ==> next - 1 in l.numbers)
    requires |order| > |l.order| ==> |order| == next == |l.order| + 1
    ensures NumberedByFirstUse(Labels(order, l.numbers + [next]))
  {
    SnocStepsByOne(l.numbers, next);
    SnocUsesUpTo(l.numbers, |l.order|, next);
  }

  lemma {:induction false} NumbersAsPromised(choices: seq<Option<string>>)
    ensures LabelledAsChosen(choices, Number(choices))
    ensures NumberedByFirstUse(Number(choices))
    ensures choices == [] ==> Number(choices).order == []
  {
    if choices != [] {
      var n := |choices| - 1;
      NumbersAsPromised(choices[..n]);
      var before := Number(choices[..n]);
      ExtendKeepsLabels(choices[..n], before, choices[n]);
      ExtendKeepsFirstUse(before, choices[n]);
      LastChoiceExtends(choices);
    }
  }

  lemma {:induction false} LastChoiceExtends(choices: seq<Option<string>>)
    requires choices != []
    ensures var n := |choices| - 1;
            Number(choices) == Extend(Number(choices[..n]), choices[n]) && choices[..n] + [choices[n]] == choices
  {
  }

  function SpeakerCountOf(l: Labels): nat {
    if |l.order| > 1 then |l.order| else if l.numbers == [] then 0 else 1
  }

  ghost function LabelSet(numbers: seq<nat>): set<string> {
    set i | 0 <= i < |numbers| :: SpeakerLabel(numbers[i])
  }

  /** The returned count is the number of different labels. */
  lemma {:induction false} CountIsDistinctLabels(choices: seq<Option<string>>)
    ensures |LabelSet(Number(choices).numbers)| == SpeakerCountOf(Number(choices))
  {
    NumbersAsPromised(choices);
    var l := Number(choices);
    var k := SpeakerCountOf(l);
    forall text
      ensures text in LabelSet(l.numbers) <==> text in FirstLabels(k)
    {
      LabelIsUsed(l, text);
    }
    assert LabelSet(l.numbers) == FirstLabels(k);
    FirstLabelsCount(k);
  }

  lemma {:induction false} LabelIsUsed(l: Labels, text: string)
    requires NumberedByFirstUse(l) && (l.numbers == [] ==> l.order == [])
    ensures text in LabelSet(l.numbers) <==> text in FirstLabels(SpeakerCountOf(l))
  {
    var k := SpeakerCountOf(l);
    FirstLabelsAre(k, text);
    if text in FirstLabels(k) {
      var n: nat :| 1 <= n <= k && text == SpeakerLabel(n);
      UsedNumber(l, n);
    }
    if text in LabelSet(l.numbers) {
      var i :| 0 <= i < |l.numbers| && text == SpeakerLabel(l.numbers[i]);
      assert 1 <= l.numbers[i] <= k;
    }
  }

  lemma {:induction false} UsedNumber(l: Labels, n: nat)
    requires NumberedByFirstUse(l) && 1 <= n <= SpeakerCountOf(l)
    requires l.numbers == [] ==> l.order == []
    ensures n in l.numbers && SpeakerLabel(n) in LabelSet(l.numbers)
  {
    if n > |l.order| {
      assert l.numbers[0] == n;
    }
    assert n in l.numbers;
    var i :| 0 <= i < |l.numbers| && l.numbers[i] == n;
    assert SpeakerLabel(l.numbers[i]) in LabelSet(l.numbers);
  }

  function FirstLabels(k: nat): set<string> {
    if k == 0 then {} else FirstLabels(k - 1) + {SpeakerLabel(k)}
  }

  lemma {:induction false} FirstLabelsAre(k: nat, text: string)
    ensures text in FirstLabels(k) <==> exists n :: 1 <= n <= k && text == SpeakerLabel(n)
  {
    if k > 0 { FirstLabelsAre(k - 1, text); }
  }

  lemma {:induction false} FirstLabelsCount(k: nat)
    ensures |FirstLabels(k)| == k
  {
    if k > 0 {
      FirstLabelsCount(k - 1);
      FirstLabelsAre(k - 1, SpeakerLabel(k));
      if n :| 1 <= n <= k - 1 && SpeakerLabel(k) == SpeakerLabel(n) { LabelsDiffer(k, n); }
    }
  }

  // ----- the engine's names do not matter -----

  function Rename(tracks: seq<TrackMs>, f: string -> string): (r: seq<TrackMs>)
    ensures |r| == |tracks|
  {
    seq(|tracks|, i requires 0 <= i < |tracks| => tracks[i].(speaker := f(tracks[i].speaker)))
  }

  ghost predicate Injective(f: string -> string) {
    forall a, b :: f(a) == f(b) ==> a == b
  }

  function RenameVotes(votes: seq<Vote>, f: string -> string): (r: seq<Vote>)
    ensures |r| == |votes|
  {
    seq(|votes|, i requires 0 <= i < |votes| => votes[i].(speaker := f(votes[i].speaker)))
  }

  function RenameOrder(order: seq<string>, f: string -> string): (r: seq<string>)
    ensures |r| == |order|
  {
    seq(|order|, i requires 0 <= i < |order| => f(order[i]))
  }

  lemma {:induction false} AddVoteRenamed(votes: seq<Vote>, speaker: string, overlap: nat, f: string -> string)
    requires Injective(f)
    ensures AddVote(RenameVotes(votes, f), f(speaker), overlap) == RenameVotes(AddVote(votes, speaker, overlap), f)
  {
    if votes != [] {
      AddVoteRenamed(votes[1..], speaker, overlap, f);
      assert RenameVotes(votes, f)[1..] == RenameVotes(votes[1..], f);
    }
  }

  lemma {:induction false} VotesRenamed(s: Segment, tracks: seq<TrackMs>, f: string -> string)
    requires Injective(f)
    ensures Votes(s, Rename(tracks, f)) == RenameVotes(Votes(s, tracks), f)
  {
    if tracks != [] {
      var n := |tracks| - 1;
      VotesRenamed(s, tracks[..n], f);
      assert Rename(tracks, f)[..n] == Rename(tracks[..n], f);
      assert Overlap(s, Rename(tracks, f)[n]) == Overlap(s, tracks[n]);
      if Overlap(s, tracks[n]) > 0 {
        assert Votes(s, Rename(tracks, f))
            == AddVote(Votes(s, Rename(tracks[..n], f)), f(tracks[n].speaker), Overlap(s, tracks[n]));
        AddVoteRenamed(Votes(s, tracks[..n]), tracks[n].speaker, Overlap(s, tracks[n]), f);
      }
    }
  }

  lemma {:induction false} ChoiceRenamed(s: Segment, tracks: seq<TrackMs>, f: string -> string)
    requires Injective(f)
    ensures Choose(s, Rename(tracks, f)) == RenameChoice(Choose(s, tracks), f)
  {
    VotesRenamed(s, tracks, f);
    var votes := Votes(s, tracks);
    if votes != [] {
      var renamed := RenameVotes(votes, f);
      var k, k' := FirstMax(votes), FirstMax(renamed);
      assert renamed[k].overlap == votes[k].overlap && renamed[k'].overlap == votes[k'].overlap;
      assert k == k';
    }
  }

  lemma {:induction false} NumberRenamed(order: seq<string>, speaker: string, f: string -> string)
    requires Injective(f)
    ensures NumberOf(RenameOrder(order, f), f(speaker)) == NumberOf(order, speaker)
    ensures f(speaker) in RenameOrder(order, f) <==> speaker in order
  {
    if order != [] {
      NumberRenamed(order[1..], speaker, f);
      assert RenameOrder(order, f)[1..] == RenameOrder(order[1..], f);
      assert forall x :: x in order <==> x == order[0] || x in order[1..];
      var renamed := RenameOrder(order, f);
      assert forall x :: x in renamed <==> x == renamed[0] || x in renamed[1..];
    }
  }

  function RenameChoice(choice: Option<string>, f: string -> string): Option<string> {
    match choice case None => None case Some(speaker) => Some(f(speaker))
  }

  function RenameLabels(l: Labels, f: string -> string): Labels {
    l.(order := RenameOrder(l.order, f))
  }

  lemma {:induction false} ExtendRenamed(l: Labels, choice: Option<string>, f: string -> string)
    requires Injective(f)
    ensures Extend(RenameLabels(l, f), RenameChoice(choice, f)) == RenameLabels(Extend(l, choice), f)
  {
    if choice.Some? {
      NumberRenamed(l.order, choice.value, f);
    }
  }

  lemma {:induction false} NumbersRenamed(choices: seq<Option<string>>, renamed: seq<Option<string>>, f: string -> string)
    requires Injective(f)
    requires |renamed| == |choices| && forall i :: 0 <= i < |choices| ==> renamed[i] == RenameChoice(choices[i], f)
    ensures Number(renamed) == RenameLabels(Number(choices), f)
  {
    if choices != [] {
      var n := |choices| - 1;
      NumbersRenamed(choices[..n], renamed[..n], f);
      ExtendRenamed(Number(choices[..n]), choices[n], f);
    }
  }

  /** Any injective renaming of the engine's speaker ids leaves every label as it is, ties included. */
  lemma {:induction false} LabelsIgnoreEngineNames(segments: seq<Segment>, tracks: seq<TrackMs>, f: string -> string)
    requires Injective(f)
    ensures Assign(segments, Rename(tracks, f)).numbers == Assign(segments, tracks).numbers
    ensures Assign(segments, Rename(tracks, f)).order == RenameOrder(Assign(segments, tracks).order, f)
  {
    forall i | 0 <= i < |segments|
      ensures Choose(segments[i], Rename(tracks, f)) == RenameChoice(Choose(segments[i], tracks), f)
    {
      ChoiceRenamed(segments[i], tracks, f);
    }
    NumbersRenamed(Choices(segments, tracks), Choices(segments, Rename(tracks, f)), f);
  }

  // ----- the function itself -----

  method CollectVotes(s: Segment, tracks: seq<TrackMs>) returns (votes: seq<Vote>)
    ensures votes == Votes(s, tracks)
  {
    votes := [];
    for i := 0 to |tracks|
      invariant votes == Votes(s, tracks[..i])
    {
      assert tracks[..i + 1][..i] == tracks[..i];
      var overlap := Overlap(s, tracks[i]);
      if overlap > 0 {
        votes := AddVote(votes, tracks[i].speaker, overlap);
      }
    }
    assert tracks[..|tracks|] == tracks;
  }

  method LargestVote(votes: seq<Vote>) returns (best: nat)
    requires votes != []
    ensures best == FirstMax(votes)
  {
    best := 0;
    for i := 1 to |votes|
      invariant best < i
      invariant forall j :: 0 <= j < i ==> votes[j].overlap <= votes[best].overlap
      invariant forall j :: 0 <= j < best ==> votes[j].overlap < votes[best].overlap
    {
      if votes[i].overlap > votes[best].overlap {
        best := i;
      }
    }
  }

  method VoteFor(s: Segment, tracks: seq<TrackMs>) returns (chosen: Option<string>)
    ensures chosen == Choose(s, tracks)
    ensures chosen.Some? ==> IsChosen(s, tracks, chosen.value)
    ensures chosen.None? <==> SharesNoTime(s, tracks)
  {
    ChoiceIsChosen(s, tracks);
    var votes := CollectVotes(s, tracks);
    if votes == [] {
      return None;
    }
    var best := LargestVote(votes);
    return Some(votes[best].speaker);
  }

  /** The segments with the labels of these numbers. */
  ghost predicate Relabelled(segments: seq<Segment>, labeled: seq<Segment>, numbers: seq<nat>) {
    && |labeled| == |segments| == |numbers|
    && forall i :: 0 <= i < |segments| ==> labeled[i] == segments[i].(speakerLabel := SpeakerLabel(numbers[i]))
  }

  lemma {:induction false} LabelsOfRelabelled(segments: seq<Segment>, labeled: seq<Segment>, numbers: seq<nat>)
    requires Relabelled(segments, labeled, numbers)
    ensures (set i | 0 <= i < |labeled| :: labeled[i].speakerLabel) == LabelSet(numbers)
  {
    assert forall i :: 0 <= i < |labeled| ==> labeled[i].speakerLabel == SpeakerLabel(numbers[i]);
  }

  lemma {:induction false} NumberOneMore(choices: seq<Option<string>>, n: nat)
    requires n < |choices|
    ensures Number(choices[..n + 1]) == Extend(Number(choices[..n]), choices[n])
  {
    assert choices[..n + 1][..n] == choices[..n];
  }

  function PreviousLabel(numbers: seq<nat>): Option<string> {
    if numbers == [] then None else Some(SpeakerLabel(numbers[|numbers| - 1]))
  }

  lemma {:induction false} RelabelledOneMore(segments: seq<Segment>, n: nat, labeled: seq<Segment>, numbers: seq<nat>)
    requires n < |segments| && |numbers| == n + 1 && Relabelled(segments[..n], labeled, numbers[..n])
    ensures Relabelled(segments[..n + 1], labeled + [segments[n].(speakerLabel := SpeakerLabel(numbers[n]))], numbers)
  {
  }

  /** The label of a segment: its speaker's, new speakers being numbered on; or the one before it. */
  method LabelFor(order: seq<string>, previous: Option<string>, chosen: Option<string>, ghost numbers: seq<nat>)
    returns (order': seq<string>, text: string)
    requires previous == PreviousLabel(numbers)
    ensures var l := Extend(Labels(order, numbers), chosen);
            order' == l.order && text == SpeakerLabel(l.numbers[|numbers|]) && l.numbers[..|numbers|] == numbers
  {
    match chosen {
      case Some(speaker) =>
        var number := NumberOf(order, speaker);
        order' := if number > |order| then order + [speaker] else order;
        text := SpeakerLabel(number);
      case None =>
        order' := order;
        text := if previous.Some? then previous.value else SpeakerLabel(1);
    }
  }

  /** Nobody is chosen for a segment that shares no time with any track, and otherwise the one who shares most. */
  ghost predicate ChosenByTime(s: Segment, tracks: seq<TrackMs>, choice: Option<string>) {
    && (choice.None? <==> SharesNoTime(s, tracks))
    && (choice.Some? ==> IsChosen(s, tracks, choice.value))
  }

  lemma {:induction false} FirstLabelText()
    ensures SpeakerLabel(1) == "Speaker 1" && SpeakerLabel(12) == "Speaker 12"
  {
    assert Decimal.Text(12) == Decimal.Text(1) + [Decimal.Digit(2)];
  }

  /**
    Labels every segment and counts the speakers. Each overlapped segment gets the label of the
    speaker chosen for it, the others keep the label before them; labels are numbered from 1 by first
    use; nothing but the label of a segment changes.
  */
  method AssignSpeakerLabels(segments: seq<Segment>, tracks: seq<Track>) returns (labeled: seq<Segment>, count: nat)
    ensures var choices := Choices(segments, InMilliseconds(tracks));
            var l := Number(choices);
            && Relabelled(segments, labeled, l.numbers)
            && LabelledAsChosen(choices, l) && NumberedByFirstUse(l)
    ensures forall n :: 0 <= n < |segments| ==> ChosenByTime(segments[n], InMilliseconds(tracks), Choices(segments, InMilliseconds(tracks))[n])
    ensures count == |set i | 0 <= i < |labeled| :: labeled[i].speakerLabel|
  {
    var trackMs := InMilliseconds(tracks);
    ghost var choices := Choices(segments, trackMs);
    var order: seq<string> := [];
    var previous: Option<string> := None;
    labeled := [];
    ghost var numbers: seq<nat> := [];
    for n := 0 to |segments|
      invariant Labels(order, numbers) == Number(choices[..n])
      invariant previous == PreviousLabel(numbers)
      invariant Relabelled(segments[..n], labeled, numbers)
    {
      NumberOneMore(choices, n);
      var chosen := VoteFor(segments[n], trackMs);
      var text: string;
      order, text := LabelFor(order, previous, chosen, numbers);
      numbers := Extend(Number(choices[..n]), chosen).numbers;
      RelabelledOneMore(segments, n, labeled, numbers);
      labeled := labeled + [segments[n].(speakerLabel := text)];
      previous := Some(text);
    }
    assert segments[..|segments|] == segments && choices[..|segments|] == choices;
    forall n | 0 <= n < |segments|
      ensures ChosenByTime(segments[n], trackMs, choices[n])
    {
      ChoiceIsChosen(segments[n], trackMs);
    }
    NumbersAsPromised(choices);
    CountIsDistinctLabels(choices);
    LabelsOfRelabelled(segments, labeled, numbers);
    count := if |order| > 1 then |order| else if labeled == [] then 0 else 1;
  }
}
