/**
  Reviewer edits: the workspace keeps the whole edited document and, beside it, a small patch keyed
  by segment id. The server merges the patch into the draft it holds.
*/
module SegmentEdits {
  import opened Wrappers
  import opened Speakers

  /** The fields a reviewer may change; absent means unchanged. */
  datatype Fields = Fields(text: Option<string>, speakerLabel: Option<string>)

  datatype SegmentEdit = SegmentEdit(id: string, fields: Fields)

  datatype Edit = UpdateText(id: string, value: string) | UpdateSpeaker(id: string, value: string)

  const NO_FIELDS := Fields(None, None)

  /** `{...earlier, ...later}` */
  function Spread(earlier: Fields, later: Fields): Fields {
    Fields(if later.text.Some? then later.text else earlier.text,
           if later.speakerLabel.Some? then later.speakerLabel else earlier.speakerLabel)
  }

  function FieldsOf(edit: Edit): Fields {
    match edit
    case UpdateText(_, value) => Fields(Some(value), None)
    case UpdateSpeaker(_, value) => Fields(None, Some(value))
  }

  // ----- the workspace -----

  function EditSegments(segments: seq<Segment>, edit: Edit): (r: seq<Segment>)
    ensures |r| == |segments|
  {
    seq(|segments|, i requires 0 <= i < |segments| =>
      if segments[i].id != edit.id then segments[i]
      else match edit
           case UpdateText(_, value) => segments[i].(text := value)
           case UpdateSpeaker(_, value) => segments[i].(speakerLabel := value))
  }

  /** `recordSegmentEdit` on a map that keeps insertion order. */
  function RecordSegmentEdit(edits: seq<SegmentEdit>, edit: Edit): seq<SegmentEdit> {
    if edits == [] then [SegmentEdit(edit.id, FieldsOf(edit))]
    else if edits[0].id == edit.id then [SegmentEdit(edit.id, Spread(edits[0].fields, FieldsOf(edit)))] + edits[1..]
    else [edits[0]] + RecordSegmentEdit(edits[1..], edit)
  }

  function EditAll(segments: seq<Segment>, edits: seq<Edit>): seq<Segment> {
    if edits == [] then segments
    else EditSegments(EditAll(segments, edits[..|edits| - 1]), edits[|edits| - 1])
  }

  function RecordAll(edits: seq<Edit>): seq<SegmentEdit> {
    if edits == [] then []
    else RecordSegmentEdit(RecordAll(edits[..|edits| - 1]), edits[|edits| - 1])
  }

  // ----- the server -----

  function Merge(s: Segment, f: Fields): Segment {
    s.(text := if f.text.Some? then f.text.value else s.text,
       speakerLabel := if f.speakerLabel.Some? then f.speakerLabel.value else s.speakerLabel)
  }

  /** A later entry for an id overrides an earlier one field by field. */
  function Fold(edits: seq<SegmentEdit>): map<string, Fields> {
    if edits == [] then map[]
    else
      var before := Fold(edits[..|edits| - 1]);
      var last := edits[|edits| - 1];
      before[last.id := Spread(if last.id in before then before[last.id] else NO_FIELDS, last.fields)]
  }

  function MergeAll(segments: seq<Segment>, byId: map<string, Fields>): (r: seq<Segment>)
    ensures |r| == |segments|
  {
    seq(|segments|, i requires 0 <= i < |segments| =>
      if segments[i].id in byId then Merge(segments[i], byId[segments[i].id]) else segments[i])
  }

  predicate HasSegment(segments: seq<Segment>, id: string) {
    exists i :: 0 <= i < |segments| && segments[i].id == id
  }

  function ApplySegmentEdits(prior: seq<Segment>, edits: seq<SegmentEdit>): Result<seq<Segment>, string> {
    if exists i :: 0 <= i < |edits| && edits[i].id == "" then
      Failure("Draft edits must address transcript segments in the loaded draft.")
    else if exists i :: 0 <= i < |edits| && !HasSegment(prior, edits[i].id) then
      Failure("Draft edits must address transcript segments in the loaded draft.")
    else Success(MergeAll(prior, Fold(edits)))
  }

  // ----- the patch refines the document -----

  /** What the patch says about one id. */
  function PatchFor(edits: seq<SegmentEdit>, id: string): Fields {
    if edits == [] then NO_FIELDS
    else if edits[0].id == id then edits[0].fields
    else PatchFor(edits[1..], id)
  }

  ghost predicate DistinctIds(edits: seq<SegmentEdit>) {
    forall i, j :: 0 <= i < j < |edits| ==> edits[i].id != edits[j].id
  }

  predicate Mentions(edits: seq<SegmentEdit>, id: string) {
    exists i :: 0 <= i < |edits| && edits[i].id == id
  }

  lemma {:induction false} RecordUpdatesOneId(edits: seq<SegmentEdit>, edit: Edit, id: string)
    requires DistinctIds(edits)
    ensures var r := RecordSegmentEdit(edits, edit);
            && DistinctIds(r)
            && (Mentions(r, id) <==> Mentions(edits, id) || id == edit.id)
            && PatchFor(r, id) ==
                 if id == edit.id then Spread(PatchFor(edits, id), FieldsOf(edit)) else PatchFor(edits, id)
  {
    if edits == [] {
      assert RecordSegmentEdit(edits, edit)[0].id == edit.id;
    } else {
      var rest := edits[1..];
      var r := RecordSegmentEdit(edits, edit);
      assert forall k :: Mentions(edits, k) <==> edits[0].id == k || Mentions(rest, k) by { MentionsHeadOrTail(edits); }
      MentionsHeadOrTail(r);
      if edits[0].id == edit.id {
        assert r[1..] == rest;
      } else {
        RecordUpdatesOneId(rest, edit, id);
        RecordUpdatesOneId(rest, edit, edits[0].id);
        assert r[1..] == RecordSegmentEdit(rest, edit);
        assert !Mentions(rest, edits[0].id) && !Mentions(r[1..], edits[0].id);
      }
    }
  }

  lemma {:induction false} MentionsHeadOrTail(edits: seq<SegmentEdit>)
    requires edits != []
    ensures forall id :: Mentions(edits, id) <==> edits[0].id == id || Mentions(edits[1..], id)
  {
    forall id
      ensures Mentions(edits, id) <==> edits[0].id == id || Mentions(edits[1..], id)
    {
      if Mentions(edits[1..], id) {
        var i :| 0 <= i < |edits[1..]| && edits[1..][i].id == id;
        assert edits[i + 1].id == id;
      }
      if Mentions(edits, id) {
        var i :| 0 <= i < |edits| && edits[i].id == id;
        assert i > 0 ==> edits[1..][i - 1].id == id;
      }
    }
  }

  /** On distinct ids, folding a patch changes nothing about it. */
  lemma {:induction false} FoldIsThePatch(edits: seq<SegmentEdit>, id: string)
    requires DistinctIds(edits)
    ensures id in Fold(edits) <==> Mentions(edits, id)
    ensures id in Fold(edits) ==> Fold(edits)[id] == PatchFor(edits, id)
    ensures !Mentions(edits, id) ==> PatchFor(edits, id) == NO_FIELDS
  {
    if edits != [] {
      var n := |edits| - 1;
      FoldIsThePatch(edits[..n], id);
      PatchOfSnoc(edits, id);
      if Mentions(edits[..n], id) {
        var i :| 0 <= i < n && edits[..n][i].id == id;
        assert edits[i].id == id && edits[n].id != id;
      }
      if edits[n].id == id { assert edits[n].id == id; }
      else if Mentions(edits, id) {
        var i :| 0 <= i < |edits| && edits[i].id == id;
        assert edits[..n][i].id == id;
      }
    }
  }

  lemma {:induction false} PatchOfSnoc(edits: seq<SegmentEdit>, id: string)
    requires edits != []
    ensures var n := |edits| - 1;
            PatchFor(edits, id) == if Mentions(edits[..n], id) then PatchFor(edits[..n], id)
                                   else if edits[n].id == id then edits[n].fields else NO_FIELDS
  {
    var n := |edits| - 1;
    if n > 0 {
      PatchOfSnoc(edits[1..], id);
      assert edits[1..][..n - 1] == edits[..n][1..];
      MentionsHeadOrTail(edits[..n]);
    }
  }

  /** The document that the patch stands for. */
  function Patched(base: seq<Segment>, edits: seq<SegmentEdit>): (r: seq<Segment>)
    ensures |r| == |base|
  {
    seq(|base|, i requires 0 <= i < |base| => Merge(base[i], PatchFor(edits, base[i].id)))
  }

  lemma {:induction false} EditCommutesWithPatch(base: seq<Segment>, edits: seq<SegmentEdit>, edit: Edit)
    requires DistinctIds(edits)
    ensures EditSegments(Patched(base, edits), edit) == Patched(base, RecordSegmentEdit(edits, edit))
    ensures DistinctIds(RecordSegmentEdit(edits, edit))
  {
    RecordUpdatesOneId(edits, edit, edit.id);
    forall i | 0 <= i < |base|
      ensures EditSegments(Patched(base, edits), edit)[i] == Patched(base, RecordSegmentEdit(edits, edit))[i]
    {
      RecordUpdatesOneId(edits, edit, base[i].id);
    }
  }

  lemma {:induction false} PatchRefinesDocument(base: seq<Segment>, edits: seq<Edit>)
    ensures DistinctIds(RecordAll(edits))
    ensures EditAll(base, edits) == Patched(base, RecordAll(edits))
    ensures forall id :: Mentions(RecordAll(edits), id) <==> exists i :: 0 <= i < |edits| && edits[i].id == id
  {
    if edits != [] {
      var n := |edits| - 1;
      PatchRefinesDocument(base, edits[..n]);
      EditCommutesWithPatch(base, RecordAll(edits[..n]), edits[n]);
      forall id
        ensures Mentions(RecordAll(edits), id) <==> exists i :: 0 <= i < |edits| && edits[i].id == id
      {
        RecordUpdatesOneId(RecordAll(edits[..n]), edits[n], id);
        if Mentions(RecordAll(edits[..n]), id) {
          var i :| 0 <= i < n && edits[..n][i].id == id;
          assert edits[i].id == id;
        }
        if i :| 0 <= i < |edits| && edits[i].id == id {
          assert i < n ==> edits[..n][i].id == id;
        }
      }
    }
  }

  /**
    Saving the patch is saving the document: the server accepts it exactly when every edit addressed
    a segment of the draft by a non-empty id, and then it arrives at the reviewer's own document.
  */
  lemma {:induction false} SavingThePatchSavesTheDocument(base: seq<Segment>, edits: seq<Edit>)
    ensures ApplySegmentEdits(base, RecordAll(edits)).Success? <==>
              (forall i :: 0 <= i < |edits| ==> edits[i].id != "" && HasSegment(base, edits[i].id))
    ensures ApplySegmentEdits(base, RecordAll(edits)).Success? ==>
              ApplySegmentEdits(base, RecordAll(edits)).value == EditAll(base, edits)
  {
    PatchRefinesDocument(base, edits);
    AcceptedWhenAddressed(base, edits);
    MergedIsPatched(base, RecordAll(edits));
  }

  lemma {:induction false} AcceptedWhenAddressed(base: seq<Segment>, edits: seq<Edit>)
    requires forall id :: Mentions(RecordAll(edits), id) <==> exists k :: 0 <= k < |edits| && edits[k].id == id
    ensures ApplySegmentEdits(base, RecordAll(edits)).Success? <==>
              (forall i :: 0 <= i < |edits| ==> edits[i].id != "" && HasSegment(base, edits[i].id))
  {
    var patch := RecordAll(edits);
    forall i | 0 <= i < |edits|
      ensures Mentions(patch, edits[i].id)
    {
    }
    forall i | 0 <= i < |patch|
      ensures exists k :: 0 <= k < |edits| && edits[k].id == patch[i].id
    {
      assert Mentions(patch, patch[i].id);
    }
  }

  lemma {:induction false} MergedIsPatched(base: seq<Segment>, patch: seq<SegmentEdit>)
    requires DistinctIds(patch)
    ensures MergeAll(base, Fold(patch)) == Patched(base, patch)
  {
    forall i | 0 <= i < |base|
      ensures MergeAll(base, Fold(patch))[i] == Patched(base, patch)[i]
    {
      FoldIsThePatch(patch, base[i].id);
    }
  }

  /** Whatever is edited, identity, timing and confidence stay, and nothing is added or removed. */
  lemma {:induction false} OnlyReviewerFieldsChange(base: seq<Segment>, edits: seq<Edit>)
    ensures |EditAll(base, edits)| == |base|
    ensures forall i :: 0 <= i < |base| ==>
              EditAll(base, edits)[i] ==
                base[i].(text := EditAll(base, edits)[i].text, speakerLabel := EditAll(base, edits)[i].speakerLabel)
  {
    PatchRefinesDocument(base, edits);
  }

  /** The text that was last written for this segment, if any was. */
  function LastText(edits: seq<Edit>, id: string): Option<string> {
    if edits == [] then None
    else
      var last := edits[|edits| - 1];
      if last.UpdateText? && last.id == id then Some(last.value) else LastText(edits[..|edits| - 1], id)
  }

  /** The speaker that was last named for this segment, if any was. */
  function LastSpeaker(edits: seq<Edit>, id: string): Option<string> {
    if edits == [] then None
    else
      var last := edits[|edits| - 1];
      if last.UpdateSpeaker? && last.id == id then Some(last.value) else LastSpeaker(edits[..|edits| - 1], id)
  }

  /** The document shows the last text and the last speaker that were entered for a segment, each on its own. */
  lemma {:induction false} LastEditsShow(base: seq<Segment>, edits: seq<Edit>, i: nat)
    requires i < |base|
    ensures |EditAll(base, edits)| == |base|
    ensures var text, speaker := LastText(edits, base[i].id), LastSpeaker(edits, base[i].id);
            EditAll(base, edits)[i] ==
              base[i].(text := if text.Some? then text.value else base[i].text,
                       speakerLabel := if speaker.Some? then speaker.value else base[i].speakerLabel)
  {
    if edits != [] {
      LastEditsShow(base, edits[..|edits| - 1], i);
    }
  }

  class Workspace {
    ghost const base: seq<Segment>
    var segments: seq<Segment>
    var segmentEdits: seq<SegmentEdit>
    var dirty: bool

    /** The patch always stands for the document on screen. */
    ghost predicate Valid()
      reads this
    {
      DistinctIds(segmentEdits) && segments == Patched(base, segmentEdits)
    }

    constructor (base: seq<Segment>)
      ensures Valid() && this.base == base && segments == base && segmentEdits == [] && !dirty
    {
      this.base, segments, segmentEdits, dirty := base, base, [], false;
      new;
      assert forall i :: 0 <= i < |base| ==> Merge(base[i], NO_FIELDS) == base[i];
    }

    method EditField(edit: Edit)
      requires Valid()
      modifies this
      ensures Valid() && dirty
      ensures segments == EditSegments(old(segments), edit)
      ensures segmentEdits == RecordSegmentEdit(old(segmentEdits), edit)
    {
      EditCommutesWithPatch(base, segmentEdits, edit);
      segments := EditSegments(segments, edit);
      segmentEdits := RecordSegmentEdit(segmentEdits, edit);
      dirty := true;
    }
  }
}
