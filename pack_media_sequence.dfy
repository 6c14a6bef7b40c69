/**
 * The calculator that packs a graph's streams into a media sequence: it
 * copies a sequence example from its input side packet in `Open`, appends
 * the data of every non-empty input in `Process`, and emits the example in
 * `Close`. The example's content is modelled as the list of edits the
 * media-sequence library is asked to make.
 */
module PackMediaSequence {
  import opened Statuses
  import opened MediaSequenceTags
  import opened FeatureMaps

  /** The location format of a detection. */
  datatype LocationFormat = Global | BoundingBox | RelativeBoundingBox | Mask

  /**
   * A detection: its location format, its location data (passed on
   * unconverted), its labels and its label ids.
   */
  datatype Detection = Detection(format: LocationFormat, location: seq<real>, labels: seq<string>, labelIds: seq<int>)

  /** The packet an input stream holds at the current timestamp. */
  datatype Packet =
    | Empty
    | EncodedResult(encodedImage: Option<seq<bv8>>)
    | Detections(detections: seq<Detection>)
    | Floats(values: seq<real>)

  /** One change asked of the media-sequence library, in the order it is made. */
  datatype SequenceEdit =
    | ClearImageEncoded(key: string)
    | ClearImageTimestamp(key: string)
    | ClearForwardFlowEncoded
    | ClearForwardFlowTimestamp
    | ClearFeatureFloats(key: string)
    | ClearFeatureTimestamp(key: string)
    | AddImageTimestamp(key: string, timestamp: int)
    | AddImageEncoded(key: string, image: seq<bv8>)
    | AddForwardFlowTimestamp(timestamp: int)
    | AddForwardFlowEncoded(image: seq<bv8>)
    | AddFeatureTimestamp(key: string, timestamp: int)
    | AddFeatureFloats(key: string, values: seq<real>)
    | AddBBox(key: string, boxes: seq<seq<real>>)
    | AddBBoxTimestamp(key: string, timestamp: int)
    | AddBBoxClassString(key: string, labels: seq<string>)
    | AddBBoxClassIndex(key: string, labelIds: seq<int>)
    | AddClassSegmentationEncoded(mask: seq<real>)
    | AddClassSegmentationTimestamp(timestamp: int)
    | SetClassSegmentationClassLabelString(labels: seq<string>)
    | ReconcileMetadata(reconcileBBoxAnnotations: bool)

  /** A sequence example: the one copied from the side packet, and the edits made to it since. */
  datatype SequenceExample = SequenceExample(source: nat, edits: seq<SequenceEdit>)

  /** What the node emits. */
  datatype Output =
    | TimestampBoundMax
    | SidePacketOutput(example: SequenceExample)
    | PostStreamOutput(example: SequenceExample)

  /** The calculator options the modelled code reads. */
  datatype Options = Options(
    replaceDataInsteadOfAppend: bool,
    reconcileMetadata: bool,
    reconcileBBoxAnnotations: bool,
    outputOnlyIfAllPresent: bool)

  const NoEncodedImage: Status := Error(InvalidArgument, "No encoded image")
  const NoEncodedForwardFlow: Status := Error(InvalidArgument, "No encoded forward flow")
  const UnsupportedDetection: Status :=
    Error(Unimplemented, "Global detections and empty detections are not supported.")
  const SecondMask: Status :=
    RetCheckFailure("We currently only support adding one mask per timestamp. ")
  const ReconcileFailed: Status := RetCheckFailure("mpms::ReconcileMetadata")

  // ---------------------------------------------------------------------
  // Inputs

  /** A packet of the type the contract sets for its stream. */
  predicate HasType(p: Packet, t: PacketType)
  {
    match t
    case EncoderResults => p.EncodedResult?
    case DetectionList => p.Detections?
    case FloatList => p.Floats?
    case SequenceExamplePacket => false
  }

  /** Reading a packet as another type than the contract's is fatal. */
  predicate Fits(tag: string, p: Packet)
  {
    p == Empty || InputType(tag).None? || HasType(p, InputType(tag).value)
  }

  /** The packets of the input streams, one per tag. */
  predicate InputsFit(tags: seq<string>, packets: seq<Packet>)
  {
    |tags| == |packets| && forall i :: 0 <= i < |tags| ==> Fits(tags[i], packets[i])
  }

  /**
   * Under the contract a delivered packet has the kind its tag's rule reads,
   * so testing the kind, as the steps below do, is testing for a packet.
   */
  lemma DeliveredPacketsHaveTheirType(tags: seq<string>, packets: seq<Packet>, j: nat)
    requires InputsFit(tags, packets) && j < |tags| && packets[j] != Empty
    ensures tags[j] == ForwardFlowEncodedTag ==> packets[j].EncodedResult?
    ensures tags[j] == SegmentationMaskTag ==> packets[j].Detections?
    ensures StartsWith(tags[j], ImageTag) && KeyForPrefixedTag(tags[j], ImageTag).Some? ==> packets[j].EncodedResult?
    ensures StartsWith(tags[j], BBoxTag) && KeyForPrefixedTag(tags[j], BBoxTag).Some? ==> packets[j].Detections?
    ensures StartsWith(tags[j], FloatFeaturePrefixTag) ==> packets[j].Floats?
  {
    TagRulesExclusive(tags[j]);
  }

  /** The packet of the stream `tag`, empty when there is no such stream. */
  function PacketFor(tags: seq<string>, packets: seq<Packet>, tag: string): (r: Packet)
    requires |tags| == |packets|
    ensures r != Empty ==> tag in tags
    ensures tag in tags ==> exists j :: 0 <= j < |tags| && tags[j] == tag && r == packets[j]
    decreases |tags|
  {
    if tags == [] then Empty
    else if tags[0] == tag then packets[0]
    else
      var r := PacketFor(tags[1..], packets[1..], tag);
      assert tag in tags[1..] ==> exists j :: 0 <= j < |tags| && tags[j] == tag && r == packets[j] by {
        if tag in tags[1..] {
          var k :| 0 <= k < |tags| - 1 && tags[1..][k] == tag && r == packets[1..][k];
          assert tags[k + 1] == tag && r == packets[k + 1];
        }
      }
      r
  }

  // ---------------------------------------------------------------------
  // Process: one loop per kind of input, from tag `i` on.

  /**
   * The image loop: each non-empty `IMAGE` or `IMAGE_<key>` stream adds its
   * timestamp and encoded image under its key; an image without encoded
   * data ends `Process` with an error.
   */
  function ImageEdits(tags: seq<string>, packets: seq<Packet>, i: nat, timestamp: int): (Status, seq<SequenceEdit>)
    requires |tags| == |packets| && i <= |tags|
    decreases |tags| - i
  {
    if i == |tags| then (Ok, [])
    else
      var tag := tags[i];
      if StartsWith(tag, ImageTag) && packets[i].EncodedResult? && KeyForPrefixedTag(tag, ImageTag).Some? then
        var key := KeyForPrefixedTag(tag, ImageTag).value;
        var image := packets[i].encodedImage;
        if image.None? then (NoEncodedImage, [])
        else
          var rest := ImageEdits(tags, packets, i + 1, timestamp);
          (rest.0, [AddImageTimestamp(key, timestamp), AddImageEncoded(key, image.value)] + rest.1)
      else ImageEdits(tags, packets, i + 1, timestamp)
  }

  /** A stream the image loop stores: an image tag with a key and a packet. */
  predicate ImageInput(tag: string, p: Packet)
  {
    StartsWith(tag, ImageTag) && p.EncodedResult? && KeyForPrefixedTag(tag, ImageTag).Some?
  }

  /** The positions from `i` on of the streams the image loop stores. */
  ghost function StoredImages(tags: seq<string>, packets: seq<Packet>, i: nat): set<nat>
    requires |tags| == |packets|
  {
    set j: nat | i <= j < |tags| && ImageInput(tags[j], packets[j])
  }

  /**
   * The image loop fails exactly when a stored image stream has no encoded
   * image, and then with the invalid-argument error; it makes two edits per
   * stored stream before the failing one, so on success exactly two per
   * stored stream.
   */
  lemma {:induction false} ImageEditsOkExactly(tags: seq<string>, packets: seq<Packet>, i: nat, timestamp: int)
    requires |tags| == |packets| && i <= |tags|
    ensures ImageEdits(tags, packets, i, timestamp).0 == Ok <==>
      forall j :: i <= j < |tags| && ImageInput(tags[j], packets[j]) ==> packets[j] != EncodedResult(None)
    ensures ImageEdits(tags, packets, i, timestamp).0 in {Ok, NoEncodedImage}
    ensures |ImageEdits(tags, packets, i, timestamp).1| % 2 == 0
    ensures ImageEdits(tags, packets, i, timestamp).0 == Ok ==>
      |ImageEdits(tags, packets, i, timestamp).1| == 2 * |StoredImages(tags, packets, i)|
    decreases |tags| - i
  {
    if i < |tags| {
      ImageEditsOkExactly(tags, packets, i + 1, timestamp);
      if ImageInput(tags[i], packets[i]) {
        assert StoredImages(tags, packets, i) == StoredImages(tags, packets, i + 1) + {i};
      } else {
        assert StoredImages(tags, packets, i) == StoredImages(tags, packets, i + 1);
      }
    }
  }

  /**
   * What the image loop stores: on success each stored stream adds its
   * timestamp and its encoded image under its key, and every edit the loop
   * makes is one of those two for some stored stream.
   */
  lemma {:induction false} ImageEditsPerStream(tags: seq<string>, packets: seq<Packet>, i: nat, timestamp: int)
    requires |tags| == |packets| && i <= |tags|
    ensures ImageEdits(tags, packets, i, timestamp).0 == Ok ==>
      forall j :: i <= j < |tags| && ImageInput(tags[j], packets[j]) ==>
        && packets[j].encodedImage.Some?
        && AddImageTimestamp(KeyForPrefixedTag(tags[j], ImageTag).value, timestamp)
           in ImageEdits(tags, packets, i, timestamp).1
        && AddImageEncoded(KeyForPrefixedTag(tags[j], ImageTag).value, packets[j].encodedImage.value)
           in ImageEdits(tags, packets, i, timestamp).1
    ensures forall e :: e in ImageEdits(tags, packets, i, timestamp).1 ==>
      exists j :: i <= j < |tags| && ImageInput(tags[j], packets[j]) && packets[j].encodedImage.Some? &&
        (e == AddImageTimestamp(KeyForPrefixedTag(tags[j], ImageTag).value, timestamp) ||
         e == AddImageEncoded(KeyForPrefixedTag(tags[j], ImageTag).value, packets[j].encodedImage.value))
    decreases |tags| - i
  {
    if i < |tags| {
      ImageEditsPerStream(tags, packets, i + 1, timestamp);
    }
  }

  /** The forward flow step: a non-empty `FORWARD_FLOW_ENCODED` stream adds its timestamp and encoded flow. */
  function FlowEdits(tags: seq<string>, packets: seq<Packet>, timestamp: int): (r: (Status, seq<SequenceEdit>))
    requires |tags| == |packets|
    ensures r.0 == NoEncodedForwardFlow <==> PacketFor(tags, packets, ForwardFlowEncodedTag) == EncodedResult(None)
    ensures r.0 != Ok ==> r.0 == NoEncodedForwardFlow && r.1 == []
    ensures r.1 != [] <==> PacketFor(tags, packets, ForwardFlowEncodedTag).EncodedResult? &&
                           PacketFor(tags, packets, ForwardFlowEncodedTag).encodedImage.Some?
    ensures PacketFor(tags, packets, ForwardFlowEncodedTag).EncodedResult? &&
            PacketFor(tags, packets, ForwardFlowEncodedTag).encodedImage.Some? ==>
      r == (Ok, [AddForwardFlowTimestamp(timestamp),
                 AddForwardFlowEncoded(PacketFor(tags, packets, ForwardFlowEncodedTag).encodedImage.value)])
  {
    match PacketFor(tags, packets, ForwardFlowEncodedTag)
    case EncodedResult(None) => (NoEncodedForwardFlow, [])
    case EncodedResult(Some(flow)) => (Ok, [AddForwardFlowTimestamp(timestamp), AddForwardFlowEncoded(flow)])
    case _ => (Ok, [])
  }

  /** The float loop: each non-empty `FLOAT_FEATURE_<key>` stream adds its timestamp and values under its key. */
  function FloatEdits(tags: seq<string>, packets: seq<Packet>, i: nat, timestamp: int): seq<SequenceEdit>
    requires |tags| == |packets| && i <= |tags|
    decreases |tags| - i
  {
    if i == |tags| then []
    else if StartsWith(tags[i], FloatFeaturePrefixTag) && packets[i].Floats? then
      var key := FloatFeatureKey(tags[i]);
      [AddFeatureTimestamp(key, timestamp), AddFeatureFloats(key, packets[i].values)] +
      FloatEdits(tags, packets, i + 1, timestamp)
    else FloatEdits(tags, packets, i + 1, timestamp)
  }

  /**
   * Every float edit is stored under the key of a non-empty float stream,
   * and the values stored are that stream's packet; conversely each
   * non-empty float stream adds its timestamp and its values under its key.
   */
  lemma {:induction false} FloatEditsFromStreams(tags: seq<string>, packets: seq<Packet>, i: nat, timestamp: int)
    requires |tags| == |packets| && i <= |tags|
    ensures forall e :: e in FloatEdits(tags, packets, i, timestamp) ==>
      exists j :: i <= j < |tags| && StartsWith(tags[j], FloatFeaturePrefixTag) && packets[j].Floats? &&
        (e == AddFeatureTimestamp(FloatFeatureKey(tags[j]), timestamp) ||
         (e.AddFeatureFloats? && e.key == FloatFeatureKey(tags[j]) && packets[j] == Floats(e.values)))
    ensures forall j :: i <= j < |tags| && StartsWith(tags[j], FloatFeaturePrefixTag) && packets[j].Floats? ==>
      && AddFeatureTimestamp(FloatFeatureKey(tags[j]), timestamp) in FloatEdits(tags, packets, i, timestamp)
      && AddFeatureFloats(FloatFeatureKey(tags[j]), packets[j].values) in FloatEdits(tags, packets, i, timestamp)
    decreases |tags| - i
  {
    if i < |tags| {
      FloatEditsFromStreams(tags, packets, i + 1, timestamp);
    }
  }

  /** The box lists built from the detections of one box stream. */
  datatype BoxLists = BoxLists(locations: seq<seq<real>>, classStrings: seq<string>, labelIds: seq<int>)

  /** A detection that contributes a location: a bounding box, absolute or relative. */
  predicate IsBox(d: Detection)
  {
    d.format == BoundingBox || d.format == RelativeBoundingBox
  }

  /**
   * The lists built from `ds`, in order: the location of each box detection,
   * and its first label and first label id when it has them.
   */
  function CollectedBoxes(ds: seq<Detection>): BoxLists
    decreases |ds|
  {
    if ds == [] then BoxLists([], [], [])
    else
      var lists := CollectedBoxes(ds[..|ds| - 1]);
      var d := ds[|ds| - 1];
      if IsBox(d) then
        BoxLists(lists.locations + [d.location],
                 lists.classStrings + (if |d.labels| > 0 then [d.labels[0]] else []),
                 lists.labelIds + (if |d.labelIds| > 0 then [d.labelIds[0]] else []))
      else lists
  }

  /** The positions of the box detections in `ds`. */
  ghost function BoxPositions(ds: seq<Detection>): set<int>
  {
    set j | 0 <= j < |ds| && IsBox(ds[j])
  }

  /** The positions of the box detections in `ds` that have a label. */
  ghost function LabelledPositions(ds: seq<Detection>): set<int>
  {
    set j | 0 <= j < |ds| && IsBox(ds[j]) && |ds[j].labels| > 0
  }

  /** The positions of the box detections in `ds` that have a label id. */
  ghost function LabelIdPositions(ds: seq<Detection>): set<int>
  {
    set j | 0 <= j < |ds| && IsBox(ds[j]) && |ds[j].labelIds| > 0
  }

  /** Appending a detection adds its position to each set it qualifies for. */
  lemma PositionsOfAppended(ds: seq<Detection>)
    requires ds != []
    ensures var n := |ds| - 1; var d := ds[n];
      && BoxPositions(ds) == BoxPositions(ds[..n]) + (if IsBox(d) then {n} else {})
      && LabelledPositions(ds) == LabelledPositions(ds[..n]) + (if IsBox(d) && |d.labels| > 0 then {n} else {})
      && LabelIdPositions(ds) == LabelIdPositions(ds[..n]) + (if IsBox(d) && |d.labelIds| > 0 then {n} else {})
  {
    var n := |ds| - 1;
    assert forall j :: 0 <= j < n ==> ds[..n][j] == ds[j];
  }

  /**
   * One location per box detection and none for the others; a label or a
   * label id exactly for each box that has one.
   */
  lemma {:induction false} CollectedBoxesCounts(ds: seq<Detection>)
    ensures |CollectedBoxes(ds).locations| == |BoxPositions(ds)|
    ensures |CollectedBoxes(ds).classStrings| == |LabelledPositions(ds)|
    ensures |CollectedBoxes(ds).labelIds| == |LabelIdPositions(ds)|
    decreases |ds|
  {
    if ds != [] {
      var n := |ds| - 1;
      CollectedBoxesCounts(ds[..n]);
      PositionsOfAppended(ds);
    }
  }

  /**
   * So never more labels or label ids than locations, and exactly as many
   * when every box has one.
   */
  lemma LabelsAtMostLocations(ds: seq<Detection>)
    ensures |CollectedBoxes(ds).classStrings| <= |CollectedBoxes(ds).locations|
    ensures |CollectedBoxes(ds).labelIds| <= |CollectedBoxes(ds).locations|
    ensures (forall j :: 0 <= j < |ds| && IsBox(ds[j]) ==> |ds[j].labels| > 0) ==>
      |CollectedBoxes(ds).classStrings| == |CollectedBoxes(ds).locations|
    ensures (forall j :: 0 <= j < |ds| && IsBox(ds[j]) ==> |ds[j].labelIds| > 0) ==>
      |CollectedBoxes(ds).labelIds| == |CollectedBoxes(ds).locations|
  {
    CollectedBoxesCounts(ds);
    assert BoxPositions(ds) == LabelledPositions(ds) + (BoxPositions(ds) - LabelledPositions(ds));
    assert BoxPositions(ds) == LabelIdPositions(ds) + (BoxPositions(ds) - LabelIdPositions(ds));
  }

  /**
   * For one box stream: nothing is added exactly when no detection is a box;
   * the labels are added exactly when some box has a label, and the label
   * ids exactly when some box has a label id.
   */
  lemma BoxStreamEdits(key: string, ds: seq<Detection>, timestamp: int)
    ensures BoxEditsForKey(key, CollectedBoxes(ds), timestamp) == [] <==>
      forall j :: 0 <= j < |ds| ==> !IsBox(ds[j])
    ensures AddBBoxClassString(key, CollectedBoxes(ds).classStrings) in BoxEditsForKey(key, CollectedBoxes(ds), timestamp) <==>
      exists j :: 0 <= j < |ds| && IsBox(ds[j]) && |ds[j].labels| > 0
    ensures AddBBoxClassIndex(key, CollectedBoxes(ds).labelIds) in BoxEditsForKey(key, CollectedBoxes(ds), timestamp) <==>
      exists j :: 0 <= j < |ds| && IsBox(ds[j]) && |ds[j].labelIds| > 0
  {
    CollectedBoxesCounts(ds);
    LabelsAtMostLocations(ds);
    NonEmptyExactlyWithMember(BoxPositions(ds));
    NonEmptyExactlyWithMember(LabelledPositions(ds));
    NonEmptyExactlyWithMember(LabelIdPositions(ds));
  }

  /** A set has a positive size exactly when it has a member. */
  lemma NonEmptyExactlyWithMember(s: set<int>)
    ensures |s| > 0 <==> exists j :: j in s
  {
    if forall j :: j !in s {
      assert s == {};
    }
  }

  /** The box-stream loop over detections, on its local vectors. */
  method CollectBoxes(ds: seq<Detection>) returns (lists: BoxLists)
    ensures lists == CollectedBoxes(ds)
  {
    lists := BoxLists([], [], []);
    var i := 0;
    while i < |ds|
      invariant 0 <= i <= |ds|
      invariant lists == CollectedBoxes(ds[..i])
    {
      var d := ds[i];
      assert ds[..i + 1][..i] == ds[..i];
      if d.format == BoundingBox || d.format == RelativeBoundingBox {
        lists := lists.(locations := lists.locations + [d.location]);
        if |d.labels| > 0 {
          lists := lists.(classStrings := lists.classStrings + [d.labels[0]]);
        }
        if |d.labelIds| > 0 {
          lists := lists.(labelIds := lists.labelIds + [d.labelIds[0]]);
        }
      }
      i := i + 1;
    }
    assert ds[..i] == ds;
  }

  /**
   * The edits for the box lists of the stream keyed `key`: nothing when no
   * location qualified; otherwise the boxes and the timestamp, then the
   * labels and the label ids when there are any.
   */
  function BoxEditsForKey(key: string, lists: BoxLists, timestamp: int): (r: seq<SequenceEdit>)
    ensures r == [] <==> lists.locations == []
    ensures r != [] ==>
      && 2 <= |r| <= 4
      && r[0] == AddBBox(key, lists.locations) && r[1] == AddBBoxTimestamp(key, timestamp)
      && (AddBBoxClassString(key, lists.classStrings) in r <==> lists.classStrings != [])
      && (AddBBoxClassIndex(key, lists.labelIds) in r <==> lists.labelIds != [])
  {
    if lists.locations == [] then []
    else
      [AddBBox(key, lists.locations), AddBBoxTimestamp(key, timestamp)] +
      (if lists.classStrings != [] then [AddBBoxClassString(key, lists.classStrings)] else []) +
      (if lists.labelIds != [] then [AddBBoxClassIndex(key, lists.labelIds)] else [])
  }

  /** The box loop: each non-empty `BBOX` or `BBOX_<key>` stream adds its boxes under its key. */
  function BoxEdits(tags: seq<string>, packets: seq<Packet>, i: nat, timestamp: int): seq<SequenceEdit>
    requires |tags| == |packets| && i <= |tags|
    decreases |tags| - i
  {
    if i == |tags| then []
    else if StartsWith(tags[i], BBoxTag) && packets[i].Detections? && KeyForPrefixedTag(tags[i], BBoxTag).Some? then
      BoxEditsForKey(KeyForPrefixedTag(tags[i], BBoxTag).value, CollectedBoxes(packets[i].detections), timestamp) +
      BoxEdits(tags, packets, i + 1, timestamp)
    else BoxEdits(tags, packets, i + 1, timestamp)
  }

  /** `label(0)` of a mask detection is read unchecked: the only mask reached, the first detection, has a label. */
  predicate MaskLabelled(p: Packet)
  {
    p.Detections? && |p.detections| > 0 && p.detections[0].format == Mask ==> |p.detections[0].labels| > 0
  }

  /**
   * The mask loop over the detections of `CLASS_SEGMENTATION`, from
   * detection `i` on: a mask adds its encoding, the timestamp and its label;
   * a second mask fails the check, any other detection is unsupported.
   */
  function MaskEdits(ds: seq<Detection>, i: nat, alreadyHasMask: bool, timestamp: int): (Status, seq<SequenceEdit>)
    requires i <= |ds|
    requires !alreadyHasMask && i < |ds| && ds[i].format == Mask ==> |ds[i].labels| > 0
    decreases |ds| - i
  {
    if i == |ds| then (Ok, [])
    else if ds[i].format == Mask then
      if alreadyHasMask then (SecondMask, [])
      else
        var rest := MaskEdits(ds, i + 1, true, timestamp);
        (rest.0, [AddClassSegmentationEncoded(ds[i].location), AddClassSegmentationTimestamp(timestamp),
                  SetClassSegmentationClassLabelString([ds[i].labels[0]])] + rest.1)
    else (UnsupportedDetection, [])
  }

  /**
   * At most one mask per timestamp: the loop succeeds exactly on no
   * detection or a single mask; a first detection that is not a mask, or a
   * mask followed by something else, is unsupported; two masks fail the
   * check. A mask is added only when the first detection is one.
   */
  lemma MaskOutcome(ds: seq<Detection>, timestamp: int)
    requires MaskLabelled(Detections(ds))
    ensures var r := MaskEdits(ds, 0, false, timestamp);
      && (r.0 == Ok <==> |ds| == 0 || (|ds| == 1 && ds[0].format == Mask))
      && (r.0 == SecondMask <==> |ds| >= 2 && ds[0].format == Mask && ds[1].format == Mask)
      && (r.0 == UnsupportedDetection <==>
            (|ds| >= 1 && ds[0].format != Mask) || (|ds| >= 2 && ds[0].format == Mask && ds[1].format != Mask))
      && (r.1 == [] <==> |ds| == 0 || ds[0].format != Mask)
      && (r.1 != [] ==> |r.1| == 3 && r.1[0] == AddClassSegmentationEncoded(ds[0].location))
  {
    if |ds| >= 1 && ds[0].format == Mask {
      var rest := MaskEdits(ds, 1, true, timestamp);
      if |ds| >= 2 {
        assert rest.1 == [];
      }
    }
  }

  /** The mask step: only a non-empty `CLASS_SEGMENTATION` stream is read. */
  function MaskPhase(tags: seq<string>, packets: seq<Packet>, timestamp: int): (Status, seq<SequenceEdit>)
    requires |tags| == |packets|
    requires MaskLabelled(PacketFor(tags, packets, SegmentationMaskTag))
  {
    match PacketFor(tags, packets, SegmentationMaskTag)
    case Detections(ds) => MaskEdits(ds, 0, false, timestamp)
    case _ => (Ok, [])
  }

  /** Open's loop: every input tag is recorded as not yet present. */
  function MarkAbsent(m: seq<Entry>, tags: seq<string>, i: nat): (r: seq<Entry>)
    requires Sorted(m) && i <= |tags|
    ensures Sorted(r)
    decreases |tags| - i
  {
    if i == |tags| then m else MarkAbsent(Assign(m, tags[i], false), tags, i + 1)
  }

  /** After `Open`'s loop each input tag maps to false and every other key is untouched. */
  lemma {:induction false} MarkAbsentLookup(m: seq<Entry>, tags: seq<string>, i: nat, k: string)
    requires Sorted(m) && i <= |tags|
    ensures Lookup(MarkAbsent(m, tags, i), k) == if k in tags[i..] then Some(false) else Lookup(m, k)
    decreases |tags| - i
  {
    if i < |tags| {
      MarkAbsentLookup(Assign(m, tags[i], false), tags, i + 1, k);
      AssignLookup(m, tags[i], false, k);
      assert tags[i..] == [tags[i]] + tags[i + 1..];
    }
  }

  /** The end of `Process`: every tag whose input is non-empty is recorded as present. */
  function MarkPresent(m: seq<Entry>, tags: seq<string>, packets: seq<Packet>, i: nat): (r: seq<Entry>)
    requires Sorted(m) && |tags| == |packets| && i <= |tags|
    ensures Sorted(r)
    decreases |tags| - i
  {
    if i == |tags| then m
    else MarkPresent(if packets[i] != Empty then Assign(m, tags[i], true) else m, tags, packets, i + 1)
  }

  /** A tag among `tags[i..]` whose packet is non-empty. */
  predicate DeliveredFrom(tags: seq<string>, packets: seq<Packet>, i: nat, k: string)
    requires |tags| == |packets|
  {
    exists j :: i <= j < |tags| && tags[j] == k && packets[j] != Empty
  }

  /**
   * `Process` sets to true exactly the tags whose input is non-empty and
   * leaves every other entry as it was.
   */
  lemma {:induction false} MarkPresentLookup(m: seq<Entry>, tags: seq<string>, packets: seq<Packet>, i: nat, k: string)
    requires Sorted(m) && |tags| == |packets| && i <= |tags|
    ensures Lookup(MarkPresent(m, tags, packets, i), k) ==
      if DeliveredFrom(tags, packets, i, k) then Some(true) else Lookup(m, k)
    decreases |tags| - i
  {
    if i < |tags| {
      var m' := if packets[i] != Empty then Assign(m, tags[i], true) else m;
      MarkPresentLookup(m', tags, packets, i + 1, k);
      if packets[i] != Empty {
        AssignLookup(m, tags[i], true, k);
      }
      if DeliveredFrom(tags, packets, i, k) && !DeliveredFrom(tags, packets, i + 1, k) {
        var j :| i <= j < |tags| && tags[j] == k && packets[j] != Empty;
        assert j == i;
      }
    }
  }

  /**
   * The status of `Process` and the edits it makes: the steps run in order
   * and the first failure ends it, keeping the edits already made.
   */
  function ProcessEdits(tags: seq<string>, packets: seq<Packet>, timestamp: int): (Status, seq<SequenceEdit>)
    requires |tags| == |packets|
    requires MaskLabelled(PacketFor(tags, packets, SegmentationMaskTag))
  {
    var images := ImageEdits(tags, packets, 0, timestamp);
    if images.0 != Ok then images
    else
      var flow := FlowEdits(tags, packets, timestamp);
      if flow.0 != Ok then (flow.0, images.1 + flow.1)
      else
        var edits := images.1 + flow.1 + FloatEdits(tags, packets, 0, timestamp) + BoxEdits(tags, packets, 0, timestamp);
        var mask := MaskPhase(tags, packets, timestamp);
        (mask.0, edits + mask.1)
  }

  /**
   * The whole of `Process`: its status, the edits it makes and the feature
   * map it leaves; only a call that reaches the end records the present
   * features.
   */
  function ProcessOutcome(tags: seq<string>, packets: seq<Packet>, timestamp: int, m: seq<Entry>)
    : (Status, seq<SequenceEdit>, seq<Entry>)
    requires |tags| == |packets| && Sorted(m)
    requires MaskLabelled(PacketFor(tags, packets, SegmentationMaskTag))
  {
    var (status, edits) := ProcessEdits(tags, packets, timestamp);
    (status, edits, if status == Ok then MarkPresent(m, tags, packets, 0) else m)
  }

  /**
   * A `Process` that fails leaves the feature map as it was; one that
   * succeeds marks exactly the delivered tags present and keeps the rest.
   */
  lemma ProcessMarksOnlyOnSuccess(tags: seq<string>, packets: seq<Packet>, timestamp: int, m: seq<Entry>, k: string)
    requires |tags| == |packets| && Sorted(m)
    requires MaskLabelled(PacketFor(tags, packets, SegmentationMaskTag))
    ensures var r := ProcessOutcome(tags, packets, timestamp, m);
      && (r.0 != Ok ==> r.2 == m)
      && (r.0 == Ok ==> Lookup(r.2, k) == if DeliveredFrom(tags, packets, 0, k) then Some(true) else Lookup(m, k))
  {
    MarkPresentLookup(m, tags, packets, 0, k);
  }

  /** A delivered image without encoded data stops `Process` before any float, box or mask edit. */
  lemma ImageFailureStopsProcess(tags: seq<string>, packets: seq<Packet>, timestamp: int, m: seq<Entry>, j: nat)
    requires |tags| == |packets| && Sorted(m)
    requires MaskLabelled(PacketFor(tags, packets, SegmentationMaskTag))
    requires j < |tags| && ImageInput(tags[j], packets[j]) && packets[j] == EncodedResult(None)
    ensures var r := ProcessOutcome(tags, packets, timestamp, m);
      r.0 == NoEncodedImage && r.1 == ImageEdits(tags, packets, 0, timestamp).1 && r.2 == m
  {
    ImageEditsOkExactly(tags, packets, 0, timestamp);
  }

  // ---------------------------------------------------------------------
  // Open

  /** With `replace_data_instead_of_append`, `Open` clears the data of each image stream, by key. */
  function ClearImageEdits(tags: seq<string>, i: nat): seq<SequenceEdit>
    requires i <= |tags|
    decreases |tags| - i
  {
    if i == |tags| then []
    else if StartsWith(tags[i], ImageTag) && KeyForPrefixedTag(tags[i], ImageTag).Some? then
      var key := KeyForPrefixedTag(tags[i], ImageTag).value;
      [ClearImageEncoded(key), ClearImageTimestamp(key)] + ClearImageEdits(tags, i + 1)
    else ClearImageEdits(tags, i + 1)
  }

  /** ... and the data of each float feature, by key. */
  function ClearFloatEdits(tags: seq<string>, i: nat): seq<SequenceEdit>
    requires i <= |tags|
    decreases |tags| - i
  {
    if i == |tags| then []
    else if StartsWith(tags[i], FloatFeaturePrefixTag) then
      var key := FloatFeatureKey(tags[i]);
      [ClearFeatureFloats(key), ClearFeatureTimestamp(key)] + ClearFloatEdits(tags, i + 1)
    else ClearFloatEdits(tags, i + 1)
  }

  /** The edits of `Open`: none when appending, the clearing of every stored input when replacing. */
  function OpenEdits(tags: seq<string>, replace: bool): seq<SequenceEdit>
  {
    if !replace then []
    else
      ClearImageEdits(tags, 0) +
      (if ForwardFlowEncodedTag in tags then [ClearForwardFlowEncoded, ClearForwardFlowTimestamp] else []) +
      ClearFloatEdits(tags, 0)
  }

  /**
   * When replacing, the data of every keyed image stream and of every float
   * feature is cleared before anything is added.
   */
  lemma {:induction false} ReplaceClearsEveryKey(tags: seq<string>, i: nat, j: nat)
    requires i <= j < |tags|
    ensures StartsWith(tags[j], ImageTag) && KeyForPrefixedTag(tags[j], ImageTag).Some? ==>
      ClearImageEncoded(KeyForPrefixedTag(tags[j], ImageTag).value) in ClearImageEdits(tags, i) &&
      ClearImageTimestamp(KeyForPrefixedTag(tags[j], ImageTag).value) in ClearImageEdits(tags, i)
    ensures StartsWith(tags[j], FloatFeaturePrefixTag) ==>
      ClearFeatureFloats(FloatFeatureKey(tags[j])) in ClearFloatEdits(tags, i) &&
      ClearFeatureTimestamp(FloatFeatureKey(tags[j])) in ClearFloatEdits(tags, i)
    decreases j - i
  {
    if i < j {
      ReplaceClearsEveryKey(tags, i + 1, j);
    }
  }

  // ---------------------------------------------------------------------
  // Close

  /**
   * The status of `Close`: a failed reconciliation fails the check; with
   * `output_only_if_all_present` a missing feature returns the
   * `VerifySequence` error; otherwise the example is emitted.
   */
  function CloseStatus(options: Options, reconcileResult: Status, m: seq<Entry>): Status
  {
    if options.reconcileMetadata && reconcileResult != Ok then ReconcileFailed
    else if options.outputOnlyIfAllPresent && VerifyStatus(m) != Ok then VerifyStatus(m)
    else Ok
  }

  /**
   * With `output_only_if_all_present`, a `Close` that succeeds saw every
   * input deliver, and a feature that never delivered makes it fail with
   * NotFound (unless reconciliation failed first).
   */
  lemma CloseGatedOnPresence(options: Options, reconcileResult: Status, m: seq<Entry>)
    requires Sorted(m)
    requires options.outputOnlyIfAllPresent
    ensures CloseStatus(options, reconcileResult, m) == Ok ==>
      forall k :: k in Keys(m) ==> Lookup(m, k) == Some(true)
    ensures (exists k :: k in Keys(m) && Lookup(m, k) == Some(false)) ==>
      CloseStatus(options, reconcileResult, m) != Ok &&
      (CloseStatus(options, reconcileResult, m) == ReconcileFailed ||
       CloseStatus(options, reconcileResult, m).code == NotFound)
  {
    VerifyStatusOkExactly(m);
  }

  // ---------------------------------------------------------------------
  // The calculator

  class PackMediaSequenceCalculator {
    const options: Options
    /** The input stream tags, in the order the node iterates over them. */
    const inputTags: seq<string>
    const hasOutputStream: bool
    const hasOutputSidePacket: bool

    /** `sequence_` is set: between `Open` and a successful `Close`. */
    var hasSequence: bool
    /** The side packet's example that `sequence_` was copied from. */
    var source: nat
    /** The edits made to `sequence_` since it was copied. */
    var edits: seq<SequenceEdit>
    /** `features_present_`. */
    var featuresPresent: seq<Entry>
    /** What the node has emitted, oldest first. */
    var outputs: seq<Output>

    ghost predicate Valid()
      reads this
    {
      Sorted(featuresPresent)
    }

    /** A node whose contract has an output stream or an output side packet for the example. */
    constructor (options: Options, inputTags: seq<string>, hasOutputStream: bool, hasOutputSidePacket: bool)
      requires hasOutputStream || hasOutputSidePacket
      ensures Valid()
      ensures this.options == options && this.inputTags == inputTags
      ensures this.hasOutputStream == hasOutputStream && this.hasOutputSidePacket == hasOutputSidePacket
      ensures !hasSequence && featuresPresent == [] && outputs == []
    {
      this.options := options;
      this.inputTags := inputTags;
      this.hasOutputStream := hasOutputStream;
      this.hasOutputSidePacket := hasOutputSidePacket;
      hasSequence := false;
      source := 0;
      edits := [];
      featuresPresent := [];
      outputs := [];
    }

    /**
     * `Open`: copy the side packet's example, record every input as not yet
     * present, clear the stored data when replacing, and bound the output
     * stream.
     */
    method Open(sideExample: nat)
      requires Valid()
      modifies this
      ensures Valid()
      ensures hasSequence && source == sideExample && edits == OpenEdits(inputTags, options.replaceDataInsteadOfAppend)
      ensures featuresPresent == MarkAbsent(old(featuresPresent), inputTags, 0)
      ensures outputs == old(outputs) + (if hasOutputStream then [TimestampBoundMax] else [])
    {
      hasSequence := true;
      source := sideExample;
      edits := [];
      var i := 0;
      while i < |inputTags|
        modifies this`featuresPresent
        invariant 0 <= i <= |inputTags|
        invariant Sorted(featuresPresent)
        invariant MarkAbsent(old(featuresPresent), inputTags, 0) == MarkAbsent(featuresPresent, inputTags, i)
      {
        featuresPresent := Assign(featuresPresent, inputTags[i], false);
        i := i + 1;
      }
      if options.replaceDataInsteadOfAppend {
        ClearImages();
        if ForwardFlowEncodedTag in inputTags {
          edits := edits + [ClearForwardFlowEncoded, ClearForwardFlowTimestamp];
        }
        ClearFloats();
      }
      if hasOutputStream {
        outputs := outputs + [TimestampBoundMax];
      }
    }

    method ClearImages()
      modifies this`edits
      ensures edits == old(edits) + ClearImageEdits(inputTags, 0)
    {
      ghost var edits0 := edits;
      var i := 0;
      while i < |inputTags|
        invariant 0 <= i <= |inputTags|
        invariant edits0 + ClearImageEdits(inputTags, 0) == edits + ClearImageEdits(inputTags, i)
      {
        var tag := inputTags[i];
        if StartsWith(tag, ImageTag) {
          var key := KeyForPrefixedTag(tag, ImageTag);
          if key.Some? {
            edits := edits + [ClearImageEncoded(key.value), ClearImageTimestamp(key.value)];
          }
        }
        i := i + 1;
      }
    }

    method ClearFloats()
      modifies this`edits
      ensures edits == old(edits) + ClearFloatEdits(inputTags, 0)
    {
      ghost var edits0 := edits;
      var i := 0;
      while i < |inputTags|
        invariant 0 <= i <= |inputTags|
        invariant edits0 + ClearFloatEdits(inputTags, 0) == edits + ClearFloatEdits(inputTags, i)
      {
        var tag := inputTags[i];
        if StartsWith(tag, FloatFeaturePrefixTag) {
          var key := FloatFeatureKey(tag);
          edits := edits + [ClearFeatureFloats(key), ClearFeatureTimestamp(key)];
        }
        i := i + 1;
      }
    }

    /**
     * `Process` at `timestamp`, `packets` holding each input stream's packet
     * in the order of the tags.
     */
    method Process(timestamp: int, packets: seq<Packet>) returns (r: Status)
      requires Valid() && hasSequence
      requires InputsFit(inputTags, packets)
      requires MaskLabelled(PacketFor(inputTags, packets, SegmentationMaskTag))
      modifies this`edits, this`featuresPresent
      ensures Valid()
      ensures r == ProcessOutcome(inputTags, packets, timestamp, old(featuresPresent)).0
      ensures edits == old(edits) + ProcessOutcome(inputTags, packets, timestamp, old(featuresPresent)).1
      ensures featuresPresent == ProcessOutcome(inputTags, packets, timestamp, old(featuresPresent)).2
    {
      r := AddData(timestamp, packets);
      if r == Ok {
        MarkInputsPresent(packets);
      }
    }

    /** The steps of `Process` that add data to the sequence. */
    method AddData(timestamp: int, packets: seq<Packet>) returns (r: Status)
      requires |packets| == |inputTags|
      requires MaskLabelled(PacketFor(inputTags, packets, SegmentationMaskTag))
      modifies this`edits
      ensures r == ProcessEdits(inputTags, packets, timestamp).0
      ensures edits == old(edits) + ProcessEdits(inputTags, packets, timestamp).1
    {
      ghost var images := ImageEdits(inputTags, packets, 0, timestamp);
      ghost var flow := FlowEdits(inputTags, packets, timestamp);
      ghost var floats := FloatEdits(inputTags, packets, 0, timestamp);
      ghost var boxes := BoxEdits(inputTags, packets, 0, timestamp);
      ghost var edits0 := edits;
      r := AddImages(timestamp, packets);
      if r != Ok {
        return;
      }
      r := AddForwardFlow(timestamp, packets);
      if r != Ok {
        return;
      }
      AddFloatFeatures(timestamp, packets);
      AddBoxes(timestamp, packets);
      assert edits == edits0 + (images.1 + flow.1 + floats + boxes);
      r := AddSegmentationMask(timestamp, packets);
    }

    method AddForwardFlow(timestamp: int, packets: seq<Packet>) returns (r: Status)
      requires |packets| == |inputTags|
      modifies this`edits
      ensures r == FlowEdits(inputTags, packets, timestamp).0
      ensures edits == old(edits) + FlowEdits(inputTags, packets, timestamp).1
    {
      var flow := PacketFor(inputTags, packets, ForwardFlowEncodedTag);
      if flow.EncodedResult? {
        if flow.encodedImage.None? {
          return NoEncodedForwardFlow;
        }
        edits := edits +
          [AddForwardFlowTimestamp(timestamp), AddForwardFlowEncoded(flow.encodedImage.value)];
      }
      return Ok;
    }

    method AddSegmentationMask(timestamp: int, packets: seq<Packet>) returns (r: Status)
      requires |packets| == |inputTags|
      requires MaskLabelled(PacketFor(inputTags, packets, SegmentationMaskTag))
      modifies this`edits
      ensures r == MaskPhase(inputTags, packets, timestamp).0
      ensures edits == old(edits) + MaskPhase(inputTags, packets, timestamp).1
    {
      var mask := PacketFor(inputTags, packets, SegmentationMaskTag);
      if !mask.Detections? {
        return Ok;
      }
      r := AddMask(timestamp, mask.detections);
    }

    method AddImages(timestamp: int, packets: seq<Packet>) returns (r: Status)
      requires |packets| == |inputTags|
      modifies this`edits
      ensures r == ImageEdits(inputTags, packets, 0, timestamp).0
      ensures edits == old(edits) + ImageEdits(inputTags, packets, 0, timestamp).1
    {
      ghost var target := ImageEdits(inputTags, packets, 0, timestamp);
      ghost var edits0 := edits;
      var i := 0;
      while i < |inputTags|
        invariant 0 <= i <= |inputTags|
        invariant target.0 == ImageEdits(inputTags, packets, i, timestamp).0
        invariant edits0 + target.1 == edits + ImageEdits(inputTags, packets, i, timestamp).1
      {
        var tag := inputTags[i];
        if StartsWith(tag, ImageTag) && packets[i].EncodedResult? {
          var key := KeyForPrefixedTag(tag, ImageTag);
          if key.Some? {
            var image := packets[i].encodedImage;
            if image.None? {
              return NoEncodedImage;
            }
            edits := edits +
              [AddImageTimestamp(key.value, timestamp), AddImageEncoded(key.value, image.value)];
          }
        }
        i := i + 1;
      }
      return Ok;
    }

    method AddFloatFeatures(timestamp: int, packets: seq<Packet>)
      requires |packets| == |inputTags|
      modifies this`edits
      ensures edits == old(edits) + FloatEdits(inputTags, packets, 0, timestamp)
    {
      ghost var edits0 := edits;
      var i := 0;
      while i < |inputTags|
        invariant 0 <= i <= |inputTags|
        invariant edits0 + FloatEdits(inputTags, packets, 0, timestamp) ==
                  edits + FloatEdits(inputTags, packets, i, timestamp)
      {
        var tag := inputTags[i];
        if StartsWith(tag, FloatFeaturePrefixTag) && packets[i].Floats? {
          var key := FloatFeatureKey(tag);
          edits := edits +
            [AddFeatureTimestamp(key, timestamp), AddFeatureFloats(key, packets[i].values)];
        }
        i := i + 1;
      }
    }

    method AddBoxes(timestamp: int, packets: seq<Packet>)
      requires |packets| == |inputTags|
      modifies this`edits
      ensures edits == old(edits) + BoxEdits(inputTags, packets, 0, timestamp)
    {
      ghost var edits0 := edits;
      var i := 0;
      while i < |inputTags|
        invariant 0 <= i <= |inputTags|
        invariant edits0 + BoxEdits(inputTags, packets, 0, timestamp) ==
                  edits + BoxEdits(inputTags, packets, i, timestamp)
      {
        var tag := inputTags[i];
        if StartsWith(tag, BBoxTag) && packets[i].Detections? {
          var key := KeyForPrefixedTag(tag, BBoxTag);
          if key.Some? {
            AddBoxesForKey(key.value, timestamp, packets[i].detections);
          }
        }
        i := i + 1;
      }
    }

    /** The boxes of one box stream, added under its key. */
    method AddBoxesForKey(key: string, timestamp: int, ds: seq<Detection>)
      modifies this`edits
      ensures edits == old(edits) + BoxEditsForKey(key, CollectedBoxes(ds), timestamp)
    {
      var lists := CollectBoxes(ds);
      if lists.locations != [] {
        var added := [AddBBox(key, lists.locations), AddBBoxTimestamp(key, timestamp)];
        if lists.classStrings != [] {
          added := added + [AddBBoxClassString(key, lists.classStrings)];
        }
        if lists.labelIds != [] {
          added := added + [AddBBoxClassIndex(key, lists.labelIds)];
        }
        edits := edits + added;
      }
    }

    method AddMask(timestamp: int, ds: seq<Detection>) returns (r: Status)
      requires MaskLabelled(Detections(ds))
      modifies this`edits
      ensures r == MaskEdits(ds, 0, false, timestamp).0
      ensures edits == old(edits) + MaskEdits(ds, 0, false, timestamp).1
    {
      ghost var target := MaskEdits(ds, 0, false, timestamp);
      ghost var edits0 := edits;
      var alreadyHasMask := false;
      var i := 0;
      while i < |ds|
        invariant 0 <= i <= |ds|
        invariant alreadyHasMask <==> i > 0
        invariant target.0 == MaskEdits(ds, i, alreadyHasMask, timestamp).0
        invariant edits0 + target.1 == edits + MaskEdits(ds, i, alreadyHasMask, timestamp).1
      {
        var d := ds[i];
        if d.format == Mask {
          if alreadyHasMask {
            return SecondMask;
          }
          edits := edits +
            [AddClassSegmentationEncoded(d.location), AddClassSegmentationTimestamp(timestamp),
             SetClassSegmentationClassLabelString([d.labels[0]])];
          alreadyHasMask := true;
        } else {
          return UnsupportedDetection;
        }
        i := i + 1;
      }
      return Ok;
    }

    method MarkInputsPresent(packets: seq<Packet>)
      requires Valid() && |packets| == |inputTags|
      modifies this`featuresPresent
      ensures Valid()
      ensures featuresPresent == MarkPresent(old(featuresPresent), inputTags, packets, 0)
    {
      var i := 0;
      while i < |inputTags|
        invariant 0 <= i <= |inputTags|
        invariant Sorted(featuresPresent)
        invariant MarkPresent(old(featuresPresent), inputTags, packets, 0) ==
                  MarkPresent(featuresPresent, inputTags, packets, i)
      {
        if packets[i] != Empty {
          featuresPresent := Assign(featuresPresent, inputTags[i], true);
        }
        i := i + 1;
      }
    }

    /**
     * `VerifySequence`: the message lists every feature still false, in
     * key order; the status is NotFound with that message, or OK when none.
     */
    method VerifySequence() returns (r: Status)
      ensures r == VerifyStatus(featuresPresent)
    {
      var errorMessage := MissingFeaturesPrefix;
      var allPresent := true;
      var i := 0;
      while i < |featuresPresent|
        invariant 0 <= i <= |featuresPresent|
        invariant allPresent <==> MissingTags(featuresPresent[..i]) == []
        invariant errorMessage == MissingFeaturesPrefix + JoinTags(MissingTags(featuresPresent[..i]))
      {
        var entry := featuresPresent[i];
        ghost var missing := MissingTags(featuresPresent[..i]);
        MissingTagsAppend(featuresPresent[..i], entry);
        assert featuresPresent[..i + 1] == featuresPresent[..i] + [entry];
        if !entry.present {
          allPresent := false;
          JoinTagsAppend(missing, entry.tag);
          assert MissingTags(featuresPresent[..i + 1]) == missing + [entry.tag];
          errorMessage := errorMessage + entry.tag + ", ";
          assert errorMessage == MissingFeaturesPrefix + (JoinTags(missing) + entry.tag + ", ");
        } else {
          assert MissingTags(featuresPresent[..i + 1]) == missing + [] == missing;
        }
        i := i + 1;
      }
      assert featuresPresent[..i] == featuresPresent;
      if allPresent {
        return Ok;
      }
      return Error(NotFound, errorMessage);
    }

    /**
     * `Close`: reconcile the metadata when asked, refuse to emit when a
     * feature is missing and `output_only_if_all_present` is set, and
     * otherwise emit the example on the side packet and then the stream.
     */
    method Close(reconcileResult: Status) returns (r: Status)
      requires Valid() && hasSequence
      modifies this`edits, this`outputs, this`hasSequence
      ensures Valid()
      ensures r == CloseStatus(options, reconcileResult, featuresPresent)
      ensures edits == old(edits) +
        (if options.reconcileMetadata then [ReconcileMetadata(options.reconcileBBoxAnnotations)] else [])
      ensures r != Ok ==> outputs == old(outputs) && hasSequence
      ensures r == Ok ==>
        && !hasSequence
        && outputs == old(outputs) +
                      (if hasOutputSidePacket then [SidePacketOutput(SequenceExample(source, edits))] else []) +
                      (if hasOutputStream then [PostStreamOutput(SequenceExample(source, edits))] else [])
    {
      if options.reconcileMetadata {
        edits := edits + [ReconcileMetadata(options.reconcileBBoxAnnotations)];
        if reconcileResult != Ok {
          return ReconcileFailed;
        }
      }
      if options.outputOnlyIfAllPresent {
        var status := VerifySequence();
        if status != Ok {
          return status;
        }
      }
      if hasOutputSidePacket {
        outputs := outputs + [SidePacketOutput(SequenceExample(source, edits))];
      }
      if hasOutputStream {
        outputs := outputs + [PostStreamOutput(SequenceExample(source, edits))];
      }
      hasSequence := false;
      return Ok;
    }
  }

  /** Appending an entry to the map's iteration appends its tag to the missing tags when it is false. */
  lemma {:induction false} MissingTagsAppend(m: seq<Entry>, e: Entry)
    ensures MissingTags(m + [e]) == MissingTags(m) + (if e.present then [] else [e.tag])
    decreases |m|
  {
    if m == [] {
      assert [e][1..] == [];
    } else {
      assert (m + [e])[1..] == m[1..] + [e];
      MissingTagsAppend(m[1..], e);
    }
  }

  lemma {:induction false} JoinTagsAppend(tags: seq<string>, t: string)
    ensures JoinTags(tags + [t]) == JoinTags(tags) + t + ", "
    decreases |tags|
  {
    if tags == [] {
      assert [t][1..] == [];
    } else {
      assert (tags + [t])[1..] == tags[1..] + [t];
      JoinTagsAppend(tags[1..], t);
    }
  }
}
