/**
 * The stream tags the media-sequence packer understands, the rules that
 * turn a tag into the feature key its data is stored under, and the
 * packer's contract check.
 */
module MediaSequenceTags {
  import opened Statuses

  const SequenceExampleTag: string := "SEQUENCE_EXAMPLE"
  const ImageTag: string := "IMAGE"
  const FloatFeaturePrefixTag: string := "FLOAT_FEATURE_"
  const ForwardFlowEncodedTag: string := "FORWARD_FLOW_ENCODED"
  const BBoxTag: string := "BBOX"
  const SegmentationMaskTag: string := "CLASS_SEGMENTATION"

  /** `absl::StartsWith`. */
  predicate StartsWith(s: string, prefix: string)
  {
    |prefix| <= |s| && s[..|prefix|] == prefix
  }

  /** The tag of the stream that stores its data under `key` for `prefix`: `<prefix>_<key>`. */
  function PrefixedTag(prefix: string, key: string): string
  {
    prefix + "_" + key
  }

  /**
   * The key of a tag that starts with `IMAGE` or `BBOX`: empty for the bare
   * prefix, the text after `<prefix>_` otherwise, and none for a tag that
   * goes on with anything but `_`, which is skipped.
   */
  function KeyForPrefixedTag(tag: string, prefix: string): (r: Option<string>)
    requires StartsWith(tag, prefix)
    ensures r.Some? ==> (tag == prefix && r.value == "") || tag == PrefixedTag(prefix, r.value)
    ensures r.None? <==> |tag| > |prefix| && tag[|prefix|] != '_'
  {
    if tag == prefix then Some("")
    else if tag[|prefix|] == '_' then
      assert tag == prefix + "_" + tag[|prefix| + 1..];
      Some(tag[|prefix| + 1..])
    else None
  }

  /** The key written into a tag by `PrefixedTag` is the key read back. */
  lemma KeyOfPrefixedTag(prefix: string, key: string)
    ensures StartsWith(PrefixedTag(prefix, key), prefix)
    ensures KeyForPrefixedTag(PrefixedTag(prefix, key), prefix) == Some(key)
  {
    var tag := PrefixedTag(prefix, key);
    assert tag[..|prefix|] == prefix;
    assert tag[|prefix|] == '_';
    assert tag[|prefix| + 1..] == key;
  }

  /** The bare tag and the tag with an empty key both store under the empty key. */
  lemma BareTagSharesEmptyKey(prefix: string)
    ensures StartsWith(prefix, prefix) && StartsWith(PrefixedTag(prefix, ""), prefix)
    ensures KeyForPrefixedTag(prefix, prefix) == KeyForPrefixedTag(PrefixedTag(prefix, ""), prefix) == Some("")
  {
    KeyOfPrefixedTag(prefix, "");
  }

  /** The key of a `FLOAT_FEATURE_<key>` tag: everything after the 14-character prefix. */
  function FloatFeatureKey(tag: string): (r: string)
    requires StartsWith(tag, FloatFeaturePrefixTag)
    ensures FloatFeaturePrefixTag + r == tag
    ensures |r| == |tag| - 14
  {
    assert tag == tag[..|FloatFeaturePrefixTag|] + tag[|FloatFeaturePrefixTag|..];
    tag[|FloatFeaturePrefixTag|..]
  }

  lemma FloatFeatureKeyRoundTrip(key: string)
    ensures StartsWith(FloatFeaturePrefixTag + key, FloatFeaturePrefixTag)
    ensures FloatFeatureKey(FloatFeaturePrefixTag + key) == key
  {
    var tag := FloatFeaturePrefixTag + key;
    assert tag[..|FloatFeaturePrefixTag|] == FloatFeaturePrefixTag;
  }

  /** The packet types the contract assigns. */
  datatype PacketType = SequenceExamplePacket | EncoderResults | DetectionList | FloatList

  /**
   * The type the contract gives the input stream `tag`: encoder results for
   * `FORWARD_FLOW_ENCODED` and for the image tags, detections for
   * `CLASS_SEGMENTATION` and for the box tags, floats for the float
   * features; none for a tag the packer does not read.
   */
  function InputType(tag: string): Option<PacketType>
  {
    if tag == ForwardFlowEncodedTag then Some(EncoderResults)
    else if tag == SegmentationMaskTag then Some(DetectionList)
    else if StartsWith(tag, ImageTag) then
      if KeyForPrefixedTag(tag, ImageTag).Some? then Some(EncoderResults) else None
    else if StartsWith(tag, BBoxTag) then
      if KeyForPrefixedTag(tag, BBoxTag).Some? then Some(DetectionList) else None
    else if StartsWith(tag, FloatFeaturePrefixTag) then Some(FloatList)
    else None
  }

  /**
   * No tag is read two ways: the prefixes exclude each other and the two
   * fixed tags match none of them, so each tag's type is decided by one rule.
   */
  lemma TagRulesExclusive(tag: string)
    ensures !(StartsWith(tag, ImageTag) && StartsWith(tag, BBoxTag))
    ensures !(StartsWith(tag, ImageTag) && StartsWith(tag, FloatFeaturePrefixTag))
    ensures !(StartsWith(tag, BBoxTag) && StartsWith(tag, FloatFeaturePrefixTag))
    ensures tag == ForwardFlowEncodedTag || tag == SegmentationMaskTag ==>
      !StartsWith(tag, ImageTag) && !StartsWith(tag, BBoxTag) && !StartsWith(tag, FloatFeaturePrefixTag)
    ensures InputType(tag) == Some(FloatList) <==> StartsWith(tag, FloatFeaturePrefixTag)
    ensures InputType(tag) == Some(EncoderResults) <==>
      tag == ForwardFlowEncodedTag || (StartsWith(tag, ImageTag) && KeyForPrefixedTag(tag, ImageTag).Some?)
    ensures InputType(tag) == Some(DetectionList) <==>
      tag == SegmentationMaskTag || (StartsWith(tag, BBoxTag) && KeyForPrefixedTag(tag, BBoxTag).Some?)
  {
    if StartsWith(tag, ImageTag) {
      assert tag[0] == 'I';
    }
    if StartsWith(tag, BBoxTag) {
      assert tag[0] == 'B';
    }
    if StartsWith(tag, FloatFeaturePrefixTag) {
      assert tag[..|FloatFeaturePrefixTag|][1] == 'L';
    }
    if tag == ForwardFlowEncodedTag {
      assert tag[1] == 'O';
    }
  }

  /** The tags the graph gives the packer's node. */
  datatype ContractRequest = ContractRequest(
    inputSidePackets: set<string>,
    inputs: set<string>,
    outputs: set<string>,
    outputSidePackets: set<string>)

  /** The types `GetContract` sets, by tag, or the failed check. */
  datatype ContractResult =
    | Rejected(status: Status)
    | Accepted(inputSidePacketTypes: map<string, PacketType>,
               inputTypes: map<string, PacketType>,
               outputTypes: map<string, PacketType>,
               outputSidePacketTypes: map<string, PacketType>)

  const MissingSequenceExampleSidePacket: Status :=
    RetCheckFailure("cc->InputSidePackets().HasTag(kSequenceExampleTag)")

  /** A tag set holding `SEQUENCE_EXAMPLE` gets the sequence example type under it. */
  function SequenceExampleSlot(tags: set<string>): map<string, PacketType>
  {
    if SequenceExampleTag in tags then map[SequenceExampleTag := SequenceExamplePacket] else map[]
  }

  /**
   * `GetContract`. The input side packet `SEQUENCE_EXAMPLE` is checked first
   * and its absence returned as an error; an output stream or output side
   * packet `SEQUENCE_EXAMPLE` is then a fatal requirement.
   */
  function GetContract(request: ContractRequest): (r: ContractResult)
    requires SequenceExampleTag in request.inputSidePackets ==>
      SequenceExampleTag in request.outputs || SequenceExampleTag in request.outputSidePackets
    ensures r.Rejected? <==> SequenceExampleTag !in request.inputSidePackets
    ensures r.Rejected? ==> r.status == MissingSequenceExampleSidePacket
    ensures r.Accepted? ==>
      && r.inputSidePacketTypes == map[SequenceExampleTag := SequenceExamplePacket]
      && r.inputTypes.Keys <= request.inputs
      && (forall t :: t in request.inputs ==> (t in r.inputTypes <==> InputType(t).Some?))
      && (forall t :: t in r.inputTypes ==> r.inputTypes[t] == InputType(t).value)
      && (SequenceExampleTag in r.outputTypes || SequenceExampleTag in r.outputSidePacketTypes)
      && (SequenceExampleTag in r.outputTypes <==> SequenceExampleTag in request.outputs)
      && (SequenceExampleTag in r.outputSidePacketTypes <==> SequenceExampleTag in request.outputSidePackets)
      && r.outputTypes.Keys <= {SequenceExampleTag} && r.outputSidePacketTypes.Keys <= {SequenceExampleTag}
      && (forall t :: t in r.outputTypes ==> r.outputTypes[t] == SequenceExamplePacket)
      && (forall t :: t in r.outputSidePacketTypes ==> r.outputSidePacketTypes[t] == SequenceExamplePacket)
  {
    if SequenceExampleTag !in request.inputSidePackets then Rejected(MissingSequenceExampleSidePacket)
    else
      Accepted(
        map[SequenceExampleTag := SequenceExamplePacket],
        map t | t in request.inputs && InputType(t).Some? :: InputType(t).value,
        SequenceExampleSlot(request.outputs),
        SequenceExampleSlot(request.outputSidePackets))
  }
}
