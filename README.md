# MediaPipe calculator node and media-sequence packer, modelled in Dafny

This project models two parts of MediaPipe and proves properties of them.

**The calculator node** (`mediapipe/framework/calculator_node.cc`). A node is
the framework's wrapper around one user calculator in a graph. It holds a
small set of mutex-guarded fields:

- the lifecycle status: Uninitialized, Prepared, Opened, Active, Closed;
- the scheduling state: Idle, Scheduling, SchedulingPending;
- the number of invocations in flight and its ceiling `max_in_flight_`;
- two readiness flags, each with a "called once" guard;
- `needs_to_close_`.

Each public entry point is one critical section that checks and updates
those fields and may then call a collaborator. The model is the class
`CalculatorNodes.CalculatorNode`, with one method per entry point, each run
atomically. Collaborators (the stream handlers, the context manager and the
user calculator's `Open`/`Process`/`Close`) appear only through the results
they return, which are method parameters. The calls the node makes into them
are appended to the field `calls`.

The scheduling and readiness methods (`TryToBeginScheduling`,
`SchedulingLoop`, `ScheduleRound`, `CheckIfBecameReady`, `EndScheduling` and
the two readiness signals) are each tied to a pure step function on the value
`NodeState` in `NodeStates`. Lemmas there prove what those transitions
guarantee:

- the admission counter stays within `0..max_in_flight_`;
- the scheduling loop always ends Idle;
- the ready-for-open callback fires exactly once, given that each signal
  arrives while its flag is still unset.

The lifecycle methods (`PrepareForRun`, `OpenNode`, `ActivateNode`,
`CloseNode`, `CleanupAfterRun`) and the two halves of `ProcessNode` are
specified by their own postconditions in `calculator_node.dfy`, which give the
whole new state. Among them:

- `CloseNode` refuses a second close and changes nothing then, so the user
  `Close` runs at most once per run;
- `CleanupAfterRun` resets the status to Uninitialized, the scheduling state
  to Idle and the in-flight count to 0, and leaves no close pending. It keeps
  the readiness flags and their guards, as the source does; `PrepareForRun`
  resets those.

The `ProcessNode` dispatch loop over ready timestamps is specified by
`NodeDispatch.Dispatch`.

**The media-sequence packer**
(`mediapipe/calculators/tensorflow/pack_media_sequence_calculator.cc`). This
calculator packs a graph's image, flow, float-feature, box and
segmentation-mask streams into a `tf.SequenceExample`. The model covers:

- the tag-to-key rules (`MediaSequenceTags`);
- the contract check;
- the `features_present_` map, as a sorted association list in `FeatureMaps`;
- `VerifySequence`;
- the `Close` gating;
- the per-stream steps of `Process`, including the box and mask filters.

The sequence example itself is modelled as the list of edits the
media-sequence library is asked to make (`SequenceEdit`), appended by the
methods of the class `PackMediaSequence.PackMediaSequenceCalculator`.

Files: `status.dfy` (statuses), `node_state.dfy`, `node_dispatch.dfy`,
`calculator_node.dfy`, `media_sequence_tags.dfy`, `feature_map.dfy`,
`pack_media_sequence.dfy`.

## Model

| member | source | states |
|---|---|---|
| NodeStates.MaxInFlightDefault | mediapipe/framework/calculator_node.cc:90-91 | the ceiling is at least 1 exactly when the configured value is not negative; a non-zero configured value is kept and 0 becomes exactly 1 |
| NodeStates.TryBeginAdmits | mediapipe/framework/calculator_node.cc:679-686 | admission succeeds exactly below the ceiling, counts one more invocation, changes nothing else, keeps `0 <= in flight <= max` |
| NodeStates.DrainFromEndsIdle | mediapipe/framework/calculator_node.cc:553-586 | the loop always ends Idle, changes only the in-flight count, keeps the admission invariant, first asks for `max - current`, only schedules and updates bounds, never asks for more than the ceiling and, entered with headroom, never for less than one |
| NodeStates.DrainFromRounds | mediapipe/framework/calculator_node.cc:563-585 | the loop schedules at least once and at most once more than the rounds the environment describes |
| NodeStates.CheckIfBecameReadyCases | mediapipe/framework/calculator_node.cc:623-643 | only an Opened node reacts: Idle with headroom runs the loop (ends Idle, first call schedules the headroom), Scheduling becomes SchedulingPending, any other state is left alone; the invariant is kept |
| NodeStates.EndSchedulingCases | mediapipe/framework/calculator_node.cc:656-677 | outside Opened/Active nothing changes; otherwise one invocation less, then Scheduling becomes SchedulingPending, SchedulingPending stays, Idle runs the loop with the freed headroom; the invariant is kept |
| NodeStates.RunSignals | mediapipe/framework/calculator_node.cc:593-621 | a run of readiness signals never clears readiness and never changes the lifecycle status |
| NodeStates.ReadyForOpenFiresOnce | mediapipe/framework/calculator_node.cc:593-621 | the ready-for-open callback fires exactly once when a run of signals makes the node ready, never otherwise |
| NodeStates.ReadinessCommutes | mediapipe/framework/calculator_node.cc:593-621 | after a reset, both signals are accepted in either order, fire the callback once and leave the same state |
| NodeDispatch.DispatchStopsAtFirstStopping | mediapipe/framework/calculator_node.cc:764-813 | the invocations before the first one that does not complete are processed and post-processed in order; that one decides the outcome (error returned before post-processing, stop after it, Done closes without `Process`, any other timestamp is an error); later ones are not touched |
| NodeDispatch.NoInvocationsNoProcess | mediapipe/framework/calculator_node.cc:756-813 | with no ready timestamp nothing is called and the "no input packets" internal error is returned |
| NodeDispatch.StopPropagates | mediapipe/framework/calculator_node.cc:788-797 | a stop at position k ends dispatch with the stop after exactly k + 1 `Process` calls |
| CalculatorNodes.FirstMissingService | mediapipe/framework/calculator_node.cc:352-362 | none exactly when every requested service is provided or optional; otherwise the first request that is neither |
| CalculatorNodes.CheckServiceRequests | mediapipe/framework/calculator_node.cc:352-362 | OK exactly when no required service is missing; otherwise the error names the first missing required key |
| CalculatorNodes.PrepareSucceedsExactly | mediapipe/framework/calculator_node.cc:318-392 | `PrepareForRun` succeeds exactly when all three callbacks are given, side packets, context manager and calculator creation succeed, and no required service is missing |
| CalculatorNodes.CalculatorNode.Initialize | mediapipe/framework/calculator_node.cc:90-91 | the ceiling is the configured value or 1 for 0, and the admission invariant holds from the start |
| CalculatorNodes.CalculatorNode.IsPrepared | mediapipe/framework/calculator_node.cc:293-296 | true exactly for every status but Uninitialized |
| CalculatorNodes.CalculatorNode.IsOpened | mediapipe/framework/calculator_node.cc:298-301 | true exactly for Opened, Active and Closed |
| CalculatorNodes.CalculatorNode.IsActive | mediapipe/framework/calculator_node.cc:303-306 | true exactly for Active and Closed |
| CalculatorNodes.CalculatorNode.IsClosed | mediapipe/framework/calculator_node.cc:308-311 | true exactly for Closed |
| CalculatorNodes.CalculatorNode.IsReadyForOpen | mediapipe/framework/calculator_node.cc:588-591 | true exactly when both readiness flags are set |
| CalculatorNodes.CalculatorNode.PrepareForRun | mediapipe/framework/calculator_node.cc:318-392 | returns the first failing check; on error no guarded field changes; on success Prepared, Idle, nothing in flight, both called-guards false, no close pending, each flag from its zero count |
| CalculatorNodes.CalculatorNode.OpenNode | mediapipe/framework/calculator_node.cc:394-441 | a stop from `Open` is excluded as fatal; an error is returned with status and `needs_to_close_` unchanged; success opens the outputs, sets `needs_to_close_` and Opened |
| CalculatorNodes.CalculatorNode.ActivateNode | mediapipe/framework/calculator_node.cc:443-447 | requires Opened and moves to Active, nothing else changes |
| CalculatorNodes.CalculatorNode.CloseInputStreams | mediapipe/framework/calculator_node.cc:449-461 | closes the input streams unless the node is Closed |
| CalculatorNodes.CalculatorNode.CloseOutputStreams | mediapipe/framework/calculator_node.cc:463-472 | closes the output streams unless the node is Closed |
| CalculatorNodes.CalculatorNode.CloseNode | mediapipe/framework/calculator_node.cc:474-527 | a second close is refused and changes nothing; otherwise inputs closed, `Close` run, outputs closed only if the run has not ended, node Closed and no close pending even when `Close` fails, whose status is returned |
| CalculatorNodes.CalculatorNode.CleanupAfterRun | mediapipe/framework/calculator_node.cc:529-551 | closes via `CloseNode` only when a close is pending, closes the streams of a node not yet Closed, ends Uninitialized, Idle, nothing in flight |
| CalculatorNodes.CalculatorNode.InputStreamHeadersReady | mediapipe/framework/calculator_node.cc:593-606 | requires Prepared and a first call; records the signal; fires the callback exactly when side packets were already ready |
| CalculatorNodes.CalculatorNode.InputSidePacketsReady | mediapipe/framework/calculator_node.cc:608-621 | requires Prepared and a first call; records the signal; fires the callback exactly when headers were already ready |
| CalculatorNodes.CalculatorNode.TryToBeginScheduling | mediapipe/framework/calculator_node.cc:679-686 | admits exactly below the ceiling, as `TryBegin`, keeping the admission invariant |
| CalculatorNodes.CalculatorNode.SchedulingLoop | mediapipe/framework/calculator_node.cc:553-586 | a Closed node only becomes Idle; otherwise the rounds run as `DrainFrom` describes; the loop always exits Idle with the invariant kept |
| CalculatorNodes.CalculatorNode.ScheduleRound | mediapipe/framework/calculator_node.cc:563-584 | one round schedules with headroom `max - current`, reports the input bound, and goes round again exactly when a drain was requested and headroom remains |
| CalculatorNodes.CalculatorNode.CheckIfBecameReady | mediapipe/framework/calculator_node.cc:623-643 | the new state and calls are those of `CheckIfBecameReadyStep`, keeping the invariant |
| CalculatorNodes.CalculatorNode.EndScheduling | mediapipe/framework/calculator_node.cc:656-677 | requires the count to stay non-negative; the new state and calls are those of `EndSchedulingStep`, keeping the invariant |
| CalculatorNodes.CalculatorNode.ProcessSourceNode | mediapipe/framework/calculator_node.cc:714-751 | a Closed node returns OK without `Process`; an error is returned before post-processing; OK post-processes; a stop post-processes and then closes the node, returning the close status |
| CalculatorNodes.CalculatorNode.ProcessNonSourceNode | mediapipe/framework/calculator_node.cc:752-814 | several ready timestamps with a ceiling above 1 are refused; otherwise dispatch as `Dispatch`, and a Done timestamp closes the node through `CloseNode` |
| CalculatorNodes.CalculatorNode.DispatchInvocations | mediapipe/framework/calculator_node.cc:764-813 | the loop's calls, returned status and request to close are exactly those of `Dispatch` |
| MediaSequenceTags.KeyForPrefixedTag | mediapipe/calculators/tensorflow/pack_media_sequence_calculator.cc:113-134 | a tag equal to the prefix has the empty key, `<prefix>_<key>` has the key after the underscore, and the tag is skipped exactly when another character follows the prefix |
| MediaSequenceTags.KeyOfPrefixedTag | mediapipe/calculators/tensorflow/pack_media_sequence_calculator.cc:263-273 | the key written into `<prefix>_<key>` is the key read back |
| MediaSequenceTags.BareTagSharesEmptyKey | mediapipe/calculators/tensorflow/pack_media_sequence_calculator.cc:314-323 | the bare prefix and `<prefix>_` both store under the empty key |
| MediaSequenceTags.FloatFeatureKey | mediapipe/calculators/tensorflow/pack_media_sequence_calculator.cc:301-305 | the key is the tag without the 14-character `FLOAT_FEATURE_` prefix |
| MediaSequenceTags.FloatFeatureKeyRoundTrip | mediapipe/calculators/tensorflow/pack_media_sequence_calculator.cc:196-201 | the key appended to the prefix is the key read back |
| MediaSequenceTags.TagRulesExclusive | mediapipe/calculators/tensorflow/pack_media_sequence_calculator.cc:103-139 | the prefixes exclude each other and the fixed tags match none, so each tag gets its type from one rule |
| MediaSequenceTags.GetContract | mediapipe/calculators/tensorflow/pack_media_sequence_calculator.cc:99-155 | rejected exactly without a `SEQUENCE_EXAMPLE` input side packet; otherwise an input stream is typed exactly when a rule reads it, with that rule's type, and the sequence example type is set on the output stream exactly when it is wired and on the output side packet exactly when that is wired, at least one of them |
| FeatureMaps.Assign | mediapipe/calculators/tensorflow/pack_media_sequence_calculator.cc:168-170 | assignment keeps the map sorted by key |
| FeatureMaps.AssignKeys | mediapipe/calculators/tensorflow/pack_media_sequence_calculator.cc:168-170 | after assignment the keys are the old keys plus the assigned one |
| FeatureMaps.AssignLookup | mediapipe/calculators/tensorflow/pack_media_sequence_calculator.cc:390-394 | the assigned key holds the new value, every other key keeps its value |
| FeatureMaps.MissingTagsAreFalseKeys | mediapipe/calculators/tensorflow/pack_media_sequence_calculator.cc:217-222 | the missing tags are exactly the keys holding false, in strictly ascending key order |
| FeatureMaps.VerifyStatusOkExactly | mediapipe/calculators/tensorflow/pack_media_sequence_calculator.cc:214-228 | OK exactly when every key holds true; otherwise NotFound with "Missing features - " and each missing tag followed by ", " |
| PackMediaSequence.DeliveredPacketsHaveTheirType | mediapipe/calculators/tensorflow/pack_media_sequence_calculator.cc:103-139 | under the contract a delivered packet has the kind its tag's rule reads, so testing the kind is testing for a packet |
| PackMediaSequence.ImageEditsOkExactly | mediapipe/calculators/tensorflow/pack_media_sequence_calculator.cc:262-284 | the image loop fails exactly when a stored image stream has no encoded image, with the invalid-argument error; its edits come in pairs, and on success there are exactly two per stored stream |
| PackMediaSequence.ImageEditsPerStream | mediapipe/calculators/tensorflow/pack_media_sequence_calculator.cc:262-284 | on success each stored image stream adds its timestamp and its encoded image under its key, and every edit of the loop is one of those for some stored stream |
| PackMediaSequence.FlowEdits | mediapipe/calculators/tensorflow/pack_media_sequence_calculator.cc:285-299 | fails exactly on a forward-flow packet without encoded data, then adding nothing; for one with data adds exactly its timestamp and its encoded flow |
| PackMediaSequence.FloatEditsFromStreams | mediapipe/calculators/tensorflow/pack_media_sequence_calculator.cc:300-312 | every float edit is under the key of a delivered float stream and stores that stream's values, and every delivered float stream adds its timestamp and its values under its key |
| PackMediaSequence.CollectedBoxesCounts | mediapipe/calculators/tensorflow/pack_media_sequence_calculator.cc:327-346 | one location per box detection, one label per box with a label and one label id per box with a label id, counted as sets of positions |
| PackMediaSequence.LabelsAtMostLocations | mediapipe/calculators/tensorflow/pack_media_sequence_calculator.cc:327-346 | never more labels or label ids than locations, and exactly as many when every box has one |
| PackMediaSequence.CollectBoxes | mediapipe/calculators/tensorflow/pack_media_sequence_calculator.cc:324-346 | the vectors the detection loop builds are `CollectedBoxes` |
| PackMediaSequence.BoxEditsForKey | mediapipe/calculators/tensorflow/pack_media_sequence_calculator.cc:347-358 | nothing is added when no location qualified; otherwise boxes and timestamp first, then labels and label ids exactly when there are any |
| PackMediaSequence.BoxStreamEdits | mediapipe/calculators/tensorflow/pack_media_sequence_calculator.cc:324-358 | for one box stream: no edit exactly when no detection is a box; the labels are added exactly when some box has a label, the label ids exactly when some box has a label id |
| PackMediaSequence.MaskOutcome | mediapipe/calculators/tensorflow/pack_media_sequence_calculator.cc:361-388 | succeeds exactly on no detection or a single mask; two masks fail the check; a non-mask is unimplemented; a mask is added only for a first mask, once |
| PackMediaSequence.MarkAbsentLookup | mediapipe/calculators/tensorflow/pack_media_sequence_calculator.cc:168-170 | after `Open` every input tag holds false and every other key is unchanged |
| PackMediaSequence.MarkPresentLookup | mediapipe/calculators/tensorflow/pack_media_sequence_calculator.cc:390-394 | the end of `Process` sets to true exactly the tags with a packet and leaves the rest |
| PackMediaSequence.ProcessMarksOnlyOnSuccess | mediapipe/calculators/tensorflow/pack_media_sequence_calculator.cc:261-396 | a failing `Process` leaves the map as it was; a succeeding one marks exactly the delivered tags present |
| PackMediaSequence.ImageFailureStopsProcess | mediapipe/calculators/tensorflow/pack_media_sequence_calculator.cc:274-279 | a delivered image without encoded data ends `Process` with the error before any flow, float, box or mask edit |
| PackMediaSequence.ReplaceClearsEveryKey | mediapipe/calculators/tensorflow/pack_media_sequence_calculator.cc:172-204 | when replacing, the data of every keyed image stream and every float feature is cleared |
| PackMediaSequence.CloseGatedOnPresence | mediapipe/calculators/tensorflow/pack_media_sequence_calculator.cc:238-244 | with `output_only_if_all_present`, a successful `Close` saw every feature; a missing feature makes it fail with NotFound, unless reconciliation failed first |
| PackMediaSequence.PackMediaSequenceCalculator.constructor | mediapipe/calculators/tensorflow/pack_media_sequence_calculator.cc:142-145 | a node exists only with an output stream or output side packet for the example |
| PackMediaSequence.PackMediaSequenceCalculator.Open | mediapipe/calculators/tensorflow/pack_media_sequence_calculator.cc:157-212 | copies the side packet's example, marks every input absent (`MarkAbsent`), clears stored data when replacing, and bounds the output stream when there is one |
| PackMediaSequence.PackMediaSequenceCalculator.ClearImages | mediapipe/calculators/tensorflow/pack_media_sequence_calculator.cc:175-189 | the clearing loop over image tags makes `ClearImageEdits` |
| PackMediaSequence.PackMediaSequenceCalculator.ClearFloats | mediapipe/calculators/tensorflow/pack_media_sequence_calculator.cc:195-203 | the clearing loop over float tags makes `ClearFloatEdits` |
| PackMediaSequence.PackMediaSequenceCalculator.Process | mediapipe/calculators/tensorflow/pack_media_sequence_calculator.cc:261-396 | status, edits and feature map are those of `ProcessOutcome`, and the map stays sorted |
| PackMediaSequence.PackMediaSequenceCalculator.AddData | mediapipe/calculators/tensorflow/pack_media_sequence_calculator.cc:262-389 | the steps run in order and the first failure ends them, as `ProcessEdits` |
| PackMediaSequence.PackMediaSequenceCalculator.AddImages | mediapipe/calculators/tensorflow/pack_media_sequence_calculator.cc:262-284 | the image loop returns and adds what `ImageEdits` says |
| PackMediaSequence.PackMediaSequenceCalculator.AddForwardFlow | mediapipe/calculators/tensorflow/pack_media_sequence_calculator.cc:285-299 | the forward-flow step returns and adds what `FlowEdits` says |
| PackMediaSequence.PackMediaSequenceCalculator.AddFloatFeatures | mediapipe/calculators/tensorflow/pack_media_sequence_calculator.cc:300-312 | the float loop adds `FloatEdits` |
| PackMediaSequence.PackMediaSequenceCalculator.AddBoxes | mediapipe/calculators/tensorflow/pack_media_sequence_calculator.cc:313-360 | the box loop adds `BoxEdits` |
| PackMediaSequence.PackMediaSequenceCalculator.AddBoxesForKey | mediapipe/calculators/tensorflow/pack_media_sequence_calculator.cc:324-358 | one box stream adds `BoxEditsForKey` of its collected boxes |
| PackMediaSequence.PackMediaSequenceCalculator.AddSegmentationMask | mediapipe/calculators/tensorflow/pack_media_sequence_calculator.cc:361-389 | a delivered mask stream runs the mask loop, anything else adds nothing |
| PackMediaSequence.PackMediaSequenceCalculator.AddMask | mediapipe/calculators/tensorflow/pack_media_sequence_calculator.cc:363-388 | the `already_has_mask` loop returns and adds what `MaskEdits` says |
| PackMediaSequence.PackMediaSequenceCalculator.MarkInputsPresent | mediapipe/calculators/tensorflow/pack_media_sequence_calculator.cc:390-394 | the presence loop makes `MarkPresent` and keeps the map sorted |
| PackMediaSequence.PackMediaSequenceCalculator.VerifySequence | mediapipe/calculators/tensorflow/pack_media_sequence_calculator.cc:214-228 | the message-building loop returns `VerifyStatus` of the map |
| PackMediaSequence.PackMediaSequenceCalculator.Close | mediapipe/calculators/tensorflow/pack_media_sequence_calculator.cc:230-259 | returns `CloseStatus`; on failure nothing is emitted and the example is kept; on success the example goes to the side packet, then the stream, and is released |

## Left out

- Threads and `absl::Mutex`: each critical section is one atomic method. What other threads do while `ScheduleInvocations` runs is the `Round` sequence given to `SchedulingLoop`: the in-flight count and drain request it finds afterwards, and the input bound reported. That no two threads run the loop body at once is a concurrency property outside this sequential model.
- Status text: the statuses carry the streamed message only. The `DebugName` prefixes, `SetPrepend` decorations, source locations, the sequence's `DebugString` in the mask check and the exact `RET_CHECK` text are not modelled.
- `Initialize` (mediapipe/framework/calculator_node.cc:75-285) apart from the `max_in_flight_` default: handler lookup, mirrors, executor and source layer. `NodeOpened`, `SetExecutor`, `SetMaxInputStreamQueueSize`, `SetQueueSizeCallbacks`, `SourceProcessOrder` and the debug-name helpers are not part of this model.
- CalculatorNodes.CalculatorNode.Initialize: requires a configured `max_in_flight` of at least 0. The source keeps a negative value, and such a node could never admit an invocation; `MaxInFlightDefault` states what such a value becomes.
- Collaborators: the stream handlers, context manager, `CreateCalculator` and user calculator are represented by their results only. Context-timestamp pushes and pops, `PrepareOutputs`, `FinalizeInputSet`, `ClearCurrentInputs`, header updates and profiling are not recorded among the node's calls.
- `IsSource()` in `ProcessNode` (mediapipe/framework/calculator_node.cc:714): the two branches are the methods `ProcessSourceNode` and `ProcessNonSourceNode`, and the caller picks the one for the node's kind. The node's source flag, which `Initialize` derives from its input streams, is not a field of the model. The other `IsSource()` tests concern context timestamps and `NodeOpened`, which are left out below.
- NodeStates.ReadyForOpenFiresOnce: assumes (`Signals`) that a signal never arrives while its readiness flag is already set. The node's own checks only refuse a second call of the same handler and a node that is not prepared. A flag already set by `PrepareForRun`, because there was nothing to wait for, is never signalled again because of how the input stream handler and the side-packet handler behave; those handlers are not part of this model.
- CalculatorNodes.CalculatorNode.ProcessNonSourceNode: the fatal check that `Done` is the only timestamp left is the precondition `DoneIsLast`. The model takes each processed timestamp to use up one ready timestamp, since the handler that pops them is not part of this model.
- Packer input types: reading a packet as another type than the contract's is fatal in the source. `Process` requires `InputsFit`. The per-step functions test the packet's kind where the source tests for a non-empty packet, and `DeliveredPacketsHaveTheirType` shows the two tests agree under the contract.
- PackMediaSequence.PackMediaSequenceCalculator.Process: requires that a first mask detection has a label (`MaskLabelled`). The source reads `label(0)` without checking. Only the first detection can reach that read, because every later one either fails the one-mask check or is unsupported.
- Float conversion (`ConvertFloatToByte`) and the bounding-box coordinate conversion, including the image width and height it reads: locations are passed on unconverted.
- OpenCV `imencode`: the mask's location data stands for its encoding, and the encoding check is taken to succeed.
- The protobuf contents of the example: it is modelled as the side packet it was copied from plus the list of library edits made since. Copying the context-feature options in `Open` and the counter incremented in `Close` are not modelled.
- `ReconcileMetadata` is a parameter of `Close` standing for the library call's result.
- The iteration order of the input tags is the order of `inputTags`, taken as given.
- `mediapipe/calculators/image/scale_image_utils_test.cc` is test vectors for functions whose implementation is not part of this model.
