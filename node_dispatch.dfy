/**
 * The dispatch loop of `ProcessNode` for a node with input streams: one
 * call hands the node the input timestamps that became ready together,
 * and the loop runs `Process` on each until one of them stops it.
 */
module NodeDispatch {
  import opened Statuses
  import opened NodeStates

  /**
   * The input timestamp of one ready invocation: a timestamp allowed in a
   * stream (`IsAllowedInStream`), `Timestamp::Done()`, or any other value.
   */
  datatype InputTimestamp = InStream(value: int) | Done | Disallowed

  /** One ready invocation and what the user `Process` returns for it. */
  datatype Invocation = Invocation(timestamp: InputTimestamp, result: Status)

  /** Where the loop ends: with a status to return, or by closing the node. */
  datatype Outcome = Returned(status: Status) | CloseRequested

  /** The status `ProcessNode` starts from, returned when no timestamp is ready. */
  const NoInputPackets: Status := Error(Internal, "Calculator context has no input packets.")

  const InvalidTimestamp: Status := RetCheckFailure("Invalid input timestamp in ProcessNode().")

  /**
   * The loop over ready invocations, `last` being the status of the latest
   * `Process` call. An allowed timestamp is processed and post-processed
   * unless `Process` fails; a failure is returned at once, and so is a stop
   * after post-processing. `Done` closes the node, anything else is an error.
   */
  function Dispatch(invs: seq<Invocation>, last: Status): (Outcome, seq<Call>)
    decreases |invs|
  {
    if invs == [] then (Returned(last), [])
    else
      match invs[0].timestamp
      case InStream(t) =>
        var result := invs[0].result;
        if result.Error? then (Returned(result), [ProcessCalculator(t)])
        else if result == Stop then (Returned(Stop), [ProcessCalculator(t), PostProcess(t)])
        else
          var rest := Dispatch(invs[1..], result);
          (rest.0, [ProcessCalculator(t), PostProcess(t)] + rest.1)
      case Done => (CloseRequested, [])
      case Disallowed => (Returned(InvalidTimestamp), [])
  }

  /**
   * The fatal `CHECK_EQ` of the Done branch: when the loop reaches `Done`,
   * it is the only timestamp left in the context.
   */
  predicate DoneIsLast(invs: seq<Invocation>)
    decreases |invs|
  {
    invs == [] ||
    match invs[0].timestamp
    case InStream(_) => invs[0].result != Ok || DoneIsLast(invs[1..])
    case Done => |invs| == 1
    case Disallowed => true
  }

  /** An invocation after which the loop goes on to the next one. */
  predicate Completes(inv: Invocation)
  {
    inv.timestamp.InStream? && inv.result == Ok
  }

  /** The index of the first invocation that ends the loop, or `|invs|`. */
  function FirstStopping(invs: seq<Invocation>): (k: nat)
    ensures k <= |invs|
    ensures forall i :: 0 <= i < k ==> Completes(invs[i])
    ensures k < |invs| ==> !Completes(invs[k])
    decreases |invs|
  {
    if invs == [] || !Completes(invs[0]) then 0 else 1 + FirstStopping(invs[1..])
  }

  /** The calls made for invocations that complete: process, then post-process. */
  function CompletedCalls(invs: seq<Invocation>): seq<Call>
    decreases |invs|
  {
    if invs == [] then []
    else
      match invs[0].timestamp
      case InStream(t) => [ProcessCalculator(t), PostProcess(t)] + CompletedCalls(invs[1..])
      case _ => CompletedCalls(invs[1..])
  }

  /** The calls made for the invocation that ends the loop. */
  function StoppingCalls(inv: Invocation): seq<Call>
  {
    match inv.timestamp
    case InStream(t) =>
      if inv.result.Error? then [ProcessCalculator(t)] else [ProcessCalculator(t), PostProcess(t)]
    case _ => []
  }

  /** The outcome of the invocation that ends the loop. */
  function StoppingOutcome(inv: Invocation): Outcome
  {
    match inv.timestamp
    case InStream(_) => Returned(inv.result)
    case Done => CloseRequested
    case Disallowed => Returned(InvalidTimestamp)
  }

  /**
   * The loop processes, in order, exactly the invocations before the first
   * one that does not complete; that one decides the outcome (a stop or an
   * error is returned, `Done` closes the node without `Process`, any other
   * timestamp is an error) and no later invocation is touched. When every
   * invocation completes the status of the last `Process` is returned, or
   * the starting status when there was none.
   */
  lemma {:induction false} DispatchStopsAtFirstStopping(invs: seq<Invocation>, last: Status)
    ensures var k := FirstStopping(invs);
      && Dispatch(invs, last).1 ==
         CompletedCalls(invs[..k]) + (if k < |invs| then StoppingCalls(invs[k]) else [])
      && Dispatch(invs, last).0 ==
         (if k < |invs| then StoppingOutcome(invs[k])
          else if k == 0 then Returned(last) else Returned(Ok))
    decreases |invs|
  {
    var k := FirstStopping(invs);
    if invs == [] {
      assert invs[..k] == [];
    } else if !Completes(invs[0]) {
      assert k == 0 && invs[..k] == [];
    } else {
      var t := invs[0].timestamp.value;
      var rest := invs[1..];
      DispatchStopsAtFirstStopping(rest, Ok);
      assert k == 1 + FirstStopping(rest);
      assert invs[..k] == [invs[0]] + rest[..k - 1];
      assert invs[..k][1..] == rest[..k - 1];
      if k - 1 < |rest| {
        assert rest[k - 1] == invs[k];
      }
    }
  }

  /** With no ready timestamp the loop does nothing and reports that there were no input packets. */
  lemma NoInvocationsNoProcess()
    ensures Dispatch([], NoInputPackets) == (Returned(NoInputPackets), [])
  {
  }

  /**
   * A stop from `Process` at position `k`, after `k` invocations that
   * completed, ends the dispatch with the stop: `Process` ran on exactly
   * the first `k + 1` timestamps.
   */
  lemma StopPropagates(invs: seq<Invocation>, k: nat, last: Status)
    requires k < |invs|
    requires forall i :: 0 <= i < k ==> Completes(invs[i])
    requires invs[k].timestamp.InStream? && invs[k].result == Stop
    ensures Dispatch(invs, last).0 == Returned(Stop)
    ensures Dispatch(invs, last).1 ==
            CompletedCalls(invs[..k]) +
            [ProcessCalculator(invs[k].timestamp.value), PostProcess(invs[k].timestamp.value)]
  {
    FirstStoppingIs(invs, k);
    DispatchStopsAtFirstStopping(invs, last);
  }

  /** The first invocation that does not complete is the one named. */
  lemma {:induction false} FirstStoppingIs(invs: seq<Invocation>, k: nat)
    requires k < |invs|
    requires forall i :: 0 <= i < k ==> Completes(invs[i])
    requires !Completes(invs[k])
    ensures FirstStopping(invs) == k
    decreases k
  {
    if k > 0 {
      FirstStoppingIs(invs[1..], k - 1);
    }
  }
}
