/**
 * A calculator node: its lifecycle within a graph run, the readiness
 * signals it waits for before opening, admission of concurrent invocations
 * and the scheduling loop, and the dispatch of `Process`. Each method is
 * one critical section of the node (or a short sequence of them) run
 * atomically; collaborators are represented by the results they return,
 * and the calls the node makes into them are recorded in `calls`.
 */
module CalculatorNodes {
  import opened Statuses
  import opened NodeStates
  import opened NodeDispatch

  /** Which of the callbacks handed to `PrepareForRun` are non-empty. */
  datatype Callbacks = Callbacks(readyForOpen: bool, sourceNodeOpened: bool, schedule: bool, error: bool)

  /** A service the calculator's contract requests, and whether the request is optional. */
  datatype ServiceRequest = ServiceRequest(key: string, optional: bool)

  /** A request the run cannot satisfy: the service is absent and not optional. */
  predicate Unsatisfied(req: ServiceRequest, provided: set<string>)
  {
    req.key !in provided && !req.optional
  }

  /** The first unsatisfied request, in the contract's key order. */
  function FirstMissingService(requests: seq<ServiceRequest>, provided: set<string>): (r: Option<nat>)
    ensures r.None? <==> forall i :: 0 <= i < |requests| ==> !Unsatisfied(requests[i], provided)
    ensures r.Some? ==> r.value < |requests| && Unsatisfied(requests[r.value], provided)
    ensures r.Some? ==> forall i :: 0 <= i < r.value ==> !Unsatisfied(requests[i], provided)
    decreases |requests|
  {
    if requests == [] then None
    else if Unsatisfied(requests[0], provided) then Some(0)
    else match FirstMissingService(requests[1..], provided)
      case None => None
      case Some(k) => Some(k + 1)
  }

  function MissingServiceError(key: string): Status
  {
    RetCheckFailure("required service '" + key + "' was not provided")
  }

  /**
   * The service loop of `PrepareForRun`: fails on the first request that is
   * neither provided nor optional, naming its key.
   */
  method CheckServiceRequests(requests: seq<ServiceRequest>, provided: set<string>) returns (r: Status)
    ensures r == Ok <==> forall i :: 0 <= i < |requests| ==> !Unsatisfied(requests[i], provided)
    ensures r != Ok ==> exists i :: 0 <= i < |requests| && Unsatisfied(requests[i], provided) &&
                          r == MissingServiceError(requests[i].key) &&
                          forall j :: 0 <= j < i ==> !Unsatisfied(requests[j], provided)
  {
    var i := 0;
    while i < |requests|
      invariant 0 <= i <= |requests|
      invariant forall j :: 0 <= j < i ==> !Unsatisfied(requests[j], provided)
    {
      var req := requests[i];
      if req.key !in provided {
        if !req.optional {
          return MissingServiceError(req.key);
        }
      }
      i := i + 1;
    }
    return Ok;
  }

  /** The status `PrepareForRun` returns, checks in source order. */
  function PrepareStatus(callbacks: Callbacks, sidePackets: Status, requests: seq<ServiceRequest>,
                         provided: set<string>, contextManager: Status, createCalculator: Status): Status
  {
    if !callbacks.readyForOpen then RetCheckFailure("ready_for_open_callback is NULL")
    else if !callbacks.schedule then RetCheckFailure("schedule_callback is NULL")
    else if !callbacks.error then RetCheckFailure("error_callback is NULL")
    else if sidePackets != Ok then sidePackets
    else match FirstMissingService(requests, provided)
      case Some(k) => MissingServiceError(requests[k].key)
      case None => if contextManager != Ok then contextManager else createCalculator
  }

  /** `PrepareForRun` succeeds exactly when every callback is there, every step succeeds and no required service is missing. */
  lemma PrepareSucceedsExactly(callbacks: Callbacks, sidePackets: Status, requests: seq<ServiceRequest>,
                               provided: set<string>, contextManager: Status, createCalculator: Status)
    ensures PrepareStatus(callbacks, sidePackets, requests, provided, contextManager, createCalculator) == Ok <==>
            && callbacks.readyForOpen && callbacks.schedule && callbacks.error
            && sidePackets == Ok && contextManager == Ok && createCalculator == Ok
            && forall i :: 0 <= i < |requests| ==> !Unsatisfied(requests[i], provided)
  {
  }

  const CloseNodeTwice: Status := RetCheckFailure("CloseNode() must only be called once.")
  const TooManyInvocations: Status := RetCheckFailure("num_invocations <= 1 || max_in_flight_ <= 1")

  class CalculatorNode {
    /** The concurrency ceiling `max_in_flight_`. */
    const maxInFlight: int

    var status: LifecycleStatus
    var schedulingState: SchedulingState
    var currentInFlight: int
    var inputStreamHeadersReady: bool
    var inputStreamHeadersReadyCalled: bool
    var inputSidePacketsReady: bool
    var inputSidePacketsReadyCalled: bool
    /** Open succeeded and Close has not run yet. */
    var needsToClose: bool
    /** The calls the node has made into its collaborators, oldest first. */
    var calls: seq<Call>

    /** The mutex-guarded fields as a value. */
    function State(): NodeState
      reads this
    {
      NodeState(status, schedulingState, currentInFlight, maxInFlight,
                inputStreamHeadersReady, inputStreamHeadersReadyCalled,
                inputSidePacketsReady, inputSidePacketsReadyCalled)
    }

    /** The admission invariant, and a node that must still be closed is open. */
    ghost predicate Valid()
      reads this
    {
      AdmissionInvariant(State()) && (needsToClose ==> status == Opened || status == Active)
    }

    /** The state a node has after `Initialize`; only `max_in_flight_` is derived from the configuration. */
    constructor Initialize(configuredMaxInFlight: int)
      requires configuredMaxInFlight >= 0
      ensures Valid()
      ensures maxInFlight == MaxInFlightDefault(configuredMaxInFlight) && maxInFlight >= 1
      ensures status == Uninitialized && schedulingState == Idle && currentInFlight == 0
      ensures !inputStreamHeadersReady && !inputStreamHeadersReadyCalled
      ensures !inputSidePacketsReady && !inputSidePacketsReadyCalled
      ensures !needsToClose && calls == []
    {
      maxInFlight := if configuredMaxInFlight != 0 then configuredMaxInFlight else 1;
      status := Uninitialized;
      schedulingState := Idle;
      currentInFlight := 0;
      inputStreamHeadersReady, inputStreamHeadersReadyCalled := false, false;
      inputSidePacketsReady, inputSidePacketsReadyCalled := false, false;
      needsToClose := false;
      calls := [];
    }

    // ------------------------------------------------------------ queries

    /** `Prepared()`: the status is at or past Prepared. */
    function IsPrepared(): (b: bool)
      reads this
      ensures b <==> status != Uninitialized
    {
      Rank(status) >= Rank(Prepared)
    }

    /** `Opened()`: the status is at or past Opened. */
    function IsOpened(): (b: bool)
      reads this
      ensures b <==> status == Opened || status == Active || status == Closed
    {
      Rank(status) >= Rank(Opened)
    }

    /** `Active()`: the status is at or past Active. */
    function IsActive(): (b: bool)
      reads this
      ensures b <==> status == Active || status == Closed
    {
      Rank(status) >= Rank(Active)
    }

    /** `Closed()`: Closed is the last status. */
    function IsClosed(): (b: bool)
      reads this
      ensures b <==> status == Closed
    {
      Rank(status) >= Rank(Closed)
    }

    /** `ReadyForOpen()`: both readiness signals are recorded. */
    function IsReadyForOpen(): (b: bool)
      reads this
      ensures b <==> ReadyForOpen(State())
    {
      inputStreamHeadersReady && inputSidePacketsReady
    }

    // ---------------------------------------------------------- lifecycle

    /**
     * `PrepareForRun`: on any error nothing guarded changes; on success the
     * per-run fields are reset and each readiness flag says whether nothing
     * is left to wait for.
     */
    method PrepareForRun(callbacks: Callbacks, sidePackets: Status, requests: seq<ServiceRequest>,
                         provided: set<string>, contextManager: Status, createCalculator: Status,
                         unsetHeaderCount: nat, missingSidePacketCount: nat) returns (r: Status)
      requires Valid()
      modifies this
      ensures Valid()
      ensures r == PrepareStatus(callbacks, sidePackets, requests, provided, contextManager, createCalculator)
      ensures r != Ok ==> State() == old(State()) && needsToClose == old(needsToClose)
      ensures r == Ok ==>
        State() == NodeState(Prepared, Idle, 0, maxInFlight,
                             unsetHeaderCount == 0, false, missingSidePacketCount == 0, false) &&
        !needsToClose
      ensures calls == old(calls)
    {
      if !callbacks.readyForOpen { return RetCheckFailure("ready_for_open_callback is NULL"); }
      if !callbacks.schedule { return RetCheckFailure("schedule_callback is NULL"); }
      if !callbacks.error { return RetCheckFailure("error_callback is NULL"); }
      if sidePackets != Ok { return sidePackets; }
      r := CheckServiceRequests(requests, provided);
      if r != Ok { return r; }
      if contextManager != Ok { return contextManager; }
      if createCalculator != Ok { return createCalculator; }
      needsToClose := false;
      status := Prepared;
      schedulingState := Idle;
      currentInFlight := 0;
      inputStreamHeadersReadyCalled := false;
      inputSidePacketsReadyCalled := false;
      inputStreamHeadersReady := unsetHeaderCount == 0;
      inputSidePacketsReady := missingSidePacketCount == 0;
      return Ok;
    }

    /**
     * `OpenNode`: a stop from `Open` is fatal; any other error is returned
     * and changes nothing; success marks the node as needing a close and Opened.
     */
    method OpenNode(openResult: Status) returns (r: Status)
      requires Valid()
      requires openResult != Stop
      modifies this
      ensures Valid()
      ensures r == openResult
      ensures r == Ok ==> State() == old(State()).(status := Opened) && needsToClose
      ensures r != Ok ==> State() == old(State()) && needsToClose == old(needsToClose)
      ensures calls == old(calls) + [OpenCalculator] + (if r == Ok then [OpenOutputStreams] else [])
    {
      calls := calls + [OpenCalculator];
      if openResult != Ok {
        return openResult;
      }
      needsToClose := true;
      calls := calls + [OpenOutputStreams];
      status := Opened;
      return Ok;
    }

    /** `ActivateNode`: Opened becomes Active. */
    method ActivateNode()
      requires Valid()
      requires status == Opened
      modifies this`status
      ensures Valid()
      ensures State() == old(State()).(status := Active)
    {
      status := Active;
    }

    /** `CloseInputStreams`: closes the input streams unless the node is already Closed. */
    method CloseInputStreams()
      modifies this`calls
      ensures calls == old(calls) + (if status == Closed then [] else [Call.CloseInputStreams])
    {
      if status == Closed {
        return;
      }
      calls := calls + [Call.CloseInputStreams];
    }

    /** `CloseOutputStreams`: closes the output streams unless the node is already Closed. */
    method CloseOutputStreams()
      modifies this`calls
      ensures calls == old(calls) + (if status == Closed then [] else [Call.CloseOutputStreams])
    {
      if status == Closed {
        return;
      }
      calls := calls + [Call.CloseOutputStreams];
    }

    /**
     * `CloseNode`: refuses a second close; otherwise closes the inputs,
     * runs `Close`, closes the outputs unless the graph run has ended, and
     * leaves the node Closed and no longer needing a close even when
     * `Close` fails, whose status it returns.
     */
    method CloseNode(graphRunEnded: bool, closeResult: Status) returns (r: Status)
      requires Valid()
      requires closeResult != Stop
      modifies this
      ensures Valid()
      ensures old(status) == Closed ==>
        r == CloseNodeTwice && State() == old(State()) && needsToClose == old(needsToClose) &&
        calls == old(calls)
      ensures old(status) != Closed ==>
        r == closeResult && State() == old(State()).(status := Closed) && !needsToClose &&
        calls == old(calls) + [Call.CloseInputStreams, CloseCalculator] +
                 (if graphRunEnded then [] else [Call.CloseOutputStreams])
    {
      if status == Closed {
        return CloseNodeTwice;
      }
      CloseInputStreams();
      calls := calls + [CloseCalculator];
      needsToClose := false;
      if !graphRunEnded {
        CloseOutputStreams();
      }
      status := Closed;
      return closeResult;
    }

    /**
     * `CleanupAfterRun`: closes a node that still needs it (once, with the
     * graph run ended), closes the streams of a node that is not Closed,
     * and resets the node to Uninitialized, Idle and nothing in flight.
     */
    method CleanupAfterRun(closeResult: Status)
      requires Valid()
      requires needsToClose ==> closeResult != Stop
      modifies this
      ensures Valid()
      ensures State() == old(State()).(status := Uninitialized, scheduling := Idle, currentInFlight := 0)
      ensures !needsToClose
      ensures old(needsToClose) ==> calls == old(calls) + [Call.CloseInputStreams, CloseCalculator]
      ensures !old(needsToClose) && old(status) == Closed ==> calls == old(calls)
      ensures !old(needsToClose) && old(status) != Closed ==>
        calls == old(calls) + [Call.CloseInputStreams, Call.CloseOutputStreams]
    {
      if needsToClose {
        var ignored := CloseNode(true, closeResult);
      }
      CloseInputStreams();
      CloseOutputStreams();
      status := Uninitialized;
      schedulingState := Idle;
      currentInFlight := 0;
    }

    // ---------------------------------------------------------- readiness

    /**
     * `InputStreamHeadersReady`: records the signal and fires the
     * ready-for-open callback exactly when side packets are already ready.
     */
    method InputStreamHeadersReady()
      requires Valid()
      requires CanNotify(State(), HeadersReady)
      modifies this
      ensures Valid() && needsToClose == old(needsToClose)
      ensures State() == Notify(old(State()), HeadersReady).0
      ensures calls == old(calls) + (if Notify(old(State()), HeadersReady).1 then [ReadyForOpenCallback] else [])
    {
      inputStreamHeadersReadyCalled := true;
      inputStreamHeadersReady := true;
      var readyForOpen := inputSidePacketsReady;
      if readyForOpen {
        calls := calls + [ReadyForOpenCallback];
      }
    }

    /**
     * `InputSidePacketsReady`: records the signal and fires the
     * ready-for-open callback exactly when stream headers are already ready.
     */
    method InputSidePacketsReady()
      requires Valid()
      requires CanNotify(State(), SidePacketsReady)
      modifies this
      ensures Valid() && needsToClose == old(needsToClose)
      ensures State() == Notify(old(State()), SidePacketsReady).0
      ensures calls == old(calls) + (if Notify(old(State()), SidePacketsReady).1 then [ReadyForOpenCallback] else [])
    {
      inputSidePacketsReadyCalled := true;
      inputSidePacketsReady := true;
      var readyForOpen := inputStreamHeadersReady;
      if readyForOpen {
        calls := calls + [ReadyForOpenCallback];
      }
    }

    // -------------------------------------------------- admission, scheduling

    /** `TryToBeginScheduling`: admits an invocation exactly when below the ceiling. */
    method TryToBeginScheduling() returns (admitted: bool)
      requires Valid()
      modifies this`currentInFlight
      ensures Valid()
      ensures State() == TryBegin(old(State())).0 && admitted == TryBegin(old(State())).1
      ensures admitted <==> old(currentInFlight) < maxInFlight
    {
      if currentInFlight < maxInFlight {
        currentInFlight := currentInFlight + 1;
        return true;
      }
      return false;
    }

    /**
     * `SchedulingLoop`, entered in state Scheduling: `rounds` describes what
     * each call of `ScheduleInvocations` leads to; the loop ends Idle.
     */
    method SchedulingLoop(rounds: seq<Round>)
      requires Valid()
      requires schedulingState == Scheduling
      requires RoundsFit(rounds, maxInFlight)
      modifies this`schedulingState, this`currentInFlight, this`calls
      ensures Valid()
      ensures schedulingState == Idle
      ensures State() == Drain(old(State()), rounds).0
      ensures calls == old(calls) + Drain(old(State()), rounds).1
    {
      if status == Closed {
        schedulingState := Idle;
        return;
      }
      ghost var target := DrainFrom(State(), rounds);
      ghost var calls0 := calls;
      var i := 0;
      while true
        invariant 0 <= i <= |rounds|
        invariant AdmissionInvariant(State())
        invariant schedulingState == Scheduling
        invariant target.0 == DrainFrom(State(), rounds[i..]).0
        invariant calls0 + target.1 == calls + DrainFrom(State(), rounds[i..]).1
        decreases |rounds| - i
      {
        var round := if i < |rounds| then rounds[i] else Round(currentInFlight, false, None);
        ghost var before := State();
        ghost var rest := rounds[i..];
        DrainFromStep(before, rest, round);
        var again := ScheduleRound(round);
        if !again {
          break;
        }
        i := i + 1;
        assert rest[1..] == rounds[i..];
      }
    }

    /**
     * One round of `SchedulingLoop`: `ScheduleInvocations` with the current
     * headroom, the input bound it reports, and whether another round is due.
     */
    method ScheduleRound(round: Round) returns (again: bool)
      requires AdmissionInvariant(State())
      requires schedulingState == Scheduling
      requires round.inFlightAfter <= maxInFlight
      modifies this`schedulingState, this`currentInFlight, this`calls
      ensures again <==> round.drainRequested && round.inFlightAfter < maxInFlight
      ensures State() == old(State()).(currentInFlight := round.inFlightAfter,
                                       scheduling := if again then Scheduling else Idle)
      ensures calls == old(calls) + [ScheduleInvocations(maxInFlight - old(currentInFlight))] +
                       BoundCalls(round.inputBound)
    {
      var maxAllowance := maxInFlight - currentInFlight;
      // ScheduleInvocations, then the bound it reports, if any
      calls := calls + [ScheduleInvocations(maxAllowance)] + BoundCalls(round.inputBound);
      // invocations begun and ended by other threads during the round
      currentInFlight := round.inFlightAfter;
      if round.drainRequested {
        schedulingState := SchedulingPending;
      }
      if schedulingState == SchedulingPending && currentInFlight < maxInFlight {
        schedulingState := Scheduling;
        again := true;
      } else {
        schedulingState := Idle;
        again := false;
      }
    }

    /**
     * `CheckIfBecameReady`: only an Opened node reacts; Idle with headroom
     * runs the loop, a running loop is asked to go round again.
     */
    method CheckIfBecameReady(rounds: seq<Round>)
      requires Valid()
      requires RoundsFit(rounds, maxInFlight)
      modifies this`schedulingState, this`currentInFlight, this`calls
      ensures Valid()
      ensures State() == CheckIfBecameReadyStep(old(State()), rounds).0
      ensures calls == old(calls) + CheckIfBecameReadyStep(old(State()), rounds).1
    {
      if status != Opened {
        return;
      }
      if schedulingState == Idle && currentInFlight < maxInFlight {
        schedulingState := Scheduling;
      } else {
        if schedulingState == Scheduling {
          schedulingState := SchedulingPending;
        }
        return;
      }
      SchedulingLoop(rounds);
    }

    /**
     * `EndScheduling`: an Opened or Active node counts one invocation less,
     * then defers to a running loop or runs the loop itself.
     */
    method EndScheduling(rounds: seq<Round>)
      requires Valid()
      requires CanEndScheduling(State())
      requires RoundsFit(rounds, maxInFlight)
      modifies this`schedulingState, this`currentInFlight, this`calls
      ensures Valid()
      ensures State() == EndSchedulingStep(old(State()), rounds).0
      ensures calls == old(calls) + EndSchedulingStep(old(State()), rounds).1
    {
      if status != Opened && status != Active {
        return;
      }
      currentInFlight := currentInFlight - 1;
      if schedulingState == Scheduling {
        schedulingState := SchedulingPending;
        return;
      } else if schedulingState == SchedulingPending {
        return;
      }
      schedulingState := Scheduling;
      SchedulingLoop(rounds);
    }

    // ----------------------------------------------------------- dispatch

    /**
     * `ProcessNode` for a source node: nothing happens once Closed; an error
     * from `Process` is returned before post-processing; a stop is
     * post-processed and then closes the node, whose status is returned.
     */
    method ProcessSourceNode(timestamp: int, processResult: Status, closeResult: Status) returns (r: Status)
      requires Valid()
      requires closeResult != Stop
      modifies this
      ensures Valid()
      ensures old(status) == Closed ==>
        r == Ok && State() == old(State()) && needsToClose == old(needsToClose) && calls == old(calls)
      ensures old(status) != Closed && processResult.Error? ==>
        r == processResult && State() == old(State()) && needsToClose == old(needsToClose) &&
        calls == old(calls) + [ProcessCalculator(timestamp)]
      ensures old(status) != Closed && processResult == Ok ==>
        r == Ok && State() == old(State()) && needsToClose == old(needsToClose) &&
        calls == old(calls) + [ProcessCalculator(timestamp), PostProcess(timestamp)]
      ensures old(status) != Closed && processResult == Stop ==>
        r == closeResult && State() == old(State()).(status := Closed) && !needsToClose &&
        calls == old(calls) + [ProcessCalculator(timestamp), PostProcess(timestamp),
                               Call.CloseInputStreams, CloseCalculator, Call.CloseOutputStreams]
    {
      if status == Closed {
        return Ok;
      }
      calls := calls + [ProcessCalculator(timestamp)];
      var nodeStopped := false;
      if processResult != Ok {
        if processResult == Stop {
          nodeStopped := true;
        } else {
          return processResult;
        }
      }
      calls := calls + [PostProcess(timestamp)];
      if nodeStopped {
        r := CloseNode(false, closeResult);
        if r != Ok {
          return r;
        }
      }
      return Ok;
    }

    /**
     * `ProcessNode` for a node with inputs: several ready timestamps are
     * refused when more than one invocation may be in flight; otherwise the
     * invocations are dispatched in order as `Dispatch` describes, and a
     * `Done` timestamp closes the node.
     */
    method ProcessNonSourceNode(invocations: seq<Invocation>, closeResult: Status) returns (r: Status)
      requires Valid()
      requires closeResult != Stop
      requires DoneIsLast(invocations)
      modifies this
      ensures Valid()
      ensures |invocations| > 1 && maxInFlight > 1 ==>
        r == TooManyInvocations && State() == old(State()) && needsToClose == old(needsToClose) &&
        calls == old(calls)
      ensures !(|invocations| > 1 && maxInFlight > 1) && Dispatch(invocations, NoInputPackets).0.Returned? ==>
        r == Dispatch(invocations, NoInputPackets).0.status &&
        State() == old(State()) && needsToClose == old(needsToClose) &&
        calls == old(calls) + Dispatch(invocations, NoInputPackets).1
      ensures !(|invocations| > 1 && maxInFlight > 1) && Dispatch(invocations, NoInputPackets).0.CloseRequested? ==>
        if old(status) == Closed then
          r == CloseNodeTwice && State() == old(State()) && needsToClose == old(needsToClose) &&
          calls == old(calls) + Dispatch(invocations, NoInputPackets).1
        else
          r == closeResult && State() == old(State()).(status := Closed) && !needsToClose &&
          calls == old(calls) + Dispatch(invocations, NoInputPackets).1 +
                   [Call.CloseInputStreams, CloseCalculator, Call.CloseOutputStreams]
    {
      var numInvocations := |invocations|;
      if !(numInvocations <= 1 || maxInFlight <= 1) {
        return TooManyInvocations;
      }
      var closeRequested;
      closeRequested, r := DispatchInvocations(invocations);
      if closeRequested {
        r := CloseNode(false, closeResult);
      }
    }

    /**
     * The dispatch loop of `ProcessNode`: `Process` and post-processing for
     * each ready timestamp in order, until one fails or stops the node, a
     * `Done` timestamp asks for the node to be closed, or a timestamp is not
     * allowed in a stream.
     */
    method DispatchInvocations(invocations: seq<Invocation>) returns (closeRequested: bool, r: Status)
      requires DoneIsLast(invocations)
      modifies this`calls
      ensures closeRequested <==> Dispatch(invocations, NoInputPackets).0.CloseRequested?
      ensures !closeRequested ==> r == Dispatch(invocations, NoInputPackets).0.status
      ensures calls == old(calls) + Dispatch(invocations, NoInputPackets).1
    {
      ghost var target := Dispatch(invocations, NoInputPackets);
      var result := NoInputPackets;
      var i := 0;
      closeRequested := false;
      while i < |invocations|
        invariant 0 <= i <= |invocations|
        invariant DoneIsLast(invocations[i..])
        invariant target.0 == Dispatch(invocations[i..], result).0
        invariant old(calls) + target.1 == calls + Dispatch(invocations[i..], result).1
      {
        var invocation := invocations[i];
        match invocation.timestamp {
          case InStream(t) =>
            calls := calls + [ProcessCalculator(t)];
            result := invocation.result;
            if result.Error? {
              return false, result;
            }
            calls := calls + [PostProcess(t)];
            if result == Stop {
              return false, result;
            }
          case Done =>
            return true, result;
          case Disallowed =>
            return false, InvalidTimestamp;
        }
        assert invocations[i..][1..] == invocations[i + 1..];
        i := i + 1;
      }
      assert invocations[i..] == [];
      return false, result;
    }
  }
}
