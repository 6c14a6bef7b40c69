/**
 * The mutex-guarded state of a calculator node and the transitions its
 * critical sections make, written as functions on values. The class in
 * module CalculatorNodes performs these transitions in place; the lemmas
 * here state what the transitions guarantee.
 */
module NodeStates {
  import opened Statuses

  /** The lifecycle of a node within one graph run, in the order of the C++ enum. */
  datatype LifecycleStatus = Uninitialized | Prepared | Opened | Active | Closed

  /** Position of a status in the enum, used by the `status_ >= kState...` queries. */
  function Rank(s: LifecycleStatus): nat
  {
    match s
    case Uninitialized => 0
    case Prepared => 1
    case Opened => 2
    case Active => 3
    case Closed => 4
  }

  /** The tri-state flag that serializes runs of the scheduling loop. */
  datatype SchedulingState = Idle | Scheduling | SchedulingPending

  /** The fields of a node that `status_mutex_` guards. */
  datatype NodeState = NodeState(
    status: LifecycleStatus,
    scheduling: SchedulingState,
    currentInFlight: int,
    maxInFlight: int,
    headersReady: bool,
    headersReadyCalled: bool,
    sidePacketsReady: bool,
    sidePacketsReadyCalled: bool)

  /** A call from the node into a collaborator: a callback, the user calculator or a stream handler. */
  datatype Call =
    | ReadyForOpenCallback
    | OpenCalculator
    | OpenOutputStreams
    | ProcessCalculator(timestamp: int)
    | PostProcess(timestamp: int)
    | CloseCalculator
    | CloseInputStreams
    | CloseOutputStreams
    | ScheduleInvocations(maxAllowance: int)
    | UpdateTaskTimestampBound(bound: int)

  /**
   * What happens while the input stream handler schedules one round of
   * invocations: the in-flight count the loop finds when it takes the lock
   * again (invocations begun and ended meanwhile), whether another thread
   * asked for a further drain meanwhile, and the input bound the handler reports.
   */
  datatype Round = Round(inFlightAfter: nat, drainRequested: bool, inputBound: Option<int>)

  /** `0 <= current_in_flight_ <= max_in_flight_`, with a ceiling of at least one. */
  predicate AdmissionInvariant(s: NodeState)
  {
    1 <= s.maxInFlight && 0 <= s.currentInFlight <= s.maxInFlight
  }

  /** `max_in_flight_` as `Initialize` derives it from the configured value. */
  function MaxInFlightDefault(configured: int): (m: int)
    ensures m >= 1 <==> configured >= 0
    ensures configured != 0 ==> m == configured
    ensures configured == 0 ==> m == 1
  {
    if configured != 0 then configured else 1
  }

  // ---------------------------------------------------------------- admission

  /** `TryToBeginScheduling`: admit one invocation if the ceiling allows it. */
  function TryBegin(s: NodeState): (NodeState, bool)
  {
    if s.currentInFlight < s.maxInFlight then
      (s.(currentInFlight := s.currentInFlight + 1), true)
    else
      (s, false)
  }

  /** Admission succeeds exactly below the ceiling, counts one more invocation, and keeps the invariant. */
  lemma TryBeginAdmits(s: NodeState)
    requires AdmissionInvariant(s)
    ensures AdmissionInvariant(TryBegin(s).0)
    ensures TryBegin(s).1 <==> s.currentInFlight < s.maxInFlight
    ensures TryBegin(s).1 ==> TryBegin(s).0.currentInFlight == s.currentInFlight + 1
    ensures !TryBegin(s).1 ==> TryBegin(s).0 == s
    ensures TryBegin(s).0 == s.(currentInFlight := TryBegin(s).0.currentInFlight)
  {
  }

  // --------------------------------------------------------- scheduling loop

  /** Every round reports an in-flight count within the ceiling. */
  predicate RoundsFit(rounds: seq<Round>, maxInFlight: int)
  {
    forall i :: 0 <= i < |rounds| ==> rounds[i].inFlightAfter <= maxInFlight
  }

  function BoundCalls(bound: Option<int>): seq<Call>
  {
    if bound.Some? then [UpdateTaskTimestampBound(bound.value)] else []
  }

  /**
   * The `while (true)` part of `SchedulingLoop`, entered in state Scheduling:
   * schedule with the current headroom, then loop again only when a drain
   * was requested meanwhile and headroom remains, otherwise become Idle.
   * When `rounds` is exhausted the handler's round changes nothing.
   */
  function DrainFrom(s: NodeState, rounds: seq<Round>): (NodeState, seq<Call>)
    requires s.scheduling == Scheduling
    decreases |rounds|
  {
    var schedule := [ScheduleInvocations(s.maxInFlight - s.currentInFlight)];
    if rounds == [] then
      (s.(scheduling := Idle), schedule)
    else
      var round := rounds[0];
      var calls := schedule + BoundCalls(round.inputBound);
      if round.drainRequested && round.inFlightAfter < s.maxInFlight then
        var next := DrainFrom(s.(currentInFlight := round.inFlightAfter), rounds[1..]);
        (next.0, calls + next.1)
      else
        (s.(currentInFlight := round.inFlightAfter, scheduling := Idle), calls)
  }

  /** One round of `DrainFrom`, quiet once the rounds run out. */
  lemma DrainFromStep(s: NodeState, rounds: seq<Round>, round: Round)
    requires s.scheduling == Scheduling
    requires s.currentInFlight >= 0
    requires round == (if rounds == [] then Round(s.currentInFlight, false, None) else rounds[0])
    ensures var calls := [ScheduleInvocations(s.maxInFlight - s.currentInFlight)] + BoundCalls(round.inputBound);
      if round.drainRequested && round.inFlightAfter < s.maxInFlight then
        rounds != [] &&
        DrainFrom(s, rounds) ==
          (DrainFrom(s.(currentInFlight := round.inFlightAfter), rounds[1..]).0,
           calls + DrainFrom(s.(currentInFlight := round.inFlightAfter), rounds[1..]).1)
      else
        DrainFrom(s, rounds) == (s.(currentInFlight := round.inFlightAfter, scheduling := Idle), calls)
  {
    if rounds == [] {
      var schedule := [ScheduleInvocations(s.maxInFlight - s.currentInFlight)];
      assert BoundCalls(round.inputBound) == [];
      assert schedule + [] == schedule;
    }
  }

  /** `SchedulingLoop`: a Closed node only goes back to Idle. */
  function Drain(s: NodeState, rounds: seq<Round>): (NodeState, seq<Call>)
    requires s.scheduling == Scheduling
  {
    if s.status == Closed then (s.(scheduling := Idle), []) else DrainFrom(s, rounds)
  }

  /** The calls a drain may make: scheduling rounds and timestamp-bound updates. */
  predicate DrainCall(c: Call)
  {
    c.ScheduleInvocations? || c.UpdateTaskTimestampBound?
  }

  /**
   * A drain always ends Idle, leaves every field but the in-flight count
   * alone, keeps the admission invariant, starts by scheduling
   * `max_in_flight_ - current_in_flight_` invocations and never asks the
   * handler for more than `max_in_flight_`; entered with headroom, it never
   * asks for fewer than one.
   */
  lemma {:induction false} DrainFromEndsIdle(s: NodeState, rounds: seq<Round>)
    requires s.scheduling == Scheduling
    requires AdmissionInvariant(s)
    requires RoundsFit(rounds, s.maxInFlight)
    ensures DrainFrom(s, rounds).0.scheduling == Idle
    ensures AdmissionInvariant(DrainFrom(s, rounds).0)
    ensures DrainFrom(s, rounds).0 ==
            s.(currentInFlight := DrainFrom(s, rounds).0.currentInFlight, scheduling := Idle)
    ensures |DrainFrom(s, rounds).1| > 0
    ensures DrainFrom(s, rounds).1[0] == ScheduleInvocations(s.maxInFlight - s.currentInFlight)
    ensures forall c :: c in DrainFrom(s, rounds).1 ==> DrainCall(c)
    ensures forall c :: c in DrainFrom(s, rounds).1 && c.ScheduleInvocations? ==>
              0 <= c.maxAllowance <= s.maxInFlight
    ensures s.currentInFlight < s.maxInFlight ==>
              forall c :: c in DrainFrom(s, rounds).1 && c.ScheduleInvocations? ==> 1 <= c.maxAllowance
    decreases |rounds|
  {
    if rounds != [] {
      var round := rounds[0];
      if round.drainRequested && round.inFlightAfter < s.maxInFlight {
        var s' := s.(currentInFlight := round.inFlightAfter);
        assert RoundsFit(rounds[1..], s.maxInFlight) by {
          forall i | 0 <= i < |rounds[1..]| ensures rounds[1..][i].inFlightAfter <= s.maxInFlight {
            assert rounds[1..][i] == rounds[i + 1];
          }
        }
        DrainFromEndsIdle(s', rounds[1..]);
      }
    }
  }

  /** The number of `ScheduleInvocations` calls in a sequence of calls. */
  function ScheduleCount(calls: seq<Call>): nat
  {
    if calls == [] then 0
    else (if calls[0].ScheduleInvocations? then 1 else 0) + ScheduleCount(calls[1..])
  }

  lemma {:induction false} ScheduleCountAppend(a: seq<Call>, b: seq<Call>)
    ensures ScheduleCount(a + b) == ScheduleCount(a) + ScheduleCount(b)
    decreases |a|
  {
    if a == [] {
      assert a + b == b;
    } else {
      assert (a + b)[1..] == a[1..] + b;
      ScheduleCountAppend(a[1..], b);
    }
  }

  /** A drain makes at most one more scheduling round than the environment describes. */
  lemma {:induction false} DrainFromRounds(s: NodeState, rounds: seq<Round>)
    requires s.scheduling == Scheduling
    ensures 1 <= ScheduleCount(DrainFrom(s, rounds).1) <= |rounds| + 1
    decreases |rounds|
  {
    var schedule := [ScheduleInvocations(s.maxInFlight - s.currentInFlight)];
    assert ScheduleCount(schedule) == 1 by {
      assert schedule[1..] == [];
    }
    if rounds != [] {
      var round := rounds[0];
      var calls := schedule + BoundCalls(round.inputBound);
      assert ScheduleCount(BoundCalls(round.inputBound)) == 0 by {
        if round.inputBound.Some? {
          assert BoundCalls(round.inputBound)[1..] == [];
        }
      }
      ScheduleCountAppend(schedule, BoundCalls(round.inputBound));
      if round.drainRequested && round.inFlightAfter < s.maxInFlight {
        var next := DrainFrom(s.(currentInFlight := round.inFlightAfter), rounds[1..]);
        DrainFromRounds(s.(currentInFlight := round.inFlightAfter), rounds[1..]);
        ScheduleCountAppend(calls, next.1);
      }
    }
  }

  // ----------------------------------------------- CheckIfBecameReady, EndScheduling

  /**
   * `CheckIfBecameReady`: only an Opened node reacts; Idle with headroom
   * runs the loop, Scheduling records a pending drain, anything else is left alone.
   */
  function CheckIfBecameReadyStep(s: NodeState, rounds: seq<Round>): (NodeState, seq<Call>)
  {
    if s.status != Opened then (s, [])
    else if s.scheduling == Idle && s.currentInFlight < s.maxInFlight then
      Drain(s.(scheduling := Scheduling), rounds)
    else if s.scheduling == Scheduling then
      (s.(scheduling := SchedulingPending), [])
    else
      (s, [])
  }

  /** The fatal `CHECK_GE(current_in_flight_, 0)` of `EndScheduling` does not fire. */
  predicate CanEndScheduling(s: NodeState)
  {
    (s.status == Opened || s.status == Active) ==> s.currentInFlight >= 1
  }

  /**
   * `EndScheduling`: an Opened or Active node counts one invocation less;
   * a running loop is told to go round again, a pending one is left to
   * the loop already running, and an Idle node runs the loop itself.
   */
  function EndSchedulingStep(s: NodeState, rounds: seq<Round>): (NodeState, seq<Call>)
    requires CanEndScheduling(s)
  {
    if s.status != Opened && s.status != Active then (s, [])
    else
      var s' := s.(currentInFlight := s.currentInFlight - 1);
      match s.scheduling
      case Scheduling => (s'.(scheduling := SchedulingPending), [])
      case SchedulingPending => (s', [])
      case Idle => Drain(s'.(scheduling := Scheduling), rounds)
  }

  /** What `CheckIfBecameReady` does in each state, and that it keeps the admission invariant. */
  lemma CheckIfBecameReadyCases(s: NodeState, rounds: seq<Round>)
    requires AdmissionInvariant(s) && RoundsFit(rounds, s.maxInFlight)
    ensures var (t, calls) := CheckIfBecameReadyStep(s, rounds);
      && AdmissionInvariant(t)
      && t.status == s.status && t.maxInFlight == s.maxInFlight
      && (s.status != Opened ==> t == s && calls == [])
      && (s.status == Opened && s.scheduling == Idle && s.currentInFlight < s.maxInFlight ==>
            t.scheduling == Idle && calls != [] &&
            calls[0] == ScheduleInvocations(s.maxInFlight - s.currentInFlight))
      && (s.status == Opened && s.scheduling == Scheduling ==>
            t == s.(scheduling := SchedulingPending) && calls == [])
      && ((s.status == Opened && s.scheduling != Scheduling &&
           !(s.scheduling == Idle && s.currentInFlight < s.maxInFlight)) ==> t == s && calls == [])
  {
    if s.status == Opened && s.scheduling == Idle && s.currentInFlight < s.maxInFlight {
      DrainFromEndsIdle(s.(scheduling := Scheduling), rounds);
    }
  }

  /** What `EndScheduling` does in each state, and that it keeps the admission invariant. */
  lemma EndSchedulingCases(s: NodeState, rounds: seq<Round>)
    requires AdmissionInvariant(s) && CanEndScheduling(s) && RoundsFit(rounds, s.maxInFlight)
    ensures var (t, calls) := EndSchedulingStep(s, rounds);
      && AdmissionInvariant(t)
      && t.status == s.status && t.maxInFlight == s.maxInFlight
      && (s.status != Opened && s.status != Active ==> t == s && calls == [])
      && ((s.status == Opened || s.status == Active) && s.scheduling == Scheduling ==>
            t == s.(currentInFlight := s.currentInFlight - 1, scheduling := SchedulingPending) &&
            calls == [])
      && ((s.status == Opened || s.status == Active) && s.scheduling == SchedulingPending ==>
            t == s.(currentInFlight := s.currentInFlight - 1) && calls == [])
      && ((s.status == Opened || s.status == Active) && s.scheduling == Idle ==>
            t.scheduling == Idle && calls != [] &&
            calls[0] == ScheduleInvocations(s.maxInFlight - s.currentInFlight + 1))
  {
    if (s.status == Opened || s.status == Active) && s.scheduling == Idle {
      DrainFromEndsIdle(s.(currentInFlight := s.currentInFlight - 1, scheduling := Scheduling), rounds);
    }
  }

  // ----------------------------------------------------------------- readiness

  /** The two signals a node waits for before it can be opened. */
  datatype Notification = HeadersReady | SidePacketsReady

  /** `ReadyForOpen`: both signals have been observed. */
  predicate ReadyForOpen(s: NodeState)
  {
    s.headersReady && s.sidePacketsReady
  }

  /** The fatal checks of a notification: the node is Prepared and this signal has not come before. */
  predicate CanNotify(s: NodeState, n: Notification)
  {
    s.status == Prepared &&
    (if n == HeadersReady then !s.headersReadyCalled else !s.sidePacketsReadyCalled)
  }

  /**
   * `InputStreamHeadersReady` / `InputSidePacketsReady`: record the signal
   * and report whether `ready_for_open_callback_` fires, which it does
   * exactly when the other signal is already recorded.
   */
  function Notify(s: NodeState, n: Notification): (NodeState, bool)
    requires CanNotify(s, n)
  {
    match n
    case HeadersReady =>
      (s.(headersReadyCalled := true, headersReady := true), s.sidePacketsReady)
    case SidePacketsReady =>
      (s.(sidePacketsReadyCalled := true, sidePacketsReady := true), s.headersReady)
  }

  /** Whether a signal's flag is already set. */
  predicate Recorded(s: NodeState, n: Notification)
  {
    if n == HeadersReady then s.headersReady else s.sidePacketsReady
  }

  /**
   * A run of signals the handlers may send: each passes the fatal checks
   * and reports a condition that had not yet been recorded.
   */
  predicate Signals(s: NodeState, ns: seq<Notification>)
    decreases |ns|
  {
    ns == [] ||
    (CanNotify(s, ns[0]) && !Recorded(s, ns[0]) && Signals(Notify(s, ns[0]).0, ns[1..]))
  }

  /** The state after a run of signals and how often the ready-for-open callback fired. */
  function RunSignals(s: NodeState, ns: seq<Notification>): (r: (NodeState, nat))
    requires Signals(s, ns)
    ensures ReadyForOpen(s) ==> ReadyForOpen(r.0)
    ensures r.0.status == s.status
    decreases |ns|
  {
    if ns == [] then (s, 0)
    else
      var (s', fired) := Notify(s, ns[0]);
      var (t, count) := RunSignals(s', ns[1..]);
      (t, count + (if fired then 1 else 0))
  }

  /**
   * The ready-for-open callback fires exactly once when a run of signals
   * makes the node ready for open, and never otherwise.
   */
  lemma {:induction false} ReadyForOpenFiresOnce(s: NodeState, ns: seq<Notification>)
    requires Signals(s, ns)
    ensures RunSignals(s, ns).1 ==
            if ReadyForOpen(RunSignals(s, ns).0) && !ReadyForOpen(s) then 1 else 0
    decreases |ns|
  {
    if ns != [] {
      var (s', fired) := Notify(s, ns[0]);
      ReadyForOpenFiresOnce(s', ns[1..]);
      assert fired <==> ReadyForOpen(s');
    }
  }

  /**
   * After `PrepareForRun` with neither signal recorded, the two signals in
   * either order fire the callback exactly once and leave the same state.
   */
  lemma ReadinessCommutes(s: NodeState)
    requires s.status == Prepared
    requires !s.headersReady && !s.headersReadyCalled
    requires !s.sidePacketsReady && !s.sidePacketsReadyCalled
    ensures Signals(s, [HeadersReady, SidePacketsReady])
    ensures Signals(s, [SidePacketsReady, HeadersReady])
    ensures RunSignals(s, [HeadersReady, SidePacketsReady]).1 == 1
    ensures RunSignals(s, [SidePacketsReady, HeadersReady]) ==
            RunSignals(s, [HeadersReady, SidePacketsReady])
  {
    var hs := [HeadersReady, SidePacketsReady];
    var sh := [SidePacketsReady, HeadersReady];
    assert hs[1..] == [SidePacketsReady] && hs[1..][1..] == [];
    assert sh[1..] == [HeadersReady] && sh[1..][1..] == [];
  }
}
