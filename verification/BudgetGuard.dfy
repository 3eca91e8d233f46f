/** The run budget: iterations, whole tool-call batches, and active (unpaused) time. */
module BudgetGuard {
  import opened Transcript

  datatype BudgetConfig = BudgetConfig(enabled: bool, maxIterations: int, maxToolCalls: int, maxTimeMs: real)

  /** Times are seconds on a monotonic clock; paused time is kept in milliseconds. */
  datatype BudgetState = BudgetState(
    startedAt: real, iterationsUsed: nat, toolCallsUsed: nat, pausedAt: Option<real>, totalPausedMs: real)

  datatype Limit = Iterations | ToolCalls | Time

  datatype Admission = Admitted | OverBudget(projected: int) | NegativeCount

  function Fresh(now: real): BudgetState {
    BudgetState(now, 0, 0, None, 0.0)
  }

  function AfterPause(s: BudgetState, now: real): BudgetState {
    if s.pausedAt.None? then s.(pausedAt := Some(now)) else s
  }

  function AfterResume(s: BudgetState, now: real): BudgetState {
    if s.pausedAt.None? then s
    else s.(totalPausedMs := s.totalPausedMs + (now - s.pausedAt.value) * 1000.0, pausedAt := None)
  }

  function ActiveMs(s: BudgetState, now: real): real {
    var pausedMs := s.totalPausedMs
      + (if s.pausedAt.Some? then (now - s.pausedAt.value) * 1000.0 else 0.0);
    (now - s.startedAt) * 1000.0 - pausedMs
  }

  /** The first limit reached, in the order the guard looks. */
  function Exceeded(c: BudgetConfig, s: BudgetState, now: real): Option<Limit> {
    if !c.enabled then None
    else if s.iterationsUsed >= c.maxIterations then Some(Iterations)
    else if s.toolCallsUsed >= c.maxToolCalls then Some(ToolCalls)
    else if ActiveMs(s, now) >= c.maxTimeMs then Some(Time)
    else None
  }

  /** One of the three limits is reached. */
  predicate LimitReached(c: BudgetConfig, s: BudgetState, now: real) {
    c.enabled
    && (s.iterationsUsed >= c.maxIterations || s.toolCallsUsed >= c.maxToolCalls || ActiveMs(s, now) >= c.maxTimeMs)
  }

  /** Some limit is named exactly when one is reached, and the first of them. */
  lemma ExceededMeans(c: BudgetConfig, s: BudgetState, now: real)
    ensures Exceeded(c, s, now).Some? <==> LimitReached(c, s, now)
    ensures Exceeded(c, s, now) == Some(Iterations) <==> c.enabled && s.iterationsUsed >= c.maxIterations
    ensures Exceeded(c, s, now) == Some(ToolCalls)
      <==> c.enabled && s.iterationsUsed < c.maxIterations && s.toolCallsUsed >= c.maxToolCalls
  {
  }

  class SimpleBudgetGuard {
    const config: BudgetConfig
    var state: BudgetState

    constructor (config: BudgetConfig, now: real)
      ensures this.config == config && state == Fresh(now)
    {
      this.config := config;
      state := Fresh(now);
    }

    method ConsumeIteration()
      modifies this
      ensures state == old(state).(iterationsUsed := old(state).iterationsUsed + 1)
    {
      state := state.(iterationsUsed := state.iterationsUsed + 1);
    }

    /** Admit a whole batch or none of it: a refusal leaves the state as it was. */
    method ReserveToolCalls(count: int) returns (r: Admission)
      modifies this
      ensures r.Admitted? <==>
        count == 0 || (count > 0 && (config.enabled ==> old(state).toolCallsUsed + count <= config.maxToolCalls))
      ensures r.NegativeCount? <==> count < 0
      ensures r.Admitted? ==> state == old(state).(toolCallsUsed := old(state).toolCallsUsed + count)
      ensures !r.Admitted? ==> state == old(state)
    {
      if count < 0 {
        return NegativeCount;
      }
      if count == 0 {
        return Admitted;
      }
      var projected := state.toolCallsUsed + count;
      if config.enabled && projected > config.maxToolCalls {
        return OverBudget(projected);
      }
      state := state.(toolCallsUsed := projected);
      return Admitted;
    }

    method Pause(now: real)
      modifies this
      ensures state == AfterPause(old(state), now)
    {
      if state.pausedAt.None? {
        state := state.(pausedAt := Some(now));
      }
    }

    method Resume(now: real)
      modifies this
      ensures state == AfterResume(old(state), now)
    {
      if state.pausedAt.Some? {
        state := state.(totalPausedMs := state.totalPausedMs + (now - state.pausedAt.value) * 1000.0);
        state := state.(pausedAt := None);
      }
    }

    method Check(now: real) returns (limit: Option<Limit>)
      ensures limit == Exceeded(config, state, now)
    {
      if !config.enabled {
        return None;
      }
      if state.iterationsUsed >= config.maxIterations {
        return Some(Iterations);
      }
      if state.toolCallsUsed >= config.maxToolCalls {
        return Some(ToolCalls);
      }
      if ActiveMs(state, now) >= config.maxTimeMs {
        return Some(Time);
      }
      return None;
    }
  }

  // ----- active time over any interleaving of pause and resume -----

  datatype ClockEvent = Pause(at: real) | Resume(at: real)

  function Replay(s: BudgetState, events: seq<ClockEvent>): BudgetState
    decreases |events|
  {
    if events == [] then s
    else
      var next := match events[0]
        case Pause(at) => AfterPause(s, at)
        case Resume(at) => AfterResume(s, at);
      Replay(next, events[1..])
  }

  /** Seconds spent outside paused intervals between `since` and `now`: the reference meaning,
      with no guard state in it. A repeated pause or resume changes nothing. */
  function RunningTime(paused: bool, since: real, events: seq<ClockEvent>, now: real): real
    decreases |events|
  {
    if events == [] then (if paused then 0.0 else now - since)
    else (if paused then 0.0 else events[0].at - since)
         + RunningTime(events[0].Pause?, events[0].at, events[1..], now)
  }

  /** Events in clock order, none before `since` nor after `now`. */
  predicate InOrder(since: real, events: seq<ClockEvent>, now: real)
    decreases |events|
  {
    if events == [] then since <= now
    else since <= events[0].at && InOrder(events[0].at, events[1..], now)
  }

  lemma {:induction false} ReplayMeasures(s: BudgetState, since: real, events: seq<ClockEvent>, now: real)
    ensures ActiveMs(Replay(s, events), now)
         == ActiveMs(s, since) + 1000.0 * RunningTime(s.pausedAt.Some?, since, events, now)
    decreases |events|
  {
    if events != [] {
      var next := match events[0]
        case Pause(at) => AfterPause(s, at)
        case Resume(at) => AfterResume(s, at);
      ReplayMeasures(next, events[0].at, events[1..], now);
    }
  }

  /** The guard's arithmetic is the time outside paused intervals, for any pauses and resumes. */
  lemma ActiveTimeIsUnpausedTime(start: real, events: seq<ClockEvent>, now: real)
    ensures ActiveMs(Replay(Fresh(start), events), now) == 1000.0 * RunningTime(false, start, events, now)
  {
    ReplayMeasures(Fresh(start), start, events, now);
  }

  lemma {:induction false} RunningTimeGrows(paused: bool, since: real, events: seq<ClockEvent>, now: real, later: real)
    requires InOrder(since, events, now) && now <= later
    ensures 0.0 <= RunningTime(paused, since, events, now) <= RunningTime(paused, since, events, later)
    decreases |events|
  {
    if events != [] {
      RunningTimeGrows(events[0].Pause?, events[0].at, events[1..], now, later);
    }
  }

  /** On a monotonic clock active time is never negative, never falls, and stands still while paused. */
  lemma ActiveTimeIsMonotone(start: real, events: seq<ClockEvent>, now: real, later: real)
    requires InOrder(start, events, now) && now <= later
    ensures var s := Replay(Fresh(start), events);
      && 0.0 <= ActiveMs(s, now) <= ActiveMs(s, later)
      && (s.pausedAt.Some? ==> ActiveMs(s, now) == ActiveMs(s, later))
  {
    ActiveTimeIsUnpausedTime(start, events, now);
    ActiveTimeIsUnpausedTime(start, events, later);
    RunningTimeGrows(false, start, events, now, later);
  }
}
