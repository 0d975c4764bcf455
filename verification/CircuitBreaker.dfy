/**
 The circuit breaker of circuit-breaker.ts. `execute` is split into its start, which decides
 whether the call goes through, and its completion, so calls may overlap in any way. The class
 updates the three fields in place; `Spec` is the breaker as a function of the completion history.
 */
module CircuitBreaker {
  import Arithmetic

  datatype CircuitState = Closed | Open | HalfOpen

  /** The fields as a value, with the two construction parameters. */
  datatype Breaker = Breaker(
    state: CircuitState,
    consecutiveFailures: nat,
    openedAt: int,
    failureThreshold: int,
    resetTimeoutMs: int
  )

  datatype Event = Start(at: int) | Success(at: int) | Failure(at: int)

  function Fresh(failureThreshold: int, resetTimeoutMs: int): Breaker {
    Breaker(Closed, 0, 0, failureThreshold, resetTimeoutMs)
  }

  function StateAt(b: Breaker, now: int): CircuitState {
    if b.state.Open? && now - b.openedAt >= b.resetTimeoutMs then HalfOpen else b.state
  }

  function Step(b: Breaker, e: Event): Breaker {
    match e
    case Start(now) => if StateAt(b, now).HalfOpen? then b.(state := HalfOpen) else b
    case Success(_) => b.(consecutiveFailures := 0, state := Closed)
    case Failure(now) =>
      var failures := b.consecutiveFailures + 1;
      if b.state.HalfOpen? || failures >= b.failureThreshold then
        b.(consecutiveFailures := failures, state := Open, openedAt := now)
      else
        b.(consecutiveFailures := failures)
  }

  function Run(failureThreshold: int, resetTimeoutMs: int, events: seq<Event>): Breaker {
    if |events| == 0 then Fresh(failureThreshold, resetTimeoutMs)
    else Step(Run(failureThreshold, resetTimeoutMs, events[..|events| - 1]), events[|events| - 1])
  }

  // ---------------------------------------------------------------- the specification

  /** Length of the unbroken run of failed completions at the end of the history. */
  function TrailingFailures(events: seq<Event>): nat {
    if |events| == 0 then 0
    else
      match events[|events| - 1]
      case Start(_) => TrailingFailures(events[..|events| - 1])
      case Success(_) => 0
      case Failure(_) => TrailingFailures(events[..|events| - 1]) + 1
  }

  function LastFailureAt(events: seq<Event>): int {
    if |events| == 0 then 0
    else if events[|events| - 1].Failure? then events[|events| - 1].at
    else LastFailureAt(events[..|events| - 1])
  }

  function Spec(failureThreshold: int, resetTimeoutMs: int, events: seq<Event>, now: int): CircuitState {
    if TrailingFailures(events) < failureThreshold then Closed
    else if now - LastFailureAt(events) >= resetTimeoutMs then HalfOpen
    else Open
  }

  ghost predicate Monotone(events: seq<Event>) {
    forall i, j :: 0 <= i < j < |events| ==> events[i].at <= events[j].at
  }

  ghost predicate Tracks(b: Breaker, events: seq<Event>) {
    && b.consecutiveFailures == TrailingFailures(events)
    && (b.state.Closed? <==> TrailingFailures(events) < b.failureThreshold)
    && (!b.state.Closed? ==> b.openedAt == LastFailureAt(events))
    && (b.state.HalfOpen? ==> |events| > 0 && events[|events| - 1].at - b.openedAt >= b.resetTimeoutMs)
  }

  lemma {:induction false} RunTracks(failureThreshold: int, resetTimeoutMs: int, events: seq<Event>)
    requires failureThreshold >= 1 && Monotone(events)
    ensures Tracks(Run(failureThreshold, resetTimeoutMs, events), events)
    ensures Run(failureThreshold, resetTimeoutMs, events).failureThreshold == failureThreshold
    ensures Run(failureThreshold, resetTimeoutMs, events).resetTimeoutMs == resetTimeoutMs
  {
    if |events| > 0 {
      var prev := events[..|events| - 1];
      RunTracks(failureThreshold, resetTimeoutMs, prev);
      if |prev| > 0 {
        assert events[|prev| - 1].at <= events[|prev|].at;
      }
    }
  }

  /** Overlapping calls included, getState is the specification of the completion history. */
  lemma {:induction false} RefinesHistory(failureThreshold: int, resetTimeoutMs: int, events: seq<Event>, now: int)
    requires failureThreshold >= 1 && Monotone(events)
    requires |events| > 0 ==> events[|events| - 1].at <= now
    ensures StateAt(Run(failureThreshold, resetTimeoutMs, events), now) == Spec(failureThreshold, resetTimeoutMs, events, now)
  {
    RunTracks(failureThreshold, resetTimeoutMs, events);
  }

  /** The specification is met by every monotone history exactly when the threshold is at least one. */
  lemma {:induction false} RefinesHistoryIff(failureThreshold: int, resetTimeoutMs: int)
    ensures (forall events: seq<Event>, now: int ::
               Monotone(events) && (|events| > 0 ==> events[|events| - 1].at <= now) ==>
                 StateAt(Run(failureThreshold, resetTimeoutMs, events), now)
                 == Spec(failureThreshold, resetTimeoutMs, events, now))
            <==> failureThreshold >= 1
  {
    if failureThreshold >= 1 {
      forall events: seq<Event>, now: int | Monotone(events) && (|events| > 0 ==> events[|events| - 1].at <= now)
        ensures StateAt(Run(failureThreshold, resetTimeoutMs, events), now)
                == Spec(failureThreshold, resetTimeoutMs, events, now)
      {
        RefinesHistory(failureThreshold, resetTimeoutMs, events, now);
      }
    } else {
      var none: seq<Event> := [];
      assert Monotone(none);
      assert StateAt(Run(failureThreshold, resetTimeoutMs, none), 0) != Spec(failureThreshold, resetTimeoutMs, none, 0);
    }
  }

  // ---------------------------------------------------------------- trial calls

  /**
   Half-open is not limited to one trial: until a completion arrives, every start is admitted,
   however many trials are already in flight.
   */
  lemma {:induction false} OverlappingTrialsAllAdmitted(b: Breaker, starts: seq<int>, now: int)
    requires StateAt(b, now).HalfOpen?
    requires forall i :: 0 <= i < |starts| ==> starts[i] >= now
    ensures forall i :: 0 <= i < |starts| ==> StateAt(AfterStarts(b, starts[..i]), starts[i]).HalfOpen?
    ensures |starts| > 0 ==> AfterStarts(b, starts) == b.(state := HalfOpen)
  {
    if |starts| > 0 {
      var prev := starts[..|starts| - 1];
      OverlappingTrialsAllAdmitted(b, prev, now);
      forall i | 0 <= i < |starts|
        ensures StateAt(AfterStarts(b, starts[..i]), starts[i]).HalfOpen?
      {
        if i < |prev| {
          assert prev[..i] == starts[..i] && prev[i] == starts[i];
        } else {
          assert starts[..i] == prev;
        }
      }
    }
  }

  function AfterStarts(b: Breaker, starts: seq<int>): Breaker {
    if |starts| == 0 then b else Step(AfterStarts(b, starts[..|starts| - 1]), Start(starts[|starts| - 1]))
  }

  /** Starts that come before any completion. */
  function StartsFirst(events: seq<Event>): nat {
    if |events| == 0 || !events[0].Start? then 0 else 1 + StartsFirst(events[1..])
  }

  /** No second start arrives before a completion, whichever call it completes. */
  ghost predicate NoSecondStart(events: seq<Event>) {
    forall i, j :: 0 <= i < j < |events| && events[i].Start? && events[j].Start? ==>
      exists k :: 0 <= k < j && !events[k].Start?
  }

  /**
   Calls admitted in the half-open episode the breaker is in: those that start while it reads
   half-open, until an event after which it no longer does.
   */
  function Trials(b: Breaker, events: seq<Event>): nat
    decreases |events|
  {
    if |events| == 0 || !StateAt(b, events[0].at).HalfOpen? then 0
    else
      var after := Step(b, events[0]);
      (if events[0].Start? then 1 else 0)
      + if StateAt(after, events[0].at).HalfOpen? then Trials(after, events[1..]) else 0
  }

  /** A completion ends the episode: it closes the circuit, or trips it for a full timeout. */
  lemma CompletionEndsEpisode(b: Breaker, e: Event)
    requires !e.Start? && b.resetTimeoutMs >= 1 && (b.state.HalfOpen? || b.consecutiveFailures + 1 >= b.failureThreshold)
    ensures !StateAt(Step(b, e), e.at).HalfOpen?
  {
  }

  lemma {:induction false} TrialsAreStarts(b: Breaker, events: seq<Event>)
    requires b.resetTimeoutMs >= 1 && Monotone(events)
    requires |events| > 0 ==> StateAt(b, events[0].at).HalfOpen?
    requires b.state.HalfOpen? || b.consecutiveFailures + 1 >= b.failureThreshold
    ensures Trials(b, events) == StartsFirst(events)
    decreases |events|
  {
    if |events| > 0 {
      if events[0].Start? {
        forall i, j | 0 <= i < j < |events[1..]|
          ensures events[1..][i].at <= events[1..][j].at
        {
          assert events[1..][i] == events[i + 1] && events[1..][j] == events[j + 1];
        }
        TrialsAreStarts(Step(b, events[0]), events[1..]);
      } else {
        CompletionEndsEpisode(b, events[0]);
      }
    }
  }

  lemma {:induction false} SecondStart(events: seq<Event>)
    requires |events| > 0 && events[0].Start?
    ensures StartsFirst(events) == 1 <==> NoSecondStart(events)
  {
    if |events| > 1 {
      assert events[1..][0] == events[1];
      if events[1].Start? {
        assert !NoSecondStart(events);
      } else {
        forall i, j | 0 <= i < j < |events| && events[i].Start? && events[j].Start?
          ensures exists k :: 0 <= k < j && !events[k].Start?
        {
          assert 1 < j && !events[1].Start?;
        }
      }
    }
  }

  /**
   "Exactly one trial call": after any history that leaves the breaker reading half-open, the episode
   that begins with a start admits exactly one call if and only if no second start arrives before a
   completion, be it of the trial or of a call admitted before the trip.
   */
  lemma {:induction false} OneTrialIff(failureThreshold: int, resetTimeoutMs: int, history: seq<Event>, more: seq<Event>)
    requires failureThreshold >= 1 && resetTimeoutMs >= 1 && Monotone(history) && Monotone(more)
    requires |more| > 0 && more[0].Start? && (|history| > 0 ==> history[|history| - 1].at <= more[0].at)
    requires StateAt(Run(failureThreshold, resetTimeoutMs, history), more[0].at).HalfOpen?
    ensures Trials(Run(failureThreshold, resetTimeoutMs, history), more) == 1 <==> NoSecondStart(more)
  {
    RunTracks(failureThreshold, resetTimeoutMs, history);
    TrialsAreStarts(Run(failureThreshold, resetTimeoutMs, history), more);
    SecondStart(more);
  }

  // ---------------------------------------------------------------- calls one at a time

  /** One whole execute: when it is called, when its function settles, and how. */
  datatype Call = Call(at: int, doneAt: int, ok: bool)

  predicate Admitted(b: Breaker, c: Call) {
    !StateAt(b, c.at).Open?
  }

  function Execute(b: Breaker, c: Call): Breaker {
    if Admitted(b, c) then Step(Step(b, Start(c.at)), if c.ok then Success(c.doneAt) else Failure(c.doneAt)) else b
  }

  function ExecuteAll(b: Breaker, calls: seq<Call>): Breaker {
    if |calls| == 0 then b else Execute(ExecuteAll(b, calls[..|calls| - 1]), calls[|calls| - 1])
  }

  /** How often the wrapped function was invoked. */
  function Invocations(b: Breaker, calls: seq<Call>): nat {
    if |calls| == 0 then 0
    else
      var prev := calls[..|calls| - 1];
      Invocations(b, prev) + if Admitted(ExecuteAll(b, prev), calls[|calls| - 1]) then 1 else 0
  }

  /** Callers run one at a time on a clock that does not go back. */
  ghost predicate Serial(calls: seq<Call>) {
    && (forall i :: 0 <= i < |calls| ==> calls[i].at <= calls[i].doneAt)
    && (forall i, j :: 0 <= i < j < |calls| ==> calls[i].doneAt <= calls[j].at)
  }

  /**
   One at a time, a half-open breaker lets exactly one trial through: it settles the circuit, to
   closed on success and to a full fresh timeout of rejections on failure.
   */
  lemma SerialTrialSettles(b: Breaker, c: Call, next: int)
    requires StateAt(b, c.at).HalfOpen? && c.at <= c.doneAt <= next
    ensures Admitted(b, c)
    ensures c.ok ==> StateAt(Execute(b, c), next).Closed? && Execute(b, c).consecutiveFailures == 0
    ensures !c.ok ==> (StateAt(Execute(b, c), next).Open? <==> next < c.doneAt + b.resetTimeoutMs)
  {
  }

  ghost predicate FailureLoad(b: Breaker, origin: int, n: nat, end: int) {
    && b.failureThreshold >= 1 && b.resetTimeoutMs >= 1
    && b.consecutiveFailures == n
    && (b.state.Closed? <==> n < b.failureThreshold) && !b.state.HalfOpen?
    && (n >= b.failureThreshold ==>
          && origin + (n - b.failureThreshold) * b.resetTimeoutMs <= b.openedAt <= end)
  }

  lemma NextWindow(origin: int, k: nat, resetTimeoutMs: int, openedAt: int, at: int)
    requires origin + k * resetTimeoutMs <= openedAt && openedAt + resetTimeoutMs <= at
    ensures origin + (k + 1) * resetTimeoutMs <= at
  {
    assert (k + 1) * resetTimeoutMs == k * resetTimeoutMs + resetTimeoutMs;
  }

  lemma LoadStep(b: Breaker, c: Call, origin: int, n: nat, end: int)
    requires FailureLoad(b, origin, n, end) && !c.ok && origin <= c.at <= c.doneAt && end <= c.at
    ensures FailureLoad(Execute(b, c), origin, if Admitted(b, c) then n + 1 else n, c.doneAt)
  {
    if n >= b.failureThreshold && Admitted(b, c) {
      NextWindow(origin, n - b.failureThreshold, b.resetTimeoutMs, b.openedAt, c.at);
    }
  }

  lemma {:induction false} LoadInvariant(failureThreshold: int, resetTimeoutMs: int, calls: seq<Call>, origin: int)
    requires failureThreshold >= 1 && resetTimeoutMs >= 1 && Serial(calls)
    requires forall i :: 0 <= i < |calls| ==> !calls[i].ok && origin <= calls[i].at
    ensures var b := Fresh(failureThreshold, resetTimeoutMs);
            FailureLoad(ExecuteAll(b, calls), origin, Invocations(b, calls),
                        if |calls| == 0 then origin else calls[|calls| - 1].doneAt)
    ensures ExecuteAll(Fresh(failureThreshold, resetTimeoutMs), calls).failureThreshold == failureThreshold
    ensures ExecuteAll(Fresh(failureThreshold, resetTimeoutMs), calls).resetTimeoutMs == resetTimeoutMs
  {
    if |calls| > 0 {
      var b := Fresh(failureThreshold, resetTimeoutMs);
      var prev := calls[..|calls| - 1];
      LoadInvariant(failureThreshold, resetTimeoutMs, prev, origin);
      LoadStep(ExecuteAll(b, prev), calls[|calls| - 1], origin, Invocations(b, prev),
               if |prev| == 0 then origin else prev[|prev| - 1].doneAt);
    }
  }

  lemma DivideBound(k: int, timeout: int, duration: int)
    requires timeout >= 1 && k * timeout <= duration
    ensures k <= duration / timeout
  {
    var q := duration / timeout;
    assert (q + 1) * timeout > duration;
    if k >= q + 1 {
      Arithmetic.MulMono(q + 1, k, timeout);
    }
  }

  lemma LastCallBound(b: Breaker, c: Call, origin: int, n: nat, end: int)
    requires FailureLoad(b, origin, n, end) && origin <= c.at && end <= c.at
    ensures (if Admitted(b, c) then n + 1 else n) <= b.failureThreshold + (c.at - origin) / b.resetTimeoutMs
  {
    var calls := if Admitted(b, c) then n + 1 else n;
    if n >= b.failureThreshold {
      if Admitted(b, c) {
        NextWindow(origin, n - b.failureThreshold, b.resetTimeoutMs, b.openedAt, c.at);
      }
      DivideBound(calls - b.failureThreshold, b.resetTimeoutMs, c.at - origin);
    } else {
      DivideBound(0, b.resetTimeoutMs, c.at - origin);
    }
  }

  /**
   Failure-load bound: from a fresh breaker, calls made one at a time that all fail invoke the
   wrapped function at most threshold + T / resetTimeoutMs times, where T runs from the first
   call to the start of the last invoked one.
   */
  lemma {:induction false} FailureLoadBound(failureThreshold: int, resetTimeoutMs: int, calls: seq<Call>)
    requires failureThreshold >= 1 && resetTimeoutMs >= 1 && Serial(calls) && |calls| > 0
    requires forall i :: 0 <= i < |calls| ==> !calls[i].ok
    ensures Invocations(Fresh(failureThreshold, resetTimeoutMs), calls)
            <= failureThreshold + (calls[|calls| - 1].at - calls[0].at) / resetTimeoutMs
  {
    var b := Fresh(failureThreshold, resetTimeoutMs);
    var prev := calls[..|calls| - 1];
    var last := calls[|calls| - 1];
    LoadInvariant(failureThreshold, resetTimeoutMs, prev, calls[0].at);
    assert |prev| > 0 ==> prev[|prev| - 1].doneAt <= last.at;
    LastCallBound(ExecuteAll(b, prev), last, calls[0].at, Invocations(b, prev),
                  if |prev| == 0 then calls[0].at else prev[|prev| - 1].doneAt);
  }

  // ---------------------------------------------------------------- the class

  class Circuit {
    var state: CircuitState
    var consecutiveFailures: nat
    var openedAt: int
    const failureThreshold: int
    const resetTimeoutMs: int

    function View(): Breaker
      reads this
    {
      Breaker(state, consecutiveFailures, openedAt, failureThreshold, resetTimeoutMs)
    }

    constructor (failureThreshold: int, resetTimeoutMs: int)
      ensures View() == Fresh(failureThreshold, resetTimeoutMs)
    {
      this.failureThreshold, this.resetTimeoutMs := failureThreshold, resetTimeoutMs;
      state, consecutiveFailures, openedAt := Closed, 0, 0;
    }

    method GetState(now: int) returns (s: CircuitState)
      ensures s == StateAt(View(), now)
    {
      if state == Open && now - openedAt >= resetTimeoutMs {
        return HalfOpen;
      }
      return state;
    }

    /** The first half of execute; false is CircuitOpenError. */
    method Begin(now: int) returns (admitted: bool)
      modifies this`state
      ensures admitted <==> !StateAt(old(View()), now).Open?
      ensures View() == Step(old(View()), Start(now))
    {
      var current := GetState(now);
      if current == Open {
        return false;
      }
      if current == HalfOpen {
        state := HalfOpen;
      }
      return true;
    }

    method OnSuccess(now: int)
      modifies this
      ensures View() == Step(old(View()), Success(now))
    {
      consecutiveFailures := 0;
      state := Closed;
    }

    method OnFailure(now: int)
      modifies this
      ensures View() == Step(old(View()), Failure(now))
    {
      consecutiveFailures := consecutiveFailures + 1;
      if state == HalfOpen || consecutiveFailures >= failureThreshold {
        state := Open;
        openedAt := now;
      }
    }

    /** A whole execute with no other call in between; `ok` and `doneAt` are what the function does. */
    method ExecuteCall(call: Call) returns (invoked: bool)
      modifies this
      ensures invoked == Admitted(old(View()), call)
      ensures View() == Execute(old(View()), call)
    {
      invoked := Begin(call.at);
      if invoked {
        if call.ok {
          OnSuccess(call.doneAt);
        } else {
          OnFailure(call.doneAt);
        }
      }
    }
  }
}
