/** The circuit breaker of internal/risk/circuit_breaker.go: a three-state
    protective wrapper (closed, open, half-open) around a fallible call.

    The wrapped function is not a value Dafny can call from a method here, so a
    call is described by what the function WOULD return (`fnErr`, None for
    success); `Call` reports whether it invoked the function, and a caller
    performs the function's own effects exactly when `invoked` is true. The
    clock is an integer (`now`, in nanoseconds like Go's time.Duration). The
    mutex is not modelled: `Call` is one atomic method. */
module CircuitBreakers {
  import opened Outcomes

  datatype BreakerState = Closed | Open | HalfOpen

  /** The breaker's fields as one value. */
  datatype Breaker = Breaker(state: BreakerState, failureCount: int, lastFailure: int, timeout: int, failureThreshold: int)

  /** CircuitBreakerOpenError, or the wrapped function's own error. */
  datatype CallError = CircuitOpen | Failed(cause: string)

  /** What one Call does: the new fields, the error it returns, whether fn ran. */
  datatype CallOutcome = CallOutcome(next: Breaker, err: Option<CallError>, invoked: bool)

  /** One attempt: the clock at the call and the wrapped function's result. */
  datatype Attempt = Attempt(now: int, fnErr: Option<string>)

  /** NewCircuitBreaker: closed, no failures, the given timeout and threshold. */
  function NewBreaker(timeout: int, failureThreshold: int): (b: Breaker)
    ensures b.state == Closed && b.failureCount == 0
    ensures b.timeout == timeout && b.failureThreshold == failureThreshold
  {
    Breaker(Closed, 0, 0, timeout, failureThreshold)
  }

  /** The Call protocol on the breaker's fields. */
  function Step(b: Breaker, now: int, fnErr: Option<string>): (o: CallOutcome)
    // open and the timeout has not strictly elapsed: fail fast, fn never runs, nothing changes
    ensures b.state == Open && now - b.lastFailure <= b.timeout ==>
              o.err == Some(CircuitOpen) && !o.invoked && o.next == b
    // in every other case fn runs exactly once and its error (if any) is what Call returns
    ensures !(b.state == Open && now - b.lastFailure <= b.timeout) ==>
              o.invoked && (o.err.Some? <==> fnErr.Some?) && (fnErr.Some? ==> o.err == Some(Failed(fnErr.value)))
    // a trial call (half-open, or open with the timeout elapsed): success closes and clears the count,
    // failure re-opens, restarts the clock and keeps the count
    ensures (b.state == HalfOpen || (b.state == Open && now - b.lastFailure > b.timeout)) ==>
              if fnErr.None? then o.next == b.(state := Closed, failureCount := 0)
              else o.next == b.(state := Open, lastFailure := now)
    // closed: failure counts, restarts the clock and opens exactly at the threshold; success clears the count
    ensures b.state == Closed && fnErr.Some? ==>
              o.next.failureCount == b.failureCount + 1 && o.next.lastFailure == now
              && (o.next.state == Open <==> b.failureCount + 1 >= b.failureThreshold)
              && (o.next.state != Open ==> o.next.state == Closed)
    ensures b.state == Closed && fnErr.None? ==> o.next == b.(failureCount := 0)
    // the timeout and threshold are never changed, and half-open is never left behind
    ensures o.next.timeout == b.timeout && o.next.failureThreshold == b.failureThreshold
    ensures b.state != HalfOpen ==> o.next.state != HalfOpen
  {
    if b.state == Open && now - b.lastFailure <= b.timeout then
      CallOutcome(b, Some(CircuitOpen), false)
    else
      var current := if b.state == Open then HalfOpen else b.state;
      if current == HalfOpen then
        if fnErr.Some? then CallOutcome(b.(state := Open, lastFailure := now), Some(Failed(fnErr.value)), true)
        else CallOutcome(b.(state := Closed, failureCount := 0), None, true)
      else if fnErr.Some? then
        var count := b.failureCount + 1;
        var state := if count >= b.failureThreshold then Open else current;
        CallOutcome(b.(state := state, failureCount := count, lastFailure := now), Some(Failed(fnErr.value)), true)
      else
        CallOutcome(b.(failureCount := 0), None, true)
  }

  /** The breaker after a sequence of calls, in order. */
  function Run(b: Breaker, attempts: seq<Attempt>): Breaker
  {
    if attempts == [] then b
    else var last := attempts[|attempts| - 1];
         Step(Run(b, attempts[..|attempts| - 1]), last.now, last.fnErr).next
  }

  /** The resting invariant of a breaker whose threshold is at least 1: closed
      means fewer failures than the threshold, open means exactly the
      threshold, and half-open is never a resting state. */
  ghost predicate Inv(b: Breaker) {
    && b.failureThreshold >= 1
    && b.state != HalfOpen
    && (b.state == Closed ==> 0 <= b.failureCount < b.failureThreshold)
    && (b.state == Open ==> b.failureCount == b.failureThreshold)
  }

  lemma NewBreakerInv(timeout: int, failureThreshold: int)
    requires failureThreshold >= 1
    ensures Inv(NewBreaker(timeout, failureThreshold))
  {
  }

  lemma StepInv(b: Breaker, now: int, fnErr: Option<string>)
    requires Inv(b)
    ensures Inv(Step(b, now, fnErr).next)
    ensures 0 <= Step(b, now, fnErr).next.failureCount <= b.failureThreshold
  {
  }

  /** The invariant holds after any sequence of calls. */
  lemma {:induction false} RunInv(b: Breaker, attempts: seq<Attempt>)
    requires Inv(b)
    ensures Inv(Run(b, attempts))
    ensures Run(b, attempts).failureThreshold == b.failureThreshold
  {
    if attempts != [] {
      var last := attempts[|attempts| - 1];
      RunInv(b, attempts[..|attempts| - 1]);
      StepInv(Run(b, attempts[..|attempts| - 1]), last.now, last.fnErr);
    }
  }

  ghost predicate AllFail(attempts: seq<Attempt>) {
    forall i :: 0 <= i < |attempts| ==> attempts[i].fnErr.Some?
  }

  /** Fewer consecutive failures than the threshold leave a fresh breaker
      closed, each one counted. */
  lemma {:induction false} FailuresAccumulate(timeout: int, threshold: int, attempts: seq<Attempt>)
    requires |attempts| < threshold
    requires AllFail(attempts)
    ensures Run(NewBreaker(timeout, threshold), attempts).state == Closed
    ensures Run(NewBreaker(timeout, threshold), attempts).failureCount == |attempts|
    ensures Run(NewBreaker(timeout, threshold), attempts).failureThreshold == threshold
  {
    if attempts != [] {
      FailuresAccumulate(timeout, threshold, attempts[..|attempts| - 1]);
    }
  }

  /** `threshold` consecutive failures open a fresh breaker. */
  lemma ThresholdFailuresOpen(timeout: int, threshold: int, attempts: seq<Attempt>)
    requires threshold >= 1
    requires |attempts| == threshold
    requires AllFail(attempts)
    ensures Run(NewBreaker(timeout, threshold), attempts).state == Open
    ensures Run(NewBreaker(timeout, threshold), attempts).failureCount == threshold
  {
    FailuresAccumulate(timeout, threshold, attempts[..|attempts| - 1]);
  }

  /** An open breaker stays exactly as it is, and invokes nothing, for every
      call made no later than `timeout` after its last failure. */
  lemma {:induction false} OpenHoldsWithinTimeout(b: Breaker, attempts: seq<Attempt>)
    requires b.state == Open
    requires forall i :: 0 <= i < |attempts| ==> attempts[i].now - b.lastFailure <= b.timeout
    ensures Run(b, attempts) == b
  {
    if attempts != [] {
      OpenHoldsWithinTimeout(b, attempts[..|attempts| - 1]);
    }
  }

  /** The breaker of the Go code: its fields are updated in place by Call. */
  class CircuitBreaker {
    var state: BreakerState
    var failureCount: int
    var lastFailure: int
    var timeout: int
    var failureThreshold: int

    function Fields(): Breaker
      reads this
    {
      Breaker(state, failureCount, lastFailure, timeout, failureThreshold)
    }

    constructor (timeout: int, failureThreshold: int)
      ensures Fields() == NewBreaker(timeout, failureThreshold)
    {
      this.state := Closed;
      this.failureCount := 0;
      this.lastFailure := 0;
      this.timeout := timeout;
      this.failureThreshold := failureThreshold;
    }

    /** Call(fn) at clock `now`, where fn would return `fnErr`. */
    method Call(now: int, fnErr: Option<string>) returns (err: Option<CallError>, invoked: bool)
      modifies this
      ensures Fields() == Step(old(Fields()), now, fnErr).next
      ensures err == Step(old(Fields()), now, fnErr).err
      ensures invoked == Step(old(Fields()), now, fnErr).invoked
    {
      if state == Open {
        if now - lastFailure > timeout {
          state := HalfOpen;
        } else {
          return Some(CircuitOpen), false;
        }
      }

      invoked := true;

      if state == HalfOpen {
        if fnErr.Some? {
          state := Open;
          lastFailure := now;
          return Some(Failed(fnErr.value)), invoked;
        } else {
          state := Closed;
          failureCount := 0;
          return None, invoked;
        }
      }

      if fnErr.Some? {
        failureCount := failureCount + 1;
        lastFailure := now;
        if failureCount >= failureThreshold {
          state := Open;
        }
        err := Some(Failed(fnErr.value));
      } else {
        failureCount := 0;
        err := None;
      }
    }

    /** State(): the stored state as it is. It takes no clock, so an open
        breaker whose timeout has passed still reads as open. */
    function State(): (s: BreakerState)
      reads this
      ensures s == Fields().state
    {
      state
    }
  }
}
