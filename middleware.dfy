/**
 * The concurrency limiter of src/middleware.rs: a counter of requests in
 * flight, checked and bumped on entry and dropped on exit. Calls run one at a
 * time here; `Admit` and `Release` are the two halves of a call, so requests
 * that overlap in the source are admissions not yet released.
 */
module Middleware {
  import opened Wrappers

  const DEFAULT_MAX_CONCURRENT_REQUESTS: int := 10
  const SERVICE_UNAVAILABLE: int := 503

  /** The limiter's `Config` (`max_concurrent_requests: i32`). */
  datatype Config = Config(maxConcurrentRequests: int)

  /** `Config::default`: a request is still let in with ten in flight, and turned away with eleven. */
  function DefaultConfig(): (c: Config)
    ensures !Rejects(10, c.maxConcurrentRequests) && Rejects(11, c.maxConcurrentRequests)
  {
    Config(DEFAULT_MAX_CONCURRENT_REQUESTS)
  }

  /** A request is turned away when the counter already exceeds the maximum. */
  predicate Rejects(counter: int, max: int)
  {
    counter > max
  }

  /** The counter after one arrival. */
  function AdmitStep(counter: int, max: int): int
  {
    if Rejects(counter, max) then counter else counter + 1
  }

  /** The counter after `n` arrivals none of which has finished yet. */
  function AfterArrivals(counter: int, max: int, n: nat): int
    decreases n
  {
    if n == 0 then counter else AfterArrivals(AdmitStep(counter, max), max, n - 1)
  }

  function Min(a: int, b: int): int { if a < b then a else b }

  /** Arrivals fill the counter up to `max + 1` and no further. */
  lemma {:induction false} ArrivalsSaturate(counter: int, max: int, n: nat)
    requires 0 <= counter <= max + 1
    ensures AfterArrivals(counter, max, n) == Min(counter + n, max + 1)
    decreases n
  {
    if n > 0 {
      ArrivalsSaturate(AdmitStep(counter, max), max, n - 1);
    }
  }

  /**
   * From an idle limiter, `max + 1` requests can be in flight at once, one
   * more than the configured maximum; with the default that is eleven.
   */
  lemma PeakInFlight(max: int, n: nat)
    requires max >= 0
    ensures AfterArrivals(0, max, n) == Min(n, max + 1)
    ensures AfterArrivals(0, max, max + 1) == max + 1 && !Rejects(max, max)
    ensures AfterArrivals(0, DefaultConfig().maxConcurrentRequests, 12) == 11
  {
    ArrivalsSaturate(0, max, n);
    ArrivalsSaturate(0, max, max + 1);
    ArrivalsSaturate(0, DefaultConfig().maxConcurrentRequests, 12);
  }

  /** What the wrapped handler produced: a response, or an error that is passed through. */
  datatype HandlerError = HandlerError(status: int)
  type HandlerResult = Result<int, HandlerError>

  /**
   * How the wrapped handler's call ended: it returned a result, or it unwound
   * (a panic inside it, or the request future dropped while it was pending).
   */
  datatype HandlerOutcome = Returned(result: HandlerResult) | Unwound

  /**
   * The counter after one call that ran to its end before the next began. As
   * written (`guarded` false) an unwound call never reaches the decrement and
   * keeps its slot; with a drop guard (`guarded` true) every admitted call gives it back.
   */
  function CallStep(counter: int, max: int, o: HandlerOutcome, guarded: bool): int
  {
    if Rejects(counter, max) then counter
    else if o.Unwound? && !guarded then counter + 1
    else counter
  }

  /** The counter after a sequence of calls, one after another. */
  function RunCalls(counter: int, max: int, calls: seq<HandlerOutcome>, guarded: bool): int
    decreases |calls|
  {
    if |calls| == 0 then counter else RunCalls(CallStep(counter, max, calls[0], guarded), max, calls[1..], guarded)
  }

  /** How many of the calls unwound. */
  function Unwinds(calls: seq<HandlerOutcome>): (n: nat)
    ensures n <= |calls|
    ensures (forall i :: 0 <= i < |calls| ==> calls[i].Unwound?) ==> n == |calls|
    decreases |calls|
  {
    if |calls| == 0 then 0 else (if calls[0].Unwound? then 1 else 0) + Unwinds(calls[1..])
  }

  /** As written, every unwound call leaks one slot, until the counter passes the maximum. */
  lemma {:induction false} LeakedSlots(counter: int, max: int, calls: seq<HandlerOutcome>)
    requires 0 <= counter <= max + 1
    ensures RunCalls(counter, max, calls, false) == Min(counter + Unwinds(calls), max + 1)
    decreases |calls|
  {
    if |calls| > 0 {
      LeakedSlots(CallStep(counter, max, calls[0], false), max, calls[1..]);
    }
  }

  /** Running two batches of calls is running the first, then the second from where it left off. */
  lemma {:induction false} RunCallsAppend(counter: int, max: int, a: seq<HandlerOutcome>, b: seq<HandlerOutcome>,
                                          guarded: bool)
    ensures RunCalls(counter, max, a + b, guarded) == RunCalls(RunCalls(counter, max, a, guarded), max, b, guarded)
    decreases |a|
  {
    if |a| == 0 {
      assert a + b == b;
    } else {
      assert (a + b)[0] == a[0] && (a + b)[1..] == a[1..] + b;
      RunCallsAppend(CallStep(counter, max, a[0], guarded), max, a[1..], b, guarded);
    }
  }

  /**
   * As written, `max + 1` handler panics on an idle limiter lock it for good:
   * the counter stays at `max + 1` and every later call gets 503.
   */
  lemma LeakLocksOut(max: int, leaked: seq<HandlerOutcome>, later: seq<HandlerOutcome>)
    requires max >= 0 && |leaked| == max + 1
    requires forall i :: 0 <= i < |leaked| ==> leaked[i].Unwound?
    ensures RunCalls(0, max, leaked, false) == max + 1 && Rejects(max + 1, max)
    ensures RunCalls(0, max, leaked + later, false) == max + 1
  {
    LeakedSlots(0, max, leaked);
    RunCallsAppend(0, max, leaked, later, false);
    LeakedSlots(max + 1, max, later);
  }

  /**
   * With the decrement also run on unwind, any sequence of calls leaves the
   * counter where it started, so a limiter under its maximum admits the next call.
   */
  lemma {:induction false} GuardedCallsBalance(counter: int, max: int, calls: seq<HandlerOutcome>)
    ensures RunCalls(counter, max, calls, true) == counter
    ensures counter <= max ==> !Rejects(RunCalls(counter, max, calls, true), max)
    decreases |calls|
  {
    if |calls| > 0 {
      GuardedCallsBalance(CallStep(counter, max, calls[0], true), max, calls[1..]);
    }
  }

  /** `RateLimiter`: the wrapped handler's own counter of requests in flight. */
  class RateLimiter {
    const config: Config
    var concurrentRequests: int

    /** `transform`: every wrapped handler gets a fresh counter at zero. */
    constructor (config: Config)
      ensures this.config == config && concurrentRequests == 0
    {
      this.config := config;
      concurrentRequests := 0;
    }

    /** Entry: reject (counter unchanged) or count the request in. */
    method Admit() returns (admitted: bool)
      modifies this
      ensures admitted == !Rejects(old(concurrentRequests), config.maxConcurrentRequests)
      ensures concurrentRequests == AdmitStep(old(concurrentRequests), config.maxConcurrentRequests)
    {
      if concurrentRequests > config.maxConcurrentRequests {
        return false;
      }
      concurrentRequests := concurrentRequests + 1;
      admitted := true;
    }

    /** Exit: count the request out. */
    method Release()
      modifies this
      ensures concurrentRequests == old(concurrentRequests) - 1
    {
      concurrentRequests := concurrentRequests - 1;
    }

    /**
     * `call`: a rejected request gets 503 without reaching the handler; an
     * admitted one gets the handler's result, error or not, and is counted out.
     * A handler that unwinds gives no response (`None`) and skips the
     * decrement, so its slot stays taken.
     */
    method Call(inner: HandlerOutcome) returns (out: Option<HandlerResult>, handlerCalled: bool)
      modifies this
      ensures handlerCalled == !Rejects(old(concurrentRequests), config.maxConcurrentRequests)
      ensures !handlerCalled ==> out == Some(Ok(SERVICE_UNAVAILABLE))
      ensures handlerCalled ==> out == if inner.Returned? then Some(inner.result) else None
      ensures concurrentRequests == CallStep(old(concurrentRequests), config.maxConcurrentRequests, inner, false)
      ensures inner.Returned? ==> concurrentRequests == old(concurrentRequests)
    {
      var admitted := Admit();
      if !admitted {
        return Some(Ok(SERVICE_UNAVAILABLE)), false;
      }
      handlerCalled := true;
      match inner {
        case Unwound =>
          out := None;
        case Returned(result) =>
          out := Some(result);
          Release();
      }
    }

    /** `call` with the decrement in a drop guard: it runs whether the handler returns or unwinds. */
    method GuardedCall(inner: HandlerOutcome) returns (out: Option<HandlerResult>, handlerCalled: bool)
      modifies this
      ensures handlerCalled == !Rejects(old(concurrentRequests), config.maxConcurrentRequests)
      ensures !handlerCalled ==> out == Some(Ok(SERVICE_UNAVAILABLE))
      ensures handlerCalled ==> out == if inner.Returned? then Some(inner.result) else None
      ensures concurrentRequests == CallStep(old(concurrentRequests), config.maxConcurrentRequests, inner, true)
      ensures concurrentRequests == old(concurrentRequests)
    {
      var admitted := Admit();
      if !admitted {
        return Some(Ok(SERVICE_UNAVAILABLE)), false;
      }
      handlerCalled := true;
      out := if inner.Returned? then Some(inner.result) else None;
      Release();
    }
  }
}
