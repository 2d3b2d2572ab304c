/** The circuit breaker and the retry loop of the resilient HTTP client. */
module ResilientHttp {

  datatype CircuitState = Closed | Open | HalfOpen

  /** The three mutable fields of a breaker. */
  datatype Breaker = Breaker(state: CircuitState, failures: int, changed: real)

  function Fresh(now: real): Breaker {
    Breaker(Closed, 0, now)
  }

  /** `_check_state`. */
  function Checked(b: Breaker, now: real, timeout: real): Breaker {
    if b.state.Open? && now - b.changed > timeout then b.(state := HalfOpen, changed := now) else b
  }

  /** `record_success`. */
  function Succeeded(b: Breaker, now: real): Breaker {
    Breaker(Closed, 0, now)
  }

  /** `record_failure`. */
  function Failed(b: Breaker, now: real, threshold: int): Breaker {
    var b' := b.(failures := b.failures + 1);
    if b.state.Closed? && b'.failures >= threshold then b'.(state := Open, changed := now)
    else if b.state.HalfOpen? then b'.(state := Open, changed := now)
    else b'
  }

  // ----- Any interleaving of the three operations -----

  datatype Event = Check(at: real) | Success(at: real) | Failure(at: real)

  function Apply(b: Breaker, e: Event, threshold: int, timeout: real): Breaker {
    match e
    case Check(at) => Checked(b, at, timeout)
    case Success(at) => Succeeded(b, at)
    case Failure(at) => Failed(b, at, threshold)
  }

  function Run(b: Breaker, events: seq<Event>, threshold: int, timeout: real): Breaker {
    if events == [] then b
    else Apply(Run(b, events[..|events| - 1], threshold, timeout), events[|events| - 1], threshold, timeout)
  }

  /** The number of failures since the last success; state checks do not count. */
  function TrailingFailures(events: seq<Event>): nat {
    if events == [] then 0
    else
      match events[|events| - 1]
      case Check(_) => TrailingFailures(events[..|events| - 1])
      case Success(_) => 0
      case Failure(_) => TrailingFailures(events[..|events| - 1]) + 1
  }

  /** Over any interleaving, the counter is the trailing run of failures and the circuit is closed exactly while that
      run is below the threshold (a threshold below one acts as one). */
  lemma {:induction false} CounterIsTrailingRun(events: seq<Event>, start: real, threshold: int, timeout: real)
    ensures var b := Run(Fresh(start), events, threshold, timeout);
      && b.failures == TrailingFailures(events)
      && (b.state.Closed? <==> TrailingFailures(events) == 0 || TrailingFailures(events) < threshold)
  {
    if events != [] { CounterIsTrailingRun(events[..|events| - 1], start, threshold, timeout); }
  }

  // ----- OPEN and HALF_OPEN, from the history -----

  /** The trailing run of failures has reached the threshold. */
  predicate Tripped(events: seq<Event>, threshold: int) {
    TrailingFailures(events) > 0 && TrailingFailures(events) >= threshold
  }

  /** The failure that last opened the circuit: the one that reached the threshold, or the last one after a probe was let
      through. */
  function LastTrip(events: seq<Event>, threshold: int, timeout: real): (at: nat)
    requires Tripped(events, threshold)
    ensures at < |events| && events[at].Failure?
    decreases |events|, 0
  {
    var n := |events| - 1;
    if events[n].Failure? && (!Tripped(events[..n], threshold) || ProbeIsOut(events[..n], threshold, timeout)) then n
    else LastTrip(events[..n], threshold, timeout)
  }

  /** A check came later than the timeout after the last trip. */
  predicate ProbeIsOut(events: seq<Event>, threshold: int, timeout: real)
    requires Tripped(events, threshold)
    decreases |events|, 1
  {
    var trip := LastTrip(events, threshold, timeout);
    exists j :: trip < j < |events| && events[j].Check? && events[j].at > events[trip].at + timeout
  }

  /** Over any interleaving, a tripped circuit is HALF_OPEN exactly when a check has come later than the timeout after the
      last trip, and OPEN, since that trip, exactly when none has. */
  lemma {:induction false} TrippedState(events: seq<Event>, start: real, threshold: int, timeout: real)
    requires Tripped(events, threshold)
    ensures var b := Run(Fresh(start), events, threshold, timeout);
      && (b.state.HalfOpen? <==> ProbeIsOut(events, threshold, timeout))
      && (b.state.Open? <==> !ProbeIsOut(events, threshold, timeout))
      && (b.state.Open? ==> b.changed == events[LastTrip(events, threshold, timeout)].at)
    decreases |events|
  {
    var n := |events| - 1;
    var before := events[..n];
    CounterIsTrailingRun(before, start, threshold, timeout);
    if Tripped(before, threshold) {
      TrippedState(before, start, threshold, timeout);
      if !events[n].Failure? || !ProbeIsOut(before, threshold, timeout) {
        ProbeStep(events, threshold, timeout);
      }
    }
  }

  /** How one more event changes whether a probe is out, where it is not a new trip. */
  lemma {:induction false} ProbeStep(events: seq<Event>, threshold: int, timeout: real)
    requires events != [] && Tripped(events, threshold) && Tripped(events[..|events| - 1], threshold)
    requires !events[|events| - 1].Failure? || !ProbeIsOut(events[..|events| - 1], threshold, timeout)
    ensures var n := |events| - 1; var trip := LastTrip(events[..n], threshold, timeout);
      && LastTrip(events, threshold, timeout) == trip
      && (ProbeIsOut(events, threshold, timeout) <==>
            ProbeIsOut(events[..n], threshold, timeout) || (events[n].Check? && events[n].at > events[trip].at + timeout))
  {
    var n := |events| - 1;
    var trip := LastTrip(events[..n], threshold, timeout);
    if ProbeIsOut(events[..n], threshold, timeout) {
      var j :| trip < j < n && events[..n][j].Check? && events[..n][j].at > events[..n][trip].at + timeout;
      assert events[j].Check? && events[j].at > events[trip].at + timeout;
    }
    if j :| trip < j < |events| && events[j].Check? && events[j].at > events[trip].at + timeout {
      if j < n { assert events[..n][j] == events[j]; }
    }
  }

  /** An open circuit stays open, with the same trip time, through any checks and failures up to the end of the
      recovery timeout, and every request that checks it in that time is blocked. */
  lemma {:induction false} OpenUntilTimeout(b: Breaker, events: seq<Event>, threshold: int, timeout: real)
    requires b.state.Open?
    requires forall k :: 0 <= k < |events| ==> !events[k].Success? && events[k].at <= b.changed + timeout
    ensures Run(b, events, threshold, timeout).state.Open?
    ensures Run(b, events, threshold, timeout).changed == b.changed
    ensures forall c: Call, retries :: c.checkedAt <= b.changed + timeout ==>
      RequestStep(Run(b, events, threshold, timeout), c, threshold, timeout, retries).1 == Blocked
  {
    if events != [] { OpenUntilTimeout(b, events[..|events| - 1], threshold, timeout); }
  }

  // ----- One request -----

  /** An attempt returns a good status, raises one of the two caught exceptions, or raises something else. */
  datatype Attempt = Ok | HttpError | OtherError

  datatype Reply = Blocked | Returned | GaveUp | Escaped | NoAttempt

  function Pow2(n: nat): nat {
    if n == 0 then 1 else 2 * Pow2(n - 1)
  }

  /** The sleeps between `attempts` attempts: one after each but the last. */
  function Backoff(jitter: nat -> real, attempts: nat): real {
    if attempts <= 1 then 0.0 else Backoff(jitter, attempts - 1) + jitter(attempts - 1)
  }

  /** How many attempts are made from attempt `k` on: up to the first that is not a caught error, at most `retries + 1`
      in all. */
  function AttemptsFrom(outcome: nat -> Attempt, k: nat, retries: int): nat
    decreases retries - k
  {
    if k > retries then 0
    else if outcome(k).HttpError? then 1 + AttemptsFrom(outcome, k + 1, retries)
    else 1
  }

  function Attempts(outcome: nat -> Attempt, retries: int): nat {
    AttemptsFrom(outcome, 0, retries)
  }

  /** How the request ends, from the outcome of its last attempt. */
  function ReplyOf(outcome: nat -> Attempt, retries: int): Reply {
    var n := Attempts(outcome, retries);
    if n == 0 then NoAttempt
    else match outcome(n - 1)
      case Ok => Returned
      case OtherError => Escaped
      case HttpError => GaveUp
  }

  /** Giving up means every one of the `retries + 1` attempts failed. */
  lemma {:induction false} GaveUpTriedAll(outcome: nat -> Attempt, k: nat, retries: int)
    requires k <= retries
    ensures 1 <= AttemptsFrom(outcome, k, retries) <= retries + 1 - k
    ensures var n := AttemptsFrom(outcome, k, retries);
      && (forall j :: k <= j < k + n - 1 ==> outcome(j).HttpError?)
      && (outcome(k + n - 1).HttpError? <==> (forall j :: k <= j <= retries ==> outcome(j).HttpError?))
      && (outcome(k + n - 1).HttpError? ==> n == retries + 1 - k)
    decreases retries - k
  {
    if outcome(k).HttpError? && k < retries { GaveUpTriedAll(outcome, k + 1, retries); }
  }

  /** A request as the breaker sees it. */
  datatype Call = Call(outcome: nat -> Attempt, checkedAt: real, recordedAt: real)

  function RequestStep(b: Breaker, c: Call, threshold: int, timeout: real, retries: int): (Breaker, Reply) {
    var b1 := Checked(b, c.checkedAt, timeout);
    if b1.state.Open? then (b1, Blocked)
    else
      var reply := ReplyOf(c.outcome, retries);
      match reply
      case Returned => (Succeeded(b1, c.recordedAt), reply)
      case GaveUp => (Failed(b1, c.recordedAt, threshold), reply)
      case _ => (b1, reply)
  }

  /** How a request that is let through ends, attempt by attempt: it returns at the first good response, lets through the
      first exception it does not catch, and gives up only if all attempts fail. */
  lemma {:induction false} ReplyExactly(outcome: nat -> Attempt, retries: int)
    ensures ReplyOf(outcome, retries).NoAttempt? <==> retries < 0
    ensures ReplyOf(outcome, retries).GaveUp? <==> retries >= 0 && forall j :: 0 <= j <= retries ==> outcome(j).HttpError?
    ensures ReplyOf(outcome, retries).Returned? <==> FirstIs(outcome, retries, Ok)
    ensures ReplyOf(outcome, retries).Escaped? <==> FirstIs(outcome, retries, OtherError)
  {
    if retries >= 0 {
      GaveUpTriedAll(outcome, 0, retries);
      var n := Attempts(outcome, retries);
      if !outcome(n - 1).HttpError? { assert FirstAt(outcome, retries, outcome(n - 1), n - 1); }
      assert forall k, r :: FirstAt(outcome, retries, r, k) && !r.HttpError? ==> k == n - 1 && outcome(n - 1) == r;
    }
  }

  predicate FirstAt(outcome: nat -> Attempt, retries: int, r: Attempt, k: nat) {
    k <= retries && outcome(k) == r && forall j :: 0 <= j < k ==> outcome(j).HttpError?
  }

  /** The first attempt that is not a caught error has this outcome. */
  ghost predicate FirstIs(outcome: nat -> Attempt, retries: int, r: Attempt) {
    exists k :: FirstAt(outcome, retries, r, k)
  }

  /** Recovery: once the timeout has passed, an open circuit lets a request through as a probe. If the probe succeeds the
      circuit is closed with a clear counter; if it gives up the circuit is open again from the time of that failure. */
  lemma {:induction false} ProbeDecides(b: Breaker, c: Call, threshold: int, timeout: real, retries: nat)
    requires b.state.Open? && c.checkedAt > b.changed + timeout
    ensures var (b', reply) := RequestStep(b, c, threshold, timeout, retries);
      && reply != Blocked && reply != NoAttempt && Attempts(c.outcome, retries) >= 1
      && (FirstIs(c.outcome, retries, Ok) ==> reply == Returned && b' == Breaker(Closed, 0, c.recordedAt))
      && (FirstIs(c.outcome, retries, OtherError) ==> reply == Escaped && b' == Breaker(HalfOpen, b.failures, c.checkedAt))
      && ((forall j :: 0 <= j <= retries ==> c.outcome(j).HttpError?) ==>
            reply == GaveUp && b' == Breaker(Open, b.failures + 1, c.recordedAt))
  {
    ReplyExactly(c.outcome, retries);
    GaveUpTriedAll(c.outcome, 0, retries);
  }

  /** A request is blocked exactly when the circuit is open and the timeout has not passed. */
  lemma {:induction false} BlockedIff(b: Breaker, c: Call, threshold: int, timeout: real, retries: int)
    ensures RequestStep(b, c, threshold, timeout, retries).1.Blocked? <==> b.state.Open? && c.checkedAt <= b.changed + timeout
  {
  }

  // ----- Sequential runs -----

  /** A breaker with the failed attempts spent by the requests that gave up since the last success. */
  datatype Ledger = Ledger(b: Breaker, spent: int)

  function Charge(l: Ledger, c: Call, threshold: int, timeout: real, retries: int): Ledger {
    var (b', reply) := RequestStep(l.b, c, threshold, timeout, retries);
    match reply
    case Returned => Ledger(b', 0)
    case GaveUp => Ledger(b', l.spent + Attempts(c.outcome, retries))
    case _ => Ledger(b', l.spent)
  }

  function Sequence(start: real, calls: seq<Call>, threshold: int, timeout: real, retries: int): Ledger {
    if calls == [] then Ledger(Fresh(start), 0)
    else Charge(Sequence(start, calls[..|calls| - 1], threshold, timeout, retries), calls[|calls| - 1],
                threshold, timeout, retries)
  }

  lemma {:induction false} ClosedBudget(start: real, calls: seq<Call>, threshold: int, timeout: real, retries: nat)
    requires threshold >= 1
    ensures var l := Sequence(start, calls, threshold, timeout, retries);
      l.b.failures >= 0 && (l.b.state.Closed? ==> l.b.failures < threshold && l.spent == l.b.failures * (retries + 1))
  {
    if calls != [] {
      var n := |calls| - 1;
      ClosedBudget(start, calls[..n], threshold, timeout, retries);
      GaveUpTriedAll(calls[n].outcome, 0, retries);
      OneMore(Sequence(start, calls[..n], threshold, timeout, retries).b.failures, retries + 1);
    }
  }

  lemma {:induction false} OneMore(failures: int, cost: int)
    ensures (failures + 1) * cost == failures * cost + cost
  {
  }

  /** In a sequential run, a trip from CLOSED costs exactly `threshold * (retries + 1)` failed attempts by the requests that
      gave up since the last success. */
  lemma {:induction false} TripCost(start: real, calls: seq<Call>, last: Call, threshold: int, timeout: real, retries: nat)
    requires threshold >= 1
    requires Sequence(start, calls, threshold, timeout, retries).b.state.Closed?
    requires !Charge(Sequence(start, calls, threshold, timeout, retries), last, threshold, timeout, retries).b.state.Closed?
    ensures Charge(Sequence(start, calls, threshold, timeout, retries), last, threshold, timeout, retries).b.state.Open?
    ensures Charge(Sequence(start, calls, threshold, timeout, retries), last, threshold, timeout, retries).spent
            == threshold * (retries + 1)
  {
    ClosedBudget(start, calls, threshold, timeout, retries);
    GaveUpTriedAll(last.outcome, 0, retries);
    var l := Sequence(start, calls, threshold, timeout, retries);
    assert l.b.failures + 1 == threshold;
    OneMore(l.b.failures, retries + 1);
  }

  // ----- The objects -----

  class CircuitBreaker {
    const failureThreshold: int
    const recoveryTimeout: real
    var state: CircuitState
    var failureCount: int
    var lastStateChange: real

    function View(): Breaker
      reads this
    {
      Breaker(state, failureCount, lastStateChange)
    }

    constructor (failureThreshold: int, recoveryTimeout: real, now: real)
      ensures this.failureThreshold == failureThreshold && this.recoveryTimeout == recoveryTimeout
      ensures View() == Fresh(now)
    {
      this.failureThreshold, this.recoveryTimeout := failureThreshold, recoveryTimeout;
      state, failureCount, lastStateChange := Closed, 0, now;
    }

    method CheckState(now: real)
      modifies this
      ensures View() == Checked(old(View()), now, recoveryTimeout)
    {
      if state == Open {
        var elapsed := now - lastStateChange;
        if elapsed > recoveryTimeout {
          state := HalfOpen;
          lastStateChange := now;
        }
      }
    }

    method RecordSuccess(now: real)
      modifies this
      ensures View() == Succeeded(old(View()), now)
    {
      state := Closed;
      failureCount := 0;
      lastStateChange := now;
    }

    method RecordFailure(now: real)
      modifies this
      ensures View() == Failed(old(View()), now, failureThreshold)
    {
      failureCount := failureCount + 1;
      if state == Closed && failureCount >= failureThreshold {
        state := Open;
        lastStateChange := now;
      } else if state == HalfOpen {
        state := Open;
        lastStateChange := now;
      }
    }

  }

  class ResilientHttpClient {
    const maxRetries: int
    const breaker: CircuitBreaker

    constructor (maxRetries: int, breaker: CircuitBreaker)
      ensures this.maxRetries == maxRetries && this.breaker == breaker
    {
      this.maxRetries, this.breaker := maxRetries, breaker;
    }

    /** The retry loop. `jitter(k)` is the sleep drawn after the k-th failed attempt, anywhere in its interval; together
        the sleeps stay below the geometric bound. */
    method Request(c: Call, jitter: nat -> real) returns (reply: Reply, attempts: nat, slept: real)
      requires forall k: nat :: 0.0 <= jitter(k) <= 0.2 * Pow2(k) as real
      modifies breaker
      ensures (breaker.View(), reply) == RequestStep(old(breaker.View()), c,
                                                         breaker.failureThreshold, breaker.recoveryTimeout, maxRetries)
      ensures reply.Blocked? <==>
        old(breaker.View()).state.Open? && c.checkedAt <= old(breaker.View()).changed + breaker.recoveryTimeout
      ensures attempts == if reply.Blocked? then 0 else Attempts(c.outcome, maxRetries)
      ensures slept == Backoff(jitter, attempts)
      ensures maxRetries >= 0 ==> 0.0 <= slept <= 0.2 * (Pow2(maxRetries + 1) - 2) as real
    {
      breaker.CheckState(c.checkedAt);
      BlockedIff(old(breaker.View()), c, breaker.failureThreshold, breaker.recoveryTimeout, maxRetries);
      if maxRetries >= 0 { BackoffBound(jitter, 1, maxRetries); }
      if breaker.state == Open {
        return Blocked, 0, 0.0;
      }
      reply, attempts, slept := RetryLoop(c, jitter);
      if attempts >= 1 { BackoffBound(jitter, attempts, maxRetries); }
    }

    /** The loop itself: an attempt, and after each caught error but the last a sleep. */
    method RetryLoop(c: Call, jitter: nat -> real) returns (reply: Reply, attempts: nat, slept: real)
      modifies breaker
      ensures reply == ReplyOf(c.outcome, maxRetries)
      ensures breaker.View() ==
        match reply
        case Returned => Succeeded(old(breaker.View()), c.recordedAt)
        case GaveUp => Failed(old(breaker.View()), c.recordedAt, breaker.failureThreshold)
        case _ => old(breaker.View())
      ensures attempts == Attempts(c.outcome, maxRetries) <= (if maxRetries >= 0 then maxRetries + 1 else 0)
      ensures slept == Backoff(jitter, attempts)
    {
      slept, attempts := 0.0, 0;
      var attempt := 0;
      while attempt <= maxRetries
        invariant 0 <= attempt && (maxRetries >= 0 ==> attempt <= maxRetries)
        invariant attempts == attempt && breaker.View() == old(breaker.View())
        invariant Attempts(c.outcome, maxRetries) == attempt + AttemptsFrom(c.outcome, attempt, maxRetries)
        invariant forall j :: 0 <= j < attempt ==> c.outcome(j).HttpError?
        invariant slept == Backoff(jitter, attempt + 1)
        decreases maxRetries - attempt
      {
        attempts := attempts + 1;
        match c.outcome(attempt)
        case Ok =>
          breaker.RecordSuccess(c.recordedAt);
          return Returned, attempts, slept;
        case OtherError =>
          return Escaped, attempts, slept;
        case HttpError =>
          attempt := attempt + 1;
          if attempt > maxRetries {
            breaker.RecordFailure(c.recordedAt);
            return GaveUp, attempts, slept;
          }
          slept := slept + jitter(attempt);
      }
      reply := NoAttempt;
    }
  }

  /** Each sleep within its interval: together they stay below the geometric bound. */
  lemma {:induction false} BackoffSum(jitter: nat -> real, n: nat)
    requires n >= 1 && forall k: nat :: 0.0 <= jitter(k) <= 0.2 * Pow2(k) as real
    ensures 0.0 <= Backoff(jitter, n) <= 0.2 * (Pow2(n) - 2) as real
  {
    if n > 1 { BackoffSum(jitter, n - 1); }
  }

  lemma {:induction false} BackoffBound(jitter: nat -> real, attempts: nat, retries: nat)
    requires 1 <= attempts <= retries + 1 && forall k: nat :: 0.0 <= jitter(k) <= 0.2 * Pow2(k) as real
    ensures 0.0 <= Backoff(jitter, attempts) <= 0.2 * (Pow2(retries + 1) - 2) as real
  {
    BackoffSum(jitter, attempts);
    Pow2Grows(attempts, retries + 1);
  }

  lemma {:induction false} Pow2Grows(a: nat, b: nat)
    requires a <= b
    ensures Pow2(a) <= Pow2(b)
  {
    if a < b { Pow2Grows(a, b - 1); }
  }
}
