/**
 The circuit breaker around the database pool (internal/database/postgres.go).

 A call that goes to the pool reads the breaker's state in one critical section and records
 its outcome in a later one; a call that read "open" never reaches the pool, and records a
 failure all the same.  Only `CheckDBHealth` ever leaves the open state.
 */
module DatabaseBreaker {

  datatype BreakerState = Closed | Open | HalfOpen

  datatype Breaker = Breaker(state: BreakerState, failCount: int, lastFailTime: int, threshold: int, resetTimeout: int)

  function NewBreaker(threshold: int, resetTimeout: int): Breaker {
    Breaker(Closed, 0, 0, threshold, resetTimeout)
  }

  /** The health check: the new state, and whether the database counts as healthy. */
  function Checked(b: Breaker, now: int): (Breaker, bool) {
    if b.state != Open then (b, true)
    else if now - b.lastFailTime > b.resetTimeout then (b.(state := HalfOpen, failCount := 0), true)
    else (b, false)
  }

  function Failed(b: Breaker, now: int): Breaker {
    var b1 := b.(failCount := b.failCount + 1, lastFailTime := now);
    if b1.failCount >= b1.threshold then b1.(state := Open) else b1
  }

  function Succeeded(b: Breaker): Breaker {
    if b.state == HalfOpen then b.(state := Closed, failCount := 0) else b
  }

  /** What a call is after reading the state: `Row` is a single-row query, whose outcome the
      breaker never learns. */
  datatype Call = Rejected | Row | Pooled

  function Entered(b: Breaker, row: bool): Call {
    if b.state == Open then Rejected else if row then Row else Pooled
  }

  function Left(b: Breaker, c: Call, ok: bool, now: int): Breaker {
    match c
    case Rejected => Failed(b, now)
    case Row => b
    case Pooled => if ok then Succeeded(b) else Failed(b, now)
  }

  class DbCircuitBreaker {
    var state: BreakerState
    var failCount: int
    var lastFailTime: int
    const threshold: int
    const resetTimeout: int

    ghost function View(): Breaker
      reads this
    {
      Breaker(state, failCount, lastFailTime, threshold, resetTimeout)
    }

    constructor (threshold: int, resetTimeout: int)
      ensures View() == NewBreaker(threshold, resetTimeout)
    {
      state, failCount, lastFailTime := Closed, 0, 0;
      this.threshold, this.resetTimeout := threshold, resetTimeout;
    }

    method CheckDBHealth(now: int) returns (healthy: bool)
      modifies this
      ensures (View(), healthy) == Checked(old(View()), now)
    {
      if state == Open {
        if now - lastFailTime > resetTimeout {
          state := HalfOpen;
          failCount := 0;
          return true;
        }
        return false;
      }
      return true;
    }

    method RecordDBFailure(now: int)
      modifies this
      ensures View() == Failed(old(View()), now)
    {
      failCount := failCount + 1;
      lastFailTime := now;
      if failCount >= threshold {
        state := Open;
      }
    }

    method RecordDBSuccess()
      modifies this
      ensures View() == Succeeded(old(View()))
    {
      if state == HalfOpen {
        state := Closed;
        failCount := 0;
      }
    }

    method EnterCall(row: bool) returns (c: Call)
      ensures c == Entered(View(), row)
    {
      if state == Open {
        return Rejected;
      }
      c := if row then Row else Pooled;
    }

    /** A call left alone by others: it fails exactly when rejected or refused by the pool. */
    method Execute(row: bool, poolOk: bool, now: int) returns (ok: bool)
      modifies this
      ensures ok <==> old(View()).state != Open && poolOk
      ensures View() == Left(old(View()), Entered(old(View()), row), poolOk, now)
    {
      var c := EnterCall(row);
      if c == Rejected {
        RecordDBFailure(now);
        return false;
      }
      if c == Pooled {
        if poolOk {
          RecordDBSuccess();
        } else {
          RecordDBFailure(now);
        }
      }
      return poolOk;
    }
  }

  // ---------------------------------------------------------------------------------------
  // Every interleaving
  // ---------------------------------------------------------------------------------------

  /** The breaker and the calls between their two critical sections.  Beside it, from the events
      alone: the time of every failure recorded so far, in order, and how many were recorded
      since a health check or a recovery last cleared the count. */
  datatype System = System(b: Breaker, calls: map<nat, Call>, failures: seq<int>, counted: nat)

  datatype Event =
    | Enter(caller: nat, row: bool)
    | Leave(caller: nat, ok: bool, now: int)
    | Check(now: int)

  function Start(threshold: int, resetTimeout: int): System {
    System(NewBreaker(threshold, resetTimeout), map[], [], 0)
  }

  predicate Fails(c: Call, ok: bool) {
    c == Rejected || (c == Pooled && !ok)
  }

  function Step(s: System, e: Event): System {
    match e
    case Enter(c, row) =>
      if c in s.calls then s else s.(calls := s.calls[c := Entered(s.b, row)])
    case Leave(c, ok, now) =>
      if c !in s.calls then s
      else
        System(Left(s.b, s.calls[c], ok, now), s.calls - {c},
               if Fails(s.calls[c], ok) then s.failures + [now] else s.failures,
               if Fails(s.calls[c], ok) then s.counted + 1
               else if s.calls[c] == Pooled && s.b.state == HalfOpen then 0 else s.counted)
    case Check(now) =>
      var leaves := s.b.state == Open && s.failures != [] && now - s.failures[|s.failures| - 1] > s.b.resetTimeout;
      s.(b := Checked(s.b, now).0, counted := if leaves then 0 else s.counted)
  }

  function Run(s: System, trace: seq<Event>): System {
    if trace == [] then s else Step(Run(s, trace[..|trace| - 1]), trace[|trace| - 1])
  }

  ghost predicate Inv(s: System) {
    && s.b.threshold >= 1
    && s.b.failCount == s.counted <= |s.failures|
    && (s.b.state == Open <==> s.b.failCount >= s.b.threshold)
    && (s.failures != [] ==> s.b.lastFailTime == s.failures[|s.failures| - 1])
  }

  lemma StepKeepsInv(s: System, e: Event)
    requires Inv(s)
    ensures Inv(Step(s, e)) && Step(s, e).b.resetTimeout == s.b.resetTimeout
    ensures Step(s, e).b.threshold == s.b.threshold
  {
  }

  lemma {:induction false} EveryRunKeepsInv(s: System, trace: seq<Event>)
    requires Inv(s)
    ensures Inv(Run(s, trace)) && Run(s, trace).b.resetTimeout == s.b.resetTimeout
    ensures Run(s, trace).b.threshold == s.b.threshold
  {
    if trace != [] {
      var n := |trace| - 1;
      EveryRunKeepsInv(s, trace[..n]);
      StepKeepsInv(Run(s, trace[..n]), trace[n]);
    }
  }

  /** In every interleaving the circuit is open exactly when at least `threshold` failures were
      recorded since a health check or a recovery last cleared the count, and the clock of an open circuit is the latest recorded failure, be it of the
      database or of a call that was turned away. */
  lemma BreakerSafety(threshold: int, resetTimeout: int, trace: seq<Event>)
    requires threshold >= 1
    ensures var s := Run(Start(threshold, resetTimeout), trace);
      && (s.b.state == Open <==> s.counted >= threshold) && s.b.failCount == s.counted
      && (s.b.state == Open ==> s.failures != [] && s.b.lastFailTime == s.failures[|s.failures| - 1])
  {
    EveryRunKeepsInv(Start(threshold, resetTimeout), trace);
  }

  /** An open circuit's one way out: a health check more than `resetTimeout` after the latest
      recorded failure. */
  lemma LeavesOpenOnlyByLateCheck(threshold: int, resetTimeout: int, trace: seq<Event>, e: Event)
    requires threshold >= 1 && Run(Start(threshold, resetTimeout), trace).b.state == Open
    ensures var s := Run(Start(threshold, resetTimeout), trace);
      && s.failures != []
      && (Step(s, e).b.state != Open <==> e.Check? && e.now - s.failures[|s.failures| - 1] > resetTimeout)
  {
    EveryRunKeepsInv(Start(threshold, resetTimeout), trace);
  }

  /** A health check reports the database healthy if and only if the circuit is not open after
      it: not open before, or left alone for more than `resetTimeout`. */
  lemma HealthyExactlyWhen(threshold: int, resetTimeout: int, trace: seq<Event>, now: int)
    requires threshold >= 1
    ensures var s := Run(Start(threshold, resetTimeout), trace);
      Checked(s.b, now).1 <==>
        s.b.state != Open || (s.failures != [] && now - s.failures[|s.failures| - 1] > resetTimeout)
  {
    EveryRunKeepsInv(Start(threshold, resetTimeout), trace);
  }

  ghost predicate EarlyChecks(s: System, trace: seq<Event>) {
    forall i :: 0 <= i < |trace| && trace[i].Check? ==> trace[i].now - Run(s, trace[..i]).b.lastFailTime <= s.b.resetTimeout
  }

  ghost predicate OpenThroughout(s: System, trace: seq<Event>) {
    forall i :: 0 <= i <= |trace| ==> Run(s, trace[..i]).b.state == Open
  }

  lemma OpenThroughoutOneMore(s: System, t: seq<Event>, e: Event)
    ensures OpenThroughout(s, t + [e]) <==> OpenThroughout(s, t) && Run(s, t + [e]).b.state == Open
    ensures OpenThroughout(s, t) ==> Run(s, t).b.state == Open
  {
    hide Run;
    var n := |t|;
    assert (t + [e])[..n + 1] == t + [e] && t[..n] == t;
    assert forall i :: 0 <= i <= n ==> (t + [e])[..i] == t[..i];
  }

  lemma EarlyChecksOneMore(s: System, t: seq<Event>, e: Event)
    ensures EarlyChecks(s, t + [e]) <==>
      EarlyChecks(s, t) && (e.Check? ==> e.now - Run(s, t).b.lastFailTime <= s.b.resetTimeout)
  {
    hide Run;
    var n := |t|;
    assert (t + [e])[n] == e && (t + [e])[..n] == t;
    assert forall i :: 0 <= i < n ==> (t + [e])[..i] == t[..i] && (t + [e])[i] == t[i];
  }

  /** An outage lasts through a run exactly when every health check in it comes within
      `resetTimeout` of the failure, or rejected call, last recorded before it. */
  lemma {:induction false} OutageLastsExactlyWhile(s: System, trace: seq<Event>)
    requires Inv(s) && s.b.state == Open
    ensures OpenThroughout(s, trace) <==> EarlyChecks(s, trace)
  {
    if trace != [] {
      var n := |trace| - 1;
      var t, e := trace[..n], trace[n];
      assert trace == t + [e] && Run(s, trace) == Step(Run(s, t), e);
      hide OpenThroughout, EarlyChecks, Inv, Step, Run;
      OutageLastsExactlyWhile(s, t);
      EveryRunKeepsInv(s, t);
      OpenThroughoutOneMore(s, t, e);
      EarlyChecksOneMore(s, t, e);
      LastStepOfOutage(Run(s, t), e);
    }
  }

  lemma LastStepOfOutage(s: System, e: Event)
    requires Inv(s)
    ensures s.b.state == Open ==>
      (Step(s, e).b.state == Open <==> (e.Check? ==> e.now - s.b.lastFailTime <= s.b.resetTimeout))
  {
  }

  /** A caller that polls every `period`, each time just before a health check. */
  function Polls(n: nat, from: int, period: int): seq<Event> {
    if n == 0 then []
    else
      var now := from + (n - 1) * period;
      Polls(n - 1, from, period) + [Enter(0, false), Leave(0, true, now), Check(now + period)]
  }

  lemma RunThree(s: System, t: seq<Event>, a: Event, b: Event, c: Event)
    ensures Run(s, t + [a, b, c]) == Step(Step(Step(Run(s, t), a), b), c)
  {
    var all := t + [a, b, c];
    assert all[..|t| + 2] == t + [a, b] && (t + [a, b])[..|t| + 1] == t + [a] && (t + [a])[..|t|] == t;
    assert Run(s, t + [a]) == Step(Run(s, t), a);
    assert Run(s, t + [a, b]) == Step(Run(s, t + [a]), b);
  }

  /** Every rejected call extends the outage: with calls no further apart than
      `resetTimeout`, a recovered database stays cut off for as many periods as one likes. */
  lemma {:induction false} PollingKeepsItOpen(s: System, n: nat, from: int, period: int)
    requires Inv(s) && s.b.state == Open && 0 !in s.calls && period <= s.b.resetTimeout
    ensures var s' := Run(s, Polls(n, from, period));
      Inv(s') && s'.b.state == Open && 0 !in s'.calls && s'.b.resetTimeout == s.b.resetTimeout
  {
    if n > 0 {
      PollingKeepsItOpen(s, n - 1, from, period);
      var now := from + (n - 1) * period;
      var t := Polls(n - 1, from, period);
      RunThree(s, t, Enter(0, false), Leave(0, true, now), Check(now + period));
      OneRoundKeepsItOpen(Run(s, t), now, period);
    }
  }

  lemma OneRoundKeepsItOpen(s: System, now: int, period: int)
    requires Inv(s) && s.b.state == Open && 0 !in s.calls && period <= s.b.resetTimeout
    ensures var s' := Step(Step(Step(s, Enter(0, false)), Leave(0, true, now)), Check(now + period));
      Inv(s') && s'.b.state == Open && 0 !in s'.calls && s'.b.resetTimeout == s.b.resetTimeout
  {
  }

  /** Without a health check the circuit opens exactly at the `threshold`-th failure ever
      recorded, whatever succeeded in between. */
  lemma {:induction false} OpensAtThresholdWithoutChecks(threshold: int, resetTimeout: int, trace: seq<Event>)
    requires threshold >= 1 && forall i :: 0 <= i < |trace| ==> !trace[i].Check?
    ensures var s := Run(Start(threshold, resetTimeout), trace);
      && s.b.state != HalfOpen && s.b.failCount == |s.failures|
      && (s.b.state == Open <==> |s.failures| >= threshold)
  {
    EveryRunKeepsInv(Start(threshold, resetTimeout), trace);
    if trace != [] {
      var n := |trace| - 1;
      OpensAtThresholdWithoutChecks(threshold, resetTimeout, trace[..n]);
      assert !trace[n].Check?;
    }
  }

  /** And then it stays open: nothing else ever closes it. */
  lemma StaysOpenWithoutChecks(s: System, trace: seq<Event>)
    requires Inv(s) && s.b.state == Open && forall i :: 0 <= i < |trace| ==> !trace[i].Check?
    ensures OpenThroughout(s, trace)
  {
    OutageLastsExactlyWhile(s, trace);
  }

  /** Left alone long enough and checked, an open circuit takes one successful call to close. */
  lemma Recovers(threshold: int, resetTimeout: int, trace: seq<Event>, c: nat, t0: int, t1: int)
    requires threshold >= 1
    requires var s := Run(Start(threshold, resetTimeout), trace);
      s.b.state == Open && c !in s.calls && t0 - s.b.lastFailTime > resetTimeout
    ensures var s := Run(Start(threshold, resetTimeout), trace);
      var s1 := Step(s, Check(t0));
      var s3 := Step(Step(s1, Enter(c, false)), Leave(c, true, t1));
      s1.b.state == HalfOpen && s3.b.state == Closed && s3.b.failCount == 0
  {
    EveryRunKeepsInv(Start(threshold, resetTimeout), trace);
  }
}

/**
 Retry around a database operation (internal/database/postgres.go), written once as a loop
 (`RetryQuery`, `RetryExec`) and once by recursion (`retryRow.Scan`).

 The operation's k-th call ends as `calls(k)`, and `cancelled(k)` says whether the context
 ended the wait after it.
 */
module DatabaseRetry {

  datatype Outcome = Done(value: string) | Transient(err: string) | Fatal(err: string)

  datatype Result = Success(value: string) | Failure(err: string) | Cancelled

  type Calls = nat -> Outcome
  type Cancels = nat -> bool

  const DEFAULT_MAX_ATTEMPTS := 3

  function Effective(maxAttempts: int): (r: int)
    ensures r >= 1
  {
    if maxAttempts <= 0 then DEFAULT_MAX_ATTEMPTS else maxAttempts
  }

  function Verdict(o: Outcome): Result {
    match o
    case Done(v) => Success(v)
    case Transient(e) => Failure(e)
    case Fatal(e) => Failure(e)
  }

  /** `retryRow.Scan` at its `attempt`-th row: the result, and the number of calls by then. */
  function Scan(calls: Calls, cancelled: Cancels, max: int, attempt: nat): (Result, nat)
    decreases max - attempt
  {
    if calls(attempt).Transient? && attempt < max then
      if cancelled(attempt) then (Cancelled, attempt)
      else Scan(calls, cancelled, max, attempt + 1)
    else (Verdict(calls(attempt)), attempt)
  }

  /** `RetryQueryRow` followed by one `Scan`. */
  function RetryQueryRow(maxAttempts: int, calls: Calls, cancelled: Cancels): (Result, nat) {
    Scan(calls, cancelled, Effective(maxAttempts), 1)
  }

  /** The loop of `RetryQuery` and of `RetryExec`: same result, after the same number of
      calls, as the recursion. */
  method RetryQuery(maxAttempts: int, calls: Calls, cancelled: Cancels) returns (r: Result, made: nat)
    ensures (r, made) == RetryQueryRow(maxAttempts, calls, cancelled)
  {
    var max := if maxAttempts <= 0 then DEFAULT_MAX_ATTEMPTS else maxAttempts;
    made := 0;
    var attempt := 1;
    var lastErr := Failure("");
    while attempt <= max
      invariant 1 <= attempt <= max && made == attempt - 1
      invariant Scan(calls, cancelled, max, 1) == Scan(calls, cancelled, max, attempt)
    {
      var o := calls(attempt);
      made := made + 1;
      if o.Done? {
        return Success(o.value), made;
      }
      lastErr := Failure(o.err);
      if !o.Transient? || attempt >= max {
        return lastErr, made;
      }
      if cancelled(attempt) {
        return Cancelled, made;
      }
      attempt := attempt + 1;
    }
  }

  /** The operation is not called again after its k-th call. */
  predicate Stops(calls: Calls, cancelled: Cancels, max: int, k: nat) {
    !calls(k).Transient? || k >= max || cancelled(k)
  }

  ghost predicate StopsFirstAt(calls: Calls, cancelled: Cancels, max: int, from: nat, k: nat) {
    from <= k && Stops(calls, cancelled, max, k) && forall j :: from <= j < k ==> !Stops(calls, cancelled, max, j)
  }

  /** The number of calls is the first at which retrying stops, and no other number is. */
  lemma {:induction false} ScanStopsFirst(calls: Calls, cancelled: Cancels, max: int, attempt: nat, k: nat)
    requires attempt <= max
    ensures Scan(calls, cancelled, max, attempt).1 <= max
    ensures Scan(calls, cancelled, max, attempt).1 == k <==> StopsFirstAt(calls, cancelled, max, attempt, k)
    decreases max - attempt
  {
    if !Stops(calls, cancelled, max, attempt) {
      ScanStopsFirst(calls, cancelled, max, attempt + 1, k);
      assert StopsFirstAt(calls, cancelled, max, attempt, k) <==> StopsFirstAt(calls, cancelled, max, attempt + 1, k) by {
        if StopsFirstAt(calls, cancelled, max, attempt, k) {
          assert k != attempt;
        }
      }
    }
  }

  lemma {:induction false} ScanResult(calls: Calls, cancelled: Cancels, max: int, attempt: nat)
    ensures var (r, n) := Scan(calls, cancelled, max, attempt);
      r == if calls(n).Transient? && n < max then Cancelled else Verdict(calls(n))
    decreases max - attempt
  {
    if !Stops(calls, cancelled, max, attempt) {
      ScanResult(calls, cancelled, max, attempt + 1);
    }
  }

  /** For every stream of outcomes and cancellations: at least one and at most the effective
      number of attempts are made; they are made up to the first that does not ask for
      another; and the result is that attempt's own, or the cancellation if one cut a retry
      off. */
  lemma RetryCharacterised(maxAttempts: int, calls: Calls, cancelled: Cancels, k: nat)
    ensures var (r, n) := RetryQueryRow(maxAttempts, calls, cancelled);
      var max := if maxAttempts > 0 then maxAttempts else 3;
      && 1 <= n <= max
      && (n == k <==> StopsFirstAt(calls, cancelled, max, 1, k))
      && (r.Cancelled? <==> calls(n).Transient? && n < max) && (r.Cancelled? ==> cancelled(n))
      && (r.Success? <==> calls(n).Done?) && (r.Success? ==> r.value == calls(n).value)
      && (r.Failure? ==> !calls(n).Done? && r.err == calls(n).err)
  {
    var max := Effective(maxAttempts);
    var (r, n) := Scan(calls, cancelled, max, 1);
    ScanStopsFirst(calls, cancelled, max, 1, k);
    ScanStopsFirst(calls, cancelled, max, 1, n);
    ScanResult(calls, cancelled, max, 1);
  }
}
