/**
 The circuit breaker that guards one LLM provider (internal/llm/circuit_breaker.go).

 `Execute` holds its lock twice, once before and once after the guarded call, so two calls
 can interleave.  `Admit` and `Settle` are those two critical sections; `Step` lets any
 number of callers take them in any order, with `Reset` in between.
 */
module CircuitBreakers {

  datatype CircuitState = Closed | Open | HalfOpen

  datatype Breaker = Breaker(
    state: CircuitState,
    failCount: int,
    successCount: int,
    lastFailure: int,
    halfOpenProbes: int,
    threshold: int,
    timeout: int)

  function NewBreaker(threshold: int, timeout: int): Breaker {
    Breaker(Closed, 0, 0, 0, 0, threshold, timeout)
  }

  /** The critical section before the call: the new state, and whether the call may run. */
  function Admit(b: Breaker, now: int): (Breaker, bool) {
    if b.state == Open && now - b.lastFailure <= b.timeout then (b, false)
    else
      var b1 := if b.state == Open then b.(state := HalfOpen, halfOpenProbes := 0) else b;
      if b1.state != HalfOpen then (b1, true)
      else if b1.halfOpenProbes != 0 then (b1, false)
      else (b1.(halfOpenProbes := 1), true)
  }

  /** The critical section after the call. */
  function Settle(b: Breaker, ok: bool, now: int): Breaker {
    if !ok then
      var b1 := b.(failCount := b.failCount + 1, lastFailure := now);
      if b1.failCount >= b1.threshold then b1.(state := Open) else b1
    else
      var b1 := b.(successCount := b.successCount + 1);
      if b1.state == HalfOpen then b1.(state := Closed, failCount := 0) else b1
  }

  function Cleared(b: Breaker): Breaker {
    b.(state := Closed, failCount := 0, successCount := 0)
  }

  /** The object itself: each method is one critical section. */
  class CircuitBreaker {
    var state: CircuitState
    var failCount: int
    var successCount: int
    var lastFailure: int
    var halfOpenProbes: int
    const threshold: int
    const timeout: int

    ghost function View(): Breaker
      reads this
    {
      Breaker(state, failCount, successCount, lastFailure, halfOpenProbes, threshold, timeout)
    }

    constructor (threshold: int, timeout: int)
      ensures View() == NewBreaker(threshold, timeout)
    {
      this.state, this.failCount, this.successCount := Closed, 0, 0;
      this.lastFailure, this.halfOpenProbes := 0, 0;
      this.threshold, this.timeout := threshold, timeout;
    }

    method BeginExecute(now: int) returns (admitted: bool)
      modifies this
      ensures (View(), admitted) == Admit(old(View()), now)
    {
      if state == Open {
        if now - lastFailure > timeout {
          state := HalfOpen;
          halfOpenProbes := 0;
        } else {
          return false;
        }
      }
      if state == HalfOpen {
        if halfOpenProbes != 0 {
          return false;
        }
        halfOpenProbes := 1;
      }
      return true;
    }

    method EndExecute(ok: bool, now: int)
      modifies this
      ensures View() == Settle(old(View()), ok, now)
    {
      if !ok {
        failCount := failCount + 1;
        lastFailure := now;
        if failCount >= threshold {
          state := Open;
        }
        return;
      }
      successCount := successCount + 1;
      if state == HalfOpen {
        state := Closed;
        failCount := 0;
      }
    }

    method IsOpen() returns (open: bool)
      ensures open <==> View().state == Open
    {
      open := state == Open;
    }

    method Reset()
      modifies this
      ensures View() == Cleared(old(View()))
    {
      state := Closed;
      failCount := 0;
      successCount := 0;
    }
  }

  // ---------------------------------------------------------------------------------------
  // Every interleaving
  // ---------------------------------------------------------------------------------------

  /** What a caller between its two critical sections was admitted as. */
  datatype Ticket = Ordinary | Probe(episode: nat)

  /** The breaker, the callers in flight, the number of half-open episodes so far, and the
      episode of every probe ever admitted, in order.  Beside it, from the events alone: when
      each call failed, how many did since the circuit was last closed by a probe or `Reset`,
      and how many succeeded since `Reset`. */
  datatype System = System(
    b: Breaker,
    inFlight: map<nat, Ticket>,
    episodes: nat,
    probes: seq<nat>,
    failures: seq<int>,
    sinceClosed: nat,
    successes: nat)

  datatype Event =
    | Begin(caller: nat, now: int)
    | End(caller: nat, ok: bool, now: int)
    | Reset

  function Start(threshold: int, timeout: int): System {
    System(NewBreaker(threshold, timeout), map[], 0, [], [], 0, 0)
  }

  /** One event.  A caller already in flight cannot begin, one not in flight cannot end. */
  function Step(s: System, e: Event): System {
    match e
    case Begin(c, now) =>
      if c in s.inFlight then s
      else
        var (b, admitted) := Admit(s.b, now);
        var episodes := if s.b.state == Open && b.state == HalfOpen then s.episodes + 1 else s.episodes;
        if !admitted then s.(b := b, episodes := episodes)
        else if b.state == HalfOpen then
          s.(b := b, inFlight := s.inFlight[c := Probe(episodes)], episodes := episodes, probes := s.probes + [episodes])
        else s.(b := b, inFlight := s.inFlight[c := Ordinary], episodes := episodes)
    case End(c, ok, now) =>
      if c !in s.inFlight then s
      else
        s.(b := Settle(s.b, ok, now),
           inFlight := s.inFlight - {c},
           failures := if ok then s.failures else s.failures + [now],
           sinceClosed := if !ok then s.sinceClosed + 1 else if s.b.state == HalfOpen then 0 else s.sinceClosed,
           successes := if ok then s.successes + 1 else s.successes)
    case Reset =>
      s.(b := Cleared(s.b), sinceClosed := 0, successes := 0)
  }

  function Run(s: System, trace: seq<Event>): System
    decreases |trace|
  {
    if trace == [] then s else Run(Step(s, trace[0]), trace[1..])
  }

  ghost predicate ProbeInFlight(s: System, episode: nat) {
    exists c :: c in s.inFlight && s.inFlight[c] == Probe(episode)
  }

  ghost predicate Inv(s: System) {
    && s.b.threshold >= 1
    && s.b.failCount == s.sinceClosed <= |s.failures| && s.b.successCount == s.successes
    && (s.failures != [] ==> s.b.lastFailure == s.failures[|s.failures| - 1])
    && (s.b.state == Closed <==> s.b.failCount < s.b.threshold)
    && (s.b.state == HalfOpen ==> s.b.halfOpenProbes == 1 && ProbeInFlight(s, s.episodes))
    && s.probes == seq(s.episodes, i => i + 1)
    && (forall c :: c in s.inFlight && s.inFlight[c].Probe? ==> s.inFlight[c].episode <= s.episodes)
    && (forall c, d :: c in s.inFlight && d in s.inFlight && s.inFlight[c].Probe? && s.inFlight[c] == s.inFlight[d] ==> c == d)
  }

  lemma StepKeepsInv(s: System, e: Event)
    requires Inv(s)
    ensures Inv(Step(s, e))
    ensures Step(s, e).b.threshold == s.b.threshold && Step(s, e).b.timeout == s.b.timeout
  {
    var s' := Step(s, e);
    match e
    case Begin(c, now) =>
      if c !in s.inFlight && Admit(s.b, now).1 && s'.b.state == HalfOpen {
        assert s'.inFlight[c] == Probe(s'.episodes);
      } else if s.b.state == HalfOpen {
        var p :| p in s.inFlight && s.inFlight[p] == Probe(s.episodes);
        assert p in s'.inFlight && s'.inFlight[p] == Probe(s'.episodes);
      }
    case End(c, ok, now) =>
    case Reset =>
  }

  /** In every interleaving: the circuit is closed exactly while fewer than `threshold` calls
      have failed since a probe or `Reset` last closed it, whatever succeeded in between; every
      half-open episode admitted exactly one probe (the probes' episodes are 1, 2, 3, ...); a
      half-open circuit still has that probe in flight; and the clock is the last failure. */
  lemma {:induction false} EveryRunKeepsInv(s: System, trace: seq<Event>)
    requires Inv(s)
    ensures Inv(Run(s, trace))
    ensures Run(s, trace).b.threshold == s.b.threshold && Run(s, trace).b.timeout == s.b.timeout
    decreases |trace|
  {
    if trace != [] {
      StepKeepsInv(s, trace[0]);
      EveryRunKeepsInv(Step(s, trace[0]), trace[1..]);
    }
  }

  lemma BreakerSafety(threshold: int, timeout: int, trace: seq<Event>)
    requires threshold >= 1
    ensures var s := Run(Start(threshold, timeout), trace);
      && (s.b.state == Closed <==> s.sinceClosed < threshold)
      && s.b.failCount == s.sinceClosed && s.b.successCount == s.successes
      && (s.b.state != Closed ==> s.failures != [] && s.b.lastFailure == s.failures[|s.failures| - 1])
      && (s.b.state == HalfOpen ==> ProbeInFlight(s, s.episodes))
      && s.probes == seq(s.episodes, i => i + 1)
  {
    EveryRunKeepsInv(Start(threshold, timeout), trace);
  }

  /** A half-open circuit has exactly one caller that can decide it as its probe: when that
      caller fails the circuit opens again, when it succeeds the circuit closes. */
  lemma ProbeDecides(threshold: int, timeout: int, trace: seq<Event>, ok: bool, now: int)
    requires threshold >= 1
    requires Run(Start(threshold, timeout), trace).b.state == HalfOpen
    ensures var s := Run(Start(threshold, timeout), trace);
      exists c :: c in s.inFlight && s.inFlight[c] == Probe(s.episodes)
        && (forall d :: d in s.inFlight && s.inFlight[d] == Probe(s.episodes) ==> d == c)
        && Step(s, End(c, ok, now)).b.state == (if ok then Closed else Open)
  {
    EveryRunKeepsInv(Start(threshold, timeout), trace);
    var s := Run(Start(threshold, timeout), trace);
    var c :| c in s.inFlight && s.inFlight[c] == Probe(s.episodes);
    assert Step(s, End(c, ok, now)).b == Settle(s.b, ok, now);
  }

  /** The one event that takes an open circuit away from open, other than `Reset`, is an
      admission more than `timeout` after the last failure. */
  lemma LeavesOpenOnlyByTimeout(s: System, e: Event)
    requires s.b.state == Open
    ensures Step(s, e).b.state != Open <==>
      e.Reset? || (e.Begin? && e.caller !in s.inFlight && e.now - s.b.lastFailure > s.b.timeout)
  {
  }

  /** In every reachable state, exactly when a call is let through: always while the circuit is
      closed, never while it is half-open, and while it is open if and only if more than
      `timeout` has passed since the last call that failed. */
  lemma AdmitsExactlyWhen(threshold: int, timeout: int, trace: seq<Event>, c: nat, now: int)
    requires threshold >= 1 && c !in Run(Start(threshold, timeout), trace).inFlight
    ensures var s := Run(Start(threshold, timeout), trace);
      c in Step(s, Begin(c, now)).inFlight <==>
        || s.b.state == Closed
        || (s.b.state == Open && s.failures != [] && now - s.failures[|s.failures| - 1] > timeout)
  {
    EveryRunKeepsInv(Start(threshold, timeout), trace);
  }

  /** Two admissions apart, an open circuit recovers: past the timeout it admits a probe,
      and the probe's success closes it with no failure counted. */
  lemma Recovers(threshold: int, timeout: int, trace: seq<Event>, c: nat, t0: int, t1: int)
    requires threshold >= 1
    requires var s := Run(Start(threshold, timeout), trace);
      s.b.state == Open && c !in s.inFlight && (s.failures != [] ==> t0 - s.failures[|s.failures| - 1] > timeout)
    ensures var s := Run(Start(threshold, timeout), trace);
      var s1 := Step(s, Begin(c, t0));
      var s2 := Step(s1, End(c, true, t1));
      s1.b.state == HalfOpen && s2.b.state == Closed && s2.b.failCount == 0
  {
    EveryRunKeepsInv(Start(threshold, timeout), trace);
  }

  /** In every half-open state that a run reaches, the events that decide the circuit are
      exactly `Reset` and the end of any call in flight, probe or not. */
  lemma HalfOpenEndsWithAnyCall(threshold: int, timeout: int, trace: seq<Event>, e: Event)
    requires threshold >= 1 && Run(Start(threshold, timeout), trace).b.state == HalfOpen
    ensures var s := Run(Start(threshold, timeout), trace);
      && (Step(s, e).b.state != HalfOpen <==> e.Reset? || (e.End? && e.caller in s.inFlight))
      && (e.End? && e.caller in s.inFlight ==> Step(s, e).b.state == if e.ok then Closed else Open)
  {
    EveryRunKeepsInv(Start(threshold, timeout), trace);
  }

  /** Every call whose end decides the circuit is the episode's probe. */
  ghost predicate OnlyProbeDecides(s: System) {
    forall c, ok, now :: Step(s, End(c, ok, now)).b.state != HalfOpen ==> c in s.inFlight && s.inFlight[c] == Probe(s.episodes)
  }

  /** So the probe alone decides a half-open circuit if and only if it is the only call in
      flight: no earlier call is still out. */
  lemma ProbeAloneDecidesIffAlone(threshold: int, timeout: int, trace: seq<Event>)
    requires threshold >= 1 && Run(Start(threshold, timeout), trace).b.state == HalfOpen
    ensures var s := Run(Start(threshold, timeout), trace);
      && (OnlyProbeDecides(s) <==> forall c :: c in s.inFlight ==> s.inFlight[c] == Probe(s.episodes))
      && (OnlyProbeDecides(s) <==> |s.inFlight| == 1)
  {
    EveryRunKeepsInv(Start(threshold, timeout), trace);
    var s := Run(Start(threshold, timeout), trace);
    hide Run;
    forall c | c in s.inFlight ensures Step(s, End(c, true, 0)).b.state != HalfOpen {
    }
    var p :| p in s.inFlight && s.inFlight[p] == Probe(s.episodes);
    if OnlyProbeDecides(s) {
      assert s.inFlight.Keys == {p};
      assert |s.inFlight| == |s.inFlight.Keys|;
    }
    if |s.inFlight| == 1 {
      assert |s.inFlight.Keys - {p}| == 0;
      assert forall c :: c in s.inFlight ==> c == p || c in s.inFlight.Keys - {p};
    }
  }

  /** Such states are reached: a call admitted long before, finishing well, closes the circuit
      while the probe is still out. */
  lemma StaleSuccessCloses()
    ensures exists trace ::
      var s := Run(Start(1, 30), trace);
      s.b.state == Closed && s.episodes == 1 && ProbeInFlight(s, 1)
  {
    var trace := [Begin(1, 0), Begin(2, 0), End(1, false, 10), Begin(3, 50), End(2, true, 51)];
    var s0 := Start(1, 30);
    var s1 := Step(s0, trace[0]);
    var s2 := Step(s1, trace[1]);
    var s3 := Step(s2, trace[2]);
    var s4 := Step(s3, trace[3]);
    var s5 := Step(s4, trace[4]);
    assert s3.b.state == Open && s4.b.state == HalfOpen;
    assert 3 in s5.inFlight && s5.inFlight[3] == Probe(1);
    calc {
      Run(s0, trace);
      { assert trace[1..] == [Begin(2, 0), End(1, false, 10), Begin(3, 50), End(2, true, 51)]; }
      Run(s1, trace[1..]);
      { assert trace[1..][1..] == trace[2..]; }
      Run(s2, trace[2..]);
      { assert trace[2..][1..] == trace[3..]; }
      Run(s3, trace[3..]);
      { assert trace[3..][1..] == trace[4..]; }
      Run(s4, trace[4..]);
      { assert trace[4..][1..] == []; }
      s5;
    }
  }
}
