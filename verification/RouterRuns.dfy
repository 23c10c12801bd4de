/**
 What holds over every run of the router: money is conserved, budgets bound it, circuits that
 open stay open, health follows the reports, and cached answers were once a provider's.
 */
module RouterRuns {
  import opened Wrappers
  import opened RealArithmetic
  import opened Finite
  import opened Router
  import Breakers = CircuitBreakers
  import Health
  import LlmCache
  import Budget

  // ---------------------------------------------------------------------------------------
  // What the log and the responses say
  // ---------------------------------------------------------------------------------------

  /** The costs of the responses returned for an org, or for a task. */
  function Spend(returned: seq<Returned>, a: Budget.Account): real {
    if returned == [] then 0.0
    else
      var n := |returned| - 1;
      Spend(returned[..n], a) + (if Budget.Pays(a, returned[n].orgID, returned[n].taskID) then returned[n].resp.cost else 0.0)
  }

  predicate PaidBy(e: Entry, a: Budget.Account) {
    e.Call? && Budget.Pays(a, e.orgID, e.taskID) && e.reply.ChatOk?
  }

  /** The larger of the initial usage and, over the account's paid calls, the budget plus what
      the call cost beyond its estimate. */
  function Ceiling(log: seq<Entry>, a: Budget.Account, initial: real, budget: real): real {
    if log == [] then initial
    else
      var n := |log| - 1;
      var below := Ceiling(log[..n], a, initial, budget);
      if PaidBy(log[n], a) then Max(below, budget + log[n].reply.resp.cost - log[n].estCost) else below
  }

  predicate IsFailure(e: Entry, provider: string) {
    e.Call? && e.provider == provider && e.reply.ChatError?
  }

  /** The failed chat calls to a provider. */
  function Failures(log: seq<Entry>, provider: string): nat {
    if log == [] then 0
    else Failures(log[..|log| - 1], provider) + (if IsFailure(log[|log| - 1], provider) then 1 else 0)
  }

  predicate Succeeded(e: Entry) {
    if e.Probe? then e.ok else e.reply.ChatOk?
  }

  /** The outcomes of chat calls and probes of a provider, oldest first. */
  function Reports(log: seq<Entry>, provider: string): seq<bool> {
    if log == [] then []
    else
      var e := log[|log| - 1];
      Reports(log[..|log| - 1], provider) + (if e.provider == provider then [Succeeded(e)] else [])
  }

  /** Some provider gave this content for the request with this key, and it was stored then. */
  ghost predicate Answered(log: seq<Entry>, key: LlmCache.Key, content: string, at: int) {
    exists i :: 0 <= i < |log| && Answers(log[i], key, content, at)
  }

  predicate Answers(e: Entry, key: LlmCache.Key, content: string, at: int) {
    e.Call? && LlmCache.CacheKey(e.req) == key && e.reply.ChatOk? && e.reply.resp.content == content && e.at == at
  }

  // ---------------------------------------------------------------------------------------
  // The invariant
  // ---------------------------------------------------------------------------------------

  ghost predicate Conserved(cf: Config, u0: Budget.Usage, s: System, a: Budget.Account) {
    cf.limits.Some? ==> Budget.Balance(s.w.usage, a) == Budget.Balance(u0, a) + Spend(s.returned, a)
  }

  ghost predicate WithinCeiling(cf: Config, u0: Budget.Usage, s: System, a: Budget.Account) {
    cf.limits.Some? && Budget.BudgetOf(cf.limits.value, a) > 0.0 ==>
      Budget.Balance(s.w.usage, a) <= Ceiling(s.log, a, Budget.Balance(u0, a), Budget.BudgetOf(cf.limits.value, a))
  }

  /** The circuit counts the failures, opens at the fifth, and lets no call through after. */
  ghost predicate CircuitTracks(cf: Config, s: System, p: string) {
    && (p in s.w.breakers <==> p in cf.providers)
    && (p in cf.providers ==>
         && s.w.breakers[p].threshold == FAILURE_THRESHOLD
         && s.w.breakers[p].failCount == Failures(s.log, p)
         && s.w.breakers[p].state == (if Failures(s.log, p) < FAILURE_THRESHOLD then Breakers.Closed else Breakers.Open))
  }

  ghost predicate CalledWhileClosed(log: seq<Entry>, p: string) {
    forall i :: 0 <= i < |log| && log[i].Call? && log[i].provider == p ==> Failures(log[..i], p) < FAILURE_THRESHOLD
  }

  ghost predicate HealthTracks(cf: Config, health: Health.Providers, log: seq<Entry>, p: string) {
    && (p in health <==> p in cf.providers)
    && (p in cf.providers ==> health[p] == Health.After(Reports(log, p)))
  }

  ghost predicate CacheSourced(cf: Config, s: System, key: LlmCache.Key) {
    key in s.w.cache.entries ==>
      var e := s.w.cache.entries[key];
      cf.cacheTtl.Some? && Answered(s.log, key, e.resp.content, e.expiresAt - cf.cacheTtl.value)
  }

  /** What the invariant is told about: any org or task, any provider and any request. */
  datatype Focus = Focus(account: Budget.Account, provider: string, key: LlmCache.Key)

  ghost predicate Inv(cf: Config, u0: Budget.Usage, s: System, f: Focus) {
    && Conserved(cf, u0, s, f.account)
    && WithinCeiling(cf, u0, s, f.account)
    && CircuitTracks(cf, s, f.provider)
    && CalledWhileClosed(s.log, f.provider)
    && HealthTracks(cf, s.w.health, s.log, f.provider)
    && CacheSourced(cf, s, f.key)
  }

  // ---------------------------------------------------------------------------------------
  // One attempt keeps it
  // ---------------------------------------------------------------------------------------

  /** An attempt in brief: nothing but the cache moves unless the provider is called, and it
      is called only while its circuit is not open and the budget allows the estimate. */
  lemma AttemptShape(cf: Config, w: World, task: Task, opt: Choice, o: Outside)
    ensures var (w', r, call) := Attempt(cf, w, task, opt, o);
      && (call.None? ==> w' == w.(cache := w'.cache) && (r.Served? ==> r.resp.cost == 0.0))
      && (call.Some? ==>
           && call.value == CallOf(cf, task, opt, o)
           && opt.provider in cf.providers && !IsOpen(w, opt.provider)
           && BudgetVerdict(cf, w, task, opt.estCost).Allowed?
           && (r.Served? <==> o.reply.ChatOk?) && (r.Served? ==> r.resp == o.reply.resp)
           && w'.health == Health.Reported(w.health, opt.provider, o.reply.ChatOk?)
           && w'.breakers == BreakersAfter(w.breakers, opt.provider, o.reply.ChatOk?, o)
           && w'.usage == (if cf.limits.Some? && o.reply.ChatOk? then Budget.Charged(w.usage, task.orgID, task.id, o.reply.resp.cost) else w.usage))
  {
    hide Health.Reported, BreakersAfter, Budget.Charged, Budget.Checked, LlmCache.Put, MaxTokensFor;
  }

  lemma TryConserves(cf: Config, u0: Budget.Usage, s: System, task: Task, opt: Choice, o: Outside, a: Budget.Account)
    requires Conserved(cf, u0, s, a)
    ensures Conserved(cf, u0, Try(cf, s, task, opt, o).0, a)
  {
    hide Attempt, CallOf, BudgetVerdict, IsOpen, Health.Reported, BreakersAfter;
    hide Budget.Charged, Budget.Balance, Budget.Pays, Spend;
    AttemptShape(cf, s.w, task, opt, o);
    var (w', r, call) := Attempt(cf, s.w, task, opt, o);
    if r.Served? {
      SpendOneMore(s.returned, Returned(task.orgID, task.id, r.resp), a);
      if call.Some? {
        Budget.ChargeAddsUp(s.w.usage, task.orgID, task.id, r.resp.cost, a);
      }
    }
  }

  lemma SpendOneMore(returned: seq<Returned>, e: Returned, a: Budget.Account)
    ensures Spend(returned + [e], a) == Spend(returned, a) + (if Budget.Pays(a, e.orgID, e.taskID) then e.resp.cost else 0.0)
  {
  }

  lemma LogOneMore(log: seq<Entry>, e: Entry, p: string)
    ensures Failures(log + [e], p) == Failures(log, p) + (if IsFailure(e, p) then 1 else 0)
    ensures Reports(log + [e], p) == Reports(log, p) + (if e.provider == p then [Succeeded(e)] else [])
  {
  }

  lemma CeilingOneMore(log: seq<Entry>, e: Entry, a: Budget.Account, initial: real, budget: real)
    ensures Ceiling(log + [e], a, initial, budget) ==
      (if PaidBy(e, a) then Max(Ceiling(log, a, initial, budget), budget + e.reply.resp.cost - e.estCost)
       else Ceiling(log, a, initial, budget))
  {
  }

  lemma TryStaysWithinCeiling(cf: Config, u0: Budget.Usage, s: System, task: Task, opt: Choice, o: Outside, a: Budget.Account)
    requires WithinCeiling(cf, u0, s, a)
    ensures WithinCeiling(cf, u0, Try(cf, s, task, opt, o).0, a)
  {
    if cf.limits.Some? {
      hide Attempt, Budget.Charged, Budget.Balance, Budget.BudgetOf, Budget.Checked, Budget.Pays, Ceiling;
      AttemptShape(cf, s.w, task, opt, o);
      var (w', r, call) := Attempt(cf, s.w, task, opt, o);
      if call.Some? {
        CeilingOneMore(s.log, call.value, a, Budget.Balance(u0, a), Budget.BudgetOf(cf.limits.value, a));
        Budget.AllowedIff(cf.limits.value, s.w.usage, task.orgID, task.id, opt.estCost);
        if r.Served? {
          Budget.ChargeAddsUp(s.w.usage, task.orgID, task.id, r.resp.cost, a);
        }
      }
    }
  }

  /** A closed circuit admits the report of any outcome; only the fifth failure changes it. */
  lemma ExecutedWhenClosed(b: Breakers.Breaker, ok: bool, begin: int, end: int)
    requires b.state == Breakers.Closed
    ensures var b' := Executed(b, ok, begin, end);
      && b'.threshold == b.threshold
      && b'.failCount == b.failCount + (if ok then 0 else 1)
      && b'.state == (if !ok && b.failCount + 1 >= b.threshold then Breakers.Open else Breakers.Closed)
  {
  }

  lemma TryTracksCircuit(cf: Config, s: System, task: Task, opt: Choice, o: Outside, p: string)
    requires CircuitTracks(cf, s, p) && CalledWhileClosed(s.log, p)
    ensures var s' := Try(cf, s, task, opt, o).0;
      CircuitTracks(cf, s', p) && CalledWhileClosed(s'.log, p)
  {
    AttemptShape(cf, s.w, task, opt, o);
    var call := Attempt(cf, s.w, task, opt, o).2;
    if call.Some? {
      LogOneMore(s.log, call.value, p);
      if opt.provider == p {
        ExecutedWhenClosed(s.w.breakers[p], o.reply.ChatOk?, o.begin, o.end);
      }
      hide Attempt, Executed, Failures, KeyOf;
      CallsOneMore(s.log, call.value, p);
    } else {
      hide Attempt, Executed, Failures;
    }
  }

  lemma CallsOneMore(log: seq<Entry>, e: Entry, p: string)
    requires CalledWhileClosed(log, p)
    requires e.Call? && e.provider == p ==> Failures(log, p) < FAILURE_THRESHOLD
    ensures CalledWhileClosed(log + [e], p)
  {
    hide Failures;
    assert forall i :: 0 <= i <= |log| ==> (log + [e])[..i] == log[..i];
    assert log[..|log|] == log;
  }

  lemma HealthOneMore(reports: seq<bool>, ok: bool)
    ensures Health.After(reports + [ok]) == if ok then Health.Better(Health.After(reports)) else Health.Worse(Health.After(reports))
  {
  }

  lemma ReportTracks(cf: Config, health: Health.Providers, log: seq<Entry>, e: Entry, p: string)
    requires HealthTracks(cf, health, log, p)
    ensures HealthTracks(cf, Health.Reported(health, e.provider, Succeeded(e)), log + [e], p)
  {
    LogOneMore(log, e, p);
    HealthOneMore(Reports(log, p), Succeeded(e));
    hide Health.After, Reports, Health.Better, Health.Worse, Succeeded;
    assert Reports(log, p) + [] == Reports(log, p);
  }

  lemma TryTracksHealth(cf: Config, s: System, task: Task, opt: Choice, o: Outside, p: string)
    requires HealthTracks(cf, s.w.health, s.log, p)
    ensures var s' := Try(cf, s, task, opt, o).0;
      HealthTracks(cf, s'.w.health, s'.log, p)
  {
    AttemptShape(cf, s.w, task, opt, o);
    var call := Attempt(cf, s.w, task, opt, o).2;
    if call.Some? {
      assert Succeeded(call.value) == o.reply.ChatOk?;
      hide Attempt, HealthTracks, Health.Reported, KeyOf;
      ReportTracks(cf, s.w.health, s.log, call.value, p);
    } else {
      hide Attempt, HealthTracks;
    }
  }

  /** Where a cache entry, and a response, come from. */
  lemma AttemptCache(cf: Config, w: World, task: Task, opt: Choice, o: Outside, key: LlmCache.Key)
    ensures var (w', r, call) := Attempt(cf, w, task, opt, o);
      && (key in w'.cache.entries ==>
           || (key in w.cache.entries && w'.cache.entries[key] == w.cache.entries[key])
           || (call.Some? && o.reply.ChatOk? && cf.cacheTtl.Some? && key == KeyOf(cf, task, opt.model)
               && w'.cache.entries[key] == LlmCache.CacheEntry(o.reply.resp, o.store + cf.cacheTtl.value)))
      && (r.Served? && call.None? ==>
           && KeyOf(cf, task, opt.model) in w.cache.entries
           && w.cache.entries[KeyOf(cf, task, opt.model)].resp.content == r.resp.content
           && o.lookup <= w.cache.entries[KeyOf(cf, task, opt.model)].expiresAt)
  {
    hide Health.Reported, BreakersAfter, Budget.Charged, Budget.Checked, MaxTokensFor;
  }

  lemma AnsweredStays(log: seq<Entry>, e: Entry, key: LlmCache.Key, content: string, at: int)
    requires Answered(log, key, content, at) || Answers(e, key, content, at)
    ensures Answered(log + [e], key, content, at)
  {
    if Answered(log, key, content, at) {
      var i :| 0 <= i < |log| && Answers(log[i], key, content, at);
      assert (log + [e])[i] == log[i];
    } else {
      assert (log + [e])[|log|] == e;
    }
  }

  lemma TryKeepsCacheSourced(cf: Config, s: System, task: Task, opt: Choice, o: Outside, key: LlmCache.Key)
    requires CacheSourced(cf, s, key)
    ensures CacheSourced(cf, Try(cf, s, task, opt, o).0, key)
  {
    AttemptShape(cf, s.w, task, opt, o);
    AttemptCache(cf, s.w, task, opt, o, key);
    var (w', r, call) := Attempt(cf, s.w, task, opt, o);
    hide Attempt, Answered, RequestOf;
    if key in w'.cache.entries && call.Some? {
      var e := w'.cache.entries[key];
      AnsweredStays(s.log, call.value, key, e.resp.content, e.expiresAt - cf.cacheTtl.value);
    }
  }

  lemma TryKeepsInv(cf: Config, u0: Budget.Usage, s: System, task: Task, opt: Choice, o: Outside, f: Focus)
    requires Inv(cf, u0, s, f)
    ensures Inv(cf, u0, Try(cf, s, task, opt, o).0, f)
  {
    TryConserves(cf, u0, s, task, opt, o, f.account);
    TryStaysWithinCeiling(cf, u0, s, task, opt, o, f.account);
    TryTracksCircuit(cf, s, task, opt, o, f.provider);
    TryTracksHealth(cf, s, task, opt, o, f.provider);
    TryKeepsCacheSourced(cf, s, task, opt, o, f.key);
    hide Try, Conserved, WithinCeiling, CircuitTracks, CalledWhileClosed, HealthTracks, CacheSourced;
  }

  // ---------------------------------------------------------------------------------------
  // So does every run
  // ---------------------------------------------------------------------------------------

  lemma {:induction false} WalkKeepsInv(cf: Config, u0: Budget.Usage, s: System, task: Task, opts: seq<Choice>, io: Outsides, k: nat, f: Focus)
    requires Inv(cf, u0, s, f)
    ensures Inv(cf, u0, Walk(cf, s, task, opts, io, k).0, f)
    decreases |opts| - k
  {
    hide Inv, Try;
    if k < |opts| {
      TryKeepsInv(cf, u0, s, task, opts[k], io(k), f);
      WalkKeepsInv(cf, u0, Try(cf, s, task, opts[k], io(k)).0, task, opts, io, k + 1, f);
    }
  }

  lemma ProbeStaysWithinCeiling(cf: Config, u0: Budget.Usage, s: System, s': System, e: Entry, a: Budget.Account)
    requires WithinCeiling(cf, u0, s, a) && s'.w.usage == s.w.usage && s'.log == s.log + [e] && e.Probe?
    ensures WithinCeiling(cf, u0, s', a)
  {
  }

  lemma ProbeTracksCircuit(cf: Config, s: System, s': System, e: Entry, p: string)
    requires CircuitTracks(cf, s, p) && s'.w.breakers == s.w.breakers && s'.log == s.log + [e] && e.Probe?
    ensures CircuitTracks(cf, s', p)
  {
  }

  lemma CheckKeepsInv(cf: Config, u0: Budget.Usage, s: System, name: string, ok: bool, f: Focus)
    requires Inv(cf, u0, s, f)
    ensures Inv(cf, u0, Step(cf, s, CheckHealth(name, ok)), f)
  {
    var s' := Step(cf, s, CheckHealth(name, ok));
    var e := Probe(name, ok);
    ProbeStaysWithinCeiling(cf, u0, s, s', e, f.account);
    ProbeTracksCircuit(cf, s, s', e, f.provider);
    CallsOneMore(s.log, e, f.provider);
    ReportTracks(cf, s.w.health, s.log, e, f.provider);
    hide Health.Reported, Spend, Budget.Balance, WithinCeiling, HealthTracks, CircuitTracks, CalledWhileClosed, Answered;
    if f.key in s.w.cache.entries {
      var c := s.w.cache.entries[f.key];
      AnsweredStays(s.log, e, f.key, c.resp.content, c.expiresAt - cf.cacheTtl.value);
    }
  }

  lemma StepKeepsInv(cf: Config, u0: Budget.Usage, s: System, e: Event, f: Focus)
    requires Inv(cf, u0, s, f)
    ensures Inv(cf, u0, Step(cf, s, e), f)
  {
    hide Inv, Ranking, Rest;
    match e
    case Execute(task, ranked, rest, io) =>
      WalkKeepsInv(cf, u0, s, task, Head(ranked) + rest, io, 0, f);
    case CheckHealth(name, ok) =>
      CheckKeepsInv(cf, u0, s, name, ok, f);
  }

  lemma {:induction false} RunKeepsInv(cf: Config, u0: Budget.Usage, s: System, trace: seq<Event>, f: Focus)
    requires Inv(cf, u0, s, f)
    ensures Inv(cf, u0, Run(cf, s, trace), f)
    decreases |trace|
  {
    hide Inv, Step;
    if trace != [] {
      StepKeepsInv(cf, u0, s, trace[0], f);
      RunKeepsInv(cf, u0, Step(cf, s, trace[0]), trace[1..], f);
    }
  }

  lemma EveryRunKeepsInv(cf: Config, u0: Budget.Usage, trace: seq<Event>, f: Focus)
    ensures Inv(cf, u0, Run(cf, Fresh(cf, u0), trace), f)
  {
    assert Inv(cf, u0, Fresh(cf, u0), f);
    RunKeepsInv(cf, u0, Fresh(cf, u0), trace, f);
  }

  // ---------------------------------------------------------------------------------------
  // Money
  // ---------------------------------------------------------------------------------------

  const ANY_KEY := LlmCache.Key("", "", [], 0)
  const ANY_ACCOUNT := Budget.Account(Budget.Org, "")

  /** Conservation: in every run, what an org's and a task's recorded usage grew by is what the
      responses returned for them cost, to the cent; cached ones cost nothing and failed
      attempts record nothing. */
  lemma SpendIsConserved(cf: Config, u0: Budget.Usage, trace: seq<Event>, a: Budget.Account)
    requires cf.limits.Some?
    ensures var s := Run(cf, Fresh(cf, u0), trace);
      Budget.Balance(s.w.usage, a) == Budget.Balance(u0, a) + Spend(s.returned, a)
  {
    hide Run;
    EveryRunKeepsInv(cf, u0, trace, Focus(a, "", ANY_KEY));
  }

  /** The responses recorded as returned are those that requests return, one each at most. */
  lemma {:induction false} WalkReturnsOne(cf: Config, s: System, task: Task, opts: seq<Choice>, io: Outsides, k: nat)
    ensures var (s', resp, n) := Walk(cf, s, task, opts, io, k);
      s'.returned == s.returned + (if resp.Some? then [Returned(task.orgID, task.id, resp.value)] else [])
    decreases |opts| - k
  {
    hide Attempt;
    if k < |opts| {
      WalkReturnsOne(cf, Try(cf, s, task, opts[k], io(k)).0, task, opts, io, k + 1);
    }
  }

  /** No paid call of the account cost more than `worst` beyond its estimate. */
  ghost predicate OverrunsWithin(log: seq<Entry>, a: Budget.Account, worst: real) {
    forall i :: 0 <= i < |log| && PaidBy(log[i], a) ==> log[i].reply.resp.cost - log[i].estCost <= worst
  }

  lemma {:induction false} CeilingIsBounded(log: seq<Entry>, a: Budget.Account, initial: real, budget: real, worst: real)
    requires OverrunsWithin(log, a, worst)
    ensures Ceiling(log, a, initial, budget) <= Max(initial, budget + worst)
  {
    if log != [] {
      CeilingIsBounded(log[..|log| - 1], a, initial, budget, worst);
    }
  }

  /** With a budget set, however long the run: an org's or a task's usage never exceeds the
      larger of what it was at the start and the budget plus the worst amount by which a single
      paid call exceeded its estimate. */
  lemma OvershootDoesNotAccumulate(cf: Config, u0: Budget.Usage, trace: seq<Event>, a: Budget.Account, worst: real)
    requires cf.limits.Some? && Budget.BudgetOf(cf.limits.value, a) > 0.0
    requires OverrunsWithin(Run(cf, Fresh(cf, u0), trace).log, a, worst)
    ensures var s := Run(cf, Fresh(cf, u0), trace);
      Budget.Balance(s.w.usage, a) <= Max(Budget.Balance(u0, a), Budget.BudgetOf(cf.limits.value, a) + worst)
  {
    hide Run, OverrunsWithin;
    var log := Run(cf, Fresh(cf, u0), trace).log;
    EveryRunKeepsInv(cf, u0, trace, Focus(a, "", ANY_KEY));
    CeilingIsBounded(log, a, Budget.Balance(u0, a), Budget.BudgetOf(cf.limits.value, a), worst);
  }

  // ---------------------------------------------------------------------------------------
  // Circuits
  // ---------------------------------------------------------------------------------------

  lemma {:induction false} FailuresGrow(log: seq<Entry>, n: nat, p: string)
    requires n <= |log|
    ensures Failures(log[..n], p) <= Failures(log, p)
  {
    if n < |log| {
      FailuresGrow(log[..|log| - 1], n, p);
      assert log[..|log| - 1][..n] == log[..n];
    } else {
      assert log[..n] == log;
    }
  }

  lemma {:induction false} AtMostThresholdFailures(log: seq<Entry>, p: string)
    requires CalledWhileClosed(log, p)
    ensures Failures(log, p) <= FAILURE_THRESHOLD
  {
    if log != [] {
      var n := |log| - 1;
      assert CalledWhileClosed(log[..n], p) by {
        assert forall i :: 0 <= i < n ==> log[..n][..i] == log[..i];
      }
      AtMostThresholdFailures(log[..n], p);
    }
  }

  /** Over a whole run a provider fails at most five calls, and its circuit is open exactly
      when it has failed five; successes in between do not count against that. */
  lemma ProviderFailsAtMostFiveTimes(cf: Config, u0: Budget.Usage, trace: seq<Event>, p: string)
    requires p in cf.providers
    ensures var s := Run(cf, Fresh(cf, u0), trace);
      && Failures(s.log, p) <= 5
      && (IsOpen(s.w, p) <==> Failures(s.log, p) == 5)
  {
    hide Run;
    EveryRunKeepsInv(cf, u0, trace, Focus(ANY_ACCOUNT, p, ANY_KEY));
    AtMostThresholdFailures(Run(cf, Fresh(cf, u0), trace).log, p);
  }

  ghost predicate Grows(a: System, b: System) {
    |a.log| <= |b.log| && b.log[..|a.log|] == a.log
  }

  lemma {:induction false} WalkGrows(cf: Config, s: System, task: Task, opts: seq<Choice>, io: Outsides, k: nat)
    ensures Grows(s, Walk(cf, s, task, opts, io, k).0)
    decreases |opts| - k
  {
    hide Attempt;
    if k < |opts| {
      var s1 := Try(cf, s, task, opts[k], io(k)).0;
      assert Grows(s, s1);
      WalkGrows(cf, s1, task, opts, io, k + 1);
      GrowsOn(s, s1, Walk(cf, s1, task, opts, io, k + 1).0);
    }
  }

  lemma GrowsOn(a: System, b: System, c: System)
    requires Grows(a, b) && Grows(b, c)
    ensures Grows(a, c)
  {
  }

  lemma {:induction false} RunGrows(cf: Config, s: System, trace: seq<Event>)
    ensures Grows(s, Run(cf, s, trace))
    decreases |trace|
  {
    if trace != [] {
      var s1 := Step(cf, s, trace[0]);
      assert Grows(s, s1) by {
        hide Ranking, Rest, Walk;
        if trace[0].Execute? {
          WalkGrows(cf, s, trace[0].task, Head(trace[0].ranked) + trace[0].rest, trace[0].io, 0);
        }
      }
      hide Step;
      RunGrows(cf, s1, trace[1..]);
      GrowsOn(s, s1, Run(cf, s1, trace[1..]));
    }
  }

  lemma {:induction false} RunTwice(cf: Config, s: System, a: seq<Event>, b: seq<Event>)
    ensures Run(cf, s, a + b) == Run(cf, Run(cf, s, a), b)
    decreases |a|
  {
    hide Step;
    if a == [] {
      assert a + b == b;
    } else {
      assert (a + b)[1..] == a[1..] + b;
      RunTwice(cf, Step(cf, s, a[0]), a[1..], b);
    }
  }

  /** An attempt skips a provider whose circuit is open, so nothing ever probes it: once open
      it stays open, and the provider is never called again, whatever its health checks say. */
  lemma OpenCircuitStaysOpen(cf: Config, u0: Budget.Usage, trace: seq<Event>, more: seq<Event>, p: string)
    requires p in cf.providers && IsOpen(Run(cf, Fresh(cf, u0), trace).w, p)
    ensures var s, s' := Run(cf, Fresh(cf, u0), trace), Run(cf, Fresh(cf, u0), trace + more);
      && IsOpen(s'.w, p)
      && |s.log| <= |s'.log| && s'.log[..|s.log|] == s.log
      && forall i :: |s.log| <= i < |s'.log| ==> !(s'.log[i].Call? && s'.log[i].provider == p)
  {
    var s, s' := Run(cf, Fresh(cf, u0), trace), Run(cf, Fresh(cf, u0), trace + more);
    RunTwice(cf, Fresh(cf, u0), trace, more);
    RunGrows(cf, s, more);
    ProviderFailsAtMostFiveTimes(cf, u0, trace, p);
    ProviderFailsAtMostFiveTimes(cf, u0, trace + more, p);
    EveryRunKeepsInv(cf, u0, trace + more, Focus(ANY_ACCOUNT, p, ANY_KEY));
    hide Run, Failures;
    FailuresGrow(s'.log, |s.log|, p);
    forall i | |s.log| <= i < |s'.log| ensures !(s'.log[i].Call? && s'.log[i].provider == p) {
      FailuresGrow(s'.log[..i], |s.log|, p);
      assert s'.log[..i][..|s.log|] == s.log;
    }
  }

  // ---------------------------------------------------------------------------------------
  // Routing
  // ---------------------------------------------------------------------------------------

  /** In every run: a model may be chosen exactly when it is priced and able and its registered
      provider has not failed since its last success; and such a provider is fully trusted. */
  lemma EligibleExactly(cf: Config, u0: Budget.Usage, trace: seq<Event>, task: Task, model: string)
    requires model in cf.prices
    ensures var s := Run(cf, Fresh(cf, u0), trace);
      var p := cf.prices[model].provider;
      && (Eligible(cf, s.w.health, task, model) <==>
           && p in cf.providers && Health.Streak(Reports(s.log, p)) == 0
           && Elems(task.requiredCapabilities) <= Elems(cf.prices[model].capabilities))
      && (Eligible(cf, s.w.health, task, model) ==> s.w.health[p].status == Health.Healthy && Health.Score(s.w.health, p) == 1.0)
  {
    SupportsExactly(cf.prices[model], task.requiredCapabilities);
    hide Run, SupportsAll, Elems;
    var s := Run(cf, Fresh(cf, u0), trace);
    var p := cf.prices[model].provider;
    EveryRunKeepsInv(cf, u0, trace, Focus(ANY_ACCOUNT, p, ANY_KEY));
    Health.StatusIsStreak(Reports(s.log, p));
    hide Health.Streak, Reports, Health.After;
  }

  lemma SupportsExactly(info: ModelInfo, required: seq<string>)
    ensures SupportsAll(info, required) <==> Elems(required) <= Elems(info.capabilities)
  {
    if Elems(required) <= Elems(info.capabilities) {
      forall i | 0 <= i < |required| ensures required[i] in info.capabilities {
        assert required[i] in Elems(required);
      }
    }
  }

  /** Candidates of equal cost are in order of confidence. */
  lemma RankingBreaksTies(cf: Config, health: Health.Providers, task: Task, ranked: seq<Choice>, i: nat, j: nat)
    requires Ranking(cf, health, task, ranked) && i < j < |ranked|
    ensures ranked[i].estCost <= ranked[j].estCost
    ensures ranked[i].estCost == ranked[j].estCost ==>
      Health.Score(health, ranked[i].provider) >= Health.Score(health, ranked[j].provider)
  {
    hide Candidates, Health.Score;
    assert Before(health, ranked[i], ranked[j]);
  }

  lemma {:induction false} FilteredMembers(cf: Config, health: Health.Providers, task: Task, models: seq<string>, c: Choice)
    ensures c in Filtered(cf, health, task, models) <==>
      c.model in models && Eligible(cf, health, task, c.model) && c == ChoiceOf(cf, task, c.model)
  {
    hide EstimatedCost, SupportsAll, Health.Usable;
    if models != [] {
      var n := |models| - 1;
      FilteredMembers(cf, health, task, models[..n], c);
      assert models == models[..n] + [models[n]];
    }
  }

  lemma CandidateMembers(cf: Config, health: Health.Providers, task: Task, c: Choice)
    ensures c in Candidates(cf, health, task) ==> Eligible(cf, health, task, c.model) && c == ChoiceOf(cf, task, c.model)
    ensures c.model in Considered(task) && Eligible(cf, health, task, c.model) && c == ChoiceOf(cf, task, c.model) ==>
      c in Candidates(cf, health, task)
  {
    hide Filtered, Eligible, Considered, ChoiceOf;
    FilteredMembers(cf, health, task, Considered(task), c);
    FilteredMembers(cf, health, task, [cf.defaultModel], c);
  }

  /** In every run, whatever ranking the sort leaves: the primary is a cheapest of all models
      in the task's tier (or its target) that may be chosen, routing finds one whenever there
      is one, and every candidate is at its own price with a registered provider that has not
      failed since its last success. */
  lemma RoutesToCheapest(cf: Config, u0: Budget.Usage, trace: seq<Event>, task: Task, ranked: seq<Choice>, model: string, i: nat)
    requires var s := Run(cf, Fresh(cf, u0), trace); Ranking(cf, s.w.health, task, ranked)
    ensures var s := Run(cf, Fresh(cf, u0), trace);
      && (model in Considered(task) && Eligible(cf, s.w.health, task, model) ==>
           ranked != [] && ranked[0].estCost <= EstimatedCost(cf.outputTokens, task, cf.prices[model]))
      && (i < |ranked| ==>
           && Eligible(cf, s.w.health, task, ranked[i].model) && ranked[i] == ChoiceOf(cf, task, ranked[i].model)
           && ranked[i].provider in cf.providers
           && Health.Streak(Reports(s.log, ranked[i].provider)) == 0
           && Health.Score(s.w.health, ranked[i].provider) == 1.0)
  {
    hide Run, Considered, Candidates, EstimatedCost;
    var s := Run(cf, Fresh(cf, u0), trace);
    if i < |ranked| {
      RankedIsCandidate(cf, s.w.health, task, ranked, i);
      EligibleExactly(cf, u0, trace, task, ranked[i].model);
    }
    if model in Considered(task) && Eligible(cf, s.w.health, task, model) {
      CandidateMembers(cf, s.w.health, task, ChoiceOf(cf, task, model));
      CheapestFirst(cf, s.w.health, task, ranked, ChoiceOf(cf, task, model));
    }
  }

  /** The default model may stand in: it is set, is not the target, and may be chosen. */
  predicate DefaultServes(cf: Config, health: Health.Providers, task: Task) {
    cf.defaultModel != "" && cf.defaultModel != task.targetModel && Eligible(cf, health, task, cf.defaultModel)
  }

  ghost predicate SomeConsidered(cf: Config, health: Health.Providers, task: Task) {
    exists m :: m in Considered(task) && Eligible(cf, health, task, m)
  }

  lemma FilteredFindsSome(cf: Config, health: Health.Providers, task: Task)
    ensures Filtered(cf, health, task, Considered(task)) != [] <==> SomeConsidered(cf, health, task)
  {
    hide Considered, Filtered, EstimatedCost, SupportsAll, Health.Usable;
    var found := Filtered(cf, health, task, Considered(task));
    if found != [] {
      FilteredMembers(cf, health, task, Considered(task), found[0]);
    }
    if SomeConsidered(cf, health, task) {
      var m :| m in Considered(task) && Eligible(cf, health, task, m);
      FilteredMembers(cf, health, task, Considered(task), ChoiceOf(cf, task, m));
    }
  }

  lemma FilteredOne(cf: Config, health: Health.Providers, task: Task, model: string)
    ensures Filtered(cf, health, task, [model]) == if Eligible(cf, health, task, model) then [ChoiceOf(cf, task, model)] else []
  {
    hide Eligible, ChoiceOf;
    assert [model][..0] == [];
  }

  lemma SameChoices(ranked: seq<Choice>, candidates: seq<Choice>)
    requires multiset(ranked) == multiset(candidates)
    ensures |ranked| == |candidates| && (|candidates| == 1 ==> ranked == candidates)
  {
    assert |ranked| == |multiset(ranked)| && |candidates| == |multiset(candidates)|;
    if |candidates| == 1 {
      assert ranked[0] in multiset(candidates);
    }
  }

  /** Routing succeeds if and only if some model in the task's tier (or its target) may be
      chosen, or else the default model; and the default is then the only candidate. */
  lemma RoutesExactlyWhen(cf: Config, health: Health.Providers, task: Task, ranked: seq<Choice>)
    requires Ranking(cf, health, task, ranked)
    ensures ranked != [] <==> SomeConsidered(cf, health, task) || DefaultServes(cf, health, task)
    ensures !SomeConsidered(cf, health, task) && DefaultServes(cf, health, task) ==>
      cf.defaultModel in cf.prices && ranked == [ChoiceOf(cf, task, cf.defaultModel)]
  {
    FilteredFindsSome(cf, health, task);
    FilteredOne(cf, health, task, cf.defaultModel);
    SameChoices(ranked, Candidates(cf, health, task));
    assert DefaultServes(cf, health, task) ==> cf.defaultModel in cf.prices;
    hide Considered, Filtered, Eligible, ChoiceOf, Sorted, SomeConsidered;
  }

  lemma RankedIsCandidate(cf: Config, health: Health.Providers, task: Task, ranked: seq<Choice>, i: nat)
    requires Ranking(cf, health, task, ranked) && i < |ranked|
    ensures Eligible(cf, health, task, ranked[i].model) && ranked[i] == ChoiceOf(cf, task, ranked[i].model)
  {
    hide Candidates, Eligible, ChoiceOf;
    assert ranked[i] in multiset(ranked);
    CandidateMembers(cf, health, task, ranked[i]);
  }

  lemma CheapestFirst(cf: Config, health: Health.Providers, task: Task, ranked: seq<Choice>, c: Choice)
    requires Ranking(cf, health, task, ranked) && c in Candidates(cf, health, task)
    ensures ranked != [] && ranked[0].estCost <= c.estCost
  {
    hide Candidates, Health.Score;
    assert c in multiset(ranked);
    var j :| 0 <= j < |ranked| && ranked[j] == c;
    assert j == 0 || Before(health, ranked[0], ranked[j]);
  }

  // ---------------------------------------------------------------------------------------
  // Failover
  // ---------------------------------------------------------------------------------------

  /** Without a response every option was tried; with one, the last option tried gave it. */
  lemma {:induction false} WalkCount(cf: Config, s: System, task: Task, opts: seq<Choice>, io: Outsides, k: nat)
    requires k <= |opts|
    ensures var (s', resp, n) := Walk(cf, s, task, opts, io, k);
      n <= |opts| - k && (resp.None? ==> n == |opts| - k) && (resp.Some? ==> n > 0)
    decreases |opts| - k
  {
    hide Try;
    if k < |opts| {
      WalkCount(cf, Try(cf, s, task, opts[k], io(k)).0, task, opts, io, k + 1);
    }
  }

  /** Distinct providers of a set are no more than the set. */
  lemma {:induction false} DistinctFit(opts: seq<Choice>, providers: set<string>)
    requires forall i :: 0 <= i < |opts| ==> opts[i].provider in providers
    requires forall i, j :: 0 <= i < j < |opts| ==> opts[i].provider != opts[j].provider
    ensures |opts| <= |providers|
  {
    if opts != [] {
      var n := |opts| - 1;
      DistinctFit(opts[..n], providers - {opts[n].provider});
    }
  }

  lemma RestFits(cf: Config, head: seq<Choice>, rest: seq<Choice>)
    requires head != [] && head[0].provider in cf.providers && Rest(cf, Tried(head), rest)
    ensures |rest| < |cf.providers|
  {
    var p := head[0].provider;
    assert p in Tried(head);
    DistinctFit(rest, cf.providers - {p});
  }

  /** In every run: without a candidate nothing is tried.  With one, at most three more attempts
      are made than there are providers, and only after trying every provider that has a priced
      model does the request fail. */
  lemma FailoverTriesEveryProvider(cf: Config, u0: Budget.Usage, trace: seq<Event>, task: Task, ranked: seq<Choice>, rest: seq<Choice>, io: Outsides, p: string, model: string)
    requires Ranking(cf, Run(cf, Fresh(cf, u0), trace).w.health, task, ranked)
    requires Rest(cf, Tried(Head(ranked)), rest)
    ensures var (s', resp, n) := Failover(cf, Run(cf, Fresh(cf, u0), trace), task, ranked, rest, io);
      && (ranked == [] ==> s' == Run(cf, Fresh(cf, u0), trace) && resp.None? && n == 0)
      && (ranked != [] ==> 1 <= n <= 3 + |cf.providers|) && n <= |Head(ranked) + rest|
      && (ranked != [] && resp.None? && p in cf.providers && Models(cf, p, model) && !Models(cf, p, "") ==>
           p in Tried((Head(ranked) + rest)[..n]))
  {
    if ranked != [] {
      RoutesToCheapest(cf, u0, trace, task, ranked, "", 0);
      var s := Run(cf, Fresh(cf, u0), trace);
      hide Run, Ranking, Eligible, Try;
      var opts := Head(ranked) + rest;
      assert Head(ranked)[0] == ranked[0];
      RestFits(cf, Head(ranked), rest);
      WalkCount(cf, s, task, opts, io, 0);
      assert opts[..|opts|] == opts;
      if p in cf.providers && Models(cf, p, model) && !Models(cf, p, "") {
        assert p in Tried(Head(ranked)) || p in Tried(rest);
        TriedTogether(Head(ranked), rest, p);
      }
    }
  }

  lemma TriedTogether(a: seq<Choice>, b: seq<Choice>, p: string)
    requires p in Tried(a) || p in Tried(b)
    ensures p in Tried(a + b)
  {
  }

  /** Entry `i` of the log is an answer with this content to the task's very prompt and
      messages, with the option's model and its token limit. */
  ghost predicate AnswersTask(cf: Config, e: Entry, task: Task, opt: Choice, content: string) {
    && e.Call? && e.reply.ChatOk? && e.reply.resp.content == content
    && e.req.model == opt.model && e.req.system == task.system && e.req.messages == task.messages
    && e.req.maxTokens ==
         (if opt.model in cf.prices && cf.prices[opt.model].maxTokens > 0 then cf.prices[opt.model].maxTokens else 4096)
  }

  /** The content is an answer given during the request, that is at `start` or later in the
      log, or one that was in its lifetime when the request looked for it. */
  ghost predicate Justified(cf: Config, log: seq<Entry>, start: nat, task: Task, opt: Choice, o: Outside, content: string) {
    exists i :: 0 <= i < |log| && AnswersTask(cf, log[i], task, opt, content)
      && (start <= i || (cf.cacheTtl.Some? && o.lookup <= log[i].at + cf.cacheTtl.value))
  }

  lemma TryServesAnswered(cf: Config, s: System, start: nat, task: Task, opt: Choice, o: Outside)
    requires start <= |s.log| && CacheSourced(cf, s, KeyOf(cf, task, opt.model))
    ensures var (s', r) := Try(cf, s, task, opt, o);
      r.Served? ==> Justified(cf, s'.log, start, task, opt, o, r.resp.content)
  {
    var key := KeyOf(cf, task, opt.model);
    AttemptShape(cf, s.w, task, opt, o);
    AttemptCache(cf, s.w, task, opt, o, key);
    var (w', r, call) := Attempt(cf, s.w, task, opt, o);
    var s' := Try(cf, s, task, opt, o).0;
    hide Attempt;
    if r.Served? && call.Some? {
      assert s'.log[|s.log|] == call.value;
    } else if r.Served? {
      var e := s.w.cache.entries[key];
      var i :| 0 <= i < |s.log| && Answers(s.log[i], key, e.resp.content, e.expiresAt - cf.cacheTtl.value);
      LlmCache.DifferentRequestsDifferentKeys(s.log[i].req, RequestOf(cf, task, opt.model));
      assert AnswersTask(cf, s'.log[i], task, opt, r.resp.content);
    }
  }

  ghost predicate JustifiedByOne(cf: Config, log: seq<Entry>, start: nat, task: Task, opts: seq<Choice>, io: Outsides, content: string) {
    exists j :: 0 <= j < |opts| && Justified(cf, log, start, task, opts[j], io(j), content)
  }

  lemma {:induction false} WalkServesAnswered(cf: Config, s: System, start: nat, task: Task, opts: seq<Choice>, io: Outsides, k: nat)
    requires start <= |s.log| && forall key :: CacheSourced(cf, s, key)
    ensures var (s', resp, n) := Walk(cf, s, task, opts, io, k);
      resp.Some? ==> JustifiedByOne(cf, s'.log, start, task, opts, io, resp.value.content)
    decreases |opts| - k
  {
    if k < |opts| {
      TryServesAnswered(cf, s, start, task, opts[k], io(k));
      var s1 := Try(cf, s, task, opts[k], io(k)).0;
      assert |s.log| <= |s1.log|;
      hide CacheSourced, Try, Justified;
      forall key ensures CacheSourced(cf, s1, key) {
        TryKeepsCacheSourced(cf, s, task, opts[k], io(k), key);
      }
      WalkServesAnswered(cf, s1, start, task, opts, io, k + 1);
    }
  }

  /** In every run, the response that a request returns, from the primary, a fallback or a
      provider that was not ranked, has content that some provider gave for the task's very
      prompt and messages with one of the request's models: during this request, or before and
      still in its lifetime at the lookup. */
  lemma ServedWasAnswered(cf: Config, u0: Budget.Usage, trace: seq<Event>, task: Task, ranked: seq<Choice>, rest: seq<Choice>, io: Outsides)
    ensures var s := Run(cf, Fresh(cf, u0), trace);
      var (s', resp, n) := Failover(cf, s, task, ranked, rest, io);
      resp.Some? ==> JustifiedByOne(cf, s'.log, |s.log|, task, Head(ranked) + rest, io, resp.value.content)
  {
    hide Run, Walk, JustifiedByOne;
    var s := Run(cf, Fresh(cf, u0), trace);
    forall key ensures CacheSourced(cf, s, key) {
      EveryRunKeepsInv(cf, u0, trace, Focus(ANY_ACCOUNT, "", key));
    }
    WalkServesAnswered(cf, s, |s.log|, task, Head(ranked) + rest, io, 0);
  }

  /** With a cache, an answer just paid for is given again free of charge: to any task with the
      same prompt and messages that tries the same model in its lifetime, unless the circuit
      opened, and without asking the provider. */
  lemma RepeatIsFree(cf: Config, w: World, task: Task, opt: Choice, o: Outside, task': Task, opt': Choice, o': Outside)
    requires cf.cacheTtl.Some? && Attempt(cf, w, task, opt, o).1.Served? && Attempt(cf, w, task, opt, o).2.Some?
    requires task'.system == task.system && task'.messages == task.messages && opt'.model == opt.model
    requires opt'.provider in cf.providers && !IsOpen(Attempt(cf, w, task, opt, o).0, opt'.provider)
    requires o'.lookup <= o.store + cf.cacheTtl.value
    ensures var (w', r, call) := Attempt(cf, w, task, opt, o);
      var (w2, r', call') := Attempt(cf, w', task', opt', o');
      r' == Served(r.resp.(cost := 0.0, latency := 0)) && call'.None? && w2.usage == w'.usage
  {
    hide Health.Reported, BreakersAfter, Budget.Charged, Budget.Checked, MaxTokensFor;
  }
}
