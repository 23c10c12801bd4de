/**
 Exactly when a request to the router spends money: which of its options is called, and what a
 budget refusal does and does not prevent.
 */
module RouterSpending {
  import opened Wrappers
  import opened Router
  import opened RouterRuns
  import Health
  import LlmCache
  import Budget

  // ---------------------------------------------------------------------------------------
  // What an option meets
  // ---------------------------------------------------------------------------------------

  predicate Tryable(cf: Config, w: World, opt: Choice) {
    opt.provider in cf.providers && !IsOpen(w, opt.provider)
  }

  predicate InCache(cf: Config, cache: LlmCache.Cache, key: LlmCache.Key, now: int) {
    cf.cacheTtl.Some? && key in cache.entries && now <= cache.entries[key].expiresAt
  }

  /** The option's own lookup, unless an earlier option already asked for the same model. */
  predicate Hits(cf: Config, w: World, task: Task, opts: seq<Choice>, io: Outsides, j: nat)
    requires j < |opts|
  {
    && Tryable(cf, w, opts[j])
    && (forall i :: 0 <= i < j ==> opts[i].model != opts[j].model)
    && InCache(cf, w.cache, KeyOf(cf, task, opts[j].model), io(j).lookup)
  }

  /** Every option's provider is the one that its model belongs to. */
  ghost predicate Owned(cf: Config, opts: seq<Choice>) {
    forall i :: 0 <= i < |opts| ==> Models(cf, opts[i].provider, opts[i].model)
  }

  /** The walk is at option `k` and has made no call: only the cache has changed, and by now it
      lacks the keys of the options tried. */
  ghost predicate Quiet(cf: Config, s0: System, s: System, task: Task, opts: seq<Choice>, k: nat) {
    && k <= |opts| && s.log == s0.log && s.w == s0.w.(cache := s.w.cache)
    && (forall key :: key in s.w.cache.entries ==> key in s0.w.cache.entries && s.w.cache.entries[key] == s0.w.cache.entries[key])
    && (forall key :: key in s0.w.cache.entries && key !in s.w.cache.entries ==>
         exists i :: 0 <= i < k && key == KeyOf(cf, task, opts[i].model))
    && (cf.cacheTtl.Some? ==> forall i :: 0 <= i < k && Tryable(cf, s0.w, opts[i]) ==> KeyOf(cf, task, opts[i].model) !in s.w.cache.entries)
  }

  lemma AttemptWithoutCall(cf: Config, w: World, task: Task, opt: Choice, o: Outside)
    ensures var (w', r, call) := Attempt(cf, w, task, opt, o);
      var key := KeyOf(cf, task, opt.model);
      && (!Tryable(cf, w, opt) ==> w' == w && r.Refused? && call.None?)
      && (Tryable(cf, w, opt) && InCache(cf, w.cache, key, o.lookup) ==> r.Served? && call.None?)
      && (Tryable(cf, w, opt) && !InCache(cf, w.cache, key, o.lookup) ==>
           (call.Some? <==> BudgetVerdict(cf, w, task, opt.estCost).Allowed?))
      && (Tryable(cf, w, opt) && !InCache(cf, w.cache, key, o.lookup) && call.None? ==>
           && r.Refused? && w' == w.(cache := w'.cache)
           && w'.cache.entries == (if cf.cacheTtl.Some? then w.cache.entries - {key} else w.cache.entries))
  {
    hide Replied, KeyOf, Budget.Checked, CallOf;
    if cf.cacheTtl.Some? && KeyOf(cf, task, opt.model) !in w.cache.entries {
      assert w.cache.entries - {KeyOf(cf, task, opt.model)} == w.cache.entries;
    }
  }

  /** In a quiet state the cache answers option `k` exactly if it did at the start. */
  lemma QuietCache(cf: Config, s0: System, s: System, task: Task, opts: seq<Choice>, io: Outsides, k: nat)
    requires Owned(cf, opts) && Quiet(cf, s0, s, task, opts, k) && k < |opts| && Tryable(cf, s0.w, opts[k])
    ensures InCache(cf, s.w.cache, KeyOf(cf, task, opts[k].model), io(k).lookup) <==> Hits(cf, s0.w, task, opts, io, k)
  {
    if i :| 0 <= i < k && opts[i].model == opts[k].model {
      assert opts[i].provider == opts[k].provider;
    }
  }

  lemma QuietStep(cf: Config, s0: System, s: System, task: Task, opts: seq<Choice>, io: Outsides, k: nat)
    requires Owned(cf, opts) && Quiet(cf, s0, s, task, opts, k) && k < |opts|
    ensures var (s1, r) := Try(cf, s, task, opts[k], io(k));
      if Hits(cf, s0.w, task, opts, io, k) then r.Served? && s1.log == s0.log
      else if Tryable(cf, s0.w, opts[k]) && BudgetVerdict(cf, s0.w, task, opts[k].estCost).Allowed? then
        s1.log == s0.log + [CallOf(cf, task, opts[k], io(k))]
      else r.Refused? && Quiet(cf, s0, s1, task, opts, k + 1)
  {
    AttemptShape(cf, s.w, task, opts[k], io(k));
    AttemptWithoutCall(cf, s.w, task, opts[k], io(k));
    if Tryable(cf, s0.w, opts[k]) {
      QuietCache(cf, s0, s, task, opts, io, k);
    }
    hide Attempt, KeyOf, CallOf, InCache, Owned;
  }

  // ---------------------------------------------------------------------------------------
  // Exactly when a request makes a call
  // ---------------------------------------------------------------------------------------

  /** From option `k` on, option `j` is the first that the provider is asked for: it is not
      skipped, its estimate is allowed, and the cache answers neither it nor one before. */
  ghost predicate CallsAt(cf: Config, w: World, task: Task, opts: seq<Choice>, io: Outsides, k: nat, j: nat) {
    && k <= j < |opts| && Tryable(cf, w, opts[j]) && BudgetVerdict(cf, w, task, opts[j].estCost).Allowed?
    && forall i :: k <= i <= j ==> !Hits(cf, w, task, opts, io, i)
  }

  ghost predicate SomeCall(cf: Config, w: World, task: Task, opts: seq<Choice>, io: Outsides, k: nat) {
    exists j :: CallsAt(cf, w, task, opts, io, k, j)
  }

  /** Moving past an option that neither hits nor calls. */
  lemma SomeCallLater(cf: Config, w: World, task: Task, opts: seq<Choice>, io: Outsides, k: nat)
    requires k < |opts| && !Hits(cf, w, task, opts, io, k) && !CallsAt(cf, w, task, opts, io, k, k)
    ensures SomeCall(cf, w, task, opts, io, k) <==> SomeCall(cf, w, task, opts, io, k + 1)
  {
    hide Hits, Tryable, BudgetVerdict;
    if SomeCall(cf, w, task, opts, io, k) {
      var j :| CallsAt(cf, w, task, opts, io, k, j);
      assert CallsAt(cf, w, task, opts, io, k + 1, j);
    }
    if SomeCall(cf, w, task, opts, io, k + 1) {
      var j :| CallsAt(cf, w, task, opts, io, k + 1, j);
      assert CallsAt(cf, w, task, opts, io, k, j);
    }
  }

  lemma {:induction false} WalkCallsExactly(cf: Config, s0: System, s: System, task: Task, opts: seq<Choice>, io: Outsides, k: nat)
    requires Owned(cf, opts) && Quiet(cf, s0, s, task, opts, k)
    ensures Walk(cf, s, task, opts, io, k).0.log != s0.log <==> SomeCall(cf, s0.w, task, opts, io, k)
    decreases |opts| - k
  {
    if k < |opts| {
      QuietStep(cf, s0, s, task, opts, io, k);
      var s1 := Try(cf, s, task, opts[k], io(k)).0;
      hide Try, Owned, Quiet, Hits, Tryable, BudgetVerdict;
      if Hits(cf, s0.w, task, opts, io, k) {
        assert forall j :: !CallsAt(cf, s0.w, task, opts, io, k, j);
      } else if CallsAt(cf, s0.w, task, opts, io, k, k) {
        WalkGrows(cf, s1, task, opts, io, k + 1);
      } else {
        SomeCallLater(cf, s0.w, task, opts, io, k);
        WalkCallsExactly(cf, s0, s1, task, opts, io, k + 1);
      }
    }
  }

  lemma OptionsAreOwned(cf: Config, health: Health.Providers, task: Task, ranked: seq<Choice>, rest: seq<Choice>)
    requires Ranking(cf, health, task, ranked) && Rest(cf, Tried(Head(ranked)), rest)
    ensures Owned(cf, Head(ranked) + rest)
  {
    hide Ranking, Candidates, EstimatedCost, Tried;
    forall i | 0 <= i < |Head(ranked)| ensures Models(cf, Head(ranked)[i].provider, Head(ranked)[i].model) {
      RankedIsCandidate(cf, health, task, ranked, i);
    }
  }

  /** In every state, for every ranking and rest: the request asks some provider if and only if
      one of its options can be tried, has its estimate allowed, and comes before any that the
      cache answers.  All of it can be told before the request. */
  lemma RequestCallsExactlyWhen(cf: Config, s: System, task: Task, ranked: seq<Choice>, rest: seq<Choice>, io: Outsides)
    requires ranked != [] && Ranking(cf, s.w.health, task, ranked) && Rest(cf, Tried(Head(ranked)), rest)
    ensures Failover(cf, s, task, ranked, rest, io).0.log != s.log <==> SomeCall(cf, s.w, task, Head(ranked) + rest, io, 0)
  {
    OptionsAreOwned(cf, s.w.health, task, ranked, rest);
    assert Quiet(cf, s, s, task, Head(ranked) + rest, 0);
    hide Ranking, Rest, Owned, Quiet, SomeCall, Walk;
    WalkCallsExactly(cf, s, s, task, Head(ranked) + rest, io, 0);
  }

  // ---------------------------------------------------------------------------------------
  // After a refusal on the estimate
  // ---------------------------------------------------------------------------------------

  /** A call for one of the options, whose estimate the budgets as they stand allow. */
  ghost predicate AllowedCall(cf: Config, w: World, task: Task, opts: seq<Choice>, e: Entry) {
    exists j :: 0 <= j < |opts| && e.Call? && e.provider == opts[j].provider && e.estCost == opts[j].estCost
      && BudgetVerdict(cf, w, task, opts[j].estCost).Allowed?
  }

  /** Nothing is charged before the walk ends, so every call was allowed by the first balance. */
  lemma {:induction false} WalkCallsAllowed(cf: Config, s0: System, s: System, task: Task, opts: seq<Choice>, io: Outsides, k: nat)
    requires s.w.usage == s0.w.usage
    ensures var s' := Walk(cf, s, task, opts, io, k).0;
      && |s.log| <= |s'.log| && s'.log[..|s.log|] == s.log
      && forall i :: |s.log| <= i < |s'.log| ==> AllowedCall(cf, s0.w, task, opts, s'.log[i])
    decreases |opts| - k
  {
    if k < |opts| {
      AttemptShape(cf, s.w, task, opts[k], io(k));
      var (s1, r) := Try(cf, s, task, opts[k], io(k));
      if s1.log != s.log {
        assert s1.log == s.log + [CallOf(cf, task, opts[k], io(k))];
        assert AllowedCall(cf, s0.w, task, opts, CallOf(cf, task, opts[k], io(k)));
      }
      assert r.Refused? ==> s1.w.usage == s.w.usage;
      hide Try, Attempt, BudgetVerdict, AllowedCall;
      if r.Refused? {
        WalkCallsAllowed(cf, s0, s1, task, opts, io, k + 1);
        var s' := Walk(cf, s1, task, opts, io, k + 1).0;
        assert s'.log[..|s.log|] == s'.log[..|s1.log|][..|s.log|];
        assert forall i :: |s.log| <= i < |s1.log| ==> s'.log[i] == s'.log[..|s1.log|][i];
      }
    }
  }

  /** What is refused stays refused at a higher estimate. */
  lemma GateIsMonotone(cf: Config, w: World, task: Task, low: real, high: real)
    requires low <= high && BudgetVerdict(cf, w, task, high).Allowed?
    ensures BudgetVerdict(cf, w, task, low).Allowed?
  {
    if cf.limits.Some? {
      Budget.AllowedIff(cf.limits.value, w.usage, task.orgID, task.id, low);
      Budget.AllowedIff(cf.limits.value, w.usage, task.orgID, task.id, high);
      hide Budget.Balance, Budget.BudgetOf, Budget.Pays, Budget.Checked;
    }
  }

  /** Estimates ascend, so with the primary's refused every ranked one is. */
  lemma RankedAreRefused(cf: Config, w: World, task: Task, ranked: seq<Choice>, j: nat)
    requires ranked != [] && Sorted(w.health, ranked) && !BudgetVerdict(cf, w, task, ranked[0].estCost).Allowed? && j < |Head(ranked)|
    ensures !BudgetVerdict(cf, w, task, Head(ranked)[j].estCost).Allowed?
  {
    hide BudgetVerdict, Health.Score;
    assert j == 0 || Before(w.health, ranked[0], ranked[j]);
    if BudgetVerdict(cf, w, task, ranked[j].estCost).Allowed? {
      GateIsMonotone(cf, w, task, ranked[0].estCost, ranked[j].estCost);
    }
  }

  /** Some option that was not ranked can be tried before the cache answers any option. */
  ghost predicate UnrankedInReach(cf: Config, w: World, task: Task, head: seq<Choice>, rest: seq<Choice>, io: Outsides) {
    exists j :: |head| <= j < |head + rest| && Tryable(cf, w, (head + rest)[j])
      && forall i :: 0 <= i <= j ==> !Hits(cf, w, task, head + rest, io, i)
  }

  /** The first attempt ends in a budget refusal. */
  ghost predicate PrimaryOverBudget(cf: Config, w: World, task: Task, ranked: seq<Choice>, io: Outsides) {
    && ranked != []
    && Attempt(cf, w, task, ranked[0], io(0)).1.Refused? && Attempt(cf, w, task, ranked[0], io(0)).1.why.OverBudget?
  }

  lemma OverBudgetIsRefused(cf: Config, w: World, task: Task, ranked: seq<Choice>, io: Outsides)
    requires PrimaryOverBudget(cf, w, task, ranked, io)
    ensures !BudgetVerdict(cf, w, task, ranked[0].estCost).Allowed?
  {
    hide Replied, Budget.Checked;
  }

  /** What a refusal on the primary's estimate does: in every state, for every ranking and rest,
      all calls that the request still makes are to providers that were not ranked, at no
      estimate; and it makes none if and only if a budget is overdrawn already or no such
      provider can be tried before the cache answers. */
  lemma RefusedPrimaryExactly(cf: Config, s: System, task: Task, ranked: seq<Choice>, rest: seq<Choice>, io: Outsides)
    requires Ranking(cf, s.w.health, task, ranked) && Rest(cf, Tried(Head(ranked)), rest)
    requires PrimaryOverBudget(cf, s.w, task, ranked, io)
    ensures var s' := Failover(cf, s, task, ranked, rest, io).0;
      && |s.log| <= |s'.log| && s'.log[..|s.log|] == s.log
      && (forall i :: |s.log| <= i < |s'.log| ==>
           s'.log[i].Call? && s'.log[i].estCost == 0.0 && s'.log[i].provider !in Tried(Head(ranked)))
      && (s'.log != s.log <==> NotOverdrawn(cf, s.w, task) && UnrankedInReach(cf, s.w, task, Head(ranked), rest, io))
  {
    var head, opts := Head(ranked), Head(ranked) + rest;
    OverBudgetIsRefused(cf, s.w, task, ranked, io);
    forall j | 0 <= j < |head| ensures !BudgetVerdict(cf, s.w, task, opts[j].estCost).Allowed? {
      RankedAreRefused(cf, s.w, task, ranked, j);
    }
    assert forall j :: |head| <= j < |opts| ==> opts[j].estCost == 0.0 && opts[j].provider !in Tried(head);
    RequestCallsExactlyWhen(cf, s, task, ranked, rest, io);
    WalkCallsAllowed(cf, s, s, task, opts, io, 0);
    UnrankedAllowedUnlessOverdrawn(cf, s.w, task);
    hide Ranking, Rest, Head, Tried, BudgetVerdict, NotOverdrawn, Walk, Attempt, Hits, Tryable;
    CallsAreUnranked(cf, s.w, task, head, rest, io);
  }

  lemma CallsAreUnranked(cf: Config, w: World, task: Task, head: seq<Choice>, rest: seq<Choice>, io: Outsides)
    requires forall j :: 0 <= j < |head| ==> !BudgetVerdict(cf, w, task, (head + rest)[j].estCost).Allowed?
    requires forall j :: |head| <= j < |head + rest| ==> (head + rest)[j].estCost == 0.0
    ensures SomeCall(cf, w, task, head + rest, io, 0) <==>
      BudgetVerdict(cf, w, task, 0.0).Allowed? && UnrankedInReach(cf, w, task, head, rest, io)
  {
    hide Hits, Tryable, BudgetVerdict;
    var opts := head + rest;
    if SomeCall(cf, w, task, opts, io, 0) {
      var j :| CallsAt(cf, w, task, opts, io, 0, j);
      assert |head| <= j;
    }
    if BudgetVerdict(cf, w, task, 0.0).Allowed? && UnrankedInReach(cf, w, task, head, rest, io) {
      var j :| |head| <= j < |opts| && Tryable(cf, w, opts[j]) && forall i :: 0 <= i <= j ==> !Hits(cf, w, task, opts, io, i);
      assert CallsAt(cf, w, task, opts, io, 0, j);
    }
  }

  /** Neither the org's nor the task's budget, if set, is overdrawn already. */
  ghost predicate NotOverdrawn(cf: Config, w: World, task: Task) {
    cf.limits.Some? ==>
      forall a :: Budget.Pays(a, task.orgID, task.id) && Budget.BudgetOf(cf.limits.value, a) > 0.0 ==>
        Budget.Balance(w.usage, a) <= Budget.BudgetOf(cf.limits.value, a)
  }

  /** A provider tried without having been ranked has no estimate, so its call is allowed
      exactly when neither budget is overdrawn already, whatever it will cost. */
  lemma UnrankedAllowedUnlessOverdrawn(cf: Config, w: World, task: Task)
    ensures BudgetVerdict(cf, w, task, 0.0).Allowed? <==> NotOverdrawn(cf, w, task)
  {
    if cf.limits.Some? {
      Budget.AllowedIff(cf.limits.value, w.usage, task.orgID, task.id, 0.0);
      hide Budget.Balance, Budget.BudgetOf, Budget.Pays, Budget.Checked;
    }
  }

  // Such requests exist

  /** Two providers, only one of them with a model in the task's tier, and half a dollar. */
  function ExampleConfig(): Config {
    Config(
      {"openai", "other"},
      map["gpt-4o-mini" := ModelInfo("openai", 1.0, 1.0, 0, []), "m" := ModelInfo("other", 1.0, 1.0, 0, [])],
      None, Some(Budget.Limits(map[], map[], 0.5, 0.0)), "", 500)
  }

  function ExampleTask(): Task {
    Task("t", "acme", 0.0, "", [], [], "")
  }

  const EXAMPLE_RANKED := [Choice("openai", "gpt-4o-mini", 0.55)]
  const EXAMPLE_REST := [Choice("other", "m", 0.0)]
  const EXAMPLE_RESPONSE := LlmCache.Response("answer", 2.0, 0)

  lemma ExampleCandidates()
    ensures var cf := ExampleConfig();
      Ranking(cf, Fresh(cf, map[]).w.health, ExampleTask(), EXAMPLE_RANKED)
  {
    var cf, task := ExampleConfig(), ExampleTask();
    var health := Fresh(cf, map[]).w.health;
    var models := ["gpt-4o-mini", "claude-haiku-3.5", "gemini-2.0-flash"];
    assert Considered(task) == models;
    assert models[..2][..1] == models[..1] && models[..1][..0] == [];
    assert EstimatedCost(cf.outputTokens, task, cf.prices["gpt-4o-mini"]) == 0.55;
    assert Eligible(cf, health, task, models[0]) && !Eligible(cf, health, task, models[1]) && !Eligible(cf, health, task, models[2]);
    hide Eligible, EstimatedCost, Considered, Fresh;
    assert Filtered(cf, health, task, models[..1]) == EXAMPLE_RANKED;
    assert Filtered(cf, health, task, models[..2]) == EXAMPLE_RANKED;
    assert Filtered(cf, health, task, models) == EXAMPLE_RANKED;
  }

  lemma ExampleIsRest()
    ensures Rest(ExampleConfig(), Tried(Head(EXAMPLE_RANKED)), EXAMPLE_REST)
  {
  }

  lemma ExampleFirstAttempt(o: Outside)
    ensures var s := Fresh(ExampleConfig(), map[]);
      var (s', r) := Try(ExampleConfig(), s, ExampleTask(), EXAMPLE_RANKED[0], o);
      s' == s && r.Refused? && r.why.OverBudget?
  {
  }

  lemma ExampleSecondAttempt(o: Outside)
    requires o.reply == ChatOk(EXAMPLE_RESPONSE)
    ensures var (s', r) := Try(ExampleConfig(), Fresh(ExampleConfig(), map[]), ExampleTask(), EXAMPLE_REST[0], o);
      r == Served(EXAMPLE_RESPONSE) && Budget.Used(s'.w.usage, Budget.OrgKey("acme")) == 2.0
  {
  }

  /** A budget error does not end the failover: here the ranked model is refused on its
      estimate, and the request is then served, beyond the budget, by a provider that was not
      ranked. */
  lemma RefusedOnEstimateYetServed(io: Outsides)
    requires io(1).reply == ChatOk(EXAMPLE_RESPONSE)
    ensures var cf, task := ExampleConfig(), ExampleTask();
      var s := Fresh(cf, map[]);
      var (s', resp, n) := Failover(cf, s, task, EXAMPLE_RANKED, EXAMPLE_REST, io);
      && Ranking(cf, s.w.health, task, EXAMPLE_RANKED) && Rest(cf, Tried(Head(EXAMPLE_RANKED)), EXAMPLE_REST)
      && Attempt(cf, s.w, task, EXAMPLE_RANKED[0], io(0)).1.Refused?
      && resp == Some(EXAMPLE_RESPONSE)
      && Budget.Used(s'.w.usage, Budget.OrgKey("acme")) == 2.0 > Budget.OrgBudget(cf.limits.value, "acme")
  {
    ExampleCandidates();
    ExampleIsRest();
    ExampleFirstAttempt(io(0));
    ExampleSecondAttempt(io(1));
    var opts := Head(EXAMPLE_RANKED) + EXAMPLE_REST;
    assert opts == [EXAMPLE_RANKED[0], EXAMPLE_REST[0]];
    hide Attempt, Ranking, Rest, Fresh;
    var s := Fresh(ExampleConfig(), map[]);
    var s2 := Try(ExampleConfig(), s, ExampleTask(), EXAMPLE_REST[0], io(1)).0;
    assert Walk(ExampleConfig(), s, ExampleTask(), opts, io, 1) == (s2, Some(EXAMPLE_RESPONSE), 1);
  }
}
