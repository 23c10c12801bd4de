/**
 The model router (internal/llm/provider.go) with its circuit breakers, health monitor,
 cache and budget guard, for requests that do not overlap.

 What the code leaves open is an input and constrained by a predicate: the order that the
 unstable sort leaves among equals, the order in which maps are read, which of its models a
 provider is tried with.  So are the times read and the replies of the providers.
 */
module Router {
  import opened Wrappers
  import Breakers = CircuitBreakers
  import Health
  import LlmCache
  import Budget

  datatype ModelInfo = ModelInfo(provider: string, inputCostPer1K: real, outputCostPer1K: real, maxTokens: int, capabilities: seq<string>)

  /** `score` is the task's complexity, `system` its system prompt. */
  datatype Task = Task(
    id: string,
    orgID: string,
    score: real,
    system: string,
    messages: seq<string>,
    requiredCapabilities: seq<string>,
    targetModel: string)

  /** What stays fixed: no cache without a lifetime, no budget guard without limits. */
  datatype Config = Config(
    providers: set<string>,
    prices: map<string, ModelInfo>,
    cacheTtl: Option<int>,
    limits: Option<Budget.Limits>,
    defaultModel: string,
    outputTokens: int)

  datatype Choice = Choice(provider: string, model: string, estCost: real)

  // ---------------------------------------------------------------------------------------
  // Routing
  // ---------------------------------------------------------------------------------------

  function ModelsForScore(score: real): seq<string> {
    if score <= 0.3 then ["gpt-4o-mini", "claude-haiku-3.5", "gemini-2.0-flash"]
    else if score <= 0.6 then ["claude-sonnet-4-20250514", "gpt-4o", "gemini-2.5-pro"]
    else if score <= 0.85 then ["claude-opus-4", "gpt-4.5", "deepseek-r1"]
    else ["claude-opus-4", "gpt-4.5"]
  }

  function Characters(messages: seq<string>): nat {
    if messages == [] then 0 else |messages[0]| + Characters(messages[1..])
  }

  function InputTokens(task: Task): nat {
    var tokens := Characters(task.messages) / 4;
    if tokens < 50 then 50 else tokens
  }

  function EstimatedCost(outputTokens: int, task: Task, info: ModelInfo): real {
    InputTokens(task) as real / 1000.0 * info.inputCostPer1K + outputTokens as real / 1000.0 * info.outputCostPer1K
  }

  predicate SupportsAll(info: ModelInfo, required: seq<string>) {
    forall i :: 0 <= i < |required| ==> required[i] in info.capabilities
  }

  /** A model that may be chosen: priced, able, and served by a usable provider. */
  predicate Eligible(cf: Config, health: Health.Providers, task: Task, model: string) {
    && model in cf.prices
    && cf.prices[model].provider in health
    && Health.Usable(health[cf.prices[model].provider])
    && SupportsAll(cf.prices[model], task.requiredCapabilities)
  }

  function ChoiceOf(cf: Config, task: Task, model: string): Choice
    requires model in cf.prices
  {
    Choice(cf.prices[model].provider, model, EstimatedCost(cf.outputTokens, task, cf.prices[model]))
  }

  function Filtered(cf: Config, health: Health.Providers, task: Task, models: seq<string>): seq<Choice> {
    if models == [] then []
    else
      var n := |models| - 1;
      Filtered(cf, health, task, models[..n]) + (if Eligible(cf, health, task, models[n]) then [ChoiceOf(cf, task, models[n])] else [])
  }

  function Considered(task: Task): seq<string> {
    (if task.targetModel != "" then [task.targetModel] else []) + ModelsForScore(task.score)
  }

  /** The candidates before they are sorted; the default model only steps in for none. */
  function Candidates(cf: Config, health: Health.Providers, task: Task): seq<Choice> {
    var found := Filtered(cf, health, task, Considered(task));
    if found == [] && cf.defaultModel != "" && cf.defaultModel != task.targetModel
    then Filtered(cf, health, task, [cf.defaultModel]) else found
  }

  /** The tiers: which scores each model is considered for. */
  lemma TiersByScore(score: real, model: string)
    ensures var cheap, middle, hard := score <= 0.3, 0.3 < score <= 0.6, 0.6 < score <= 0.85;
      model in ModelsForScore(score) <==>
        || (cheap && model in {"gpt-4o-mini", "claude-haiku-3.5", "gemini-2.0-flash"})
        || (middle && model in {"claude-sonnet-4-20250514", "gpt-4o", "gemini-2.5-pro"})
        || (score > 0.6 && model in {"claude-opus-4", "gpt-4.5"})
        || (hard && model == "deepseek-r1")
  {
  }

  function Flatten(messages: seq<string>): string {
    if messages == [] then "" else messages[0] + Flatten(messages[1..])
  }

  lemma {:induction false} CharactersOfAll(messages: seq<string>)
    ensures Characters(messages) == |Flatten(messages)|
  {
    if messages != [] {
      CharactersOfAll(messages[1..]);
    }
  }

  /** A token for every four characters of the messages together, but at least fifty; and the
      estimate is what these and the output tokens cost, priced per thousand. */
  lemma EstimateExactly(outputTokens: int, task: Task, info: ModelInfo)
    ensures var tokens, chars := InputTokens(task), |Flatten(task.messages)|;
      && tokens >= 50 && (chars < 200 ==> tokens == 50) && (chars >= 200 ==> 4 * tokens <= chars < 4 * tokens + 4)
      && 1000.0 * EstimatedCost(outputTokens, task, info) == tokens as real * info.inputCostPer1K + outputTokens as real * info.outputCostPer1K
  {
    CharactersOfAll(task.messages);
    hide Characters, Flatten;
  }

  predicate Before(health: Health.Providers, a: Choice, b: Choice) {
    a.estCost < b.estCost || (a.estCost == b.estCost && Health.Score(health, a.provider) >= Health.Score(health, b.provider))
  }

  ghost predicate Sorted(health: Health.Providers, s: seq<Choice>) {
    forall i, j :: 0 <= i < j < |s| ==> Before(health, s[i], s[j])
  }

  /** `ranked` is what the sort may make of the candidates. */
  ghost predicate Ranking(cf: Config, health: Health.Providers, task: Task, ranked: seq<Choice>) {
    Sorted(health, ranked) && multiset(ranked) == multiset(Candidates(cf, health, task))
  }

  // ---------------------------------------------------------------------------------------
  // One attempt
  // ---------------------------------------------------------------------------------------

  datatype World = World(
    health: Health.Providers,
    breakers: map<string, Breakers.Breaker>,
    cache: LlmCache.Cache,
    usage: Budget.Usage)

  datatype Reply = ChatError | ChatOk(resp: LlmCache.Response)

  /** What one attempt reads from outside: the times, in order, and the provider's reply. */
  datatype Outside = Outside(lookup: int, begin: int, end: int, store: int, reply: Reply)

  datatype Refusal = NotRegistered | CircuitOpen | OverBudget(verdict: Budget.Verdict) | ProviderFailed

  datatype Result = Served(resp: LlmCache.Response) | Refused(why: Refusal)

  /** What happened to a provider: a chat call, for whom, at what estimate and with its answer
      stored when, or a probe. */
  datatype Entry =
    | Call(provider: string, req: LlmCache.Request, orgID: string, taskID: string, estCost: real, reply: Reply, at: int)
    | Probe(provider: string, ok: bool)

  function MaxTokensFor(cf: Config, model: string): int {
    if model in cf.prices && cf.prices[model].maxTokens > 0 then cf.prices[model].maxTokens else 4096
  }

  function RequestOf(cf: Config, task: Task, model: string): LlmCache.Request {
    LlmCache.Request(model, task.system, task.messages, MaxTokensFor(cf, model))
  }

  function KeyOf(cf: Config, task: Task, model: string): LlmCache.Key {
    LlmCache.CacheKey(RequestOf(cf, task, model))
  }

  /** `Execute` around a call that already ended. */
  function Executed(b: Breakers.Breaker, ok: bool, begin: int, end: int): Breakers.Breaker {
    var (b1, admitted) := Breakers.Admit(b, begin);
    if admitted then Breakers.Settle(b1, ok, end) else b1
  }

  function BreakersAfter(m: map<string, Breakers.Breaker>, name: string, ok: bool, o: Outside): map<string, Breakers.Breaker> {
    if name in m then m[name := Executed(m[name], ok, o.begin, o.end)] else m
  }

  predicate IsOpen(w: World, name: string) {
    name in w.breakers && w.breakers[name].state == Breakers.Open
  }

  function Looked(cf: Config, w: World, key: LlmCache.Key, now: int): (World, Option<LlmCache.Response>) {
    if cf.cacheTtl.None? then (w, None)
    else
      var (c, hit) := LlmCache.Got(w.cache, key, now);
      (w.(cache := c), hit)
  }

  function BudgetVerdict(cf: Config, w: World, task: Task, estCost: real): Budget.Verdict {
    if cf.limits.None? then Budget.Allowed
    else Budget.Checked(cf.limits.value, w.usage, task.orgID, task.id, estCost)
  }

  /** After the provider's reply. */
  function Replied(cf: Config, w: World, task: Task, opt: Choice, o: Outside): World {
    var ok := o.reply.ChatOk?;
    var w1 := w.(health := Health.Reported(w.health, opt.provider, ok),
                 breakers := BreakersAfter(w.breakers, opt.provider, ok, o));
    if !ok then w1
    else
      w1.(usage := if cf.limits.None? then w.usage else Budget.Charged(w.usage, task.orgID, task.id, o.reply.resp.cost),
          cache := if cf.cacheTtl.None? then w.cache
                   else LlmCache.Put(w.cache, KeyOf(cf, task, opt.model), o.reply.resp, o.store, cf.cacheTtl.value))
  }

  function CallOf(cf: Config, task: Task, opt: Choice, o: Outside): Entry {
    Call(opt.provider, RequestOf(cf, task, opt.model), task.orgID, task.id, opt.estCost, o.reply, o.store)
  }

  /** The new state, the result, and the chat call made, if any. */
  function Attempt(cf: Config, w: World, task: Task, opt: Choice, o: Outside): (World, Result, Option<Entry>) {
    if opt.provider !in cf.providers then (w, Refused(NotRegistered), None)
    else if IsOpen(w, opt.provider) then (w, Refused(CircuitOpen), None)
    else
      var (w1, hit) := Looked(cf, w, KeyOf(cf, task, opt.model), o.lookup);
      if hit.Some? then (w1, Served(hit.value), None)
      else
        var verdict := BudgetVerdict(cf, w1, task, opt.estCost);
        if verdict.Exceeded? then (w1, Refused(OverBudget(verdict)), None)
        else
          (Replied(cf, w1, task, opt, o),
           if o.reply.ChatOk? then Served(o.reply.resp) else Refused(ProviderFailed),
           Some(CallOf(cf, task, opt, o)))
  }

  // ---------------------------------------------------------------------------------------
  // Failover, and whole runs
  // ---------------------------------------------------------------------------------------

  datatype Returned = Returned(orgID: string, taskID: string, resp: LlmCache.Response)

  /** The router, every provider event so far, and every response given so far. */
  datatype System = System(w: World, log: seq<Entry>, returned: seq<Returned>)

  function Try(cf: Config, s: System, task: Task, opt: Choice, o: Outside): (System, Result) {
    var (w, r, call) := Attempt(cf, s.w, task, opt, o);
    (System(
       w,
       if call.Some? then s.log + [call.value] else s.log,
       if r.Served? then s.returned + [Returned(task.orgID, task.id, r.resp)] else s.returned),
     r)
  }

  type Outsides = nat -> Outside

  /** The options in turn, from the k-th, until one is served: also how many were tried. */
  function Walk(cf: Config, s: System, task: Task, opts: seq<Choice>, io: Outsides, k: nat): (System, Option<LlmCache.Response>, nat)
    decreases |opts| - k
  {
    if k >= |opts| then (s, None, 0)
    else
      var (s1, r) := Try(cf, s, task, opts[k], io(k));
      if r.Served? then (s1, Some(r.resp), 1)
      else
        var (s2, resp, n) := Walk(cf, s1, task, opts, io, k + 1);
        (s2, resp, n + 1)
  }

  /** The primary and up to three fallbacks. */
  function Head(ranked: seq<Choice>): seq<Choice> {
    if |ranked| > 4 then ranked[..4] else ranked
  }

  function Tried(opts: seq<Choice>): set<string> {
    set c | c in opts :: c.provider
  }

  predicate Models(cf: Config, provider: string, model: string) {
    model in cf.prices && cf.prices[model].provider == provider
  }

  /** `rest` is what the code may make of the registered providers not in `tried`: each once,
      with a model of its own and no estimate.  A provider without a model is passed over. */
  ghost predicate Rest(cf: Config, tried: set<string>, rest: seq<Choice>) {
    && (forall i :: 0 <= i < |rest| ==>
         && rest[i].provider in cf.providers && rest[i].provider !in tried
         && rest[i].model != "" && Models(cf, rest[i].provider, rest[i].model)
         && rest[i].estCost == 0.0)
    && (forall i, j :: 0 <= i < j < |rest| ==> rest[i].provider != rest[j].provider)
    && (forall p, m :: p in cf.providers && p !in tried && Models(cf, p, m) && !Models(cf, p, "") ==> p in Tried(rest))
  }

  /** `ExecuteWithFailover`: nothing is tried when routing finds no candidate. */
  function Failover(cf: Config, s: System, task: Task, ranked: seq<Choice>, rest: seq<Choice>, io: Outsides): (System, Option<LlmCache.Response>, nat) {
    if ranked == [] then (s, None, 0)
    else Walk(cf, s, task, Head(ranked) + rest, io, 0)
  }

  datatype Event =
    | Execute(task: Task, ranked: seq<Choice>, rest: seq<Choice>, io: Outsides)
    | CheckHealth(name: string, ok: bool)

  /** One event.  A choice that the code could not make disables the event. */
  ghost function Step(cf: Config, s: System, e: Event): System {
    match e
    case Execute(task, ranked, rest, io) =>
      if !Ranking(cf, s.w.health, task, ranked) || !Rest(cf, Tried(Head(ranked)), rest) then s
      else Failover(cf, s, task, ranked, rest, io).0
    case CheckHealth(name, ok) =>
      s.(w := s.w.(health := Health.Reported(s.w.health, name, ok)), log := s.log + [Probe(name, ok)])
  }

  ghost function Run(cf: Config, s: System, trace: seq<Event>): System
    decreases |trace|
  {
    if trace == [] then s else Run(cf, Step(cf, s, trace[0]), trace[1..])
  }

  const FAILURE_THRESHOLD := 5
  const OPEN_SECONDS := 30

  /** Every provider just registered, nothing spent or cached, or `usage` spent already. */
  function Fresh(cf: Config, usage: Budget.Usage): System {
    System(
      World(
        map p | p in cf.providers :: Health.Registered(),
        map p | p in cf.providers :: Breakers.NewBreaker(FAILURE_THRESHOLD, OPEN_SECONDS),
        LlmCache.Cache(map[], 0, 0),
        usage),
      [], [])
  }

  // ---------------------------------------------------------------------------------------
  // The router itself
  // ---------------------------------------------------------------------------------------

  lemma BeforeIsTotalOrder(health: Health.Providers, a: Choice, b: Choice, c: Choice)
    ensures Before(health, a, b) || Before(health, b, a)
    ensures Before(health, a, b) && Before(health, b, c) ==> Before(health, a, c)
  {
  }

  lemma InsertedIsSorted(health: Health.Providers, s: seq<Choice>, c: Choice, i: nat)
    requires Sorted(health, s) && i <= |s|
    requires forall k :: 0 <= k < i ==> Before(health, s[k], c)
    requires forall k :: i <= k < |s| ==> Before(health, c, s[k])
    ensures Sorted(health, s[..i] + [c] + s[i..])
  {
  }

  method InsertChoice(health: Health.Providers, s: seq<Choice>, c: Choice) returns (t: seq<Choice>)
    requires Sorted(health, s)
    ensures Sorted(health, t) && multiset(t) == multiset(s) + multiset{c}
  {
    hide Before;
    var i := 0;
    while i < |s| && Before(health, s[i], c)
      invariant 0 <= i <= |s| && forall k :: 0 <= k < i ==> Before(health, s[k], c)
    {
      i := i + 1;
    }
    t := s[..i] + [c] + s[i..];
    forall k | i <= k < |s| ensures Before(health, c, s[k]) {
      BeforeIsTotalOrder(health, s[i], c, c);
      BeforeIsTotalOrder(health, c, s[i], s[k]);
    }
    InsertedIsSorted(health, s, c, i);
    hide Sorted;
    assert s == s[..i] + s[i..];
  }

  /** Stands for the library's sort, which promises no more. */
  method SortChoices(health: Health.Providers, s: seq<Choice>) returns (t: seq<Choice>)
    ensures Sorted(health, t) && multiset(t) == multiset(s)
  {
    t := [];
    for i := 0 to |s|
      invariant Sorted(health, t) && multiset(t) == multiset(s[..i])
    {
      hide Sorted;
      t := InsertChoice(health, t, s[i]);
      assert s[..i + 1] == s[..i] + [s[i]];
    }
    assert s[..|s|] == s;
  }

  class ModelRouter {
    var providers: set<string>
    var prices: map<string, ModelInfo>
    var circuitBreakers: map<string, Breakers.CircuitBreaker>
    const healthMonitor: Health.HealthMonitor
    const cache: LlmCache.InMemoryCache?
    const budget: Budget.BudgetManager?
    const defaultModel: string
    const outputTokens: int

    /** Every provider has a breaker of its own. */
    ghost predicate Valid()
      reads this
    {
      forall a, b :: a in circuitBreakers && b in circuitBreakers && circuitBreakers[a] == circuitBreakers[b] ==> a == b
    }

    ghost function Circuits(): map<string, Breakers.Breaker>
      reads this, circuitBreakers.Values
    {
      map p | p in circuitBreakers :: circuitBreakers[p].View()
    }

    ghost function View(): World
      reads this, healthMonitor, cache, budget, circuitBreakers.Values
    {
      World(
        healthMonitor.providers,
        Circuits(),
        if cache == null then LlmCache.Cache(map[], 0, 0) else cache.View(),
        if budget == null then map[] else budget.usage)
    }

    ghost function Conf(): Config
      reads this, budget
    {
      Config(providers, prices,
             if cache == null then None else Some(cache.ttl),
             if budget == null then None else Some(budget.Limit()),
             defaultModel, outputTokens)
    }

    constructor (prices: map<string, ModelInfo>, cache: LlmCache.InMemoryCache?, budget: Budget.BudgetManager?, defaultModel: string, outputTokens: int)
      ensures Valid() && providers == {} && circuitBreakers == map[] && this.prices == prices
      ensures this.cache == cache && this.budget == budget && this.defaultModel == defaultModel
      ensures this.outputTokens == if outputTokens == 0 then 500 else outputTokens
      ensures fresh(healthMonitor) && healthMonitor.providers == map[]
    {
      providers, circuitBreakers := {}, map[];
      this.prices, this.cache, this.budget, this.defaultModel := prices, cache, budget, defaultModel;
      this.outputTokens := if outputTokens == 0 then 500 else outputTokens;
      healthMonitor := new Health.HealthMonitor();
    }

    method RegisterProvider(name: string)
      requires Valid()
      modifies this, healthMonitor
      ensures Valid() && providers == old(providers) + {name} && prices == old(prices)
      ensures healthMonitor.providers == old(healthMonitor.providers)[name := Health.Registered()]
      ensures name in circuitBreakers && circuitBreakers == old(circuitBreakers)[name := circuitBreakers[name]]
      ensures fresh(circuitBreakers[name]) && circuitBreakers[name].View() == Breakers.NewBreaker(FAILURE_THRESHOLD, OPEN_SECONDS)
    {
      providers := providers + {name};
      healthMonitor.RegisterProvider(name);
      var cb := new Breakers.CircuitBreaker(5, 30);
      assert forall a :: a in circuitBreakers ==> circuitBreakers[a] != cb;
      circuitBreakers := circuitBreakers[name := cb];
    }

    method Collect(task: Task, models: seq<string>, healthy: set<string>) returns (candidates: seq<Choice>)
      requires forall name :: name in healthy <==> name in View().health && Health.Usable(View().health[name])
      ensures candidates == Filtered(Conf(), View().health, task, models)
    {
      ghost var cf, health := Conf(), View().health;
      hide Eligible, ChoiceOf;
      candidates := [];
      for i := 0 to |models|
        invariant candidates == Filtered(cf, health, task, models[..i])
      {
        assert models[..i + 1][..i] == models[..i];
        candidates := AddCandidate(task, models[i], healthy, candidates);
      }
      assert models[..|models|] == models;
    }

    method RankCandidates(task: Task) returns (ranked: seq<Choice>)
      ensures Ranking(Conf(), View().health, task, ranked)
    {
      hide Filtered, Considered, Sorted;
      var healthy := healthMonitor.GetHealthyProviders();
      var candidates := Collect(task, Considered(task), healthy);
      if |candidates| == 0 && defaultModel != "" && defaultModel != task.targetModel {
        candidates := Collect(task, [defaultModel], healthy);
      }
      ranked := SortChoices(healthMonitor.providers, candidates);
    }

    method AddCandidate(task: Task, model: string, healthy: set<string>, candidates: seq<Choice>) returns (r: seq<Choice>)
      requires forall name :: name in healthy <==> name in View().health && Health.Usable(View().health[name])
      ensures r == candidates + if Eligible(Conf(), View().health, task, model) then [ChoiceOf(Conf(), task, model)] else []
    {
      if model !in prices || prices[model].provider !in healthy || !SupportsAll(prices[model], task.requiredCapabilities) {
        assert candidates + [] == candidates;
        return candidates;
      }
      var info := prices[model];
      var estCost := EstimatedCost(outputTokens, task, info);
      r := candidates + [Choice(info.provider, model, estCost)];
    }

    /** Some model of the provider, in no particular order; the empty name for none. */
    method DefaultModelFor(provider: string) returns (model: string)
      ensures ModelChosen(Conf(), provider, model)
    {
      var todo := prices.Keys;
      while todo != {}
        invariant todo <= prices.Keys
        invariant forall m :: m in prices && m !in todo ==> prices[m].provider != provider
        decreases todo
      {
        model :| model in todo;
        todo := todo - {model};
        if prices[model].provider == provider {
          return;
        }
      }
      model := "";
    }

    method Remaining(tried: set<string>) returns (rest: seq<Choice>)
      ensures Rest(Conf(), tried, rest)
    {
      ghost var cf := Conf();
      rest := [];
      var todo := providers - tried;
      assert Rest(cf, tried + todo, rest);
      hide Rest, Models;
      while todo != {}
        invariant todo <= providers - tried && Rest(cf, tried + todo, rest)
        decreases todo
      {
        var name :| name in todo;
        var model := DefaultModelFor(name);
        RestOneMore(cf, tried + todo, rest, name, model);
        assert tried + todo - {name} == tried + (todo - {name});
        todo := todo - {name};
        if model != "" {
          rest := rest + [Choice(name, model, 0.0)];
        }
      }
      assert tried + todo == tried;
    }

    twostate lemma BreakerChanged(name: string)
      requires Valid() && circuitBreakers == old(circuitBreakers) && name in circuitBreakers
      requires forall p :: p in circuitBreakers && p != name ==> circuitBreakers[p].View() == old(circuitBreakers[p].View())
      ensures Circuits() == old(Circuits())[name := circuitBreakers[name].View()]
    {
    }

    /** `Execute` of the provider's breaker around an outcome that is already known. */
    method ReportToBreaker(name: string, ok: bool, o: Outside)
      requires Valid()
      modifies circuitBreakers.Values
      ensures View() == old(View()).(breakers := BreakersAfter(old(View()).breakers, name, ok, o))
    {
      if name in circuitBreakers {
        var cb := circuitBreakers[name];
        var admitted := cb.BeginExecute(o.begin);
        if admitted {
          cb.EndExecute(ok, o.end);
        }
        BreakerChanged(name);
        hide Breakers.Admit, Breakers.Settle;
      }
    }

    method LookUp(key: LlmCache.Key, now: int) returns (hit: Option<LlmCache.Response>)
      modifies cache
      ensures Conf() == old(Conf()) && (View(), hit) == Looked(Conf(), old(View()), key, now)
    {
      hide LlmCache.Got, Circuits;
      if cache == null {
        return None;
      }
      hit := cache.Get(key, now);
    }

    /** What an attempt does after the provider's reply. */
    method SettleReply(task: Task, opt: Choice, o: Outside, key: LlmCache.Key)
      requires Valid() && key == KeyOf(Conf(), task, opt.model)
      modifies healthMonitor, cache, budget, circuitBreakers.Values
      ensures Conf() == old(Conf()) && View() == Replied(Conf(), old(View()), task, opt, o)
    {
      hide KeyOf, LlmCache.Put, BreakersAfter, Health.Reported, Budget.Charged, Circuits;
      if o.reply.ChatError? {
        healthMonitor.RecordFailure(opt.provider);
        ReportToBreaker(opt.provider, false, o);
        return;
      }
      healthMonitor.RecordSuccess(opt.provider);
      ReportToBreaker(opt.provider, true, o);
      if budget != null {
        budget.RecordCost(task.orgID, task.id, o.reply.resp.cost);
      }
      if cache != null {
        cache.Set(key, o.reply.resp, o.store);
      }
    }

    method Admission(name: string) returns (why: Option<Refusal>)
      ensures why == if name !in Conf().providers then Some(NotRegistered) else if IsOpen(View(), name) then Some(CircuitOpen) else None
    {
      if name !in providers {
        return Some(NotRegistered);
      }
      if name in circuitBreakers {
        var open := circuitBreakers[name].IsOpen();
        if open {
          return Some(CircuitOpen);
        }
      }
      return None;
    }

    method BuildKey(task: Task, model: string) returns (key: LlmCache.Key)
      ensures key == KeyOf(Conf(), task, model)
    {
      var maxTokens := if model in prices && prices[model].maxTokens > 0 then prices[model].maxTokens else 4096;
      key := LlmCache.CacheKey(LlmCache.Request(model, task.system, task.messages, maxTokens));
    }

    method AttemptOption(task: Task, opt: Choice, o: Outside) returns (r: Result, ghost call: Option<Entry>)
      requires Valid()
      modifies healthMonitor, cache, budget, circuitBreakers.Values
      ensures Conf() == old(Conf())
      ensures (View(), r, call) == Attempt(Conf(), old(View()), task, opt, o)
    {
      hide View, Conf, KeyOf, Looked, Replied, IsOpen, BudgetVerdict, CallOf;
      call := None;
      var refusal := Admission(opt.provider);
      if refusal.Some? {
        return Refused(refusal.value), None;
      }
      var key := BuildKey(task, opt.model);
      var hit := LookUp(key, o.lookup);
      if hit.Some? {
        return Served(hit.value), None;
      }
      var verdict := CheckSpend(task, opt.estCost);
      if verdict.Exceeded? {
        return Refused(OverBudget(verdict)), None;
      }
      call := Some(CallOf(Conf(), task, opt, o));
      SettleReply(task, opt, o, key);
      r := if o.reply.ChatOk? then Served(o.reply.resp) else Refused(ProviderFailed);
    }

    method CheckSpend(task: Task, estCost: real) returns (v: Budget.Verdict)
      ensures v == BudgetVerdict(Conf(), View(), task, estCost)
    {
      if budget == null {
        return Budget.Allowed;
      }
      v := budget.CheckBudget(task.orgID, task.id, estCost);
    }

    /** The options in turn until one is served. */
    method TryInTurn(task: Task, opts: seq<Choice>, io: Outsides) returns (resp: Option<LlmCache.Response>, made: nat, ghost s: System)
      requires Valid()
      modifies healthMonitor, cache, budget, circuitBreakers.Values
      ensures Conf() == old(Conf()) && s.w == View()
      ensures (s, resp, made) == Walk(Conf(), System(old(View()), [], []), task, opts, io, 0)
    {
      ghost var cf := Conf();
      ghost var s0 := System(View(), [], []);
      hide View, Conf, Attempt;
      s, made := s0, 0;
      for k := 0 to |opts|
        invariant Valid() && Conf() == cf && s.w == View() && made == k
        invariant Walk(cf, s0, task, opts, io, 0) == Plus(Walk(cf, s, task, opts, io, k), k)
      {
        ghost var before := s;
        var r, call := AttemptOption(task, opts[k], io(k));
        made := made + 1;
        s := Try(cf, before, task, opts[k], io(k)).0;
        if r.Served? {
          return Some(r.resp), made, s;
        }
      }
      resp := None;
    }

    /** The request as a whole; the ghost results name the choices left open, and the calls
        and responses it adds. */
    method ExecuteWithFailover(task: Task, io: Outsides)
      returns (resp: Option<LlmCache.Response>, made: nat, ghost ranked: seq<Choice>, ghost rest: seq<Choice>, ghost s: System)
      requires Valid()
      modifies healthMonitor, cache, budget, circuitBreakers.Values
      ensures Conf() == old(Conf()) && s.w == View()
      ensures Ranking(Conf(), old(View()).health, task, ranked) && Rest(Conf(), Tried(Head(ranked)), rest)
      ensures (s, resp, made) == Failover(Conf(), System(old(View()), [], []), task, ranked, rest, io)
    {
      hide View, Conf, Walk, Ranking, Rest, Head;
      var candidates := RankCandidates(task);
      var head := Head(candidates);
      var tail := Remaining(Tried(head));
      ranked, rest := candidates, tail;
      if |candidates| == 0 {
        return None, 0, ranked, rest, System(View(), [], []);
      }
      resp, made, s := TryInTurn(task, head + tail, io);
    }
  }

  ghost function Plus(r: (System, Option<LlmCache.Response>, nat), k: nat): (System, Option<LlmCache.Response>, nat) {
    (r.0, r.1, r.2 + k)
  }

  ghost predicate ModelChosen(cf: Config, provider: string, model: string) {
    if model == "" then Models(cf, provider, "") || (forall m :: !Models(cf, provider, m)) else Models(cf, provider, model)
  }

  lemma RestOneMore(cf: Config, tried: set<string>, rest: seq<Choice>, name: string, model: string)
    requires Rest(cf, tried, rest) && name in tried && name in cf.providers && ModelChosen(cf, name, model)
    ensures Rest(cf, tried - {name}, if model == "" then rest else rest + [Choice(name, model, 0.0)])
  {
  }
}
