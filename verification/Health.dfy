/**
 Provider health (internal/llm/health.go).  Error rates are reals; the latency statistics,
 which nothing in routing reads, are not part of the model.
 */
module Health {
  import opened RealArithmetic

  datatype Status = Healthy | Degraded | Unhealthy | Down

  datatype ProviderHealth = ProviderHealth(status: Status, errorRate: real, consecutiveFails: int)

  type Providers = map<string, ProviderHealth>

  function Registered(): ProviderHealth {
    ProviderHealth(Healthy, 0.0, 0)
  }

  function Worse(h: ProviderHealth): ProviderHealth {
    var fails := h.consecutiveFails + 1;
    ProviderHealth(
      if fails >= 3 then Down else if fails >= 1 then Unhealthy else h.status,
      if h.errorRate + 0.1 < 1.0 then h.errorRate + 0.1 else 1.0,
      fails)
  }

  /** A success clears the error rate before the rate picks the status. */
  function Better(h: ProviderHealth): ProviderHealth {
    var cleared := h.(consecutiveFails := 0, errorRate := 0.0);
    cleared.(status := if cleared.errorRate < 0.1 then Healthy else Degraded)
  }

  function Reported(m: Providers, name: string, ok: bool): Providers {
    if name !in m then m else m[name := if ok then Better(m[name]) else Worse(m[name])]
  }

  predicate Usable(h: ProviderHealth) {
    h.status == Healthy || h.status == Degraded
  }

  function Score(m: Providers, name: string): real {
    if name !in m then 0.5
    else
      match m[name].status
      case Healthy => Max(0.5, 1.0 - m[name].errorRate)
      case Degraded => Max(0.3, 0.8 - m[name].errorRate)
      case Unhealthy => 0.2
      case Down => 0.0
  }

  /** What every report keeps: the status is a function of the failures in a row, and
      "degraded" is never it. */
  ghost predicate Consistent(h: ProviderHealth) {
    && h.consecutiveFails >= 0
    && h.status == (if h.consecutiveFails == 0 then Healthy else if h.consecutiveFails < 3 then Unhealthy else Down)
    && h.errorRate == (if h.consecutiveFails < 10 then h.consecutiveFails as real / 10.0 else 1.0)
  }

  /** The outcomes reported for one provider since it was registered, oldest first. */
  function After(reports: seq<bool>): ProviderHealth {
    if reports == [] then Registered()
    else
      var h := After(reports[..|reports| - 1]);
      if reports[|reports| - 1] then Better(h) else Worse(h)
  }

  /** The failures since the last success. */
  function Streak(reports: seq<bool>): nat {
    if reports == [] || reports[|reports| - 1] then 0 else 1 + Streak(reports[..|reports| - 1])
  }

  /** In every history: the provider is usable, and then fully trusted, exactly when nothing
      failed since the last success; three failures in a row are "down", and no history leads
      to "degraded". */
  lemma {:induction false} StatusIsStreak(reports: seq<bool>)
    ensures var h := After(reports);
      && Consistent(h) && h.consecutiveFails == Streak(reports)
      && h.status != Degraded
      && (Usable(h) <==> Streak(reports) == 0)
      && (h.status == Down <==> Streak(reports) >= 3)
  {
    if reports != [] {
      StatusIsStreak(reports[..|reports| - 1]);
    }
  }

  /** In every history: a provider is fully trusted while nothing failed since its last success,
      hardly after one or two failures in a row, and not at all after three; an unknown one is
      neither. */
  lemma ScoreIsStreak(m: Providers, name: string, reports: seq<bool>)
    requires name in m ==> m[name] == After(reports)
    ensures Score(m, name) ==
      if name !in m then 1.0 / 2.0
      else if Streak(reports) == 0 then 1.0
      else if Streak(reports) < 3 then 1.0 / 5.0
      else 0.0
  {
    StatusIsStreak(reports);
    hide After, Streak;
  }

  class HealthMonitor {
    var providers: Providers

    constructor ()
      ensures providers == map[]
    {
      providers := map[];
    }

    method RegisterProvider(name: string)
      modifies this
      ensures providers == old(providers)[name := Registered()]
    {
      providers := providers[name := ProviderHealth(Healthy, 0.0, 0)];
    }

    method GetHealthyProviders() returns (healthy: set<string>)
      ensures forall name :: name in healthy <==> name in providers && Usable(providers[name])
    {
      healthy := {};
      var todo := providers.Keys;
      while todo != {}
        invariant todo <= providers.Keys
        invariant forall name :: name in healthy <==> name in providers && name !in todo && Usable(providers[name])
        decreases todo
      {
        var name :| name in todo;
        todo := todo - {name};
        if providers[name].status == Healthy || providers[name].status == Degraded {
          healthy := healthy + {name};
        }
      }
    }

    method Confidence(name: string) returns (score: real)
      ensures score == Score(providers, name)
    {
      if name !in providers {
        return 0.5;
      }
      match providers[name].status {
        case Healthy => score := Max(0.5, 1.0 - providers[name].errorRate);
        case Degraded => score := Max(0.3, 0.8 - providers[name].errorRate);
        case Unhealthy => score := 0.2;
        case Down => score := 0.0;
      }
    }

    method RecordFailure(name: string)
      modifies this
      ensures providers == Reported(old(providers), name, false)
    {
      if name !in providers {
        return;
      }
      var h := providers[name];
      h := h.(consecutiveFails := h.consecutiveFails + 1);
      if h.errorRate + 0.1 < 1.0 {
        h := h.(errorRate := h.errorRate + 0.1);
      } else {
        h := h.(errorRate := 1.0);
      }
      if h.consecutiveFails >= 3 {
        h := h.(status := Down);
      } else if h.consecutiveFails >= 1 {
        h := h.(status := Unhealthy);
      }
      providers := providers[name := h];
    }

    method RecordSuccess(name: string)
      modifies this
      ensures providers == Reported(old(providers), name, true)
    {
      if name !in providers {
        return;
      }
      var h := providers[name].(consecutiveFails := 0, errorRate := 0.0);
      h := h.(status := if h.errorRate < 0.1 then Healthy else Degraded);
      providers := providers[name := h];
    }

    /** The probe's own result is an input. */
    method CheckHealth(name: string, ok: bool)
      modifies this
      ensures providers == Reported(old(providers), name, ok)
    {
      if name !in providers {
        return;
      }
      if ok {
        RecordSuccess(name);
      } else {
        RecordFailure(name);
      }
    }
  }
}
