/**
 The two idempotency stores (internal/idempotency/idempotency.go and
 internal/middleware/idempotency.go).

 They share one protocol: a request reserves its key under the lock, runs the handler outside
 it, and overwrites the reservation under the lock again.  They differ in whether an entry of
 exactly the maximal age still counts, in the capacity, and in that only the first one can
 also be written and deleted directly.  Time is an input.
 */
module Idempotency {
  import opened Finite
  import Order = LruOrder
  import opened Wrappers

  datatype Entry = Entry(response: string, createdAt: int, processing: bool)

  type Entries = map<string, Entry>

  /** `strict`: an entry must be younger than `maxAge`, not just no older. */
  datatype Config = Config(capacity: int, maxAge: int, strict: bool)

  /** internal/middleware/idempotency.go fixes the capacity and compares strictly. */
  function MiddlewareConfig(ttl: int): Config {
    Config(10000, ttl, true)
  }

  datatype Decision = Unprotected | Wait | Replay(response: string) | Start

  predicate Live(cfg: Config, e: Entry, now: int) {
    var age := now - e.createdAt;
    if cfg.strict then age < cfg.maxAge else age <= cfg.maxAge
  }

  predicate Stale(cfg: Config, e: Entry, now: int) {
    now - e.createdAt > cfg.maxAge
  }

  // Eviction

  /** The empty key is stored, and alone or strictly older than every other entry. */
  ghost predicate EmptyIsOldest(m: Entries) {
    "" in m && forall j :: j in m && j != "" ==> m[""].createdAt < m[j].createdAt
  }

  /** What evicting the oldest entry may do.  The scan uses the empty key as "none yet": when
      it finds the empty key stored and older than all it has seen, it starts afresh.  So it
      can pass over an older entry only if the empty key is older still, and evicts nothing
      only if the empty key is the oldest of all. */
  ghost predicate MayEvict(m: Entries, victim: Option<string>) {
    if victim.None? then m == map[] || EmptyIsOldest(m)
    else
      var v := victim.value;
      && v in m && v != ""
      && forall u :: u in m && u != "" && m[u].createdAt < m[v].createdAt ==> "" in m && m[""].createdAt < m[u].createdAt
  }

  function Without(m: Entries, victim: Option<string>): Entries {
    if victim.None? then m else m - {victim.value}
  }

  ghost predicate RoomChoice(cfg: Config, m: Entries, victim: Option<string>) {
    if |m| >= cfg.capacity then MayEvict(m, victim) else victim.None?
  }

  // The critical sections

  function Decide(cfg: Config, m: Entries, key: string, now: int): Decision {
    if key == "" then Unprotected
    else if key in m && Live(cfg, m[key], now) then (if m[key].processing then Wait else Replay(m[key].response))
    else Start
  }

  function Reserved(m: Entries, key: string, now: int, victim: Option<string>): Entries {
    Without(m, victim)[key := Entry("", now, true)]
  }

  function Stored(m: Entries, key: string, response: string, now: int): Entries {
    m[key := Entry(response, now, false)]
  }

  function StaleKeys(cfg: Config, m: Entries, now: int): set<string> {
    set k | k in m && Stale(cfg, m[k], now)
  }

  /** A store in the middle of a cleanup: the stale keys still to visit are in it. */
  ghost function Cleaned(m: Entries, stale: set<string>, todo: set<string>): Entries {
    m - (stale - todo)
  }

  lemma CleanedStep(m: Entries, stale: set<string>, todo: set<string>, key: string)
    requires key in todo && key in m && stale <= m.Keys
    ensures var now := Cleaned(m, stale, todo);
      && key in now && now[key] == m[key]
      && Cleaned(m, stale, todo - {key}) == (if key in stale then now - {key} else now)
      && |stale - (todo - {key})| == |stale - todo| + (if key in stale then 1 else 0)
  {
    if key in stale {
      assert stale - (todo - {key}) == stale - todo + {key};
    } else {
      assert stale - (todo - {key}) == stale - todo;
    }
  }

  class Store {
    var entries: Entries
    const cfg: Config

    constructor (cfg: Config)
      ensures entries == map[] && this.cfg == cfg
    {
      entries := map[];
      this.cfg := cfg;
    }

    /** The scan over the map, in any order. */
    method EvictOldest() returns (victim: Option<string>)
      modifies this
      ensures MayEvict(old(entries), victim) && entries == Without(old(entries), victim)
    {
      var oldestKey, oldestTime := "", 0;
      var todo := entries.Keys;
      while todo != {}
        invariant entries == old(entries) && todo <= entries.Keys
        invariant oldestKey == "" && todo != entries.Keys ==>
          && "" in entries && "" !in todo
          && forall j :: j in entries && j !in todo && j != "" ==> entries[""].createdAt < entries[j].createdAt
        invariant oldestKey != "" ==>
          && oldestKey in entries && oldestKey !in todo && oldestTime == entries[oldestKey].createdAt
          && forall u :: u in entries && u !in todo && u != "" && entries[u].createdAt < oldestTime ==>
               "" in entries && entries[""].createdAt < entries[u].createdAt
        decreases todo
      {
        var key :| key in todo;
        todo := todo - {key};
        if oldestKey == "" || entries[key].createdAt < oldestTime {
          oldestKey, oldestTime := key, entries[key].createdAt;
        }
      }
      if oldestKey != "" {
        entries := entries - {oldestKey};
        return Some(oldestKey);
      }
      assert entries == map[] || EmptyIsOldest(entries);
      return None;
    }

    /** The critical section of an arriving request. */
    method Arrive(key: string, now: int) returns (d: Decision, victim: Option<string>)
      modifies this
      ensures d == Decide(cfg, old(entries), key, now)
      ensures d == Start ==> RoomChoice(cfg, old(entries), victim) && entries == Reserved(old(entries), key, now, victim)
      ensures d != Start ==> entries == old(entries)
    {
      victim := None;
      if key == "" {
        return Unprotected, None;
      }
      if key in entries && Live(cfg, entries[key], now) {
        if entries[key].processing {
          return Wait, None;
        }
        return Replay(entries[key].response), None;
      }
      if |entries| >= cfg.capacity {
        victim := EvictOldest();
      }
      entries := entries[key := Entry("", now, true)];
      d := Start;
    }

    /** The critical section after the handler. */
    method Finish(key: string, response: string, now: int)
      modifies this
      ensures entries == Stored(old(entries), key, response, now)
    {
      entries := entries[key := Entry(response, now, false)];
    }

    method Set(key: string, response: string, now: int) returns (victim: Option<string>)
      modifies this
      ensures RoomChoice(cfg, old(entries), victim)
      ensures entries == Stored(Without(old(entries), victim), key, response, now)
    {
      victim := None;
      if |entries| >= cfg.capacity {
        victim := EvictOldest();
      }
      entries := entries[key := Entry(response, now, false)];
    }

    method Delete(key: string)
      modifies this
      ensures entries == old(entries) - {key}
    {
      entries := entries - {key};
    }

    method Cleanup(now: int) returns (count: nat)
      modifies this
      ensures entries == old(entries) - StaleKeys(cfg, old(entries), now)
      ensures count == |StaleKeys(cfg, old(entries), now)|
    {
      count := 0;
      ghost var m, stale := entries, StaleKeys(cfg, entries, now);
      var todo := entries.Keys;
      assert stale - todo == {};
      while todo != {}
        invariant todo <= m.Keys && entries == Cleaned(m, stale, todo) && count == |stale - todo|
        decreases todo
      {
        var key :| key in todo;
        CleanedStep(m, stale, todo, key);
        hide Cleaned;
        todo := todo - {key};
        if Stale(cfg, entries[key], now) {
          entries := entries - {key};
          count := count + 1;
        }
      }
      assert stale - todo == stale;
    }
  }

  // ---------------------------------------------------------------------------------------
  // Every interleaving
  // ---------------------------------------------------------------------------------------

  /** The store, and what happened so far per key: handler starts, handlers still running,
      entries lost (evicted, deleted, cleaned up or found expired), entries that a completion
      put back after its reservation was gone, entries written directly; every response a
      handler or a direct write gave for a key; how often a full store evicted nothing for a
      new key; the entries evicted, deleted or cleaned up; and when a key was last reserved,
      completed or written. */
  datatype System = System(
    m: Entries,
    starts: multiset<string>,
    running: multiset<string>,
    lost: multiset<string>,
    revived: multiset<string>,
    written: multiset<string>,
    answers: set<(string, string)>,
    spared: nat,
    dropped: multiset<string>,
    stamps: map<string, int>)

  datatype Event =
    | Request(key: string, now: int, victim: Option<string>)
    | Complete(key: string, response: string, now: int)
    | Write(key: string, response: string, now: int, victim: Option<string>)
    | Remove(key: string)
    | Sweep(now: int)

  function Initial(): System {
    System(map[], multiset{}, multiset{}, multiset{}, multiset{}, multiset{}, {}, 0, multiset{}, map[])
  }

  /** The loss of the evicted key; when the arriving key itself is evicted its entry is
      replaced at once, which its own line accounts for. */
  function Evicted(victim: Option<string>, key: string): multiset<string> {
    if victim.Some? && victim.value != key then multiset{victim.value} else multiset{}
  }

  /** The most entries an untroubled store holds: with no capacity it still holds one. */
  function Limit(cfg: Config): int {
    if cfg.capacity < 1 then 1 else cfg.capacity
  }

  function Spared(cfg: Config, m: Entries, victim: Option<string>, key: string): nat {
    if |m| >= Limit(cfg) && victim.None? && key !in m then 1 else 0
  }

  function One(key: string, yes: bool): multiset<string> {
    if yes then multiset{key} else multiset{}
  }

  /** One event.  An eviction choice that the code could not make disables the event. */
  ghost function Step(cfg: Config, s: System, e: Event): System {
    match e
    case Request(key, now, victim) =>
      if Decide(cfg, s.m, key, now) != Start || !RoomChoice(cfg, s.m, victim) then s
      else
        s.(m := Reserved(s.m, key, now, victim),
           starts := s.starts + multiset{key},
           running := s.running + multiset{key},
           lost := s.lost + One(key, key in s.m) + Evicted(victim, key),
           spared := s.spared + Spared(cfg, s.m, victim, key),
           dropped := s.dropped + Evicted(victim, key),
           stamps := s.stamps[key := now])
    case Complete(key, response, now) =>
      if key !in s.running then s
      else
        s.(m := Stored(s.m, key, response, now),
           running := s.running - multiset{key},
           revived := s.revived + One(key, key !in s.m),
           answers := s.answers + {(key, response)},
           stamps := s.stamps[key := now])
    case Write(key, response, now, victim) =>
      if !RoomChoice(cfg, s.m, victim) then s
      else
        s.(m := Stored(Without(s.m, victim), key, response, now),
           lost := s.lost + Evicted(victim, key),
           written := s.written + One(key, key !in s.m),
           answers := s.answers + {(key, response)},
           spared := s.spared + Spared(cfg, s.m, victim, key),
           dropped := s.dropped + Evicted(victim, key),
           stamps := s.stamps[key := now])
    case Remove(key) =>
      s.(m := s.m - {key}, lost := s.lost + One(key, key in s.m), dropped := s.dropped + One(key, key in s.m))
    case Sweep(now) =>
      var stale := StaleKeys(cfg, s.m, now);
      s.(m := s.m - stale, lost := s.lost + multiset(stale), dropped := s.dropped + multiset(stale))
  }

  ghost function Run(cfg: Config, s: System, trace: seq<Event>): System
    decreases |trace|
  {
    if trace == [] then s else Run(cfg, Step(cfg, s, trace[0]), trace[1..])
  }

  function Present(m: Entries, k: string): nat {
    if k in m then 1 else 0
  }

  /** Every entry that ever appeared under `k` is accounted for. */
  ghost predicate Accounted(s: System, k: string) {
    && s.starts[k] + s.revived[k] + s.written[k] == s.lost[k] + Present(s.m, k)
    && s.running[k] <= s.starts[k]
    && (k in s.m && !s.m[k].processing ==> (k, s.m[k].response) in s.answers)
  }

  lemma RequestKeepsAccount(cfg: Config, s: System, key: string, now: int, victim: Option<string>, k: string)
    requires Accounted(s, k)
    ensures Accounted(Step(cfg, s, Request(key, now, victim)), k)
  {
  }

  lemma WriteKeepsAccount(cfg: Config, s: System, key: string, response: string, now: int, victim: Option<string>, k: string)
    requires Accounted(s, k)
    ensures Accounted(Step(cfg, s, Write(key, response, now, victim)), k)
  {
  }

  lemma SweepKeepsAccount(cfg: Config, s: System, now: int, k: string)
    requires Accounted(s, k)
    ensures Accounted(Step(cfg, s, Sweep(now)), k)
  {
  }

  lemma StepKeepsAccount(cfg: Config, s: System, e: Event, k: string)
    requires Accounted(s, k)
    ensures Accounted(Step(cfg, s, e), k)
  {
    match e
    case Request(key, now, victim) =>
      hide *;
      RequestKeepsAccount(cfg, s, key, now, victim, k);
    case Write(key, response, now, victim) =>
      hide *;
      WriteKeepsAccount(cfg, s, key, response, now, victim, k);
    case Sweep(now) =>
      hide *;
      SweepKeepsAccount(cfg, s, now, k);
    case Complete(key, response, now) =>
    case Remove(key) =>
  }

  lemma {:induction false} EveryRunIsAccounted(cfg: Config, s: System, trace: seq<Event>, k: string)
    requires Accounted(s, k)
    ensures Accounted(Run(cfg, s, trace), k)
    decreases |trace|
  {
    if trace != [] {
      StepKeepsAccount(cfg, s, trace[0], k);
      EveryRunIsAccounted(cfg, Step(cfg, s, trace[0]), trace[1..], k);
    }
  }

  /** In every interleaving, for either store: a key's handler starts, plus the entries put
      back or written for it, are exactly its lost entries plus the one it may have now.  So
      the handler starts at most once more than its entry was lost, and a replayed response is
      one that a handler (or a direct write) gave for that key. */
  lemma HandlerStartsAreBounded(cfg: Config, trace: seq<Event>, k: string)
    ensures var s := Run(cfg, Initial(), trace);
      && s.starts[k] + s.revived[k] + s.written[k] == s.lost[k] + Present(s.m, k)
      && s.starts[k] <= 1 + s.lost[k]
      && s.running[k] <= 1 + s.lost[k]
  {
    EveryRunIsAccounted(cfg, Initial(), trace, k);
  }

  lemma ReplaysAreAnswers(cfg: Config, trace: seq<Event>, k: string, now: int)
    ensures var s := Run(cfg, Initial(), trace);
      var d := Decide(cfg, s.m, k, now);
      d.Replay? ==> (k, d.response) in s.answers
  {
    EveryRunIsAccounted(cfg, Initial(), trace, k);
  }

  // Exactly when a handler runs again

  /** Older than the stores keep an answer: one drops it past the maximal age, the other from
      the maximal age on. */
  predicate AgedOut(cfg: Config, since: int, now: int) {
    if cfg.strict then now - since >= cfg.maxAge else now - since > cfg.maxAge
  }

  /** An entry is as old as the last reservation, completion or write of its key. */
  ghost predicate Stamped(s: System, k: string) {
    k in s.m ==> k in s.stamps && s.m[k].createdAt == s.stamps[k]
  }

  lemma StepKeepsStamp(cfg: Config, s: System, e: Event, k: string)
    requires Stamped(s, k)
    ensures Stamped(Step(cfg, s, e), k)
  {
    hide RoomChoice, Decide, Evicted, One, Spared, StaleKeys;
  }

  lemma {:induction false} RunKeepsStamp(cfg: Config, s: System, trace: seq<Event>, k: string)
    requires Stamped(s, k)
    ensures Stamped(Run(cfg, s, trace), k)
    decreases |trace|
  {
    if trace != [] {
      hide Step;
      StepKeepsStamp(cfg, s, trace[0], k);
      RunKeepsStamp(cfg, Step(cfg, s, trace[0]), trace[1..], k);
    }
  }

  /** An entry leaves the store only by being dropped. */
  lemma StepKeepsOrDrops(cfg: Config, s: System, e: Event, k: string)
    ensures s.dropped[k] <= Step(cfg, s, e).dropped[k]
    ensures k in s.m && Step(cfg, s, e).dropped[k] == s.dropped[k] ==> k in Step(cfg, s, e).m
  {
    hide Decide, Spared, MayEvict;
    match e
    case Sweep(now) =>
      var stale := StaleKeys(cfg, s.m, now);
      hide StaleKeys;
      assert k in stale ==> multiset(stale)[k] == 1;
    case _ =>
  }

  lemma {:induction false} RunKeepsOrDrops(cfg: Config, s: System, trace: seq<Event>, k: string)
    ensures s.dropped[k] <= Run(cfg, s, trace).dropped[k]
    ensures k in s.m && Run(cfg, s, trace).dropped[k] == s.dropped[k] ==> k in Run(cfg, s, trace).m
    decreases |trace|
  {
    if trace != [] {
      hide Step;
      StepKeepsOrDrops(cfg, s, trace[0], k);
      RunKeepsOrDrops(cfg, Step(cfg, s, trace[0]), trace[1..], k);
    }
  }

  /** In every run, for either store: from the moment a key has an entry, as long as that is not
      evicted, deleted or cleaned up, a request for it starts the handler if and only if its
      last reservation, completion or write is older than the maximal age.  So a handler runs a
      second time only after a loss or after the window. */
  lemma RestartNeedsLossOrAge(cfg: Config, before: seq<Event>, between: seq<Event>, k: string, now: int)
    requires k != "" && k in Run(cfg, Initial(), before).m
    ensures var s := Run(cfg, Initial(), before);
      var s' := Run(cfg, s, between);
      && s.dropped[k] <= s'.dropped[k]
      && (s'.dropped[k] == s.dropped[k] ==>
           k in s'.stamps && (Decide(cfg, s'.m, k, now) == Start <==> AgedOut(cfg, s'.stamps[k], now)))
  {
    var s := Run(cfg, Initial(), before);
    RunKeepsStamp(cfg, Initial(), before, k);
    RunKeepsStamp(cfg, s, between, k);
    RunKeepsOrDrops(cfg, s, between, k);
    hide Run;
  }

  /** The request that finds the key unused, or finished: what it is told, by the age alone. */
  lemma AnswerIsReplayedWithinWindow(cfg: Config, s: System, k: string, response: string, t0: int, now: int)
    requires k != "" && k in s.running
    ensures Decide(cfg, Step(cfg, s, Complete(k, response, t0)).m, k, now) ==
      if AgedOut(cfg, t0, now) then Start else Replay(response)
  {
  }

  lemma DuplicateWaitsWithinWindow(cfg: Config, s: System, k: string, victim: Option<string>, t0: int, now: int)
    requires Decide(cfg, s.m, k, t0) == Start && RoomChoice(cfg, s.m, victim)
    ensures Decide(cfg, Step(cfg, s, Request(k, t0, victim)).m, k, now) == if AgedOut(cfg, t0, now) then Start else Wait
  {
  }

  /** The middleware keeps an answer for less than its lifetime. */
  lemma MiddlewareReplaysWithinLifetime(ttl: int, s: System, k: string, response: string, t0: int, now: int)
    requires k != "" && k in s.running
    ensures Decide(MiddlewareConfig(ttl), Step(MiddlewareConfig(ttl), s, Complete(k, response, t0)).m, k, now) ==
      if now - t0 < ttl then Replay(response) else Start
  {
    AnswerIsReplayedWithinWindow(MiddlewareConfig(ttl), s, k, response, t0, now);
  }

  /** In every run, a cleanup drops exactly the entries past the maximal age, so it never makes
      a handler run again that would not have anyway. */
  lemma CleanupDropsExactlyAged(cfg: Config, trace: seq<Event>, k: string, now: int)
    ensures var s := Run(cfg, Initial(), trace);
      && (k in Step(cfg, s, Sweep(now)).m <==> k in s.m && k in s.stamps && now - s.stamps[k] <= cfg.maxAge)
      && (k != "" && k in s.m && k !in Step(cfg, s, Sweep(now)).m ==> Decide(cfg, s.m, k, now) == Start)
  {
    RunKeepsStamp(cfg, Initial(), trace, k);
    hide Run;
  }

  // Capacity

  ghost predicate Bounded(cfg: Config, s: System) {
    |s.m| <= Limit(cfg) + |s.revived| + s.spared
  }

  lemma FewerKeys(a: Entries, b: Entries)
    requires a.Keys <= b.Keys
    ensures |a| <= |b|
  {
    SubsetSize(a.Keys, b.Keys);
  }

  lemma SizeAfterRoom(cfg: Config, m: Entries, victim: Option<string>, key: string, e: Entry)
    requires RoomChoice(cfg, m, victim)
    ensures |Without(m, victim)[key := e]| <= (if |m| >= Limit(cfg) then |m| + Spared(cfg, m, victim, key) else Limit(cfg))
  {
    var room := Without(m, victim);
    if victim.Some? {
      assert room.Keys == m.Keys - {victim.value};
      assert |room| == |room.Keys| == |m.Keys| - 1;
    }
    assert room[key := e].Keys == room.Keys + {key};
    assert |room[key := e]| == |room[key := e].Keys|;
  }

  lemma PutStaysBounded(cfg: Config, s: System, e: Event)
    requires Bounded(cfg, s) && (e.Request? || e.Write?)
    ensures Bounded(cfg, Step(cfg, s, e))
  {
    hide RoomChoice, Live, Spared, Evicted, One;
    if RoomChoice(cfg, s.m, e.victim) {
      SizeAfterRoom(cfg, s.m, e.victim, e.key, if e.Request? then Entry("", e.now, true) else Entry(e.response, e.now, false));
    }
  }

  lemma CompleteStaysBounded(cfg: Config, s: System, key: string, response: string, now: int)
    requires Bounded(cfg, s)
    ensures Bounded(cfg, Step(cfg, s, Complete(key, response, now)))
  {
  }

  lemma StepStaysBounded(cfg: Config, s: System, e: Event)
    requires Bounded(cfg, s)
    ensures Bounded(cfg, Step(cfg, s, e))
  {
    hide RoomChoice, Decide, StaleKeys, Spared;
    match e
    case Complete(key, response, now) =>
      CompleteStaysBounded(cfg, s, key, response, now);
    case Remove(key) =>
      FewerKeys(s.m - {key}, s.m);
    case Sweep(now) =>
      FewerKeys(s.m - StaleKeys(cfg, s.m, now), s.m);
    case _ =>
      PutStaysBounded(cfg, s, e);
  }

  lemma {:induction false} RunStaysBounded(cfg: Config, s: System, trace: seq<Event>)
    requires Bounded(cfg, s)
    ensures Bounded(cfg, Run(cfg, s, trace))
    decreases |trace|
  {
    if trace != [] {
      hide Step, Bounded;
      StepStaysBounded(cfg, s, trace[0]);
      RunStaysBounded(cfg, Step(cfg, s, trace[0]), trace[1..]);
    }
  }

  /** The empty key is nowhere, so eviction has never failed. */
  ghost predicate NoEmptyKey(s: System) {
    "" !in s.m && "" !in s.running && s.spared == 0
  }

  lemma StepKeepsNoEmptyKey(cfg: Config, s: System, e: Event)
    requires NoEmptyKey(s) && (e.Write? ==> e.key != "")
    ensures NoEmptyKey(Step(cfg, s, e))
  {
    hide Live, StaleKeys, Evicted, One;
    if |s.m| >= Limit(cfg) {
      assert s.m != map[];
    }
  }

  lemma {:induction false} RunKeepsNoEmptyKey(cfg: Config, s: System, trace: seq<Event>)
    requires NoEmptyKey(s) && forall i :: 0 <= i < |trace| && trace[i].Write? ==> trace[i].key != ""
    ensures NoEmptyKey(Run(cfg, s, trace))
    decreases |trace|
  {
    if trace != [] {
      hide Step;
      StepKeepsNoEmptyKey(cfg, s, trace[0]);
      RunKeepsNoEmptyKey(cfg, Step(cfg, s, trace[0]), trace[1..]);
    }
  }

  /** In every interleaving: the entries number at most the capacity (at least one), plus the
      completions that landed on a reservation that was gone, plus the times a full store made
      no room for a new key.  That last number is zero unless the empty key, which no request
      can use, was written directly. */
  lemma SizeIsBounded(cfg: Config, trace: seq<Event>)
    ensures var s := Run(cfg, Initial(), trace);
      && |s.m| <= Limit(cfg) + |s.revived| + s.spared
      && ((forall i :: 0 <= i < |trace| && trace[i].Write? ==> trace[i].key != "") ==> s.spared == 0)
  {
    hide Run;
    RunStaysBounded(cfg, Initial(), trace);
    if forall i :: 0 <= i < |trace| && trace[i].Write? ==> trace[i].key != "" {
      RunKeepsNoEmptyKey(cfg, Initial(), trace);
    }
  }

  /** The middleware has no direct writes, so its 10000 entries are a bound on its own part. */
  lemma MiddlewareSizeIsBounded(ttl: int, trace: seq<Event>)
    requires forall i :: 0 <= i < |trace| ==> !trace[i].Write?
    ensures var s := Run(MiddlewareConfig(ttl), Initial(), trace);
      |s.m| <= 10000 + |s.revived|
  {
    SizeIsBounded(MiddlewareConfig(ttl), trace);
  }

  // Exactly when a full store makes room

  /** In every state with a full store, a new key never makes it grow, whatever order the scan
      takes, if and only if the empty key is not the oldest entry. */
  lemma FullStoreMakesRoomIff(cfg: Config, s: System, key: string, now: int)
    requires |s.m| >= Limit(cfg) && key != "" && key !in s.m
    ensures (forall victim :: |Step(cfg, s, Request(key, now, victim)).m| <= |s.m|) <==> !EmptyIsOldest(s.m)
  {
    if EmptyIsOldest(s.m) {
      var s' := Step(cfg, s, Request(key, now, None));
      assert s'.m.Keys == s.m.Keys + {key};
      assert |s'.m| == |s'.m.Keys|;
    } else {
      forall victim ensures |Step(cfg, s, Request(key, now, victim)).m| <= |s.m| {
        if RoomChoice(cfg, s.m, victim) {
          assert s.m != map[] && victim.Some?;
          SizeAfterRoom(cfg, s.m, victim, key, Entry("", now, true));
        }
      }
    }
  }

  /** Such stores are reached: with the empty key written first, a store of capacity one comes
      to hold two. */
  lemma EmptyKeyDefeatsEviction(now: int, key: string)
    requires key != ""
    ensures var cfg := Config(1, 60, false);
      var s := Run(cfg, Initial(), [Write("", "r", now, None), Request(key, now, None)]);
      |s.m| == 2 && |s.revived| == 0 && s.spared == 1
  {
    var cfg := Config(1, 60, false);
    var trace := [Write("", "r", now, None), Request(key, now, None)];
    var s1 := Step(cfg, Initial(), trace[0]);
    assert s1.m == map["" := Entry("r", now, false)];
    var s2 := Step(cfg, s1, trace[1]);
    assert |s1.m| == 1;
    assert MayEvict(s1.m, None);
    assert s2.m == map["" := Entry("r", now, false), key := Entry("", now, true)];
    assert s2.m.Keys == {"", key};
    assert trace[1..] == [trace[1]] && trace[1..][1..] == [];
    assert Run(cfg, s1, [trace[1]]) == Run(cfg, s2, []);
  }

  // ---------------------------------------------------------------------------------------
  // The scan makes every choice that is allowed
  // ---------------------------------------------------------------------------------------

  /** The scan over the keys in a given order, from a candidate so far. */
  function Scanned(m: Entries, order: seq<string>, oldest: string): string
    requires Elems(order) <= m.Keys && (oldest != "" ==> oldest in m)
    decreases |order|
  {
    if order == [] then oldest
    else
      var k := order[0];
      assert k in Elems(order) && Elems(order[1..]) <= Elems(order);
      Scanned(m, order[1..], if oldest == "" || m[k].createdAt < m[oldest].createdAt then k else oldest)
  }

  /** The order visits each of these keys once. */
  ghost predicate Visits(order: seq<string>, keys: set<string>) {
    Order.Distinct(order) && Elems(order) == keys
  }

  lemma VisitsBoth(a: seq<string>, ka: set<string>, b: seq<string>, kb: set<string>)
    requires Visits(a, ka) && Visits(b, kb) && ka !! kb
    ensures Visits(a + b, ka + kb)
  {
    forall i, j | 0 <= i < j < |a + b| ensures (a + b)[i] != (a + b)[j] {
      assert i < |a| <= j ==> a[i] in Elems(a) && b[j - |a|] in Elems(b);
    }
  }

  lemma {:induction false} Listed(keys: set<string>) returns (order: seq<string>)
    ensures Visits(order, keys)
    decreases keys
  {
    if keys == {} {
      order := [];
    } else {
      var k :| k in keys;
      var rest := Listed(keys - {k});
      VisitsBoth([k], {k}, rest, keys - {k});
      assert {k} + (keys - {k}) == keys;
      order := [k] + rest;
    }
  }

  lemma {:induction false} ScannedInTwo(m: Entries, a: seq<string>, b: seq<string>, oldest: string)
    requires Elems(a) <= m.Keys && Elems(b) <= m.Keys && (oldest != "" ==> oldest in m)
    ensures Elems(a + b) == Elems(a) + Elems(b)
    ensures var mid := Scanned(m, a, oldest);
      (mid != "" ==> mid in m) && Scanned(m, a + b, oldest) == Scanned(m, b, mid)
    decreases |a|
  {
    assert Elems(a + b) == Elems(a) + Elems(b);
    if a == [] {
      assert a + b == b;
    } else {
      assert (a + b)[0] == a[0] && (a + b)[1..] == a[1..] + b;
      var k := a[0];
      assert k in Elems(a) && Elems(a[1..]) <= Elems(a);
      ScannedInTwo(m, a[1..], b, if oldest == "" || m[k].createdAt < m[oldest].createdAt then k else oldest);
    }
  }

  /** Without the empty key in the way, the scan ends on one of the keys, if there is one. */
  lemma {:induction false} ScannedIsListed(m: Entries, order: seq<string>, oldest: string)
    requires Elems(order) <= m.Keys - {""} && (oldest != "" ==> oldest in m)
    ensures var r := Scanned(m, order, oldest);
      r in Elems(order) || (r == oldest && (order != [] ==> oldest != ""))
    decreases |order|
  {
    if order != [] {
      var k := order[0];
      assert k in Elems(order) && Elems(order[1..]) <= Elems(order);
      ScannedIsListed(m, order[1..], if oldest == "" || m[k].createdAt < m[oldest].createdAt then k else oldest);
    }
  }

  /** A candidate that nothing later beats stays. */
  lemma {:induction false} ScannedKeeps(m: Entries, order: seq<string>, oldest: string)
    requires oldest != "" && oldest in m && Elems(order) <= m.Keys
    requires forall k :: k in Elems(order) ==> m[oldest].createdAt <= m[k].createdAt
    ensures Scanned(m, order, oldest) == oldest
    decreases |order|
  {
    if order != [] {
      assert order[0] in Elems(order) && Elems(order[1..]) <= Elems(order);
      ScannedKeeps(m, order[1..], oldest);
    }
  }

  lemma ScannedOne(m: Entries, k: string, oldest: string)
    requires k in m && (oldest != "" ==> oldest in m)
    ensures Elems([k]) == {k}
    ensures Scanned(m, [k], oldest) == if oldest == "" || m[k].createdAt < m[oldest].createdAt then k else oldest
  {
    assert [k][1..] == [];
  }

  lemma NoneIsMade(m: Entries) returns (order: seq<string>)
    requires EmptyIsOldest(m)
    ensures Visits(order, m.Keys) && Scanned(m, order, "") == ""
  {
    var others := Listed(m.Keys - {""});
    order := others + [""];
    VisitsBoth(others, m.Keys - {""}, [""], {""});
    assert m.Keys - {""} + {""} == m.Keys;
    ScannedInTwo(m, others, [""], "");
    ScannedIsListed(m, others, "");
    ScannedOne(m, "", Scanned(m, others, ""));
  }

  function Passed(m: Entries, v: string): set<string>
    requires v in m
  {
    set u | u in m && u != "" && m[u].createdAt < m[v].createdAt
  }

  /** The entries to pass over, and then the empty key, which makes the scan forget them. */
  lemma PassedAreForgotten(m: Entries, v: string) returns (front: seq<string>)
    requires MayEvict(m, Some(v))
    ensures Visits(front, Passed(m, v) + m.Keys * {""}) && Elems(front) <= m.Keys && Scanned(m, front, "") == ""
  {
    var passed := Passed(m, v);
    if "" in m {
      var before := Listed(passed);
      ScannedIsListed(m, before, "");
      ScannedOne(m, "", Scanned(m, before, ""));
      ScannedInTwo(m, before, [""], "");
      VisitsBoth(before, passed, [""], {""});
      front := before + [""];
      assert m.Keys * {""} == {""};
    } else {
      front := [];
      assert passed + m.Keys * {""} == {};
    }
  }

  /** Then the victim, and then the rest. */
  lemma VictimIsMade(m: Entries, v: string) returns (order: seq<string>)
    requires MayEvict(m, Some(v))
    ensures Visits(order, m.Keys) && Scanned(m, order, "") == v
  {
    var front := PassedAreForgotten(m, v);
    var first := Passed(m, v) + m.Keys * {""};
    var kept := m.Keys - first - {v};
    var after := Listed(kept);
    assert first + ({v} + kept) == m.Keys && first !! {v} + kept;
    assert forall k :: k in kept ==> m[v].createdAt <= m[k].createdAt;
    hide Passed, MayEvict, Scanned;
    VisitsBoth([v], {v}, after, kept);
    ScannedInTwo(m, [v], after, "");
    ScannedOne(m, v, "");
    ScannedKeeps(m, after, v);
    VisitsBoth(front, first, [v] + after, {v} + kept);
    ScannedInTwo(m, front, [v] + after, "");
    order := front + ([v] + after);
  }

  /** Every choice that the eviction is allowed is made in some order of the map, so the model
      of it admits nothing that the code cannot do. */
  lemma EveryChoiceIsMade(m: Entries, victim: Option<string>) returns (order: seq<string>)
    requires MayEvict(m, victim)
    ensures Visits(order, m.Keys) && Scanned(m, order, "") == if victim.Some? then victim.value else ""
  {
    if victim.Some? {
      order := VictimIsMade(m, victim.value);
    } else if m == map[] {
      order := [];
    } else {
      order := NoneIsMade(m);
    }
  }
}
