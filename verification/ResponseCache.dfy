/**
 The LLM response cache (internal/cache/response_cache.go): a map and an LRU key list.

 Expiry times are inputs, so `Put` and `PutWithTTL` are one operation here.
 */
module ResponseCaches {
  import opened Wrappers
  import opened LruOrder
  import opened Finite

  datatype Entry = Entry(response: string, cost: real, hits: nat, expiresAt: int)

  datatype Stats = Stats(hits: nat, misses: nat, saved: real, evictions: nat)

  datatype Cache = Cache(entries: map<string, Entry>, order: seq<string>, maxSize: int, stats: Stats)

  const DEFAULT_MAX_SIZE := 10000

  function NewCache(maxSize: int): Cache {
    Cache(map[], [], if maxSize <= 0 then DEFAULT_MAX_SIZE else maxSize, Stats(0, 0, 0.0, 0))
  }

  ghost predicate Valid(c: Cache) {
    Agree(c.entries, c.order, c.maxSize)
  }

  function Remove(c: Cache, gone: set<string>): Cache {
    c.(entries := c.entries - gone, order := Drop(c.order, gone))
  }

  function Get(c: Cache, key: string, now: int): (Cache, Option<Entry>) {
    var missed := c.stats.(misses := c.stats.misses + 1);
    if key !in c.entries then (c.(stats := missed), None)
    else if now > c.entries[key].expiresAt then (Remove(c, {key}).(stats := missed), None)
    else
      var e := c.entries[key].(hits := c.entries[key].hits + 1);
      (c.(entries := c.entries[key := e],
          order := MoveToEnd(c.order, key),
          stats := c.stats.(hits := c.stats.hits + 1, saved := c.stats.saved + e.cost)),
       Some(e))
  }

  /** The key list's first key goes; with an empty list nothing does. */
  function EvictOldest(c: Cache): Cache {
    if c.order == [] then c
    else
      c.(entries := c.entries - {c.order[0]},
         order := c.order[1..],
         stats := c.stats.(evictions := c.stats.evictions + 1))
  }

  function Put(c: Cache, key: string, e: Entry): Cache {
    if key in c.entries then c.(entries := c.entries[key := e], order := MoveToEnd(c.order, key))
    else
      var room := if |c.entries| >= c.maxSize then EvictOldest(c) else c;
      room.(entries := room.entries[key := e], order := room.order + [key])
  }

  function ExpiredKeys(c: Cache, now: int): set<string> {
    set k | k in c.entries && now > c.entries[k].expiresAt
  }

  function Purge(c: Cache, now: int): Cache {
    Remove(c, ExpiredKeys(c, now))
  }

  function Cleared(c: Cache): Cache {
    c.(entries := map[], order := [])
  }

  lemma RemoveNone(c: Cache)
    ensures Remove(c, {}) == c
  {
    DropNone(c.order, {});
    assert c.entries - {} == c.entries;
  }

  lemma RemoveOneMore(c: Cache, done: set<string>, k: string)
    ensures Remove(Remove(c, done), {k}) == Remove(c, done + {k})
  {
    DropTwice(c.order, done, {k});
    assert c.entries - done - {k} == c.entries - (done + {k});
  }

  /** Without the agreement the loop would spin: an empty list over a full map. */
  lemma EvictionWouldSpin(c: Cache)
    requires c.order == [] && |c.entries| >= c.maxSize
    ensures EvictOldest(c) == c && !Valid(c)
  {
    assert Elems(c.order) == {};
    assert |c.entries| == |c.entries.Keys|;
  }

  lemma PutKeepsValid(c: Cache, key: string, e: Entry)
    requires Valid(c)
    ensures Valid(Put(c, key, e))
  {
    hide Distinct, Elems, MoveToEnd;
    if key in c.entries {
      UpdateAgrees(c.entries, c.order, c.maxSize, key, e);
      TouchAgrees(c.entries[key := e], c.order, c.maxSize, key);
    } else if |c.entries| >= c.maxSize {
      EvictMakesRoom(c.entries, c.order, c.maxSize);
      InsertAgrees(c.entries - {c.order[0]}, c.order[1..], c.maxSize, key, e);
    } else {
      InsertAgrees(c.entries, c.order, c.maxSize, key, e);
    }
  }

  lemma GetKeepsValid(c: Cache, key: string, now: int)
    requires Valid(c)
    ensures Valid(Get(c, key, now).0)
  {
    hide Agree, MoveToEnd, Drop;
    if key in c.entries {
      var e := c.entries[key].(hits := c.entries[key].hits + 1);
      RemoveAgrees(c.entries, c.order, c.maxSize, {key});
      UpdateAgrees(c.entries, c.order, c.maxSize, key, e);
      TouchAgrees(c.entries[key := e], c.order, c.maxSize, key);
    }
  }

  class ResponseCache {
    var entries: map<string, Entry>
    var order: seq<string>
    const maxSize: int
    var stats: Stats

    ghost function View(): Cache
      reads this
    {
      Cache(entries, order, maxSize, stats)
    }

    constructor (maxSize: int)
      ensures View() == NewCache(maxSize) && Valid(View())
    {
      this.entries, this.order := map[], [];
      this.maxSize := if maxSize <= 0 then DEFAULT_MAX_SIZE else maxSize;
      this.stats := Stats(0, 0, 0.0, 0);
    }

    method DeleteEntry(key: string)
      requires Valid(View())
      modifies this
      ensures View() == Remove(old(View()), {key}) && Valid(View())
    {
      hide Distinct, Elems, Drop;
      RemoveAgrees(entries, order, maxSize, {key});
      entries := entries - {key};
      var _, rest := CutKey(order, key);
      order := rest;
    }

    method Touch(key: string)
      requires Distinct(order)
      modifies this`order
      ensures order == MoveToEnd(old(order), key)
    {
      hide Distinct, Drop;
      var found, rest := CutKey(order, key);
      if found {
        order := rest + [key];
      }
    }

    method Lookup(key: string, now: int) returns (hit: Option<Entry>)
      requires Valid(View())
      modifies this
      ensures (View(), hit) == Get(old(View()), key, now) && Valid(View())
    {
      hide Distinct, Elems, Drop, MoveToEnd;
      GetKeepsValid(View(), key, now);
      if key !in entries {
        stats := stats.(misses := stats.misses + 1);
        return None;
      }
      if now > entries[key].expiresAt {
        DeleteEntry(key);
        stats := stats.(misses := stats.misses + 1);
        return None;
      }
      Touch(key);
      var e := entries[key].(hits := entries[key].hits + 1);
      entries := entries[key := e];
      stats := stats.(hits := stats.hits + 1, saved := stats.saved + e.cost);
      hit := Some(e);
    }

    method Store(key: string, e: Entry)
      requires Valid(View())
      modifies this
      ensures View() == Put(old(View()), key, e) && Valid(View())
    {
      hide Distinct, Elems, Drop, MoveToEnd;
      PutKeepsValid(View(), key, e);
      if key in entries {
        entries := entries[key := e];
        Touch(key);
        return;
      }
      while |entries| >= maxSize
        invariant Valid(View()) && key !in entries
        invariant View() == old(View()) || (|entries| < maxSize && old(|entries| >= maxSize) && View() == EvictOldest(old(View())))
        decreases |entries|
      {
        EvictMakesRoom(entries, order, maxSize);
        entries := entries - {order[0]};
        order := order[1..];
        stats := stats.(evictions := stats.evictions + 1);
      }
      entries := entries[key := e];
      order := order + [key];
    }

    method Delete(key: string) returns (existed: bool)
      requires Valid(View())
      modifies this
      ensures existed <==> key in old(entries)
      ensures View() == (if existed then Remove(old(View()), {key}) else old(View())) && Valid(View())
    {
      existed := key in entries;
      if existed {
        DeleteEntry(key);
      }
    }

    method PurgeExpired(now: int) returns (count: nat)
      requires Valid(View())
      modifies this
      ensures View() == Purge(old(View()), now) && Valid(View())
      ensures count == |ExpiredKeys(old(View()), now)|
    {
      hide Distinct, Elems, Drop, Remove;
      ghost var c0 := View();
      RemoveNone(c0);
      var expired := set k | k in entries && now > entries[k].expiresAt;
      count := |expired|;
      ghost var done: set<string> := {};
      var todo := expired;
      while todo != {}
        invariant Valid(View()) && todo + done == expired
        invariant View() == Remove(c0, done)
        decreases todo
      {
        var k :| k in todo;
        todo := todo - {k};
        DeleteEntry(k);
        RemoveOneMore(c0, done, k);
        done := done + {k};
      }
      assert done == expired;
    }
  }

  // ---------------------------------------------------------------------------------------
  // Every history of operations
  // ---------------------------------------------------------------------------------------

  datatype Op =
    | DoGet(key: string, now: int)
    | DoPut(key: string, e: Entry)
    | DoDelete(key: string)
    | DoPurge(now: int)
    | DoClear

  function Apply(c: Cache, op: Op): Cache {
    match op
    case DoGet(k, now) => Get(c, k, now).0
    case DoPut(k, e) => Put(c, k, e)
    case DoDelete(k) => Remove(c, {k})
    case DoPurge(now) => Purge(c, now)
    case DoClear => Cleared(c)
  }

  function After(ops: seq<Op>, maxSize: int): Cache {
    if ops == [] then NewCache(maxSize) else Apply(After(ops[..|ops| - 1], maxSize), ops[|ops| - 1])
  }

  predicate Uses(op: Op, k: string) {
    (op.DoGet? || op.DoPut?) && op.key == k
  }

  /** When the history last used the key: the index of its last `Get` or `Put`, or -1. */
  function LastUse(ops: seq<Op>, k: string): int {
    if ops == [] then -1
    else if Uses(ops[|ops| - 1], k) then |ops| - 1
    else LastUse(ops[..|ops| - 1], k)
  }

  /** The operation takes back what was put under the key: it deletes it, or finds it expired. */
  predicate TakesBack(op: Op, k: string, put: Entry) {
    match op
    case DoGet(key, now) => key == k && now > put.expiresAt
    case DoPut(_, _) => false
    case DoDelete(key) => key == k
    case DoPurge(now) => now > put.expiresAt
    case DoClear => true
  }

  function LastPutAfter(put: Option<Entry>, op: Op, k: string): Option<Entry> {
    if op.DoPut? && op.key == k then Some(op.e)
    else if put.Some? && TakesBack(op, k, put.value) then None
    else put
  }

  /** What the history last put under the key and has not taken back since. */
  function LastPut(ops: seq<Op>, k: string): Option<Entry> {
    if ops == [] then None else LastPutAfter(LastPut(ops[..|ops| - 1], k), ops[|ops| - 1], k)
  }

  predicate SameResponse(put: Option<Entry>, e: Entry) {
    put.Some? && put.value.response == e.response && put.value.cost == e.cost && put.value.expiresAt == e.expiresAt
  }

  /** The cache is what an LRU cache should be after this history. */
  ghost predicate IsLru(c: Cache, ops: seq<Op>) {
    && Valid(c)
    && Ascending(c.order, k => LastUse(ops, k))
    && Latest(c.entries, ops)
  }

  /** Every entry is the latest put for its key. */
  ghost predicate Latest(entries: map<string, Entry>, ops: seq<Op>) {
    forall k :: k in entries ==> SameResponse(LastPut(ops, k), entries[k])
  }

  lemma LastUseBound(ops: seq<Op>, k: string)
    ensures -1 <= LastUse(ops, k) < |ops|
  {
  }

  /** Ranks change only for the key that the last operation used, and that one is now last. */
  lemma OrderAfterUse(s: seq<string>, ops: seq<Op>, op: Op, key: string)
    requires Ascending(s, k => LastUse(ops, k)) && Uses(op, key)
    ensures Ascending(Drop(s, {key}) + [key], k => LastUse(ops + [op], k))
  {
    var t := Drop(s, {key});
    DropAscending(s, {key}, k => LastUse(ops, k));
    assert (ops + [op])[..|ops|] == ops;
    forall i | 0 <= i < |t|
      ensures LastUse(ops + [op], t[i]) == LastUse(ops, t[i]) < |ops|
    {
      DropMembers(s, {key}, t[i]);
      LastUseBound(ops, t[i]);
    }
  }

  lemma OrderAfterOther(s: seq<string>, ops: seq<Op>, op: Op)
    requires Ascending(s, k => LastUse(ops, k)) && forall k :: k in s ==> !Uses(op, k)
    ensures Ascending(s, k => LastUse(ops + [op], k))
  {
  }

  lemma LatestAfter(entries: map<string, Entry>, ops: seq<Op>, op: Op)
    requires forall k :: k in entries ==> SameResponse(LastPutAfter(LastPut(ops, k), op, k), entries[k])
    ensures Latest(entries, ops + [op])
  {
    hide LastPutAfter;
    assert (ops + [op])[..|ops|] == ops;
  }

  lemma GetKeepsLru(c: Cache, ops: seq<Op>, key: string, now: int)
    requires IsLru(c, ops)
    ensures IsLru(Get(c, key, now).0, ops + [DoGet(key, now)])
  {
    var op := DoGet(key, now);
    AgreeOnKeys(c.entries, c.order, c.maxSize, key);
    hide Drop, Distinct, Ascending, LastUse, LastPut;
    GetKeepsValid(c, key, now);
    LatestAfter(Get(c, key, now).0.entries, ops, op);
    if key in c.entries && now <= c.entries[key].expiresAt {
      OrderAfterUse(c.order, ops, op, key);
    } else {
      DropAscending(c.order, {key}, k => LastUse(ops, k));
      forall k | k in Drop(c.order, {key})
        ensures k != key
      {
        DropMembers(c.order, {key}, k);
      }
      OrderAfterOther(Drop(c.order, {key}), ops, op);
      if key !in c.entries {
        DropNone(c.order, {key});
      }
    }
  }

  lemma PutKeepsLatest(c: Cache, ops: seq<Op>, key: string, e: Entry)
    requires Latest(c.entries, ops)
    ensures Latest(Put(c, key, e).entries, ops + [DoPut(key, e)])
  {
    hide LastPut;
    LatestAfter(Put(c, key, e).entries, ops, DoPut(key, e));
  }

  lemma PutKeepsLru(c: Cache, ops: seq<Op>, key: string, e: Entry)
    requires IsLru(c, ops)
    ensures IsLru(Put(c, key, e), ops + [DoPut(key, e)])
  {
    var op := DoPut(key, e);
    AgreeOnKeys(c.entries, c.order, c.maxSize, key);
    PutKeepsLatest(c, ops, key, e);
    hide Drop, Agree, Ascending, LastUse, LastPut, Latest;
    PutKeepsValid(c, key, e);
    if key in c.entries {
      OrderAfterUse(c.order, ops, op, key);
    } else if |c.entries| >= c.maxSize {
      EvictMakesRoom(c.entries, c.order, c.maxSize);
      TailAscending(c.order, k => LastUse(ops, k));
      DropNone(c.order[1..], {key});
      OrderAfterUse(c.order[1..], ops, op, key);
    } else {
      DropNone(c.order, {key});
      OrderAfterUse(c.order, ops, op, key);
    }
  }

  lemma RemoveKeepsLru(c: Cache, ops: seq<Op>, gone: set<string>, op: Op)
    requires IsLru(c, ops) && (op.DoDelete? || op.DoPurge?)
    requires gone == if op.DoDelete? then {op.key} else ExpiredKeys(c, op.now)
    ensures IsLru(Remove(c, gone), ops + [op])
  {
    hide Drop, Distinct, Ascending, LastUse, LastPut;
    RemoveAgrees(c.entries, c.order, c.maxSize, gone);
    LatestAfter(c.entries - gone, ops, op);
    DropAscending(c.order, gone, k => LastUse(ops, k));
    OrderAfterOther(Drop(c.order, gone), ops, op);
  }

  /** After every history of operations: the list holds exactly the map's keys, each once, in
      order of last use; the size is within the limit; every entry is the latest `Put` for
      its key, not deleted, purged or found expired since. */
  lemma {:induction false} EveryHistoryIsLru(ops: seq<Op>, maxSize: int)
    ensures IsLru(After(ops, maxSize), ops)
  {
    if ops != [] {
      var before, op := ops[..|ops| - 1], ops[|ops| - 1];
      var c := After(before, maxSize);
      EveryHistoryIsLru(before, maxSize);
      assert ops == before + [op];
      match op
      case DoGet(k, now) => GetKeepsLru(c, before, k, now);
      case DoPut(k, e) => PutKeepsLru(c, before, k, e);
      case DoDelete(k) => RemoveKeepsLru(c, before, {k}, op);
      case DoPurge(now) => RemoveKeepsLru(c, before, ExpiredKeys(c, now), op);
      case DoClear =>
    }
  }

  /** A `Get` after any history returns the latest `Put` for its key, not taken back since and
      not expired, or nothing. */
  lemma HitIsLatestPut(ops: seq<Op>, maxSize: int, key: string, now: int)
    ensures var hit := Get(After(ops, maxSize), key, now).1;
      hit.Some? ==> SameResponse(LastPut(ops, key), hit.value) && now <= hit.value.expiresAt
  {
    EveryHistoryIsLru(ops, maxSize);
  }

  // Which keys must be there

  function PutTime(ops: seq<Op>, k: string): int {
    if ops == [] then -1
    else if ops[|ops| - 1].DoPut? && ops[|ops| - 1].key == k then |ops| - 1
    else PutTime(ops[..|ops| - 1], k)
  }

  /** The other keys used since the key's last `Put`. */
  function UsedSincePut(ops: seq<Op>, k: string): set<string> {
    if ops == [] then {}
    else
      var op := ops[|ops| - 1];
      if op.DoPut? && op.key == k then {}
      else UsedSincePut(ops[..|ops| - 1], k) + if (op.DoGet? || op.DoPut?) && op.key != k then {op.key} else {}
  }

  lemma {:induction false} LaterUseIsSincePut(ops: seq<Op>, k: string, j: string)
    ensures PutTime(ops, k) <= LastUse(ops, k)
    ensures j != k && LastUse(ops, j) > PutTime(ops, k) ==> j in UsedSincePut(ops, k)
  {
    if ops != [] {
      LaterUseIsSincePut(ops[..|ops| - 1], k, j);
      LastUseBound(ops[..|ops| - 1], j);
      LastUseBound(ops[..|ops| - 1], k);
    }
  }

  /** A key that was put and not taken back is gone only if a full cache's worth of other keys
      has been used since. */
  ghost predicate KeptOrCrowdedOut(c: Cache, ops: seq<Op>, k: string) {
    LastPut(ops, k).Some? && k !in c.entries ==> |UsedSincePut(ops, k)| >= c.maxSize
  }

  lemma EvictedIsCrowdedOut(c: Cache, ops: seq<Op>, key: string, k: string)
    requires IsLru(c, ops) && key !in c.entries && |c.entries| >= c.maxSize && c.order != [] && k == c.order[0] && k in c.entries
    ensures |UsedSincePut(ops, k) + {key}| >= c.maxSize
  {
    OldestIsFirst(c, ops);
    hide LastUse, UsedSincePut, PutTime, IsLru;
    forall j | j in c.entries && j != k ensures j in UsedSincePut(ops, k) {
      LaterUseIsSincePut(ops, k, j);
    }
    var others := c.entries.Keys - {k};
    assert |others + {key}| == |c.entries.Keys|;
    SubsetSize(others + {key}, UsedSincePut(ops, k) + {key});
  }

  lemma StepKeepsOrCrowdsOut(c: Cache, ops: seq<Op>, op: Op, k: string)
    requires IsLru(c, ops) && KeptOrCrowdedOut(c, ops, k)
    ensures KeptOrCrowdedOut(Apply(c, op), ops + [op], k)
  {
    assert (ops + [op])[..|ops|] == ops;
    if k !in Apply(c, op).entries && LastPut(ops + [op], k).Some? {
      assert !(op.DoPut? && op.key == k);
      assert LastPut(ops, k) == LastPut(ops + [op], k);
      assert UsedSincePut(ops, k) <= UsedSincePut(ops + [op], k);
      SubsetSize(UsedSincePut(ops, k), UsedSincePut(ops + [op], k));
      if k in c.entries {
        assert SameResponse(LastPut(ops, k), c.entries[k]);
        assert op.DoPut?;
        EvictedIsCrowdedOut(c, ops, op.key, k);
      }
    }
  }

  lemma {:induction false} EveryHistoryKeepsOrCrowdsOut(ops: seq<Op>, maxSize: int, k: string)
    ensures KeptOrCrowdedOut(After(ops, maxSize), ops, k)
  {
    if ops != [] {
      var before, op := ops[..|ops| - 1], ops[|ops| - 1];
      assert ops == before + [op] && After(ops, maxSize) == Apply(After(before, maxSize), op);
      hide IsLru, KeptOrCrowdedOut, Apply, LastPut, UsedSincePut, After;
      EveryHistoryKeepsOrCrowdsOut(before, maxSize, k);
      EveryHistoryIsLru(before, maxSize);
      StepKeepsOrCrowdsOut(After(before, maxSize), before, op, k);
    }
  }

  /** After any history, a response that was put, not taken back, and followed by the use of
      fewer other keys than the cache holds is there: a `Get` before its expiry hits it. */
  lemma RecentPutIsHit(ops: seq<Op>, maxSize: int, key: string, now: int)
    requires var put := LastPut(ops, key); put.Some? && now <= put.value.expiresAt
    requires |UsedSincePut(ops, key)| < After(ops, maxSize).maxSize
    ensures var hit := Get(After(ops, maxSize), key, now).1;
      hit.Some? && SameResponse(LastPut(ops, key), hit.value)
  {
    EveryHistoryIsLru(ops, maxSize);
    EveryHistoryKeepsOrCrowdsOut(ops, maxSize, key);
  }

  // What is counted

  /** The size asked for, or the default. */
  function Asked(maxSize: int): int {
    if maxSize > 0 then maxSize else 10000
  }

  /** The read finds its key, put and not expired. */
  ghost predicate Finds(before: seq<Op>, maxSize: int, op: Op) {
    && op.DoGet? && op.key in After(before, maxSize).entries
    && LastPut(before, op.key).Some? && op.now <= LastPut(before, op.key).value.expiresAt
  }

  /** Reads that found and missed their key, the cost of what they found, and stores of a new
      key into a full cache. */
  ghost function Tally(ops: seq<Op>, maxSize: int): Stats {
    if ops == [] then Stats(0, 0, 0.0, 0)
    else
      var before, op := ops[..|ops| - 1], ops[|ops| - 1];
      var t, c := Tally(before, maxSize), After(before, maxSize);
      if Finds(before, maxSize, op) then t.(hits := t.hits + 1, saved := t.saved + LastPut(before, op.key).value.cost)
      else if op.DoGet? then t.(misses := t.misses + 1)
      else if op.DoPut? && op.key !in c.entries && |c.entries| >= Asked(maxSize) then t.(evictions := t.evictions + 1)
      else t
  }

  /** The hits of a key since it was put, on top of what it was put with. */
  ghost function HitsSincePut(ops: seq<Op>, maxSize: int, k: string): nat {
    if ops == [] then 0
    else
      var before, op := ops[..|ops| - 1], ops[|ops| - 1];
      if op.DoPut? && op.key == k then op.e.hits
      else HitsSincePut(before, maxSize, k) + if Finds(before, maxSize, op) && op.key == k then 1 else 0
  }

  lemma GetCounts(c: Cache, key: string, now: int, put: Option<Entry>, k: string)
    requires key in c.entries ==> SameResponse(put, c.entries[key])
    ensures var c', found := Get(c, key, now).0, key in c.entries && put.Some? && now <= put.value.expiresAt;
      && c'.maxSize == c.maxSize
      && c'.stats == (if found then c.stats.(hits := c.stats.hits + 1, saved := c.stats.saved + put.value.cost)
                      else c.stats.(misses := c.stats.misses + 1))
      && (k in c'.entries ==> k in c.entries && c'.entries[k].hits == c.entries[k].hits + if found && k == key then 1 else 0)
  {
    hide Drop, MoveToEnd;
  }

  lemma PutCounts(c: Cache, key: string, e: Entry, k: string)
    requires Valid(c)
    ensures var c' := Put(c, key, e);
      && c'.maxSize == c.maxSize
      && c'.stats == (if key !in c.entries && |c.entries| >= c.maxSize then c.stats.(evictions := c.stats.evictions + 1) else c.stats)
      && (k in c'.entries ==> if k == key then c'.entries[k].hits == e.hits else k in c.entries && c'.entries[k] == c.entries[k])
  {
    if |c.entries| >= c.maxSize {
      EvictMakesRoom(c.entries, c.order, c.maxSize);
    }
    hide Drop, MoveToEnd, Agree;
  }

  /** The tally after one more operation. */
  lemma TallyOneMore(before: seq<Op>, op: Op, maxSize: int, k: string)
    ensures After(before + [op], maxSize) == Apply(After(before, maxSize), op)
    ensures var t, c := Tally(before, maxSize), After(before, maxSize);
      Tally(before + [op], maxSize) ==
        if Finds(before, maxSize, op) then t.(hits := t.hits + 1, saved := t.saved + LastPut(before, op.key).value.cost)
        else if op.DoGet? then t.(misses := t.misses + 1)
        else if op.DoPut? && op.key !in c.entries && |c.entries| >= Asked(maxSize) then t.(evictions := t.evictions + 1)
        else t
    ensures HitsSincePut(before + [op], maxSize, k) ==
      if op.DoPut? && op.key == k then op.e.hits
      else HitsSincePut(before, maxSize, k) + if Finds(before, maxSize, op) && op.key == k then 1 else 0
  {
    assert (before + [op])[..|before|] == before;
    hide Apply, Finds, LastPut, Asked;
  }

  /** The counts are right, for the key `k` as for the whole cache. */
  ghost predicate Tallied(c: Cache, t: Stats, hits: nat, maxSize: int, k: string) {
    c.maxSize == Asked(maxSize) && c.stats == t && (k in c.entries ==> c.entries[k].hits == hits)
  }

  lemma GetTallies(before: seq<Op>, key: string, now: int, maxSize: int, k: string)
    requires var c := After(before, maxSize);
      IsLru(c, before) && Tallied(c, Tally(before, maxSize), HitsSincePut(before, maxSize, k), maxSize, k)
    ensures var ops := before + [DoGet(key, now)];
      Tallied(After(ops, maxSize), Tally(ops, maxSize), HitsSincePut(ops, maxSize, k), maxSize, k)
  {
    var c := After(before, maxSize);
    assert key in c.entries ==> SameResponse(LastPut(before, key), c.entries[key]);
    hide LastPut, After, Tally, HitsSincePut, Asked, IsLru, Get, SameResponse;
    TallyOneMore(before, DoGet(key, now), maxSize, k);
    GetCounts(c, key, now, LastPut(before, key), k);
  }

  lemma PutTallies(before: seq<Op>, key: string, e: Entry, maxSize: int, k: string)
    requires var c := After(before, maxSize);
      IsLru(c, before) && Tallied(c, Tally(before, maxSize), HitsSincePut(before, maxSize, k), maxSize, k)
    ensures var ops := before + [DoPut(key, e)];
      Tallied(After(ops, maxSize), Tally(ops, maxSize), HitsSincePut(ops, maxSize, k), maxSize, k)
  {
    var c := After(before, maxSize);
    assert Valid(c);
    hide LastPut, After, Tally, HitsSincePut, Asked, IsLru, Put, Valid;
    TallyOneMore(before, DoPut(key, e), maxSize, k);
    PutCounts(c, key, e, k);
  }

  lemma RemovalTallies(before: seq<Op>, op: Op, maxSize: int, k: string)
    requires !op.DoGet? && !op.DoPut?
    requires Tallied(After(before, maxSize), Tally(before, maxSize), HitsSincePut(before, maxSize, k), maxSize, k)
    ensures var ops := before + [op];
      Tallied(After(ops, maxSize), Tally(ops, maxSize), HitsSincePut(ops, maxSize, k), maxSize, k)
  {
    hide LastPut, After, Tally, HitsSincePut, Asked, Drop;
    TallyOneMore(before, op, maxSize, k);
  }

  /** After every history: the cache has the size asked for; it has counted exactly the reads
      that found and missed their key, the cost these found and the evictions; and every entry
      its own hits. */
  lemma {:induction false} StatsAddUp(ops: seq<Op>, maxSize: int, k: string)
    ensures Tallied(After(ops, maxSize), Tally(ops, maxSize), HitsSincePut(ops, maxSize, k), maxSize, k)
  {
    if ops != [] {
      var before, op := ops[..|ops| - 1], ops[|ops| - 1];
      assert ops == before + [op];
      hide Tally, HitsSincePut, After, IsLru, Tallied;
      StatsAddUp(before, maxSize, k);
      EveryHistoryIsLru(before, maxSize);
      match op
      case DoGet(key, now) => GetTallies(before, key, now, maxSize, k);
      case DoPut(key, e) => PutTallies(before, key, e, maxSize, k);
      case _ => RemovalTallies(before, op, maxSize, k);
    }
  }

  /** A `Put` of a new key into a full cache costs exactly one key, and every key that stays
      was used more recently than the one that goes. */
  lemma PutEvictsLeastRecentlyUsed(ops: seq<Op>, maxSize: int, key: string, e: Entry)
    ensures var c := After(ops, maxSize);
      key !in c.entries && |c.entries| == c.maxSize ==>
        exists victim :: victim in c.entries
          && Put(c, key, e).entries == (c.entries - {victim})[key := e]
          && forall k :: k in c.entries && k != victim ==> LastUse(ops, victim) < LastUse(ops, k)
  {
    EveryHistoryIsLru(ops, maxSize);
    hide After, LastUse, IsLru;
    var c := After(ops, maxSize);
    if key !in c.entries && |c.entries| == c.maxSize {
      OldestIsFirst(c, ops);
      var victim := c.order[0];
      assert Put(c, key, e).entries == (c.entries - {victim})[key := e];
    }
  }

  lemma OldestIsFirst(c: Cache, ops: seq<Op>)
    requires IsLru(c, ops) && |c.entries| >= c.maxSize
    ensures c.order != [] && c.order[0] in c.entries
    ensures forall k :: k in c.entries && k != c.order[0] ==> LastUse(ops, c.order[0]) < LastUse(ops, k)
  {
  }

  /** Nothing else makes a key disappear: below the limit a `Put` keeps every other entry. */
  lemma PutBelowLimitKeepsAll(c: Cache, key: string, e: Entry)
    requires Valid(c) && (key in c.entries || |c.entries| < c.maxSize)
    ensures Put(c, key, e).entries == c.entries[key := e]
  {
  }
}
