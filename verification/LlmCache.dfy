/**
 The exact-match response cache of the router (internal/llm/cache.go).  A key is the part of
 the request that the code hashes, so that the hash is injective by construction.
 */
module LlmCache {
  import opened Wrappers

  datatype Response = Response(content: string, cost: real, latency: int)

  /** The parts of a request that determine the response; the temperature is always zero here. */
  datatype Request = Request(model: string, system: string, messages: seq<string>, maxTokens: int)

  datatype Key = Key(model: string, system: string, messages: seq<string>, maxTokens: int)

  function CacheKey(req: Request): Key {
    Key(req.model, req.system, req.messages, req.maxTokens)
  }

  /** A change in any part of the request misses the cache. */
  lemma DifferentRequestsDifferentKeys(a: Request, b: Request)
    requires CacheKey(a) == CacheKey(b)
    ensures a == b
  {
  }

  datatype CacheEntry = CacheEntry(resp: Response, expiresAt: int)

  datatype Cache = Cache(entries: map<Key, CacheEntry>, hits: nat, misses: nat)

  function Got(c: Cache, key: Key, now: int): (Cache, Option<Response>) {
    if key !in c.entries then (c.(misses := c.misses + 1), None)
    else if now > c.entries[key].expiresAt then (c.(entries := c.entries - {key}, misses := c.misses + 1), None)
    else (c.(hits := c.hits + 1), Some(c.entries[key].resp.(cost := 0.0, latency := 0)))
  }

  function Put(c: Cache, key: Key, resp: Response, now: int, ttl: int): Cache {
    c.(entries := c.entries[key := CacheEntry(resp, now + ttl)])
  }

  // ---------------------------------------------------------------------------------------
  // Every history
  // ---------------------------------------------------------------------------------------

  datatype Op = DoGet(key: Key, now: int) | DoSet(key: Key, resp: Response, now: int)

  function After(ops: seq<Op>, ttl: int): Cache {
    if ops == [] then Cache(map[], 0, 0)
    else
      var c, op := After(ops[..|ops| - 1], ttl), ops[|ops| - 1];
      if op.DoGet? then Got(c, op.key, op.now).0 else Put(c, op.key, op.resp, op.now, ttl)
  }

  /** The response last stored under the key and when, unless a read has found it too old. */
  function LastSet(ops: seq<Op>, ttl: int, key: Key): Option<(Response, int)> {
    if ops == [] then None
    else
      var before, op := LastSet(ops[..|ops| - 1], ttl, key), ops[|ops| - 1];
      if op.key != key then before
      else if op.DoSet? then Some((op.resp, op.now))
      else if before.Some? && op.now - before.value.1 > ttl then None
      else before
  }

  /** A read of the key now would hit. */
  predicate InLifetime(ops: seq<Op>, ttl: int, key: Key, now: int) {
    LastSet(ops, ttl, key).Some? && now - LastSet(ops, ttl, key).value.1 <= ttl
  }

  function Hits(ops: seq<Op>, ttl: int): nat {
    if ops == [] then 0
    else
      var before, op := ops[..|ops| - 1], ops[|ops| - 1];
      Hits(before, ttl) + if op.DoGet? && InLifetime(before, ttl, op.key, op.now) then 1 else 0
  }

  function Reads(ops: seq<Op>): nat {
    if ops == [] then 0 else Reads(ops[..|ops| - 1]) + if ops[|ops| - 1].DoGet? then 1 else 0
  }

  ghost predicate Holds(c: Cache, last: Option<(Response, int)>, ttl: int, key: Key) {
    if last.None? then key !in c.entries
    else key in c.entries && c.entries[key] == CacheEntry(last.value.0, last.value.1 + ttl)
  }

  lemma {:induction false} HoldsExactly(ops: seq<Op>, ttl: int, key: Key)
    ensures Holds(After(ops, ttl), LastSet(ops, ttl, key), ttl, key)
  {
    if ops != [] {
      HoldsExactly(ops[..|ops| - 1], ttl, key);
    }
  }

  lemma {:induction false} CountsExactly(ops: seq<Op>, ttl: int)
    ensures var c := After(ops, ttl); c.hits == Hits(ops, ttl) && c.hits + c.misses == Reads(ops)
  {
    if ops != [] {
      var before, op := ops[..|ops| - 1], ops[|ops| - 1];
      CountsExactly(before, ttl);
      HoldsExactly(before, ttl, op.key);
      hide LastSet;
    }
  }

  /** After every history: a read hits if and only if a response was stored under its key and is
      in its lifetime, it then gets the last one, free of cost and delay, and hits and misses
      are counted. */
  lemma HitsExactly(ops: seq<Op>, ttl: int, key: Key, now: int)
    ensures var hit := Got(After(ops, ttl), key, now).1;
      && (hit.Some? <==> InLifetime(ops, ttl, key, now))
      && (hit.Some? ==>
           && LastSet(ops, ttl, key).Some? && hit.value.content == LastSet(ops, ttl, key).value.0.content
           && hit.value.cost == 0.0 && hit.value.latency == 0)
      && After(ops, ttl).hits == Hits(ops, ttl) && After(ops, ttl).hits + After(ops, ttl).misses == Reads(ops)
  {
    HoldsExactly(ops, ttl, key);
    CountsExactly(ops, ttl);
  }

  class InMemoryCache {
    var entries: map<Key, CacheEntry>
    var hits: nat
    var misses: nat
    const ttl: int

    function View(): Cache
      reads this
    {
      Cache(entries, hits, misses)
    }

    constructor (ttl: int)
      ensures View() == Cache(map[], 0, 0) && this.ttl == ttl
    {
      entries, hits, misses := map[], 0, 0;
      this.ttl := ttl;
    }

    method Get(key: Key, now: int) returns (r: Option<Response>)
      modifies this
      ensures (View(), r) == Got(old(View()), key, now)
    {
      if key !in entries || now > entries[key].expiresAt {
        if key in entries {
          entries := entries - {key};
        }
        misses := misses + 1;
        return None;
      }
      hits := hits + 1;
      return Some(entries[key].resp.(cost := 0.0, latency := 0));
    }

    method Set(key: Key, resp: Response, now: int)
      modifies this
      ensures View() == Put(old(View()), key, resp, now, ttl)
    {
      entries := entries[key := CacheEntry(resp, now + ttl)];
    }
  }
}
