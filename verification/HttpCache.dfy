/**
 The HTTP response cache (internal/middleware/cache.go).

 `Get` reads under one lock and updates the key list under another, so a write can fall in
 between.  `ReadPhase` and `TouchPhase` are its two critical sections.
 */
module HttpCache {
  import opened Wrappers
  import opened LruOrder
  import opened Finite

  datatype Entry = Entry(body: string, storedAt: int, ttl: int)

  datatype Cache = Cache(
    entries: map<string, Entry>, order: seq<string>, maxSize: int, defaultTtl: int, hits: nat, misses: nat)

  const DEFAULT_MAX_SIZE := 1024
  const DEFAULT_TTL := 300

  function NewCache(maxSize: int, defaultTtl: int): Cache {
    Cache(map[], [], if maxSize <= 0 then DEFAULT_MAX_SIZE else maxSize,
          if defaultTtl <= 0 then DEFAULT_TTL else defaultTtl, 0, 0)
  }

  ghost predicate Valid(c: Cache) {
    Agree(c.entries, c.order, c.maxSize)
  }

  predicate Expired(e: Entry, now: int) {
    now - e.storedAt > e.ttl
  }

  // The critical sections

  function ReadPhase(c: Cache, key: string, now: int): Option<Entry> {
    if key in c.entries && !Expired(c.entries[key], now) then Some(c.entries[key]) else None
  }

  function TouchPhase(c: Cache, key: string): Cache {
    c.(hits := c.hits + 1, order := MoveToEnd(c.order, key))
  }

  function MissPhase(c: Cache): Cache {
    c.(misses := c.misses + 1)
  }

  function WithTtl(c: Cache, e: Entry): Entry {
    if e.ttl <= 0 then e.(ttl := c.defaultTtl) else e
  }

  function Set(c: Cache, key: string, e: Entry): Cache {
    if key in c.entries then c.(entries := c.entries[key := WithTtl(c, e)], order := MoveToEnd(c.order, key))
    else
      var room := if |c.entries| >= c.maxSize && c.order != []
                  then c.(entries := c.entries - {c.order[0]}, order := c.order[1..]) else c;
      room.(entries := room.entries[key := WithTtl(c, e)], order := room.order + [key])
  }

  function Remove(c: Cache, gone: set<string>): Cache {
    c.(entries := c.entries - gone, order := Drop(c.order, gone))
  }

  function Prefixed(c: Cache, prefix: string): set<string> {
    set k | k in c.entries && prefix <= k
  }

  lemma SetKeepsValid(c: Cache, key: string, e: Entry)
    requires Valid(c)
    ensures Valid(Set(c, key, e))
  {
    hide Distinct, Elems, MoveToEnd;
    var e' := WithTtl(c, e);
    if key in c.entries {
      UpdateAgrees(c.entries, c.order, c.maxSize, key, e');
      TouchAgrees(c.entries[key := e'], c.order, c.maxSize, key);
    } else if |c.entries| >= c.maxSize {
      EvictMakesRoom(c.entries, c.order, c.maxSize);
      InsertAgrees(c.entries - {c.order[0]}, c.order[1..], c.maxSize, key, e');
    } else {
      InsertAgrees(c.entries, c.order, c.maxSize, key, e');
    }
  }

  lemma RemoveTwice(c: Cache, g: set<string>, h: set<string>)
    ensures Remove(Remove(c, g), h) == Remove(c, g + h)
  {
    DropTwice(c.order, g, h);
    assert c.entries - g - h == c.entries - (g + h);
  }

  /** Names of absent keys make no difference to a removal. */
  lemma RemoveAbsent(c: Cache, g: set<string>, h: set<string>)
    requires Valid(c) && g * c.entries.Keys == h * c.entries.Keys
    ensures Remove(c, g) == Remove(c, h)
  {
    forall k | k in c.order
      ensures k in g <==> k in h
    {
      AgreeOnKeys(c.entries, c.order, c.maxSize, k);
      assert k in g * c.entries.Keys <==> k in h * c.entries.Keys;
    }
    DropSame(c.order, g, h);
    assert c.entries - g == c.entries - h;
  }

  lemma {:induction false} DropSame(s: seq<string>, g: set<string>, h: set<string>)
    requires forall k :: k in s ==> (k in g <==> k in h)
    ensures Drop(s, g) == Drop(s, h)
  {
    if s != [] {
      assert s[0] in s;
      forall k | k in s[1..]
        ensures k in g <==> k in h
      {
        assert k in s;
      }
      DropSame(s[1..], g, h);
    }
  }

  function PrefixedIn(s: seq<string>, prefix: string): set<string> {
    set k | k in s && prefix <= k
  }

  lemma PrefixedByOrder(c: Cache, prefix: string)
    requires Valid(c)
    ensures PrefixedIn(c.order, prefix) == Prefixed(c, prefix)
  {
  }

  lemma ScanNone(c: Cache, prefix: string)
    ensures PrefixedIn(c.order[..0], prefix) == {} && Drop(c.order[..0], Prefixed(c, prefix)) == []
    ensures c.entries - PrefixedIn(c.order[..0], prefix) == c.entries
  {
  }

  /** One round of the loop over the key list. */
  lemma ScanOneMore(c: Cache, prefix: string, i: nat)
    requires Valid(c) && i < |c.order|
    ensures var k := c.order[i];
      var seen := PrefixedIn(c.order[..i], prefix);
      && c.order[..i + 1] == c.order[..i] + [k]
      && var seen' := PrefixedIn(c.order[..i + 1], prefix);
      && |seen'| == |seen| + (if prefix <= k then 1 else 0)
      && c.entries - seen' == (if prefix <= k then c.entries - seen - {k} else c.entries - seen)
      && Drop(c.order[..i + 1], Prefixed(c, prefix)) ==
           Drop(c.order[..i], Prefixed(c, prefix)) + if prefix <= k then [] else [k]
  {
    var k := c.order[i];
    AgreeOnKeys(c.entries, c.order, c.maxSize, k);
    var seen := PrefixedIn(c.order[..i], prefix);
    assert c.order[..i + 1] == c.order[..i] + [k];
    assert k !in seen && (k in Prefixed(c, prefix) <==> prefix <= k);
    hide Drop, Distinct, Elems, Prefixed;
    assert PrefixedIn(c.order[..i + 1], prefix) == if prefix <= k then seen + {k} else seen;
    hide PrefixedIn;
    assert c.entries - seen - {k} == c.entries - (seen + {k});
    DropAppend(c.order[..i], [k], Prefixed(c, prefix));
    DropOne(k, Prefixed(c, prefix));
  }

  // Paths

  function TrimLeft(s: string): string {
    if s != [] && s[0] == '/' then TrimLeft(s[1..]) else s
  }

  function TrimRight(s: string): string {
    if s != [] && s[|s| - 1] == '/' then TrimRight(s[..|s| - 1]) else s
  }

  function Split(s: string): (parts: seq<string>)
    ensures |parts| >= 1
  {
    SplitFrom(s, "")
  }

  function SplitFrom(s: string, part: string): (parts: seq<string>)
    ensures |parts| >= 1
  {
    if s == [] then [part]
    else if s[0] == '/' then [part] + SplitFrom(s[1..], "")
    else SplitFrom(s[1..], part + [s[0]])
  }

  function Join(parts: seq<string>): string {
    if parts == [] then "" else if |parts| == 1 then parts[0] else parts[0] + "/" + Join(parts[1..])
  }

  function Segments(path: string): (parts: seq<string>)
    ensures |parts| >= 1
  {
    Split(TrimRight(TrimLeft(path)))
  }

  /** A path without slashes at either end. */
  predicate Trimmed(s: string) {
    s == [] || (s[0] != '/' && s[|s| - 1] != '/')
  }

  predicate Slashes(s: string) {
    forall i :: 0 <= i < |s| ==> s[i] == '/'
  }

  lemma {:induction false} TrimLeftDrops(a: string, s: string)
    requires Slashes(a) && (s == [] || s[0] != '/')
    ensures TrimLeft(a + s) == s
  {
    if a == [] {
      assert a + s == s;
    } else {
      assert (a + s)[1..] == a[1..] + s;
      TrimLeftDrops(a[1..], s);
    }
  }

  lemma {:induction false} TrimRightDrops(s: string, b: string)
    requires Slashes(b) && (s == [] || s[|s| - 1] != '/')
    ensures TrimRight(s + b) == s
    decreases |b|
  {
    if b == [] {
      assert s + b == s;
    } else {
      var n := |b| - 1;
      assert (s + b)[..|s + b| - 1] == s + b[..n];
      TrimRightDrops(s, b[..n]);
    }
  }

  /** Splitting and joining gives the text back, and no part holds a slash. */
  lemma {:induction false} SplitJoins(s: string, part: string)
    requires '/' !in part
    ensures Join(SplitFrom(s, part)) == part + s
    ensures forall i :: 0 <= i < |SplitFrom(s, part)| ==> '/' !in SplitFrom(s, part)[i]
    decreases |s|
  {
    if s != [] {
      if s[0] == '/' {
        SplitJoins(s[1..], "");
        var rest := SplitFrom(s[1..], "");
        assert ([part] + rest)[1..] == rest;
        assert s == "/" + s[1..] && "" + s[1..] == s[1..];
      } else {
        SplitJoins(s[1..], part + [s[0]]);
        assert part + [s[0]] + s[1..] == part + s;
      }
    }
  }

  /** The segments of a path, however many slashes surround it, are what its slashes separate:
      they hold none, and joined they are the path between the surrounding ones. */
  lemma SegmentsExactly(a: string, s: string, b: string)
    requires Slashes(a) && Slashes(b) && Trimmed(s)
    ensures Join(Segments(a + s + b)) == s
    ensures forall i :: 0 <= i < |Segments(a + s + b)| ==> '/' !in Segments(a + s + b)[i]
  {
    if s == [] {
      TrimLeftDrops(a + b, []);
      assert a + s + b == a + b + [];
    } else {
      assert a + s + b == a + (s + b);
      TrimLeftDrops(a, s + b);
      TrimRightDrops(s, b);
    }
    SplitJoins(s, "");
    assert "" + s == s;
  }

  class ResponseCache {
    var entries: map<string, Entry>
    var order: seq<string>
    const maxSize: int
    const defaultTtl: int
    var hits: nat
    var misses: nat

    ghost function View(): Cache
      reads this
    {
      Cache(entries, order, maxSize, defaultTtl, hits, misses)
    }

    constructor (maxSize: int, defaultTtl: int)
      ensures View() == NewCache(maxSize, defaultTtl) && Valid(View())
    {
      entries, order, hits, misses := map[], [], 0, 0;
      this.maxSize := if maxSize <= 0 then DEFAULT_MAX_SIZE else maxSize;
      this.defaultTtl := if defaultTtl <= 0 then DEFAULT_TTL else defaultTtl;
    }

    method Touch(key: string)
      requires Valid(View())
      modifies this`order
      ensures order == MoveToEnd(old(order), key) && Valid(View())
    {
      TouchAgrees(entries, order, maxSize, key);
      var found, rest := CutKey(order, key);
      if found {
        order := rest + [key];
      }
    }

    /** The second phase of a `Get` that read an entry. */
    method FinishHit(key: string)
      requires Valid(View())
      modifies this
      ensures View() == TouchPhase(old(View()), key) && Valid(View())
    {
      hits := hits + 1;
      Touch(key);
    }

    method SetEntry(key: string, e: Entry)
      requires Valid(View())
      modifies this
      ensures View() == Set(old(View()), key, e) && Valid(View())
    {
      hide Distinct, Elems, Drop, MoveToEnd;
      SetKeepsValid(View(), key, e);
      var e' := if e.ttl <= 0 then e.(ttl := defaultTtl) else e;
      if key in entries {
        UpdateAgrees(entries, order, maxSize, key, e');
        entries := entries[key := e'];
        Touch(key);
        return;
      }
      ghost var c0 := View();
      while |entries| >= maxSize && |order| > 0
        invariant Valid(View()) && key !in entries
        invariant View() == c0 ||
          (|entries| < maxSize && |c0.entries| >= maxSize && c0.order != []
           && View() == c0.(entries := c0.entries - {c0.order[0]}, order := c0.order[1..]))
        decreases |entries|
      {
        EvictMakesRoom(entries, order, maxSize);
        var oldest := order[0];
        order := order[1..];
        entries := entries - {oldest};
      }
      entries := entries[key := e'];
      order := order + [key];
    }

    method Delete(key: string)
      requires Valid(View())
      modifies this
      ensures View() == Remove(old(View()), {key}) && Valid(View())
    {
      hide Distinct, Elems, Drop;
      RemoveAgrees(entries, order, maxSize, {key});
      entries := entries - {key};
      var _, rest := CutKey(order, key);
      order := rest;
    }

    method InvalidatePrefix(prefix: string) returns (count: nat)
      requires Valid(View())
      modifies this
      ensures View() == Remove(old(View()), Prefixed(old(View()), prefix)) && Valid(View())
      ensures count == |Prefixed(old(View()), prefix)|
    {
      hide Drop, Distinct, Elems, Agree, PrefixedIn, Prefixed;
      ghost var c0 := View();
      ghost var gone := Prefixed(c0, prefix);
      ScanNone(c0, prefix);
      RemoveAgrees(entries, order, maxSize, gone);
      PrefixedByOrder(c0, prefix);
      count := 0;
      var remaining: seq<string> := [];
      for i := 0 to |order|
        invariant order == c0.order && hits == c0.hits && misses == c0.misses
        invariant entries == c0.entries - PrefixedIn(order[..i], prefix)
        invariant count == |PrefixedIn(order[..i], prefix)|
        invariant remaining == Drop(order[..i], gone)
      {
        var k := order[i];
        ScanOneMore(c0, prefix, i);
        if prefix <= k {
          entries := entries - {k};
          count := count + 1;
        } else {
          remaining := remaining + [k];
        }
      }
      assert order[..|order|] == order;
      order := remaining;
    }

    /** What a successful write to `path` clears. */
    method InvalidateByMethod(path: string, query: string)
      requires Valid(View())
      modifies this
      ensures View() == Remove(old(View()), Related(old(View()), path, query)) && Valid(View())
    {
      hide Agree, Remove, Segments, Join, Prefixed, Related;
      ghost var c0 := View();
      Delete(path);
      Delete(path + "?" + query);
      var parts := Segments(path);
      if |parts| >= 2 {
        var _ := InvalidatePrefix("/" + Join(parts[..|parts| - 1]));
      }
      var _ := InvalidatePrefix("/" + parts[0]);
      WriteRemovesRelated(c0, path, query);
    }
  }

  // ---------------------------------------------------------------------------------------
  // Write invalidation
  // ---------------------------------------------------------------------------------------

  /** The keys a write to `path` clears: the path itself with and without its query, and
      everything that starts with the path's first segment. */
  function Related(c: Cache, path: string, query: string): set<string> {
    set k | k in c.entries && (k == path || k == path + "?" + query || "/" + Segments(path)[0] <= k)
  }

  /** The four steps of a write, one after the other. */
  function AfterWrite(c: Cache, path: string, query: string): Cache {
    var c1 := Remove(Remove(c, {path}), {path + "?" + query});
    var parts := Segments(path);
    var c2 := if |parts| >= 2 then Remove(c1, Prefixed(c1, "/" + Join(parts[..|parts| - 1]))) else c1;
    Remove(c2, Prefixed(c2, "/" + parts[0]))
  }

  /** The parent's prefix is longer than the first segment's, so it clears nothing more. */
  lemma ParentStartsWithFirst(parts: seq<string>)
    requires |parts| >= 2
    ensures "/" + parts[0] <= "/" + Join(parts[..|parts| - 1])
  {
  }

  lemma PrefixTransitive(p: string, q: string, k: string)
    requires p <= q <= k
    ensures p <= k
  {
  }

  lemma WriteRemovesRelated(c: Cache, path: string, query: string)
    requires Valid(c)
    ensures AfterWrite(c, path, query) == Remove(c, Related(c, path, query))
  {
    hide Agree, Drop, Segments, Join;
    var parts := Segments(path);
    var g := {path} + {path + "?" + query};
    RemoveTwice(c, {path}, {path + "?" + query});
    var c1 := Remove(c, g);
    var h := if |parts| >= 2 then Prefixed(c1, "/" + Join(parts[..|parts| - 1])) else {};
    if |parts| >= 2 {
      ParentStartsWithFirst(parts);
      forall k | k in h
        ensures "/" + parts[0] <= k
      {
        PrefixTransitive("/" + parts[0], "/" + Join(parts[..|parts| - 1]), k);
      }
      RemoveTwice(c, g, h);
    } else {
      assert g + h == g;
    }
    var c2 := Remove(c, g + h);
    var l := Prefixed(c2, "/" + parts[0]);
    RemoveTwice(c, g + h, l);
    assert (g + h + l) * c.entries.Keys == Related(c, path, query) * c.entries.Keys;
    RemoveAbsent(c, g + h + l, Related(c, path, query));
  }

  /** An invalidation removes exactly the prefixed keys, from map and list alike. */
  lemma InvalidationIsExact(c: Cache, prefix: string, k: string)
    requires Valid(c)
    ensures var c' := Remove(c, Prefixed(c, prefix));
      && (k in c'.entries <==> k in c.entries && !(prefix <= k))
      && (k in c'.order <==> k in c.order && !(prefix <= k))
      && (k in c'.entries ==> c'.entries[k] == c.entries[k])
  {
    AgreeOnKeys(c.entries, c.order, c.maxSize, k);
    DropMembers(c.order, Prefixed(c, prefix), k);
  }

  // ---------------------------------------------------------------------------------------
  // Every interleaving
  // ---------------------------------------------------------------------------------------

  /** The cache and the `Get` calls between their phases.  Beside it, from the events alone: the
      size and lifetime asked for, everything ever stored, what was last stored under each key,
      the hits and misses, and when each key was last used. */
  datatype System = System(
    c: Cache,
    inGet: map<nat, (string, Entry)>,
    room: int,
    lifetime: int,
    stored: set<(string, Entry)>,
    latest: map<string, Entry>,
    hits: nat,
    misses: nat,
    lastUse: map<string, int>,
    tick: nat)

  datatype Event =
    | BeginGet(reader: nat, key: string, now: int)
    | EndGet(reader: nat)
    | DoSet(key: string, e: Entry)
    | DoDelete(key: string)
    | DoInvalidate(prefix: string)

  function Start(maxSize: int, defaultTtl: int): System {
    System(
      NewCache(maxSize, defaultTtl), map[],
      if maxSize > 0 then maxSize else 1024, if defaultTtl > 0 then defaultTtl else 300,
      {}, map[], 0, 0, map[], 0)
  }

  /** The entry as it is kept: with the lifetime asked for if it has none of its own. */
  function Kept(e: Entry, lifetime: int): Entry {
    e.(ttl := if e.ttl > 0 then e.ttl else lifetime)
  }

  function Used(s: System, key: string): System {
    s.(lastUse := s.lastUse[key := s.tick], tick := s.tick + 1)
  }

  function Step(s: System, ev: Event): System {
    match ev
    case BeginGet(r, key, now) =>
      if r in s.inGet then s
      else
        var e := ReadPhase(s.c, key, now);
        if e.None? then s.(c := MissPhase(s.c), misses := s.misses + 1) else s.(inGet := s.inGet[r := (key, e.value)])
    case EndGet(r) =>
      if r !in s.inGet then s
      else
        var key := s.inGet[r].0;
        var s1 := s.(c := TouchPhase(s.c, key), inGet := s.inGet - {r}, hits := s.hits + 1);
        if key in s.c.entries then Used(s1, key) else s1
    case DoSet(key, e) =>
      Used(s.(c := Set(s.c, key, e),
              stored := s.stored + {(key, Kept(e, s.lifetime))},
              latest := s.latest[key := Kept(e, s.lifetime)]), key)
    case DoDelete(key) => s.(c := Remove(s.c, {key}))
    case DoInvalidate(prefix) => s.(c := Remove(s.c, Prefixed(s.c, prefix)))
  }

  function Run(s: System, trace: seq<Event>): System
    decreases |trace|
  {
    if trace == [] then s else Run(Step(s, trace[0]), trace[1..])
  }

  function RankOf(lastUse: map<string, int>, k: string): int {
    if k in lastUse then lastUse[k] else -1
  }

  /** The key list is in order of last use. */
  ghost predicate InOrderOfUse(order: seq<string>, lastUse: map<string, int>, tick: int) {
    && Ascending(order, k => RankOf(lastUse, k))
    && forall k :: k in lastUse ==> lastUse[k] < tick
  }

  ghost predicate Inv(s: System) {
    && Valid(s.c) && s.c.maxSize == s.room && s.c.defaultTtl == s.lifetime && s.c.hits == s.hits && s.c.misses == s.misses
    && InOrderOfUse(s.c.order, s.lastUse, s.tick)
    && AllLatest(s.c.entries, s.latest)
    && AllStored(s)
  }

  ghost predicate AllLatest(entries: map<string, Entry>, latest: map<string, Entry>) {
    forall k :: k in entries ==> k in latest && entries[k] == latest[k]
  }

  ghost predicate AllStored(s: System) {
    && (forall k :: k in s.latest ==> (k, s.latest[k]) in s.stored)
    && (forall r :: r in s.inGet ==> s.inGet[r] in s.stored)
  }

  /** A key used now goes last; the others keep their places. */
  lemma UseKeepsOrder(order: seq<string>, lastUse: map<string, int>, tick: nat, key: string)
    requires InOrderOfUse(order, lastUse, tick)
    ensures InOrderOfUse(Drop(order, {key}) + [key], lastUse[key := tick], tick + 1)
  {
    DropAscending(order, {key}, k => RankOf(lastUse, k));
    var t := Drop(order, {key});
    forall i | 0 <= i < |t| ensures t[i] != key {
      DropMembers(order, {key}, t[i]);
    }
    hide Drop;
  }

  lemma RemovalKeepsOrder(order: seq<string>, lastUse: map<string, int>, tick: nat, gone: set<string>)
    requires InOrderOfUse(order, lastUse, tick)
    ensures InOrderOfUse(Drop(order, gone), lastUse, tick)
  {
    DropAscending(order, gone, k => RankOf(lastUse, k));
  }

  lemma SetKeepsOrder(c: Cache, key: string, e: Entry, lastUse: map<string, int>, tick: nat)
    requires Valid(c) && InOrderOfUse(c.order, lastUse, tick)
    ensures InOrderOfUse(Set(c, key, e).order, lastUse[key := tick], tick + 1)
  {
    AgreeOnKeys(c.entries, c.order, c.maxSize, key);
    if key in c.entries {
      UseKeepsOrder(c.order, lastUse, tick, key);
    } else if |c.entries| >= c.maxSize && c.order != [] {
      TailAscending(c.order, k => RankOf(lastUse, k));
      assert InOrderOfUse(c.order[1..], lastUse, tick);
      DropNone(c.order[1..], {key});
      UseKeepsOrder(c.order[1..], lastUse, tick, key);
    } else {
      DropNone(c.order, {key});
      UseKeepsOrder(c.order, lastUse, tick, key);
    }
  }

  lemma EndGetKeepsInv(s: System, r: nat)
    requires Inv(s)
    ensures Inv(Step(s, EndGet(r)))
  {
    if r in s.inGet {
      var c, key := s.c, s.inGet[r].0;
      TouchAgrees(c.entries, c.order, c.maxSize, key);
      AgreeOnKeys(c.entries, c.order, c.maxSize, key);
      UseKeepsOrder(c.order, s.lastUse, s.tick, key);
      assert Valid(TouchPhase(c, key));
      hide Valid, Drop, InOrderOfUse, AllLatest;
    }
  }

  /** The entries after a store: the new one, and the others but for a victim. */
  lemma SetEntries(c: Cache, key: string, e: Entry)
    requires Valid(c)
    ensures var c' := Set(c, key, e);
      && c'.maxSize == c.maxSize && c'.defaultTtl == c.defaultTtl && c'.hits == c.hits && c'.misses == c.misses
      && (if key !in c.entries && |c.entries| == c.maxSize then
            c.order != [] && c.order[0] in c.entries && c'.entries == (c.entries - {c.order[0]})[key := Kept(e, c.defaultTtl)]
          else c'.entries == c.entries[key := Kept(e, c.defaultTtl)])
  {
    if key !in c.entries && |c.entries| >= c.maxSize {
      EvictMakesRoom(c.entries, c.order, c.maxSize);
    }
    hide Drop, MoveToEnd, Distinct, Elems;
  }

  lemma SetKeepsLatest(c: Cache, key: string, e: Entry, latest: map<string, Entry>)
    requires Valid(c) && AllLatest(c.entries, latest)
    ensures AllLatest(Set(c, key, e).entries, latest[key := Kept(e, c.defaultTtl)])
  {
    SetEntries(c, key, e);
    hide Set, Valid;
  }

  lemma SetKeepsStored(s: System, s': System, key: string, e: Entry)
    requires AllStored(s) && s'.inGet == s.inGet
    requires s'.latest == s.latest[key := e] && s'.stored == s.stored + {(key, e)}
    ensures AllStored(s')
  {
  }

  lemma SetKeepsInv(s: System, key: string, e: Entry)
    requires Inv(s)
    ensures Inv(Step(s, DoSet(key, e)))
  {
    var s' := Step(s, DoSet(key, e));
    SetKeepsValid(s.c, key, e);
    SetKeepsOrder(s.c, key, e, s.lastUse, s.tick);
    SetEntries(s.c, key, e);
    SetKeepsLatest(s.c, key, e, s.latest);
    SetKeepsStored(s, s', key, Kept(e, s.lifetime));
    hide Valid, Set, InOrderOfUse, AllLatest, AllStored, Kept;
  }

  lemma RemovalKeepsLatest(entries: map<string, Entry>, gone: set<string>, latest: map<string, Entry>)
    requires AllLatest(entries, latest)
    ensures AllLatest(entries - gone, latest)
  {
  }

  lemma RemovalKeepsInv(s: System, gone: set<string>)
    requires Inv(s)
    ensures Inv(s.(c := Remove(s.c, gone)))
  {
    RemoveAgrees(s.c.entries, s.c.order, s.c.maxSize, gone);
    RemovalKeepsOrder(s.c.order, s.lastUse, s.tick, gone);
    RemovalKeepsLatest(s.c.entries, gone, s.latest);
    hide Agree, Drop, InOrderOfUse, AllLatest, AllStored;
  }

  lemma StepKeepsInv(s: System, ev: Event)
    requires Inv(s)
    ensures Inv(Step(s, ev))
    ensures Step(s, ev).room == s.room && Step(s, ev).lifetime == s.lifetime
  {
    match ev
    case BeginGet(r, key, now) =>
      hide Valid, InOrderOfUse;
    case EndGet(r) =>
      EndGetKeepsInv(s, r);
    case DoSet(key, e) =>
      SetKeepsInv(s, key, e);
    case DoDelete(key) =>
      RemovalKeepsInv(s, {key});
    case DoInvalidate(prefix) =>
      RemovalKeepsInv(s, Prefixed(s.c, prefix));
  }

  lemma {:induction false} EveryRunKeepsInv(s: System, trace: seq<Event>)
    requires Inv(s)
    ensures Inv(Run(s, trace))
    ensures Run(s, trace).room == s.room && Run(s, trace).lifetime == s.lifetime
    decreases |trace|
  {
    if trace != [] {
      StepKeepsInv(s, trace[0]);
      hide Inv, Step;
      EveryRunKeepsInv(Step(s, trace[0]), trace[1..]);
    }
  }

  /** In every interleaving: list and map keep the same keys, each once, within the size asked
      for; every entry is the last one stored under its key, with its lifetime; what a `Get` is
      about to return was once stored under its key; and hits and misses are counted. */
  lemma CacheSafety(maxSize: int, defaultTtl: int, trace: seq<Event>)
    ensures var s := Run(Start(maxSize, defaultTtl), trace);
      && Distinct(s.c.order) && Elems(s.c.order) == s.c.entries.Keys
      && |s.c.entries| <= (if maxSize > 0 then maxSize else 1024)
      && (forall k :: k in s.c.entries ==> k in s.latest && s.c.entries[k] == s.latest[k])
      && (forall r :: r in s.inGet ==> s.inGet[r] in s.stored)
      && s.c.hits == s.hits && s.c.misses == s.misses
  {
    hide Run;
    EveryRunKeepsInv(Start(maxSize, defaultTtl), trace);
  }

  /** In every interleaving, a read begins to return an entry if and only if there is one, no
      older than its lifetime; that is then the one last stored under the key. */
  lemma ReadsExactlyLive(maxSize: int, defaultTtl: int, trace: seq<Event>, r: nat, key: string, now: int)
    requires r !in Run(Start(maxSize, defaultTtl), trace).inGet
    ensures var s := Run(Start(maxSize, defaultTtl), trace);
      var s' := Step(s, BeginGet(r, key, now));
      && (r in s'.inGet <==> key in s.c.entries && key in s.latest && now - s.latest[key].storedAt <= s.latest[key].ttl)
      && (r in s'.inGet ==> key in s.latest && s'.inGet[r] == (key, s.latest[key]))
  {
    hide Run;
    EveryRunKeepsInv(Start(maxSize, defaultTtl), trace);
  }

  /** In every interleaving, a store of a new key into a full cache costs exactly the key whose
      last use is longest ago, and any other store costs none. */
  lemma SetEvictsLeastRecentlyUsed(maxSize: int, defaultTtl: int, trace: seq<Event>, key: string, e: Entry)
    ensures var s := Run(Start(maxSize, defaultTtl), trace);
      var after := Step(s, DoSet(key, e)).c.entries;
      if key !in s.c.entries && |s.c.entries| == s.room then
        exists victim :: victim in s.c.entries && after == (s.c.entries - {victim})[key := Kept(e, s.lifetime)]
          && forall k :: k in s.c.entries && k != victim ==> RankOf(s.lastUse, victim) < RankOf(s.lastUse, k)
      else after == s.c.entries[key := Kept(e, s.lifetime)]
  {
    var s := Run(Start(maxSize, defaultTtl), trace);
    EveryRunKeepsInv(Start(maxSize, defaultTtl), trace);
    SetEntries(s.c, key, e);
    hide Run, Set, Kept;
    if key !in s.c.entries && |s.c.entries| == s.room {
      FirstIsLeastRecent(s);
      hide Inv, RankOf;
      var victim := s.c.order[0];
    }
  }

  lemma FirstIsLeastRecent(s: System)
    requires Inv(s) && s.c.order != []
    ensures forall k :: k in s.c.entries && k != s.c.order[0] ==> RankOf(s.lastUse, s.c.order[0]) < RankOf(s.lastUse, k)
  {
    var c := s.c;
    forall k | k in c.entries && k != c.order[0] ensures RankOf(s.lastUse, c.order[0]) < RankOf(s.lastUse, k) {
      AgreeOnKeys(c.entries, c.order, c.maxSize, k);
      var j :| 0 <= j < |c.order| && c.order[j] == k;
    }
  }

  /** The second phase of a `Get` never brings a key back: it changes no entry, and if the key
      was deleted in between it does not change the list either. */
  lemma SecondPhaseRevivesNothing(maxSize: int, defaultTtl: int, trace: seq<Event>, r: nat)
    ensures var s := Run(Start(maxSize, defaultTtl), trace);
      var s' := Step(s, EndGet(r));
      && s'.c.entries == s.c.entries
      && Elems(s'.c.order) == Elems(s.c.order)
      && (r in s.inGet && s.inGet[r].0 !in s.c.entries ==> s'.c.order == s.c.order)
  {
    var s := Run(Start(maxSize, defaultTtl), trace);
    EveryRunKeepsInv(Start(maxSize, defaultTtl), trace);
    assert Valid(s.c);
    hide Run, Inv;
    if r in s.inGet {
      MoveToEndKeepsKeys(s.c.order, s.inGet[r].0);
      AgreeOnKeys(s.c.entries, s.c.order, s.c.maxSize, s.inGet[r].0);
    }
  }

  // ---------------------------------------------------------------------------------------
  // After an invalidation
  // ---------------------------------------------------------------------------------------

  /** No event of the trace stores a key with the prefix. */
  ghost predicate StoresNone(trace: seq<Event>, prefix: string) {
    forall i :: 0 <= i < |trace| && trace[i].DoSet? ==> !(prefix <= trace[i].key)
  }

  ghost predicate HoldsNone(s: System, prefix: string) {
    forall k :: k in s.c.entries ==> !(prefix <= k)
  }

  /** The reader has read an entry of a key with the prefix and is about to return it. */
  predicate WillReturn(s: System, r: nat, prefix: string) {
    r in s.inGet && prefix <= s.inGet[r].0
  }

  lemma StaysWithout(s: System, ev: Event, prefix: string, r: nat)
    requires HoldsNone(s, prefix) && (ev.DoSet? ==> !(prefix <= ev.key))
    ensures HoldsNone(Step(s, ev), prefix)
    ensures WillReturn(Step(s, ev), r, prefix) <==> WillReturn(s, r, prefix) && ev != EndGet(r)
  {
    hide Drop, MoveToEnd;
  }

  lemma {:induction false} RunStaysWithout(s: System, trace: seq<Event>, prefix: string, r: nat)
    requires HoldsNone(s, prefix) && StoresNone(trace, prefix)
    ensures HoldsNone(Run(s, trace), prefix)
    ensures WillReturn(Run(s, trace), r, prefix) <==> WillReturn(s, r, prefix) && EndGet(r) !in trace
    decreases |trace|
  {
    if trace != [] {
      hide HoldsNone, WillReturn;
      StaysWithout(s, trace[0], prefix, r);
      hide Step;
      assert forall i :: 0 <= i < |trace| - 1 ==> trace[1..][i] == trace[i + 1];
      RunStaysWithout(Step(s, trace[0]), trace[1..], prefix, r);
      assert trace == [trace[0]] + trace[1..];
    }
  }

  /** In every state that an invalidation and any events without a store under its prefix lead
      to, from any state at all: every read of a key with the prefix misses, and a reader will
      return such a key if and only if it had read it before the invalidation and has not ended
      since.  So exactly the hits already under way outlive an invalidation. */
  lemma StaleHitsExactly(s: System, prefix: string, trace: seq<Event>, r: nat)
    requires StoresNone(trace, prefix)
    ensures var s' := Run(Step(s, DoInvalidate(prefix)), trace);
      && (forall key, now :: prefix <= key ==> ReadPhase(s'.c, key, now) == None)
      && (WillReturn(s', r, prefix) <==> WillReturn(s, r, prefix) && EndGet(r) !in trace)
  {
    var s1 := Step(s, DoInvalidate(prefix));
    assert HoldsNone(s1, prefix);
    assert WillReturn(s1, r, prefix) <==> WillReturn(s, r, prefix);
    hide Step, Run;
    RunStaysWithout(s1, trace, prefix, r);
  }

  /** There is one for every live entry: a `Get` that has read it still returns it when an
      invalidation removes the key before the second phase. */
  lemma HitCanOutliveInvalidation(s: System, r: nat, key: string, now: int, prefix: string)
    requires Inv(s) && r !in s.inGet && key in s.c.entries && !Expired(s.c.entries[key], now) && prefix <= key
    ensures var s1 := Step(Step(s, BeginGet(r, key, now)), DoInvalidate(prefix));
      r in s1.inGet && s1.inGet[r] == (key, s.c.entries[key]) && key !in s1.c.entries
  {
  }

  /** After the last step of a write to `path`, whatever other requests did before and between
      its steps: no key that starts with the path's first segment is in map or list, until one
      is stored again. */
  lemma WriteLeavesNoRelatedKey(maxSize: int, defaultTtl: int, before: seq<Event>, path: string, trace: seq<Event>, k: string)
    requires var prefix := "/" + Segments(path)[0]; StoresNone(trace, prefix) && prefix <= k
    ensures var s := Run(Step(Run(Start(maxSize, defaultTtl), before), DoInvalidate("/" + Segments(path)[0])), trace);
      k !in s.c.entries && k !in s.c.order
  {
    var prefix := "/" + Segments(path)[0];
    hide Segments;
    var s0 := Run(Start(maxSize, defaultTtl), before);
    EveryRunKeepsInv(Start(maxSize, defaultTtl), before);
    StepKeepsInv(s0, DoInvalidate(prefix));
    var s1 := Step(s0, DoInvalidate(prefix));
    EveryRunKeepsInv(s1, trace);
    assert HoldsNone(s1, prefix);
    hide Run, Step;
    RunStaysWithout(s1, trace, prefix, 0);
    var c := Run(s1, trace).c;
    AgreeOnKeys(c.entries, c.order, c.maxSize, k);
  }
}
