/**
 The key list that both response caches keep beside their map, least recently used first.
 */
module LruOrder {
  import opened Finite

  ghost predicate Distinct(s: seq<string>) {
    forall i, j :: 0 <= i < j < |s| ==> s[i] != s[j]
  }

  /** The list without the keys in `gone`, the others in their old order. */
  function Drop(s: seq<string>, gone: set<string>): seq<string> {
    if s == [] then []
    else (if s[0] in gone then [] else [s[0]]) + Drop(s[1..], gone)
  }

  function MoveToEnd(s: seq<string>, key: string): seq<string> {
    if key in s then Drop(s, {key}) + [key] else s
  }

  /** The list climbs in rank: with last use as the rank, least recently used first. */
  ghost predicate Ascending(s: seq<string>, rank: string -> int) {
    forall i, j :: 0 <= i < j < |s| ==> rank(s[i]) < rank(s[j])
  }

  lemma {:induction false} DropMembers(s: seq<string>, gone: set<string>, k: string)
    ensures k in Drop(s, gone) <==> k in s && k !in gone
  {
    if s != [] {
      DropMembers(s[1..], gone, k);
      assert s == [s[0]] + s[1..];
    }
  }

  lemma DropElems(s: seq<string>, gone: set<string>)
    ensures Elems(Drop(s, gone)) == Elems(s) - gone
  {
    forall k
      ensures k in Elems(Drop(s, gone)) <==> k in Elems(s) - gone
    {
      DropMembers(s, gone, k);
    }
  }

  lemma {:induction false} DropDistinct(s: seq<string>, gone: set<string>)
    requires Distinct(s)
    ensures Distinct(Drop(s, gone))
  {
    if s != [] {
      var t := Drop(s[1..], gone);
      DropDistinct(s[1..], gone);
      forall i | 0 <= i < |t|
        ensures t[i] != s[0]
      {
        DropMembers(s[1..], gone, t[i]);
      }
    }
  }

  lemma {:induction false} DropAscending(s: seq<string>, gone: set<string>, rank: string -> int)
    requires Ascending(s, rank)
    ensures Ascending(Drop(s, gone), rank)
  {
    if s != [] {
      var t := Drop(s[1..], gone);
      DropAscending(s[1..], gone, rank);
      forall i | 0 <= i < |t|
        ensures rank(s[0]) < rank(t[i])
      {
        DropMembers(s[1..], gone, t[i]);
        var j :| 0 <= j < |s[1..]| && s[1..][j] == t[i];
        assert s[j + 1] == t[i];
      }
    }
  }

  lemma TailAscending(s: seq<string>, rank: string -> int)
    requires Ascending(s, rank) && s != []
    ensures Ascending(s[1..], rank)
  {
  }

  lemma {:induction false} DropNone(s: seq<string>, gone: set<string>)
    requires forall k :: k in s ==> k !in gone
    ensures Drop(s, gone) == s
  {
    if s != [] {
      assert s == [s[0]] + s[1..];
      DropNone(s[1..], gone);
    }
  }

  lemma {:induction false} DropAppend(a: seq<string>, b: seq<string>, gone: set<string>)
    ensures Drop(a + b, gone) == Drop(a, gone) + Drop(b, gone)
  {
    if a == [] {
      assert a + b == b;
    } else {
      assert (a + b)[1..] == a[1..] + b;
      DropAppend(a[1..], b, gone);
    }
  }

  lemma {:induction false} DropTwice(s: seq<string>, g: set<string>, h: set<string>)
    ensures Drop(Drop(s, g), h) == Drop(s, g + h)
  {
    if s != [] {
      DropTwice(s[1..], g, h);
      if s[0] in g {
        assert Drop(s, g) == Drop(s[1..], g) && Drop(s, g + h) == Drop(s[1..], g + h);
      } else {
        DropOne(s[0], h);
        DropAppend([s[0]], Drop(s[1..], g), h);
      }
    }
  }

  lemma DropOne(k: string, gone: set<string>)
    ensures Drop([k], gone) == if k in gone then [] else [k]
  {
  }

  /** Cutting one occurrence out of a duplicate-free list drops the key. */
  lemma DropIsCut(s: seq<string>, i: nat)
    requires Distinct(s) && i < |s|
    ensures Drop(s, {s[i]}) == s[..i] + s[i + 1..]
  {
    var k, a, b := s[i], s[..i], s[i + 1..];
    assert s == a + ([k] + b);
    assert k !in a && k !in b;
    hide Drop, Distinct;
    DropAppend(a, [k] + b, {k});
    DropAppend([k], b, {k});
    DropOne(k, {k});
    DropNone(a, {k});
    DropNone(b, {k});
    assert Drop([k], {k}) + b == b;
  }

  lemma AppendKey(s: seq<string>, k: string)
    requires Distinct(s) && k !in s
    ensures Distinct(s + [k]) && Elems(s + [k]) == Elems(s) + {k}
  {
  }

  lemma MoveToEndKeepsKeys(s: seq<string>, key: string)
    requires Distinct(s)
    ensures Distinct(MoveToEnd(s, key)) && Elems(MoveToEnd(s, key)) == Elems(s)
  {
    hide Drop;
    if key in s {
      DropDistinct(s, {key});
      DropElems(s, {key});
      DropMembers(s, {key}, key);
      AppendKey(Drop(s, {key}), key);
    }
  }

  lemma {:induction false} DistinctSize(s: seq<string>)
    requires Distinct(s)
    ensures |Elems(s)| == |s|
  {
    if s != [] {
      DistinctSize(s[1..]);
      assert Elems(s) == {s[0]} + Elems(s[1..]);
    }
  }

  // A map and its key list

  /** The map and the list hold the same keys, each once, within the size limit. */
  ghost predicate Agree<V>(m: map<string, V>, order: seq<string>, maxSize: int) {
    maxSize >= 1 && Distinct(order) && Elems(order) == m.Keys && |m| <= maxSize
  }

  lemma AgreeOnKeys<V>(m: map<string, V>, order: seq<string>, maxSize: int, key: string)
    requires Agree(m, order, maxSize)
    ensures key in m <==> key in order
  {
  }

  lemma RemoveAgrees<V>(m: map<string, V>, order: seq<string>, maxSize: int, gone: set<string>)
    requires Agree(m, order, maxSize)
    ensures Agree(m - gone, Drop(order, gone), maxSize)
  {
    hide Distinct, Elems, Drop;
    DropDistinct(order, gone);
    DropElems(order, gone);
    assert (m - gone).Keys == m.Keys - gone;
    SubsetSize((m - gone).Keys, m.Keys);
  }

  lemma TouchAgrees<V>(m: map<string, V>, order: seq<string>, maxSize: int, key: string)
    requires Agree(m, order, maxSize)
    ensures Agree(m, MoveToEnd(order, key), maxSize)
  {
    hide Distinct, Elems, MoveToEnd;
    MoveToEndKeepsKeys(order, key);
  }

  lemma UpdateAgrees<V>(m: map<string, V>, order: seq<string>, maxSize: int, key: string, v: V)
    requires Agree(m, order, maxSize) && key in m
    ensures Agree(m[key := v], order, maxSize)
  {
  }

  lemma InsertAgrees<V>(m: map<string, V>, order: seq<string>, maxSize: int, key: string, v: V)
    requires Agree(m, order, maxSize) && key !in m && |m| < maxSize
    ensures Agree(m[key := v], order + [key], maxSize)
  {
  }

  /** Evicting the list's first key makes room, because list and map agree. */
  lemma EvictMakesRoom<V>(m: map<string, V>, order: seq<string>, maxSize: int)
    requires Agree(m, order, maxSize) && |m| >= maxSize
    ensures order != [] && order[0] in m
    ensures Agree(m - {order[0]}, order[1..], maxSize) && |m - {order[0]}| == |m| - 1
  {
  }

  /** The scan that `deleteEntry` and `moveToEnd` share: cuts the first occurrence out. */
  method CutKey(order: seq<string>, key: string) returns (found: bool, rest: seq<string>)
    requires Distinct(order)
    ensures found <==> key in order
    ensures rest == Drop(order, {key})
  {
    hide Drop;
    for i := 0 to |order|
      invariant key !in order[..i]
    {
      if order[i] == key {
        DropIsCut(order, i);
        return true, order[..i] + order[i + 1..];
      }
    }
    DropNone(order, {key});
    return false, order;
  }
}
