/**
 The knowledge graph's edge index and its bounded breadth-first search
 (internal/knowledge/graph.go).
 */
module KnowledgeGraph {
  import opened Finite

  datatype Node = Node(id: string, kind: string, name: string)

  datatype Edge = Edge(from: string, to: string, relation: string)

  type Index = map<string, set<string>>

  ghost predicate HasEdge(edges: seq<Edge>, u: string, v: string) {
    exists i :: 0 <= i < |edges| && edges[i].from == u && edges[i].to == v
  }

  function Succ(index: Index, u: string): set<string> {
    if u in index then index[u] else {}
  }

  /** The index says exactly what the edge list says. */
  ghost predicate Indexed(edges: seq<Edge>, index: Index) {
    forall u, v :: v in Succ(index, u) <==> HasEdge(edges, u, v)
  }

  /** A walk along edges of the list. */
  ghost predicate IsPath(edges: seq<Edge>, p: seq<string>, s: string, t: string) {
    && p != [] && p[0] == s && p[|p| - 1] == t
    && forall i :: 0 <= i < |p| - 1 ==> HasEdge(edges, p[i], p[i + 1])
  }

  /** `t` is joined to `s` by a path of at most `d` edges. */
  ghost predicate Within(edges: seq<Edge>, s: string, t: string, d: int) {
    exists p :: IsPath(edges, p, s, t) && |p| - 1 <= d
  }

  // The search by layers

  function Image(index: Index, b: set<string>): set<string> {
    set u, v | u in b && v in Succ(index, u) :: v
  }

  function Ball(index: Index, s: string, d: nat): set<string> {
    if d == 0 then {s} else Ball(index, s, d - 1) + Image(index, Ball(index, s, d - 1))
  }

  lemma {:induction false} BallHasPath(edges: seq<Edge>, index: Index, s: string, t: string, d: nat)
    returns (p: seq<string>)
    requires Indexed(edges, index) && t in Ball(index, s, d)
    ensures IsPath(edges, p, s, t) && |p| - 1 <= d
    decreases d
  {
    if d == 0 {
      p := [s];
    } else if t in Ball(index, s, d - 1) {
      p := BallHasPath(edges, index, s, t, d - 1);
    } else {
      var u :| u in Ball(index, s, d - 1) && t in Succ(index, u);
      var q := BallHasPath(edges, index, s, u, d - 1);
      p := q + [t];
      forall i | 0 <= i < |p| - 1
        ensures HasEdge(edges, p[i], p[i + 1])
      {
        if i < |q| - 1 {
          assert HasEdge(edges, q[i], q[i + 1]);
        }
      }
    }
  }

  lemma {:induction false} PathInBall(edges: seq<Edge>, index: Index, s: string, t: string, p: seq<string>, d: nat)
    requires Indexed(edges, index) && IsPath(edges, p, s, t) && |p| - 1 <= d
    ensures t in Ball(index, s, d)
    decreases d
  {
    if d > 0 {
      if |p| - 1 <= d - 1 {
        PathInBall(edges, index, s, t, p, d - 1);
      } else {
        var q := p[..|p| - 1];
        var u := q[|q| - 1];
        assert forall i :: 0 <= i < |q| - 1 ==> HasEdge(edges, p[i], p[i + 1]);
        PathInBall(edges, index, s, u, q, d - 1);
        assert HasEdge(edges, p[|p| - 2], p[|p| - 1]);
        assert t in Succ(index, u);
      }
    }
  }

  /** The ball of radius `d` is exactly what paths of at most `d` edges reach. */
  lemma BallIsPaths(edges: seq<Edge>, index: Index, s: string, t: string, d: nat)
    requires Indexed(edges, index)
    ensures t in Ball(index, s, d) <==> Within(edges, s, t, d)
  {
    if t in Ball(index, s, d) {
      var p := BallHasPath(edges, index, s, t, d);
    }
    if Within(edges, s, t, d) {
      var p :| IsPath(edges, p, s, t) && |p| - 1 <= d;
      PathInBall(edges, index, s, t, p, d);
    }
  }

  /** Once a layer adds nothing, no later one does. */
  lemma {:induction false} BallFixpoint(index: Index, s: string, d: nat, e: nat)
    requires d <= e && Image(index, Ball(index, s, d)) <= Ball(index, s, d)
    ensures Ball(index, s, e) == Ball(index, s, d)
    decreases e
  {
    if d < e {
      BallFixpoint(index, s, d, e - 1);
    }
  }

  // Sorted output

  /** The byte-wise order of `sort.Strings`. */
  predicate Less(a: string, b: string) {
    b != [] && (a == [] || a[0] < b[0] || (a[0] == b[0] && Less(a[1..], b[1..])))
  }

  /** The order of the first difference: a proper prefix is less, and otherwise the character
      at the first place where the two differ decides. */
  lemma {:induction false} LessIsFirstDifference(a: string, b: string, n: nat)
    requires n <= |a| && n <= |b| && a[..n] == b[..n]
    requires n == |a| || n == |b| || a[n] != b[n]
    ensures Less(a, b) <==> n < |b| && (n == |a| || a[n] < b[n])
    decreases n
  {
    if n > 0 {
      assert a[0] == a[..n][0] && b[0] == b[..n][0];
      assert a[1..][..n - 1] == a[..n][1..] && b[1..][..n - 1] == b[..n][1..];
      LessIsFirstDifference(a[1..], b[1..], n - 1);
    }
  }

  lemma {:induction false} LessTotal(a: string, b: string)
    ensures a == b || Less(a, b) || Less(b, a)
  {
    if a != [] && b != [] && a[0] == b[0] {
      LessTotal(a[1..], b[1..]);
      assert a[1..] == b[1..] ==> a == [a[0]] + a[1..] == b;
    }
  }

  lemma {:induction false} LessTransitive(a: string, b: string, c: string)
    requires Less(a, b) && Less(b, c)
    ensures Less(a, c)
  {
    if a != [] && a[0] == b[0] == c[0] {
      LessTransitive(a[1..], b[1..], c[1..]);
    }
  }

  ghost predicate StrictlySorted(s: seq<string>) {
    forall i, j :: 0 <= i < j < |s| ==> Less(s[i], s[j])
  }

  method InsertSorted(s: seq<string>, x: string) returns (t: seq<string>)
    requires StrictlySorted(s) && x !in s
    ensures StrictlySorted(t)
    ensures forall y :: y in t <==> y == x || y in s
  {
    var i := 0;
    while i < |s| && Less(s[i], x)
      invariant 0 <= i <= |s|
      invariant forall k :: 0 <= k < i ==> Less(s[k], x)
    {
      i := i + 1;
    }
    t := s[..i] + [x] + s[i..];
    forall k | i <= k < |s|
      ensures Less(x, s[k])
    {
      LessTotal(x, s[i]);
      if k > i {
        LessTransitive(x, s[i], s[k]);
      }
    }
  }

  method SortedIds(ids: set<string>) returns (out: seq<string>)
    ensures StrictlySorted(out)
    ensures forall y :: y in out <==> y in ids
  {
    out := [];
    var todo := ids;
    while todo != {}
      invariant todo <= ids && StrictlySorted(out)
      invariant forall y :: y in out <==> y in ids && y !in todo
      decreases todo
    {
      var id :| id in todo;
      todo := todo - {id};
      out := InsertSorted(out, id);
    }
  }

  /** One node of the frontier: its unvisited successors, in any order, join the next layer. */
  method Expand(index: Index, id: string, visited: set<string>, next: seq<string>)
    returns (visited': set<string>, next': seq<string>)
    ensures visited' == visited + Succ(index, id)
    ensures forall x :: x in next' <==> x in next || x in Succ(index, id) - visited
  {
    visited', next' := visited, next;
    var todo := Succ(index, id);
    while todo != {}
      invariant todo <= Succ(index, id)
      invariant visited' == visited + (Succ(index, id) - todo)
      invariant forall x :: x in next' <==> x in next || (x in Succ(index, id) - todo && x !in visited)
      decreases todo
    {
      var to :| to in todo;
      todo := todo - {to};
      if to !in visited' {
        visited' := visited' + {to};
        next' := next' + [to];
      }
    }
  }

  /** One round of the outer loop. */
  method ExpandLayer(index: Index, queue: seq<string>, visited: set<string>)
    returns (visited': set<string>, next: seq<string>)
    ensures visited' == visited + Image(index, Elems(queue))
    ensures forall x :: x in next <==> x in visited' && x !in visited
  {
    visited', next := visited, [];
    for i := 0 to |queue|
      invariant visited' == visited + Image(index, Elems(queue[..i]))
      invariant forall x :: x in next <==> x in visited' && x !in visited
    {
      ImageOneMore(index, queue, i);
      visited', next := Expand(index, queue[i], visited', next);
    }
    assert queue[..|queue|] == queue;
  }

  lemma ImageOneMore(index: Index, queue: seq<string>, i: nat)
    requires i < |queue|
    ensures Image(index, Elems(queue[..i + 1])) ==
      Image(index, Elems(queue[..i])) + Succ(index, queue[i])
  {
  }

  /** Where the outer loop is: everything within `d` edges is visited, and everything visited
      except the frontier is already expanded. */
  ghost predicate Layered(index: Index, s: string, d: nat, queue: seq<string>, visited: set<string>) {
    && visited == Ball(index, s, d)
    && (forall x :: x in queue ==> x in visited)
    && (forall u, v :: u in visited && u !in queue && v in Succ(index, u) ==> v in visited)
  }

  lemma LayerAdvances(
    index: Index, s: string, d: nat, queue: seq<string>, visited: set<string>, visited': set<string>, next: seq<string>)
    requires Layered(index, s, d, queue, visited)
    requires visited' == visited + Image(index, Elems(queue))
    requires forall x :: x in next <==> x in visited' && x !in visited
    ensures Layered(index, s, d + 1, next, visited')
  {
    var q := Elems(queue);
    forall v
      ensures v in Image(index, visited) ==> v in visited'
      ensures v in Image(index, q) ==> v in Image(index, visited)
    {
      if v in Image(index, visited) {
        var u :| u in visited && v in Succ(index, u);
        assert u in queue ==> u in q && v in Image(index, q);
      }
      if v in Image(index, q) {
        var u :| u in q && v in Succ(index, u);
        assert u in visited;
      }
    }
    assert visited' == visited + Image(index, visited);
    forall u, v | u in visited' && u !in next && v in Succ(index, u)
      ensures v in visited'
    {
      assert u in visited && v in Image(index, visited);
    }
  }

  /** An empty frontier, or the depth limit: the visited set is the whole ball. */
  lemma SearchIsDone(index: Index, s: string, d: nat, queue: seq<string>, visited: set<string>, maxDepth: int)
    requires Layered(index, s, d, queue, visited) && (maxDepth <= 0 ==> d == 0) && (maxDepth > 0 ==> d <= maxDepth)
    requires queue == [] || d >= maxDepth
    ensures visited == Ball(index, s, if maxDepth <= 0 then 0 else maxDepth)
  {
    if queue == [] && d < maxDepth {
      assert Image(index, visited) <= visited;
      BallFixpoint(index, s, d, maxDepth);
    }
  }

  /** A path of at most `d` edges, when `d` is negative or zero, goes nowhere. */
  lemma WithinNonPositive(edges: seq<Edge>, s: string, t: string, d: int)
    requires d <= 0 && t != s
    ensures !Within(edges, s, t, d) && !Within(edges, s, t, 0)
  {
  }

  method BuildIndex(edges: seq<Edge>) returns (index: Index)
    ensures Indexed(edges, index)
  {
    index := map[];
    for i := 0 to |edges|
      invariant Indexed(edges[..i], index)
    {
      var e := edges[i];
      assert edges[..i + 1] == edges[..i] + [e];
      IndexOneMore(edges[..i], index, e);
      index := index[e.from := Succ(index, e.from) + {e.to}];
    }
    assert edges[..|edges|] == edges;
  }

  /** Adds the loaded nodes and then the loaded successor sets to an index. */
  method MergeIndex(index: Index, ids: set<string>, loaded: Index) returns (merged: Index)
    ensures forall u :: Succ(merged, u) == Succ(index, u) + Succ(loaded, u)
    ensures ids <= merged.Keys
  {
    merged := index;
    var todo := ids;
    while todo != {}
      invariant ids - todo <= merged.Keys
      invariant forall u :: Succ(merged, u) == Succ(index, u)
      decreases todo
    {
      var id :| id in todo;
      todo := todo - {id};
      if id !in merged {
        merged := merged[id := {}];
      }
    }
    todo := loaded.Keys;
    while todo != {}
      invariant todo <= loaded.Keys && ids <= merged.Keys
      invariant forall u :: Succ(merged, u) == Succ(index, u) + if u in todo then {} else Succ(loaded, u)
      decreases todo
    {
      var from :| from in todo;
      todo := todo - {from};
      merged := merged[from := Succ(merged, from) + loaded[from]];
    }
  }

  class Graph {
    var nodes: map<string, Node>
    var edges: seq<Edge>
    var index: Index

    ghost predicate Valid()
      reads this
    {
      Indexed(edges, index)
    }

    constructor ()
      ensures Valid() && nodes == map[] && edges == [] && index == map[]
    {
      nodes, edges, index := map[], [], map[];
    }

    method AddNode(n: Node)
      requires Valid()
      modifies this
      ensures Valid() && nodes == old(nodes)[n.id := n] && edges == old(edges)
    {
      nodes := nodes[n.id := n];
      if n.id !in index {
        index := index[n.id := {}];
      }
      assert forall u :: Succ(index, u) == old(Succ(index, u));
    }

    method AddEdge(e: Edge)
      requires Valid()
      modifies this
      ensures Valid() && nodes == old(nodes) && edges == old(edges) + [e]
    {
      IndexOneMore(edges, index, e);
      edges := edges + [e];
      index := index[e.from := Succ(index, e.from) + {e.to}];
    }

    /** The in-memory part of `LoadFromDB`: `dbNodes` and `dbEdges` are the rows that scanned. */
    method LoadFromDB(dbNodes: map<string, Node>, dbEdges: seq<Edge>)
      requires Valid()
      modifies this
      ensures Valid() && nodes == old(nodes) + dbNodes && edges == old(edges) + dbEdges
    {
      var loaded := BuildIndex(dbEdges);
      nodes := nodes + dbNodes;
      var merged := MergeIndex(index, dbNodes.Keys, loaded);
      EdgesOfBoth(edges, dbEdges);
      edges := edges + dbEdges;
      index := merged;
    }

    method Reachable(start: string, maxDepth: int) returns (out: seq<string>)
      requires Valid()
      ensures StrictlySorted(out)
      ensures forall t :: t in out <==> t != start && Within(edges, start, t, maxDepth)
    {
      hide Image, Ball, Within, StrictlySorted, Indexed;
      var visited := {start};
      var queue := [start];
      var depth := 0;
      StartsLayered(index, start);
      while |queue| > 0 && depth < maxDepth
        invariant 0 <= depth && (maxDepth <= 0 ==> depth == 0) && (maxDepth > 0 ==> depth <= maxDepth)
        invariant Layered(index, start, depth, queue, visited)
        decreases maxDepth - depth
      {
        var visited', next := ExpandLayer(index, queue, visited);
        LayerAdvances(index, start, depth, queue, visited, visited', next);
        visited, queue := visited', next;
        depth := depth + 1;
      }
      SearchIsDone(index, start, depth, queue, visited, maxDepth);
      out := SortedIds(visited - {start});
      forall t
        ensures t in out <==> t != start && Within(edges, start, t, maxDepth)
      {
        BallIsPaths(edges, index, start, t, if maxDepth <= 0 then 0 else maxDepth);
        if maxDepth <= 0 && t != start {
          WithinNonPositive(edges, start, t, maxDepth);
        }
      }
    }
  }

  lemma StartsLayered(index: Index, s: string)
    ensures Layered(index, s, 0, [s], {s})
  {
  }

  lemma IndexOneMore(edges: seq<Edge>, index: Index, e: Edge)
    requires Indexed(edges, index)
    ensures Indexed(edges + [e], index[e.from := Succ(index, e.from) + {e.to}])
  {
    EdgesOfBoth(edges, [e]);
    var index' := index[e.from := Succ(index, e.from) + {e.to}];
    forall u, v
      ensures v in Succ(index', u) <==> HasEdge(edges + [e], u, v)
    {
      assert HasEdge([e], u, v) <==> [e][0].from == u && [e][0].to == v;
      assert v in Succ(index, u) <==> HasEdge(edges, u, v);
    }
  }

  lemma EdgesOfBoth(a: seq<Edge>, b: seq<Edge>)
    ensures forall u, v :: HasEdge(a + b, u, v) <==> HasEdge(a, u, v) || HasEdge(b, u, v)
  {
    forall u, v
      ensures HasEdge(a + b, u, v) <==> HasEdge(a, u, v) || HasEdge(b, u, v)
    {
      if HasEdge(a, u, v) {
        var i :| 0 <= i < |a| && a[i].from == u && a[i].to == v;
        assert (a + b)[i] == a[i];
      }
      if HasEdge(b, u, v) {
        var i :| 0 <= i < |b| && b[i].from == u && b[i].to == v;
        assert (a + b)[|a| + i] == b[i];
      }
    }
  }

  /** Loading the same database again repeats its edges but joins nothing new. */
  lemma ReloadJoinsNothing(edges: seq<Edge>, db: seq<Edge>, s: string, t: string, d: int)
    ensures Within(edges + db + db, s, t, d) <==> Within(edges + db, s, t, d)
  {
    EdgesOfBoth(edges, db);
    EdgesOfBoth(edges + db, db);
    forall p
      ensures IsPath(edges + db + db, p, s, t) <==> IsPath(edges + db, p, s, t)
    {
    }
  }
}
