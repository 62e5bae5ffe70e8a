/** `Graph.topological_order`: an order of the nodes with every edge pointing
    forward, or an error exactly when the graph has a cycle. */
module TopologicalOrder {

  type Key = string

  datatype Edge = Edge(source: Key, target: Key)

  datatype Graph = Graph(keys: seq<Key>, edges: seq<Edge>)

  ghost predicate Distinct(s: seq<Key>) {
    forall i, j :: 0 <= i < j < |s| ==> s[i] != s[j]
  }

  /** Keys are unique and edges join known nodes; parallel edges are allowed. */
  ghost predicate GraphOk(g: Graph) {
    Distinct(g.keys) && forall i :: 0 <= i < |g.edges| ==> g.edges[i].source in g.keys && g.edges[i].target in g.keys
  }

  /** Each node of a cycle has an edge to the next, and the last to the first. */
  ghost predicate IsCycle(g: Graph, c: seq<Key>) {
    |c| > 0 && forall i :: 0 <= i < |c| ==> Edge(c[i], c[if i + 1 < |c| then i + 1 else 0]) in g.edges
  }

  ghost predicate HasCycle(g: Graph) {
    exists c :: IsCycle(g, c)
  }

  /** Every edge into a node of the order comes from an earlier one. */
  ghost predicate PointsForward(g: Graph, order: seq<Key>) {
    forall e, j :: e in g.edges && 0 <= j < |order| && order[j] == e.target ==> e.source in order[..j]
  }

  ghost predicate IsOrder(g: Graph, order: seq<Key>) {
    multiset(order) == multiset(g.keys) && PointsForward(g, order)
  }

  // ---- An order or a cycle, not both ----

  /** Where a key is in a sequence that has it. */
  function Position(order: seq<Key>, k: Key): (i: nat)
    requires k in order
    ensures i < |order| && order[i] == k && forall j :: 0 <= j < i ==> order[j] != k
  {
    if order[0] == k then 0 else 1 + Position(order[1..], k)
  }

  lemma EdgeAscends(g: Graph, order: seq<Key>, e: Edge)
    requires PointsForward(g, order) && e in g.edges && e.target in order
    ensures e.source in order && Position(order, e.source) < Position(order, e.target)
  {
  }

  /** Along a cycle the positions would rise for ever. */
  lemma {:induction false} PositionsRise(g: Graph, order: seq<Key>, c: seq<Key>, i: nat)
    requires PointsForward(g, order) && IsCycle(g, c) && i < |c| && c[0] in order
    requires forall k :: 0 <= k < |c| ==> c[k] in order
    ensures Position(order, c[0]) + i <= Position(order, c[i])
  {
    if i > 0 {
      PositionsRise(g, order, c, i - 1);
      EdgeAscends(g, order, Edge(c[i - 1], c[i]));
    }
  }

  lemma OrderMeansNoCycle(g: Graph, order: seq<Key>)
    requires GraphOk(g) && IsOrder(g, order)
    ensures !HasCycle(g)
  {
    forall c | IsCycle(g, c) ensures false {
      forall k | 0 <= k < |c| ensures c[k] in order {
        assert Edge(c[k], c[if k + 1 < |c| then k + 1 else 0]) in g.edges;
        assert c[k] in multiset(g.keys);
      }
      PositionsRise(g, order, c, |c| - 1);
      EdgeAscends(g, order, Edge(c[|c| - 1], c[0]));
    }
  }

  // ---- Nodes that never become ready lie behind a cycle ----

  /** Every node of the set has an edge from a node of the set. */
  ghost predicate AllPreceded(g: Graph, rest: set<Key>) {
    forall k {:trigger Preceded(g, rest, k)} :: k in rest ==> Preceded(g, rest, k)
  }

  ghost predicate Preceded(g: Graph, rest: set<Key>, k: Key) {
    exists e :: e in g.edges && e.target == k && e.source in rest
  }

  /** A path, each node preceded by the next. */
  ghost predicate IsBackPath(g: Graph, rest: set<Key>, path: seq<Key>) {
    && (forall i :: 0 <= i < |path| ==> path[i] in rest)
    && (forall i :: 0 <= i < |path| - 1 ==> Edge(path[i + 1], path[i]) in g.edges)
  }

  function Reversed(s: seq<Key>): (r: seq<Key>)
    ensures |r| == |s| && forall i :: 0 <= i < |s| ==> r[i] == s[|s| - 1 - i]
  {
    seq(|s|, i requires 0 <= i < |s| => s[|s| - 1 - i])
  }

  /** A path back that returns to one of its nodes is a cycle, read forward. */
  lemma PathCloses(g: Graph, rest: set<Key>, path: seq<Key>, i: nat)
    requires IsBackPath(g, rest, path) && i < |path| && Edge(path[i], path[|path| - 1]) in g.edges
    ensures IsCycle(g, Reversed(path[i..]))
  {
  }

  /** Walking back from node to predecessor meets a node again. */
  lemma {:induction false} WalkBack(g: Graph, rest: set<Key>, path: seq<Key>)
    requires AllPreceded(g, rest) && |path| > 0 && IsBackPath(g, rest, path) && Distinct(path)
    ensures HasCycle(g)
    decreases |rest| - |path|
  {
    var source := Predecessor(g, rest, path[|path| - 1]);
    if source in path {
      var i :| 0 <= i < |path| && path[i] == source;
      PathCloses(g, rest, path, i);
    } else {
      PathExtends(g, rest, path, source);
      PathFits(path + [source], rest);
      WalkBack(g, rest, path + [source]);
    }
  }

  lemma Predecessor(g: Graph, rest: set<Key>, k: Key) returns (source: Key)
    requires AllPreceded(g, rest) && k in rest
    ensures source in rest && Edge(source, k) in g.edges
  {
    assert Preceded(g, rest, k);
    var e :| e in g.edges && e.target == k && e.source in rest;
    assert e == Edge(e.source, k);
    source := e.source;
  }

  lemma PathExtends(g: Graph, rest: set<Key>, path: seq<Key>, source: Key)
    requires |path| > 0 && IsBackPath(g, rest, path) && Distinct(path)
    requires source in rest && source !in path && Edge(source, path[|path| - 1]) in g.edges
    ensures IsBackPath(g, rest, path + [source]) && Distinct(path + [source])
  {
  }

  lemma {:induction false} PathFits(path: seq<Key>, rest: set<Key>)
    requires Distinct(path) && forall i :: 0 <= i < |path| ==> path[i] in rest
    ensures |path| <= |rest|
    decreases |path|
  {
    if path != [] { PathFits(path[1..], rest - {path[0]}); }
  }

  // ---- Counting edges ----

  /** How many edges lead to k from nodes not yet in the order. */
  function Waiting(edges: seq<Edge>, k: Key, done: set<Key>): nat {
    if edges == [] then 0
    else (if edges[0].target == k && edges[0].source !in done then 1 else 0) + Waiting(edges[1..], k, done)
  }

  /** The targets of a node's edges, one for each edge. */
  function Following(edges: seq<Edge>, k: Key): seq<Key> {
    if edges == [] then []
    else (if edges[0].source == k then [edges[0].target] else []) + Following(edges[1..], k)
  }

  function Times(s: seq<Key>, k: Key): nat {
    if s == [] then 0 else (if s[0] == k then 1 else 0) + Times(s[1..], k)
  }

  lemma {:induction false} TimesConcat(a: seq<Key>, b: seq<Key>, k: Key)
    ensures Times(a + b, k) == Times(a, k) + Times(b, k)
  {
    if a == [] {
      assert a + b == b;
    } else {
      assert (a + b)[1..] == a[1..] + b;
      TimesConcat(a[1..], b, k);
    }
  }

  lemma {:induction false} FollowingConcat(a: seq<Edge>, b: seq<Edge>, k: Key)
    ensures Following(a + b, k) == Following(a, k) + Following(b, k)
  {
    if a == [] {
      assert a + b == b;
    } else {
      assert (a + b)[1..] == a[1..] + b;
      FollowingConcat(a[1..], b, k);
      var first := if a[0].source == k then [a[0].target] else [];
      assert first + (Following(a[1..], k) + Following(b, k)) == (first + Following(a[1..], k)) + Following(b, k);
    }
  }

  lemma {:induction false} WaitingConcat(a: seq<Edge>, b: seq<Edge>, k: Key, done: set<Key>)
    ensures Waiting(a + b, k, done) == Waiting(a, k, done) + Waiting(b, k, done)
  {
    if a == [] {
      assert a + b == b;
    } else {
      assert (a + b)[1..] == a[1..] + b;
      WaitingConcat(a[1..], b, k, done);
    }
  }

  /** Putting a node in the order takes its own edges off the counts. */
  lemma {:induction false} WaitingDrops(edges: seq<Edge>, k: Key, done: set<Key>, node: Key)
    requires node !in done
    ensures Waiting(edges, k, done) == Waiting(edges, k, done + {node}) + Times(Following(edges, node), k)
  {
    if edges != [] {
      WaitingDrops(edges[1..], k, done, node);
      TimesConcat(if edges[0].source == node then [edges[0].target] else [], Following(edges[1..], node), k);
    }
  }

  lemma {:induction false} NoneWaiting(edges: seq<Edge>, k: Key, done: set<Key>)
    ensures Waiting(edges, k, done) == 0 <==> forall e :: e in edges && e.target == k ==> e.source in done
  {
    if edges != [] {
      NoneWaiting(edges[1..], k, done);
      assert forall e :: e in edges <==> e == edges[0] || e in edges[1..];
    }
  }

  lemma {:induction false} FollowingKnown(edges: seq<Edge>, node: Key)
    ensures forall k :: k in Following(edges, node) ==> Edge(node, k) in edges
  {
    if edges != [] { FollowingKnown(edges[1..], node); }
  }

  lemma {:induction false} TimesMember(s: seq<Key>, k: Key)
    ensures Times(s, k) > 0 <==> k in s
  {
    if s != [] { TimesMember(s[1..], k); }
  }

  // ---- The algorithm ----

  /** The state between any two steps: `pending` are the edges of the last node
      that have not been taken off the counts yet. */
  ghost predicate State(g: Graph, order: seq<Key>, ready: seq<Key>, indegree: map<Key, int>, pending: seq<Key>) {
    && (forall k :: k in indegree <==> k in g.keys)
    && (forall k :: k in indegree ==> indegree[k] == Waiting(g.edges, k, Set(order)) + Times(pending, k))
    && Distinct(order + ready)
    && (forall k :: k in order + ready <==> k in indegree && indegree[k] == 0)
    && PointsForward(g, order)
  }

  function Set(s: seq<Key>): set<Key> { set k | k in s }

  lemma DistinctSplit(order: seq<Key>, ready: seq<Key>)
    requires ready != [] && Distinct(order + ready)
    ensures ready[0] !in order && order + ready == (order + [ready[0]]) + ready[1..]
  {
    var whole := order + ready;
    assert whole[|order|] == ready[0];
    forall i | 0 <= i < |order| ensures order[i] != ready[0] { assert whole[i] == order[i]; }
  }

  /** The front node goes into the order, and its edges become pending. */
  lemma TakeReady(g: Graph, order: seq<Key>, ready: seq<Key>, indegree: map<Key, int>)
    requires GraphOk(g) && State(g, order, ready, indegree, []) && ready != []
    ensures State(g, order + [ready[0]], ready[1..], indegree, Following(g.edges, ready[0]))
  {
    var key := ready[0];
    var order' := order + [key];
    DistinctSplit(order, ready);
    assert Set(order') == Set(order) + {key};
    forall k | k in indegree ensures indegree[k] == Waiting(g.edges, k, Set(order')) + Times(Following(g.edges, key), k) {
      WaitingDrops(g.edges, k, Set(order), key);
    }
    assert key in order + ready;
    NoneWaiting(g.edges, key, Set(order));
    forall e, j | e in g.edges && 0 <= j < |order'| && order'[j] == e.target ensures e.source in order'[..j] {
      if j < |order| { assert order'[..j] == order[..j] && order[j] == e.target; } else { assert order'[..j] == order; }
    }
  }

  /** One edge is taken off, and its target is ready if that was the last. */
  lemma TakeEdge(g: Graph, order: seq<Key>, ready: seq<Key>, indegree: map<Key, int>, pending: seq<Key>)
    requires State(g, order, ready, indegree, pending) && pending != [] && pending[0] in g.keys
    ensures pending[0] in indegree
    ensures var t := pending[0]; var left := indegree[t] - 1;
      State(g, order, if left == 0 then ready + [t] else ready, indegree[t := left], pending[1..])
  {
    var t := pending[0];
    var left := indegree[t] - 1;
    var ready' := if left == 0 then ready + [t] else ready;
    var indegree' := indegree[t := left];
    assert t !in order + ready;
    assert left == 0 ==> order + ready' == (order + ready) + [t];
    forall k ensures k in order + ready' <==> k in indegree' && indegree'[k] == 0 {
      assert k in order + ready <==> k in indegree && indegree[k] == 0;
      assert left == 0 ==> (k in order + ready' <==> k in order + ready || k == t);
    }
  }

  lemma Without(b: seq<Key>, x: Key) returns (b': seq<Key>)
    requires Distinct(b) && x in b
    ensures Distinct(b') && |b'| == |b| - 1 && multiset(b) == multiset(b') + multiset{x}
    ensures forall k :: k in b && k != x ==> k in b'
  {
    var i := Position(b, x);
    b' := b[..i] + b[i + 1..];
    assert b == b[..i] + [x] + b[i + 1..];
    assert multiset(b) == multiset(b') + multiset{x};
    forall k | k in b && k != x ensures k in b' { assert k in multiset(b'); }
    StillDistinct(b, i);
  }

  lemma StillDistinct(b: seq<Key>, i: nat)
    requires Distinct(b) && i < |b|
    ensures Distinct(b[..i] + b[i + 1..])
  {
  }

  lemma {:induction false} AllOrNone(a: seq<Key>, b: seq<Key>)
    requires Distinct(a) && Distinct(b) && (forall k :: k in a ==> k in b)
    ensures |a| <= |b|
    ensures |a| == |b| ==> multiset(a) == multiset(b)
    decreases |a|
  {
    if a == [] {
    } else {
      var b' := Without(b, a[0]);
      AllOrNone(a[1..], b');
      assert a == [a[0]] + a[1..];
    }
  }

  /** With nothing ready, either every node is in the order, or those that are
      not all wait for each other. */
  lemma WhenDone(g: Graph, order: seq<Key>, indegree: map<Key, int>)
    requires GraphOk(g) && State(g, order, [], indegree, [])
    ensures |order| == |g.keys| ==> IsOrder(g, order)
    ensures |order| != |g.keys| ==> HasCycle(g)
    ensures |order| != |g.keys| ==> exists k :: k in g.keys && indegree[k] != 0
    ensures forall waiting: seq<Key> :: (forall k :: k in waiting <==> k in g.keys && indegree[k] != 0) ==> AllPreceded(g, Set(waiting))
  {
    assert order + [] == order;
    AllOrNone(order, g.keys);
    var rest := set k | k in g.keys && indegree[k] != 0;
    forall k | k in rest ensures Preceded(g, rest, k) {
      NoneWaiting(g.edges, k, Set(order));
    }
    forall waiting: seq<Key> | forall k :: k in waiting <==> k in g.keys && indegree[k] != 0 ensures AllPreceded(g, Set(waiting)) {
      assert Set(waiting) == rest;
    }
    if |order| != |g.keys| {
      var start := Missing(order, g.keys);
      WalkBack(g, rest, [start]);
    }
  }

  lemma Missing(a: seq<Key>, b: seq<Key>) returns (k: Key)
    requires Distinct(a) && Distinct(b) && |a| < |b|
    ensures k in b && k !in a
  {
    if forall k :: k in b ==> k in a { AllOrNone(b, a); }
    k :| k in b && k !in a;
  }

  datatype Sorted = Ordered(order: seq<Key>) | Cyclic(waiting: seq<Key>)

  lemma OneMoreEdge(edges: seq<Edge>, i: nat)
    requires i < |edges|
    ensures forall k :: Waiting(edges[..i + 1], k, {}) == Waiting(edges[..i], k, {}) + if edges[i].target == k then 1 else 0
    ensures forall k :: Following(edges[..i + 1], k) == Following(edges[..i], k) + if edges[i].source == k then [edges[i].target] else []
  {
    var e := edges[i];
    forall k
      ensures Waiting(edges[..i + 1], k, {}) == Waiting(edges[..i], k, {}) + if e.target == k then 1 else 0
      ensures Following(edges[..i + 1], k) == Following(edges[..i], k) + if e.source == k then [e.target] else []
    {
      assert edges[..i + 1] == edges[..i] + [e];
      WaitingConcat(edges[..i], [e], k, {});
      FollowingConcat(edges[..i], [e], k);
    }
  }

  /** The tables of the first n edges. */
  ghost predicate TablesOk(g: Graph, n: nat, indegree: map<Key, int>, following: map<Key, seq<Key>>) {
    && n <= |g.edges|
    && (forall k :: k in indegree <==> k in g.keys) && (forall k :: k in following <==> k in g.keys)
    && (forall k :: k in g.keys ==> indegree[k] == Waiting(g.edges[..n], k, {}))
    && (forall k :: k in g.keys ==> following[k] == Following(g.edges[..n], k))
  }

  lemma TablesGrow(g: Graph, n: nat, indegree: map<Key, int>, following: map<Key, seq<Key>>)
    requires GraphOk(g) && n < |g.edges| && TablesOk(g, n, indegree, following)
    ensures g.edges[n].source in following && g.edges[n].target in indegree
    ensures var e := g.edges[n];
      TablesOk(g, n + 1, indegree[e.target := indegree[e.target] + 1], following[e.source := following[e.source] + [e.target]])
  {
    hide Waiting, Following;
    OneMoreEdge(g.edges, n);
  }

  /** The counts and adjacency lists that the algorithm starts from. */
  method Tables(g: Graph) returns (indegree: map<Key, int>, following: map<Key, seq<Key>>)
    requires GraphOk(g)
    ensures TablesOk(g, |g.edges|, indegree, following)
  {
    indegree := map k | k in g.keys :: 0;
    following := map k | k in g.keys :: [];
    var i := 0;
    while i < |g.edges|
      invariant 0 <= i <= |g.edges| && TablesOk(g, i, indegree, following)
    {
      TablesGrow(g, i, indegree, following);
      var e := g.edges[i];
      following := following[e.source := following[e.source] + [e.target]];
      indegree := indegree[e.target := indegree[e.target] + 1];
      i := i + 1;
    }
  }

  /** The nodes, in their order, whose count is zero, or is not. */
  method Filter(keys: seq<Key>, indegree: map<Key, int>, zero: bool) returns (ready: seq<Key>)
    requires Distinct(keys) && forall k :: k in keys ==> k in indegree
    ensures Distinct(ready) && forall k :: k in ready <==> k in keys && (indegree[k] == 0) == zero
  {
    ready := [];
    var i := 0;
    while i < |keys|
      invariant 0 <= i <= |keys| && Distinct(ready)
      invariant forall k :: k in ready <==> k in keys[..i] && (indegree[k] == 0) == zero
    {
      assert keys[i] !in keys[..i];
      if (indegree[keys[i]] == 0) == zero { ready := ready + [keys[i]]; }
      assert keys[..i + 1] == keys[..i] + [keys[i]];
      i := i + 1;
    }
    assert keys[..i] == keys;
  }

  /** Graph.topological_order */
  method TopologicalOrder(g: Graph) returns (r: Sorted)
    requires GraphOk(g)
    ensures r.Ordered? ==> IsOrder(g, r.order)
    ensures r.Cyclic? <==> HasCycle(g)
    ensures r.Cyclic? ==> r.waiting != [] && AllPreceded(g, Set(r.waiting))
  {
    var indegree, following := Tables(g);
    assert g.edges[..|g.edges|] == g.edges;
    var ready := Filter(g.keys, indegree, true);
    var order: seq<Key> := [];
    assert Set(order) == {} && order + ready == ready;
    while |ready| > 0
      invariant State(g, order, ready, indegree, [])
      decreases |g.keys| - |order|
    {
      Bounded(g, order, ready, indegree, []);
      TakeReady(g, order, ready, indegree);
      var key := ready[0];
      ready := ready[1..];
      order := order + [key];
      assert key in g.keys;
      TargetsKnown(g, key);
      ready, indegree := TakeEdges(g, order, ready, indegree, following[key]);
      Bounded(g, order, ready, indegree, []);
    }
    WhenDone(g, order, indegree);
    if |order| != |g.keys| {
      var waiting := Filter(g.keys, indegree, false);
      return Cyclic(waiting);
    }
    OrderMeansNoCycle(g, order);
    r := Ordered(order);
  }

  /** The inner loop, over the edges of the node that has just been ordered. */
  method TakeEdges(g: Graph, order: seq<Key>, ready0: seq<Key>, indegree0: map<Key, int>, targets: seq<Key>)
    returns (ready: seq<Key>, indegree: map<Key, int>)
    requires State(g, order, ready0, indegree0, targets)
    requires forall j :: 0 <= j < |targets| ==> targets[j] in g.keys
    ensures State(g, order, ready, indegree, [])
  {
    hide State;
    ready, indegree := ready0, indegree0;
    var i := 0;
    assert targets[0..] == targets;
    while i < |targets|
      invariant 0 <= i <= |targets| && State(g, order, ready, indegree, targets[i..])
    {
      var t := targets[i];
      TakeEdge(g, order, ready, indegree, targets[i..]);
      assert targets[i..][1..] == targets[i + 1..];
      indegree := indegree[t := indegree[t] - 1];
      if indegree[t] == 0 { ready := ready + [t]; }
      i := i + 1;
    }
    assert targets[i..] == [];
  }

  lemma TargetsKnown(g: Graph, node: Key)
    requires GraphOk(g)
    ensures forall j :: 0 <= j < |Following(g.edges, node)| ==> Following(g.edges, node)[j] in g.keys
  {
    FollowingKnown(g.edges, node);
    var f := Following(g.edges, node);
    forall j | 0 <= j < |f| ensures f[j] in g.keys { assert f[j] in f; }
  }

  lemma Bounded(g: Graph, order: seq<Key>, ready: seq<Key>, indegree: map<Key, int>, pending: seq<Key>)
    requires GraphOk(g) && State(g, order, ready, indegree, pending)
    ensures |order| + |ready| <= |g.keys|
  {
    AllOrNone(order + ready, g.keys);
  }
}
