/** Score propagation through the memory graph: a best-first search over a heap with stale entries.

    A path starts at a node of a seed fragment and follows expansive edges; every hop multiplies the
    score by the edge weight, the neighbour's weight and the decay.  For any hop limit each score the
    search reports is the score of such a path within the limit.  When the limit is at least the
    number of nodes it cannot bite, and every fragment gets the best score of any path. */
module GraphExpansion {
  import opened Assoc

  /** Node ids, numbered in their string order (heap ties are broken by id). */
  type NodeId = nat

  datatype Node = Node(agent: Option<string>, fragment: Option<string>, weight: real)

  datatype Edge = Edge(source: NodeId, target: NodeId, expansive: bool, weight: real)

  /** The store's rows and the arguments of one expansion. */
  datatype Query = Query(nodes: Dict<NodeId, Node>, edges: seq<Edge>, outgoing: bool, incoming: bool,
                         decay: real, agent: string, seeds: Dict<string, real>, limit: int)

  datatype Entry = Entry(score: real, node: NodeId, depth: nat)

  datatype Search = Search(merged: map<string, real>, best: map<NodeId, real>, frontier: seq<Entry>,
                           expanded: set<NodeId>)

  // ----- the store -----

  function NodeOf(g: Query, id: NodeId): Option<Node> { Get(g.nodes, id) }

  /** The node exists and belongs to the agent or to nobody. */
  predicate Visible(g: Query, id: NodeId) {
    NodeOf(g, id).Some? && NodeOf(g, id).value.agent in {None, Some(g.agent)}
  }

  /** The nodes of one fragment. */
  function NodesFor(nodes: Dict<NodeId, Node>, fragment: string): (r: seq<NodeId>)
    ensures forall id :: id in r ==> Find(nodes, id) >= 0
  {
    if nodes == [] then []
    else
      var n := |nodes| - 1;
      var rest := NodesFor(nodes[..n], fragment);
      assert forall id :: id in rest ==> nodes[Find(nodes[..n], id)].0 == id;
      rest + if nodes[n].1.fragment == Some(fragment) then [nodes[n].0] else []
  }

  /** The expansive edges the search follows from a node: outgoing rows, then incoming ones. */
  predicate Follows(g: Query, id: NodeId, e: Edge) {
    e in g.edges && e.expansive && ((g.outgoing && e.source == id) || (g.incoming && e.target == id))
  }

  function Other(e: Edge, id: NodeId): NodeId {
    if e.source == id then e.target else e.source
  }

  function Damped(score: real, edge: real, node: real, decay: real): real {
    Times(Times(Times(score, edge), node), decay)
  }

  function Times(x: real, factor: real): real { x * factor }

  // ----- paths -----

  datatype Path = Start(fragment: string, node: NodeId) | Hop(from: Path, edge: Edge)

  function End(p: Path): NodeId {
    match p
    case Start(_, node) => node
    case Hop(from, e) => Other(e, End(from))
  }

  function Hops(p: Path): nat {
    match p
    case Start(_, _) => 0
    case Hop(from, _) => 1 + Hops(from)
  }

  ghost predicate IsPath(g: Query, p: Path) {
    match p
    case Start(f, node) => Has(g.seeds, f) && node in NodesFor(g.nodes, f) && Visible(g, node)
    case Hop(from, e) => IsPath(g, from) && Follows(g, End(from), e) && Visible(g, Other(e, End(from)))
  }

  ghost function PathScore(g: Query, p: Path): real
    requires IsPath(g, p)
  {
    match p
    case Start(f, _) => Get(g.seeds, f).value
    case Hop(from, e) => Damped(PathScore(g, from), e.weight, NodeOf(g, Other(e, End(from))).value.weight, g.decay)
  }

  /** A path of exactly this many hops gives the node this score. */
  ghost predicate Reached(g: Query, id: NodeId, score: real, hops: nat) {
    exists p: Path :: IsPath(g, p) && End(p) == id && PathScore(g, p) == score && Hops(p) == hops
  }

  // ----- what is true for any hop limit -----

  function BestOr(best: map<NodeId, real>, id: NodeId, default: real): real {
    if id in best then best[id] else default
  }

  function MergedOr(merged: map<string, real>, f: string): real {
    if f in merged then merged[f] else 0.0
  }

  /** The fragment a node's score is credited to; none for "". */
  function Credited(g: Query, id: NodeId): Option<string> {
    if NodeOf(g, id).Some? && NodeOf(g, id).value.fragment != Some("") then NodeOf(g, id).value.fragment else None
  }

  /** The score of f comes from a path of 1..limit hops to one of its nodes. */
  ghost predicate FromPath(g: Query, f: string, score: real) {
    exists id: NodeId, hops: nat :: Reached(g, id, score, hops) && 1 <= hops <= g.limit && Credited(g, id) == Some(f)
  }

  ghost predicate Explained(g: Query, merged: map<string, real>) {
    && (forall f :: Has(g.seeds, f) ==> f in merged && merged[f] >= Get(g.seeds, f).value)
    && (forall f :: f in merged ==> Get(g.seeds, f) == Some(merged[f]) || FromPath(g, f, merged[f]))
  }

  ghost predicate Traced(g: Query, s: Search) {
    && Explained(g, s.merged)
    && (forall e :: e in s.frontier ==> Visible(g, e.node) && Reached(g, e.node, e.score, e.depth))
    && (forall id :: id in s.expanded ==> Visible(g, id))
  }

  // ----- what is true when the limit cannot bite -----

  ghost predicate Damping(g: Query) {
    && 0.0 <= g.decay <= 1.0
    && (forall e :: e in g.edges ==> 0.0 <= e.weight <= 1.0)
    && (forall i :: 0 <= i < |g.nodes| ==> 0.0 <= g.nodes[i].1.weight <= 1.0)
    && (forall i :: 0 <= i < |g.seeds| ==> 0.0 <= g.seeds[i].1)
  }

  /** The heap and the best scores agree, and what was expanded was at least as good as what is left. */
  ghost predicate HeapOk(g: Query, s: Search) {
    && (forall id :: id in s.best ==> s.best[id] >= 0.0)
    && (forall e :: e in s.frontier ==> e.node in s.best && 0.0 <= e.score <= s.best[e.node] && e.depth <= |s.expanded|)
    && (forall id :: id in s.best && id !in s.expanded ==> Queued(s, id))
    && (forall id :: id in s.expanded ==> id in s.best)
    && (forall id, e :: id in s.expanded && e in s.frontier ==> s.best[id] >= e.score)
  }

  ghost predicate Queued(s: Search, id: NodeId) {
    exists e :: e in s.frontier && e.node == id && id in s.best && e.score == s.best[id]
  }

  /** An edge out of an expanded node has passed its score on. */
  ghost predicate Relaxed(g: Query, best: map<NodeId, real>, id: NodeId, e: Edge) {
    id in best && Visible(g, Other(e, id)) ==>
      BestOr(best, Other(e, id), 0.0) >= Damped(BestOr(best, id, 0.0), e.weight,
                                                NodeOf(g, Other(e, id)).value.weight, g.decay)
  }

  ghost predicate CreditOk(g: Query, s: Search) {
    && (forall id :: id in s.best && Credited(g, id).Some? ==> MergedOr(s.merged, Credited(g, id).value) >= s.best[id])
    && (forall f :: f in s.merged ==> s.merged[f] >= 0.0)
  }

  ghost predicate SeedsOk(g: Query, best: map<NodeId, real>) {
    forall f, id :: Has(g.seeds, f) && id in NodesFor(g.nodes, f) && Visible(g, id) ==>
      id in best && best[id] >= Get(g.seeds, f).value
  }

  ghost predicate Settled(g: Query, s: Search) {
    Consistent(g, s) && forall id, e :: id in s.expanded && Follows(g, id, e) ==> Relaxed(g, s.best, id, e)
  }

  ghost predicate Consistent(g: Query, s: Search) {
    HeapOk(g, s) && CreditOk(g, s) && SeedsOk(g, s.best)
  }

  // ----- arithmetic of damping -----

  lemma DampDown(score: real, a: real, b: real, c: real)
    requires 0.0 <= score && 0.0 <= a <= 1.0 && 0.0 <= b <= 1.0 && 0.0 <= c <= 1.0
    ensures 0.0 <= Damped(score, a, b, c) <= score
  {
    hide Times;
    Shrink(score, a);
    Shrink(Times(score, a), b);
    Shrink(Times(Times(score, a), b), c);
  }

  lemma Shrink(x: real, f: real)
    requires 0.0 <= x && 0.0 <= f <= 1.0
    ensures 0.0 <= Times(x, f) <= x
  {
  }

  lemma Grow(x: real, y: real, f: real)
    requires 0.0 <= x <= y && 0.0 <= f
    ensures 0.0 <= Times(x, f) <= Times(y, f)
  {
  }

  lemma DampMonotone(s: real, t: real, a: real, b: real, c: real)
    requires 0.0 <= s <= t && 0.0 <= a && 0.0 <= b && 0.0 <= c
    ensures Damped(s, a, b, c) <= Damped(t, a, b, c)
  {
    hide Times;
    Grow(s, t, a);
    Grow(Times(s, a), Times(t, a), b);
    Grow(Times(Times(s, a), b), Times(Times(t, a), b), c);
  }

  // ----- the main theorem, once the heap is empty -----

  /** No path beats the best score of its last node. */
  lemma {:induction false} NoBetterPath(g: Query, s: Search, p: Path)
    requires Damping(g) && Distinct(g.nodes) && Settled(g, s) && s.frontier == [] && IsPath(g, p)
    ensures 0.0 <= PathScore(g, p) <= BestOr(s.best, End(p), 0.0)
  {
    hide Times;
    match p
    case Start(f, node) =>
    case Hop(from, e) =>
      NoBetterPath(g, s, from);
      var id, v := End(from), End(p);
      var w := NodeOf(g, v).value.weight;
      DampDown(PathScore(g, from), e.weight, w, g.decay);
      if id in s.best {
        assert !Queued(s, id) && id in s.expanded;
        assert Relaxed(g, s.best, id, e);
        DampMonotone(PathScore(g, from), s.best[id], e.weight, w, g.decay);
      }
  }

  // ----- one edge -----

  /** The body of the edge loop: pass the entry's score on to the edge's other end. */
  function RelaxEdge(g: Query, s: Search, e: Entry, edge: Edge): Search {
    var id := Other(edge, e.node);
    if id in s.expanded || !Visible(g, id) then s
    else
      var propagated := Damped(e.score, edge.weight, NodeOf(g, id).value.weight, g.decay);
      if propagated <= BestOr(s.best, id, 0.0) then s else Push(g, s, Entry(propagated, id, e.depth + 1))
  }

  /** A better score for a node: record it, credit its fragment, queue it (the old entry goes stale). */
  function Push(g: Query, s: Search, e: Entry): Search {
    var f := Credited(g, e.node);
    var merged := if f.Some? && e.score > MergedOr(s.merged, f.value) then s.merged[f.value := e.score] else s.merged;
    Search(merged, s.best[e.node := e.score], s.frontier + [e], s.expanded)
  }

  lemma RelaxTraced(g: Query, s: Search, e: Entry, edge: Edge)
    requires Traced(g, s) && Follows(g, e.node, edge) && Visible(g, e.node)
    requires Reached(g, e.node, e.score, e.depth) && e.depth < g.limit
    ensures Traced(g, RelaxEdge(g, s, e, edge))
  {
    var id := Other(edge, e.node);
    if Visible(g, id) {
      var x := Entry(Damped(e.score, edge.weight, NodeOf(g, id).value.weight, g.decay), id, e.depth + 1);
      OneMoreHop(g, e, edge, x);
      hide Reached, Damped;
      PushTraced(g, s, x);
    }
  }

  lemma OneMoreHop(g: Query, e: Entry, edge: Edge, x: Entry)
    requires Follows(g, e.node, edge) && Visible(g, x.node) && x.node == Other(edge, e.node)
    requires Reached(g, e.node, e.score, e.depth) && x.depth == e.depth + 1
    requires x.score == Damped(e.score, edge.weight, NodeOf(g, x.node).value.weight, g.decay)
    ensures Reached(g, x.node, x.score, x.depth)
  {
    hide Damped;
    var p: Path :| IsPath(g, p) && End(p) == e.node && PathScore(g, p) == e.score && Hops(p) == e.depth;
    var q := Hop(p, edge);
    assert IsPath(g, q) && End(q) == x.node && PathScore(g, q) == x.score && Hops(q) == x.depth;
  }

  lemma PushTraced(g: Query, s: Search, x: Entry)
    requires Traced(g, s) && Visible(g, x.node) && Reached(g, x.node, x.score, x.depth) && 1 <= x.depth <= g.limit
    ensures Traced(g, Push(g, s, x))
  {
    hide Reached;
    var s' := Push(g, s, x);
    if s'.merged != s.merged {
      var f := Credited(g, x.node).value;
      assert FromPath(g, f, x.score);
      hide FromPath;
      assert forall h :: h in s'.merged && h != f ==> h in s.merged && s'.merged[h] == s.merged[h];
      assert Has(g.seeds, f) ==> s.merged[f] >= Get(g.seeds, f).value;
    }
  }

  /** What the edge loop keeps about the entry being expanded. */
  ghost predicate Expanding(s: Search, e: Entry) {
    e.node in s.expanded && e.node in s.best && s.best[e.node] == e.score && e.depth < |s.expanded|
    && (forall x :: x in s.frontier ==> x.score <= e.score)
    && (forall id :: id in s.expanded ==> id in s.best && s.best[id] >= e.score)
  }

  /** Best scores only grow, and those of expanded nodes are final. */
  ghost predicate Grows(s: Search, s': Search) {
    && s'.expanded == s.expanded
    && (forall id :: id in s.best ==> id in s'.best && s'.best[id] >= s.best[id])
    && (forall id :: id in s.best && id in s.expanded ==> s'.best[id] == s.best[id])
  }

  lemma RelaxConsistent(g: Query, s: Search, e: Entry, edge: Edge)
    requires Damping(g) && Consistent(g, s) && Expanding(s, e) && Follows(g, e.node, edge) && 0.0 <= e.score
    ensures var s' := RelaxEdge(g, s, e, edge);
      Consistent(g, s') && Expanding(s', e) && Grows(s, s') && Relaxed(g, s'.best, e.node, edge)
  {
    var id := Other(edge, e.node);
    if Visible(g, id) {
      var w := NodeOf(g, id).value.weight;
      DampDown(e.score, edge.weight, w, g.decay);
      hide Damped, Follows, HeapOk, CreditOk, SeedsOk;
      var propagated := Damped(e.score, edge.weight, w, g.decay);
      if id !in s.expanded && propagated > BestOr(s.best, id, 0.0) {
        PushConsistent(g, s, Entry(propagated, id, e.depth + 1), e);
      }
    }
  }

  lemma PushConsistent(g: Query, s: Search, x: Entry, e: Entry)
    requires Consistent(g, s) && Expanding(s, e)
    requires x.node !in s.expanded && x.depth == e.depth + 1 && 0.0 <= x.score <= e.score
    requires x.score > BestOr(s.best, x.node, 0.0)
    ensures var s' := Push(g, s, x); Consistent(g, s') && Expanding(s', e) && Grows(s, s')
  {
    PushHeap(g, s, x, e);
    PushCredit(g, s, x);
    PushSeeds(g, s, x);
    PushExpanding(g, s, x, e);
    hide HeapOk, CreditOk, SeedsOk, Expanding, Grows;
  }

  lemma PushExpanding(g: Query, s: Search, x: Entry, e: Entry)
    requires HeapOk(g, s) && Expanding(s, e) && x.node !in s.expanded && x.score <= e.score
    requires x.score > BestOr(s.best, x.node, 0.0)
    ensures Expanding(Push(g, s, x), e) && Grows(s, Push(g, s, x))
  {
  }

  lemma PushSeeds(g: Query, s: Search, x: Entry)
    requires SeedsOk(g, s.best) && x.score > BestOr(s.best, x.node, 0.0)
    ensures SeedsOk(g, Push(g, s, x).best)
  {
  }

  lemma PushHeap(g: Query, s: Search, x: Entry, e: Entry)
    requires HeapOk(g, s) && Expanding(s, e)
    requires x.node !in s.expanded && x.depth == e.depth + 1 && 0.0 <= x.score <= e.score
    requires x.score > BestOr(s.best, x.node, 0.0)
    ensures HeapOk(g, Push(g, s, x))
  {
    var s' := Push(g, s, x);
    assert forall y :: y in s.frontier ==> y in s'.frontier;
    assert s'.frontier[|s.frontier|] == x;
    forall id | id in s'.best && id !in s'.expanded ensures Queued(s', id) {
      if id == x.node {
        assert x in s'.frontier;
      } else {
        assert Queued(s, id);
        var y :| y in s.frontier && y.node == id && y.score == s.best[id];
        assert y in s'.frontier;
      }
    }
  }

  lemma PushCredit(g: Query, s: Search, x: Entry)
    requires CreditOk(g, s) && x.score > BestOr(s.best, x.node, 0.0) && 0.0 <= x.score
    ensures CreditOk(g, Push(g, s, x))
  {
  }

  // ----- the heap -----

  /** The order of the heap: higher scores first, then smaller ids, then fewer hops. */
  predicate Ahead(a: Entry, b: Entry) {
    a.score > b.score || (a.score == b.score && (a.node < b.node || (a.node == b.node && a.depth < b.depth)))
  }

  /** heapq.heappop: the first entry in heap order, and the others. */
  method PopFirst(frontier: seq<Entry>) returns (e: Entry, rest: seq<Entry>)
    requires frontier != []
    ensures e in frontier && |rest| == |frontier| - 1
    ensures forall x :: x in frontier <==> x == e || x in rest
    ensures forall x :: x in frontier ==> !Ahead(x, e)
  {
    var first := 0;
    for i := 1 to |frontier|
      invariant first < |frontier|
      invariant forall j :: 0 <= j < i ==> !Ahead(frontier[j], frontier[first])
    {
      if Ahead(frontier[i], frontier[first]) {
        first := i;
      }
    }
    e, rest := frontier[first], RemoveAt(frontier, first);
    Removed(frontier, first);
  }

  lemma Removed(s: seq<Entry>, n: nat)
    requires n < |s|
    ensures forall x :: x in s <==> x == s[n] || x in RemoveAt(s, n)
  {
    assert s == s[..n] + [s[n]] + s[n + 1..];
  }

  // ----- the edges of a node -----

  function Filtered(edges: seq<Edge>, id: NodeId, outgoing: bool): (r: seq<Edge>)
    ensures forall e :: e in r <==> e in edges && e.expansive && (if outgoing then e.source else e.target) == id
  {
    if edges == [] then []
    else
      var n := |edges| - 1;
      assert edges == edges[..n] + [edges[n]];
      var e := edges[n];
      Filtered(edges[..n], id, outgoing)
      + if e.expansive && (if outgoing then e.source else e.target) == id then [e] else []
  }

  /** A node's outgoing edges, then its incoming ones, as far as their relations are followed. */
  function Neighbours(g: Query, id: NodeId): (r: seq<Edge>)
    ensures forall e :: e in r <==> Follows(g, id, e)
  {
    (if g.outgoing then Filtered(g.edges, id, true) else [])
    + (if g.incoming then Filtered(g.edges, id, false) else [])
  }

  // ----- seeds -----

  function SeedMap(seeds: Dict<string, real>): (m: map<string, real>) {
    if seeds == [] then map[]
    else
      var n := |seeds| - 1;
      SeedMap(seeds[..n])[seeds[n].0 := seeds[n].1]
  }

  lemma {:induction false} SeedMapSpec(seeds: Dict<string, real>, f: string)
    requires Distinct(seeds)
    ensures f in SeedMap(seeds) <==> Has(seeds, f)
    ensures f in SeedMap(seeds) ==> Get(seeds, f) == Some(SeedMap(seeds)[f])
  {
    if seeds != [] {
      var n := |seeds| - 1;
      SeedMapSpec(seeds[..n], f);
      var i, j := Find(seeds, f), Find(seeds[..n], f);
      if j >= 0 { FindAt(seeds, j); }
      if i >= 0 && i < n { FindAt(seeds[..n], i); }
    }
  }

  lemma {:induction false} NodesForSpec(nodes: Dict<NodeId, Node>, f: string, id: NodeId)
    requires Distinct(nodes)
    ensures id in NodesFor(nodes, f) <==> Get(nodes, id).Some? && Get(nodes, id).value.fragment == Some(f)
  {
    if nodes != [] {
      var n := |nodes| - 1;
      NodesForSpec(nodes[..n], f, id);
      var i, j := Find(nodes, id), Find(nodes[..n], id);
      if j >= 0 { FindAt(nodes, j); }
      if i >= 0 && i < n { FindAt(nodes[..n], i); }
    }
  }

  /** One node of a seed fragment: queued unless a seed at least as good reached it already. */
  function Plant(g: Query, s: Search, score: real, id: NodeId): Search {
    if Visible(g, id) && score > BestOr(s.best, id, -1.0)
    then s.(best := s.best[id := score], frontier := s.frontier + [Entry(score, id, 0)])
    else s
  }

  /** The state while seeds are planted. */
  ghost predicate Planted(g: Query, s: Search) {
    && s.merged == SeedMap(g.seeds) && s.expanded == {} && Traced(g, s)
    && (Damping(g) ==> HeapOk(g, s) && CreditOk(g, s))
  }

  ghost predicate Covers(g: Query, best: map<NodeId, real>, score: real, id: NodeId) {
    Visible(g, id) ==> id in best && best[id] >= score
  }

  lemma PlantOk(g: Query, s: Search, i: nat, id: NodeId)
    requires Distinct(g.nodes) && Distinct(g.seeds) && i < |g.seeds| && id in NodesFor(g.nodes, g.seeds[i].0)
    requires Planted(g, s)
    ensures var s' := Plant(g, s, g.seeds[i].1, id);
      && Planted(g, s') && (Damping(g) ==> Covers(g, s'.best, g.seeds[i].1, id))
      && (forall n :: n in s.best ==> n in s'.best && s'.best[n] >= s.best[n])
  {
    var (f, score) := g.seeds[i];
    var s' := Plant(g, s, score, id);
    FindAt(g.seeds, i);
    SeedMapSpec(g.seeds, f);
    NodesForSpec(g.nodes, f, id);
    if s' != s {
      var p := Start(f, id);
      assert IsPath(g, p) && End(p) == id && PathScore(g, p) == score && Hops(p) == 0;
      assert Reached(g, id, score, 0);
      PlantTraced(g, s, score, id);
      if Damping(g) { PlantHeap(g, s, score, id); }
    }
  }

  lemma PlantTraced(g: Query, s: Search, score: real, id: NodeId)
    requires Traced(g, s) && (Visible(g, id) ==> Reached(g, id, score, 0))
    ensures Traced(g, Plant(g, s, score, id))
  {
  }

  lemma PlantHeap(g: Query, s: Search, score: real, id: NodeId)
    requires HeapOk(g, s) && s.expanded == {} && 0.0 <= score
    ensures HeapOk(g, Plant(g, s, score, id))
  {
    var s' := Plant(g, s, score, id);
    assert forall y :: y in s.frontier ==> y in s'.frontier;
    if s' != s { assert s'.frontier[|s.frontier|] == Entry(score, id, 0); }
    forall n | n in s'.best ensures Queued(s', n) {
      if n == id && s' != s {
        assert Entry(score, id, 0) in s'.frontier;
      } else {
        assert Queued(s, n);
        var y :| y in s.frontier && y.node == n && y.score == s.best[n];
        assert y in s'.frontier;
      }
    }
  }

  lemma NothingPlanted(g: Query)
    requires Distinct(g.seeds)
    ensures Planted(g, Search(SeedMap(g.seeds), map[], [], {}))
  {
    forall f ensures (f in SeedMap(g.seeds) <==> Has(g.seeds, f))
             && (f in SeedMap(g.seeds) ==> Get(g.seeds, f) == Some(SeedMap(g.seeds)[f])) {
      SeedMapSpec(g.seeds, f);
    }
  }

  /** The scores start as those of the seeds; every node of every seed fragment is queued. */
  method PlantSeeds(g: Query) returns (s: Search)
    requires Distinct(g.nodes) && Distinct(g.seeds)
    ensures Planted(g, s) && (Damping(g) ==> SeedsOk(g, s.best))
  {
    hide Planted, Covers, Plant;
    s := Search(SeedMap(g.seeds), map[], [], {});
    NothingPlanted(g);
    for i := 0 to |g.seeds|
      invariant Planted(g, s)
      invariant Damping(g) ==> forall j, id :: 0 <= j < i && id in NodesFor(g.nodes, g.seeds[j].0)
                                               ==> Covers(g, s.best, g.seeds[j].1, id)
    {
      var ids := NodesFor(g.nodes, g.seeds[i].0);
      for n := 0 to |ids|
        invariant Planted(g, s)
        invariant Damping(g) ==> forall j, id :: 0 <= j < i && id in NodesFor(g.nodes, g.seeds[j].0)
                                                 ==> Covers(g, s.best, g.seeds[j].1, id)
        invariant Damping(g) ==> forall m :: 0 <= m < n ==> Covers(g, s.best, g.seeds[i].1, ids[m])
      {
        PlantOk(g, s, i, ids[n]);
        ghost var before := s.best;
        s := Plant(g, s, g.seeds[i].1, ids[n]);
        CoversOn(g, before, s.best);
      }
    }
    SeedsCovered(g, s.best);
  }

  lemma CoversOn(g: Query, best: map<NodeId, real>, best': map<NodeId, real>)
    requires forall n :: n in best ==> n in best' && best'[n] >= best[n]
    ensures forall score, id :: Covers(g, best, score, id) ==> Covers(g, best', score, id)
  {
  }

  lemma SeedsCovered(g: Query, best: map<NodeId, real>)
    requires Distinct(g.seeds)
    requires Damping(g) ==> forall j, id :: 0 <= j < |g.seeds| && id in NodesFor(g.nodes, g.seeds[j].0) ==>
               Covers(g, best, g.seeds[j].1, id)
    ensures Damping(g) ==> SeedsOk(g, best)
  {
  }

  // ----- one step of the search -----

  /** What the main loop keeps: paths behind every score, and, when the limit cannot bite, everything
      expanded relaxed. */
  ghost predicate LoopOk(g: Query, s: Search) {
    Traced(g, s) && s.expanded <= Keys(g.nodes) && (Unbounded(g) ==> Settled(g, s))
  }

  /** Damped weights, and a hop limit no path without repetition can exceed. */
  ghost predicate Unbounded(g: Query) {
    Damping(g) && g.limit >= |g.nodes|
  }

  ghost predicate Popped(s: Search, e: Entry, rest: seq<Entry>) {
    e in s.frontier && (forall x :: x in s.frontier <==> x == e || x in rest)
    && forall x :: x in s.frontier ==> !Ahead(x, e)
  }

  /** An entry is never deeper than the number of nodes expanded before it. */
  lemma DepthSmall(g: Query, s: Search, e: Entry)
    requires Distinct(g.nodes) && HeapOk(g, s) && e in s.frontier && e.node !in s.expanded && Visible(g, e.node)
    requires s.expanded <= Keys(g.nodes)
    ensures e.depth < |g.nodes|
  {
    InKeys(g.nodes, e.node);
    KeyCount(g.nodes);
    Smaller(s.expanded, Keys(g.nodes), e.node);
  }

  lemma {:induction false} Smaller(a: set<NodeId>, b: set<NodeId>, x: NodeId)
    requires a <= b && x in b && x !in a
    ensures |a| < |b|
  {
    if a != {} {
      var y :| y in a;
      Smaller(a - {y}, b - {y}, x);
    }
  }

  /** A stale entry (its node is expanded already) or one at the limit is dropped. */
  lemma Dropped(g: Query, s: Search, e: Entry, rest: seq<Entry>)
    requires Distinct(g.nodes) && LoopOk(g, s) && Popped(s, e, rest) && (e.node in s.expanded || e.depth >= g.limit)
    ensures LoopOk(g, s.(frontier := rest))
  {
    var s' := s.(frontier := rest);
    if Unbounded(g) {
      if e.node !in s.expanded { DepthSmall(g, s, e); }
      forall id | id in s'.best && id !in s'.expanded ensures Queued(s', id) {
        assert Queued(s, id);
        var y :| y in s.frontier && y.node == id && y.score == s.best[id];
        assert y in rest;
      }
    }
  }

  ghost predicate OthersRelaxed(g: Query, s: Search, u: NodeId) {
    forall id, e :: id in s.expanded && id != u && Follows(g, id, e) ==> Relaxed(g, s.best, id, e)
  }

  /** A node is expanded once, with its best score: nothing queued can beat it any more. */
  lemma Opened(g: Query, s: Search, e: Entry, rest: seq<Entry>)
    requires Damping(g) && Settled(g, s) && Popped(s, e, rest) && e.node !in s.expanded
    ensures var s' := s.(frontier := rest, expanded := s.expanded + {e.node});
      Consistent(g, s') && Expanding(s', e) && OthersRelaxed(g, s', e.node) && 0.0 <= e.score
  {
    var s' := s.(frontier := rest, expanded := s.expanded + {e.node});
    assert Queued(s, e.node);
    assert s.best[e.node] == e.score;
    assert |s'.expanded| == |s.expanded| + 1;
    forall id | id in s'.best && id !in s'.expanded ensures Queued(s', id) {
      assert Queued(s, id);
      var y :| y in s.frontier && y.node == id && y.score == s.best[id];
      assert y in rest;
    }
  }

  /** What the edge loop keeps. */
  ghost predicate EdgesOk(g: Query, s: Search, e: Entry, done: seq<Edge>) {
    Consistent(g, s) && Expanding(s, e) && OthersRelaxed(g, s, e.node) && 0.0 <= e.score
    && forall x :: x in done ==> Relaxed(g, s.best, e.node, x)
  }

  lemma EdgeDone(g: Query, s: Search, e: Entry, done: seq<Edge>, edge: Edge)
    requires Damping(g) && EdgesOk(g, s, e, done) && Follows(g, e.node, edge)
    ensures EdgesOk(g, RelaxEdge(g, s, e, edge), e, done + [edge])
  {
    var s' := RelaxEdge(g, s, e, edge);
    RelaxConsistent(g, s, e, edge);
    assert forall id :: id in s.expanded ==> id in s.best;
    assert forall n :: n in s'.best ==> s'.best[n] >= 0.0;
    hide RelaxEdge, Damped, Follows;
    forall id, x | id in s.expanded && Relaxed(g, s.best, id, x) ensures Relaxed(g, s'.best, id, x) {
      StaysRelaxed(g, s, s', id, x);
    }
  }

  lemma StaysRelaxed(g: Query, s: Search, s': Search, id: NodeId, x: Edge)
    requires Grows(s, s') && id in s.expanded && id in s.best && Relaxed(g, s.best, id, x)
    requires forall n :: n in s'.best ==> s'.best[n] >= 0.0
    ensures Relaxed(g, s'.best, id, x)
  {
  }

  lemma AllEdgesDone(g: Query, s: Search, e: Entry, edges: seq<Edge>)
    requires EdgesOk(g, s, e, edges) && edges == Neighbours(g, e.node)
    ensures Settled(g, s)
  {
    forall id, x | id in s.expanded && Follows(g, id, x) ensures Relaxed(g, s.best, id, x) {
      if id == e.node { assert x in Neighbours(g, id); }
    }
  }

  /** The edges of the popped entry, one after the other. */
  method ExpandNode(g: Query, s0: Search, e: Entry) returns (s: Search)
    requires Distinct(g.nodes) && Traced(g, s0) && e.node in s0.expanded && s0.expanded <= Keys(g.nodes)
    requires Reached(g, e.node, e.score, e.depth) && e.depth < g.limit
    requires Unbounded(g) ==> EdgesOk(g, s0, e, [])
    ensures LoopOk(g, s) && s.expanded == s0.expanded
  {
    hide Traced, EdgesOk, Reached, Damping, Consistent, Neighbours;
    s := s0;
    var edges := Neighbours(g, e.node);
    VisibleNode(g, s0, e.node);
    for i := 0 to |edges|
      invariant Traced(g, s) && s.expanded == s0.expanded
      invariant Unbounded(g) ==> EdgesOk(g, s, e, edges[..i])
    {
      assert edges[i] in edges;
      RelaxTraced(g, s, e, edges[i]);
      if Unbounded(g) { EdgeDone(g, s, e, edges[..i], edges[i]); }
      s := RelaxEdge(g, s, e, edges[i]);
      assert edges[..i + 1] == edges[..i] + [edges[i]];
    }
    assert edges[..|edges|] == edges;
    if Unbounded(g) { AllEdgesDone(g, s, e, edges); }
  }

  lemma VisibleNode(g: Query, s: Search, id: NodeId)
    requires Traced(g, s) && id in s.expanded
    ensures Visible(g, id)
  {
  }

  // ----- the search -----

  /** GraphExpander.expand: pop the best entry, skip it if stale or too deep, expand it otherwise. */
  method Expand(g: Query) returns (merged: map<string, real>)
    requires Distinct(g.nodes) && Distinct(g.seeds)
    ensures Explained(g, merged)
    ensures Unbounded(g) ==> forall p :: IsPath(g, p) ==> CreditedAtLeast(g, merged, p)
  {
    hide Traced, Settled, Damping, Visible, Reached, Explained;
    var s := PlantSeeds(g);
    Started(g, s);
    while s.frontier != []
      invariant LoopOk(g, s)
      decreases Keys(g.nodes) - s.expanded, |s.frontier|
    {
      var e, rest := PopFirst(s.frontier);
      if e.node in s.expanded || e.depth >= g.limit {
        Dropped(g, s, e, rest);
        s := s.(frontier := rest);
        continue;
      }
      FirstTime(g, s, e, rest);
      s := s.(frontier := rest, expanded := s.expanded + {e.node});
      s := ExpandNode(g, s, e);
    }
    merged := s.merged;
    Finished(g, s);
  }

  lemma Started(g: Query, s: Search)
    requires Planted(g, s) && (Damping(g) ==> SeedsOk(g, s.best))
    ensures LoopOk(g, s)
  {
  }

  lemma FirstTime(g: Query, s: Search, e: Entry, rest: seq<Entry>)
    requires LoopOk(g, s) && Popped(s, e, rest) && e.node !in s.expanded
    ensures var s' := s.(frontier := rest, expanded := s.expanded + {e.node});
      && Traced(g, s') && s'.expanded <= Keys(g.nodes) && e.node in Keys(g.nodes)
      && Reached(g, e.node, e.score, e.depth) && (Unbounded(g) ==> EdgesOk(g, s', e, []))
  {
    InKeys(g.nodes, e.node);
    if Unbounded(g) { Opened(g, s, e, rest); }
  }

  lemma Finished(g: Query, s: Search)
    requires Distinct(g.nodes) && LoopOk(g, s) && s.frontier == []
    ensures Explained(g, s.merged)
    ensures Unbounded(g) ==> forall p :: IsPath(g, p) ==> CreditedAtLeast(g, s.merged, p)
  {
    if Unbounded(g) {
      forall p | IsPath(g, p) ensures CreditedAtLeast(g, s.merged, p) {
        NoBetterPath(g, s, p);
        MergedNonNegative(g, s, p);
      }
    }
  }

  lemma MergedNonNegative(g: Query, s: Search, p: Path)
    requires LoopOk(g, s) && Damping(g) && IsPath(g, p) && PathScore(g, p) <= BestOr(s.best, End(p), 0.0)
             && CreditOk(g, s)
    ensures CreditedAtLeast(g, s.merged, p)
  {
  }

  /** The path's score has been credited to its last node's fragment. */
  ghost predicate CreditedAtLeast(g: Query, merged: map<string, real>, p: Path)
    requires IsPath(g, p)
  {
    Credited(g, End(p)).Some? ==> MergedOr(merged, Credited(g, End(p)).value) >= PathScore(g, p)
  }
}
