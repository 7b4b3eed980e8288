/** Kahn layering of the node graph (compose.rs, `topological_layers`). */
module Layers {
  import opened Prelude
  import opened Names
  import opened Workflow

  // ---------------------------------------------------------------- reference

  ghost predicate Hop(edges: seq<Edge>, p: seq<string>, i: int) {
    0 <= i < |p| - 1 && Link(edges, p[i], p[i + 1])
  }

  /** A path along node-to-node edges. */
  ghost predicate IsPath(nodes: set<string>, edges: seq<Edge>, p: seq<string>) {
    && |p| > 0
    && Elements(p) <= nodes
    && (forall i | 0 <= i < |p| - 1 :: Hop(edges, p, i))
  }

  ghost predicate IsCycle(nodes: set<string>, edges: seq<Edge>, p: seq<string>) {
    IsPath(nodes, edges, p) && |p| > 1 && p[0] == p[|p| - 1]
  }

  ghost predicate Acyclic(nodes: set<string>, edges: seq<Edge>) {
    forall p :: !IsCycle(nodes, edges, p)
  }

  /** The longest path that ends in `n` has exactly `d` edges. */
  ghost predicate LongestDepth(nodes: set<string>, edges: seq<Edge>, n: string, d: nat) {
    && (exists p :: IsPath(nodes, edges, p) && p[|p| - 1] == n && |p| == d + 1)
    && (forall p | IsPath(nodes, edges, p) && p[|p| - 1] == n :: |p| <= d + 1)
  }

  /** Nodes not yet done whose node predecessors are all done. */
  function Frontier(nodes: set<string>, edges: seq<Edge>, done: set<string>): set<string> {
    set n | n in nodes && n !in done && SourcesDone(edges, done, n)
  }

  predicate SourcesDone(edges: seq<Edge>, done: set<string>, n: string) {
    forall e | e in edges && e.target == n && e.source != START :: e.source in done
  }

  /** Done nodes have done sources. */
  ghost predicate DownClosed(edges: seq<Edge>, done: set<string>) {
    forall n | n in done :: SourcesDone(edges, done, n)
  }

  /** Peels one frontier after another off the graph. */
  function Peel(nodes: set<string>, edges: seq<Edge>, done: set<string>): seq<seq<string>>
    decreases nodes - done
  {
    var f := Frontier(nodes, edges, done);
    if f == {} then [] else
      assert nodes - (done + f) < nodes - done by {
        var x :| x in f;
        assert x in nodes - done && x !in nodes - (done + f);
      }
      [Sorted(f)] + Peel(nodes, edges, done + f)
  }

  ghost function Covered(layers: seq<seq<string>>): set<string> {
    Elements(Flatten(layers))
  }

  // ------------------------------------------------------ counting in-degrees

  /** Edges among the first `k` into `t` from nodes that are not done. */
  ghost function CountIn(edges: seq<Edge>, k: nat, t: string, done: set<string>): nat
    requires k <= |edges|
  {
    if k == 0 then 0 else
      var e := edges[k - 1];
      CountIn(edges, k - 1, t, done)
      + if e.target == t && e.source != START && e.source !in done then 1 else 0
  }

  /** Targets of the edges leaving `s` among the first `k`, END excluded, in edge order. */
  ghost function Targets(edges: seq<Edge>, k: nat, s: string): seq<string>
    requires k <= |edges|
  {
    if k == 0 then [] else
      var e := edges[k - 1];
      Targets(edges, k - 1, s) + if e.source == s && e.target != END then [e.target] else []
  }

  lemma {:induction false} CountZero(edges: seq<Edge>, k: nat, t: string, done: set<string>)
    requires k <= |edges|
    ensures CountIn(edges, k, t, done) == 0 <==> SourcesDone(edges[..k], done, t)
  {
    if k > 0 {
      assert edges[..k] == edges[..k - 1] + [edges[k - 1]];
      CountZero(edges, k - 1, t, done);
    }
  }

  /** Occurrences of `t` among the first `k` of `s`. */
  ghost function CountTo(s: seq<string>, k: nat, t: string): nat
    requires k <= |s|
  {
    if k == 0 then 0 else CountTo(s, k - 1, t) + if s[k - 1] == t then 1 else 0
  }

  ghost function Count(s: seq<string>, t: string): nat {
    CountTo(s, |s|, t)
  }

  lemma {:induction false} CountPrefix(a: seq<string>, b: seq<string>, k: nat, t: string)
    requires k <= |a| && k <= |b| && a[..k] == b[..k]
    ensures CountTo(a, k, t) == CountTo(b, k, t)
  {
    if k > 0 {
      assert a[..k - 1] == a[..k][..k - 1] == b[..k][..k - 1] == b[..k - 1];
      assert a[k - 1] == a[..k][k - 1] == b[..k][k - 1] == b[k - 1];
      CountPrefix(a, b, k - 1, t);
    }
  }

  lemma CountSnoc(a: seq<string>, x: string, t: string)
    ensures Count(a + [x], t) == Count(a, t) + if x == t then 1 else 0
  {
    CountPrefix(a + [x], a, |a|, t);
  }

  lemma {:induction false} CountAbsent(s: seq<string>, k: nat, t: string)
    requires k <= |s| && t !in s
    ensures CountTo(s, k, t) == 0
  {
    if k > 0 { CountAbsent(s, k - 1, t); }
  }

  lemma {:induction false} CountGrows(s: seq<string>, j: nat, k: nat, t: string)
    requires j <= k <= |s|
    ensures CountTo(s, j, t) <= CountTo(s, k, t)
    decreases k
  {
    if j < k { CountGrows(s, j, k - 1, t); }
  }

  /** Edges among the first `k` that run from `s` to `t`. */
  ghost function Between(edges: seq<Edge>, k: nat, s: string, t: string): nat
    requires k <= |edges|
  {
    if k == 0 then 0 else Between(edges, k - 1, s, t) + if edges[k - 1].source == s
        && edges[k - 1].target == t then 1 else 0
  }

  lemma {:induction false} BetweenCounts(edges: seq<Edge>, k: nat, s: string, t: string)
    requires k <= |edges| && t != END
    ensures Count(Targets(edges, k, s), t) == Between(edges, k, s, t)
  {
    if k > 0 {
      BetweenCounts(edges, k - 1, s, t);
      var before, e := Targets(edges, k - 1, s), edges[k - 1];
      if e.source == s && e.target != END {
        CountSnoc(before, e.target, t);
      } else {
        assert before + [] == before;
      }
    }
  }

  lemma {:induction false} RetireCount(edges: seq<Edge>, k: nat, t: string, done: set<string>, s: string)
    requires k <= |edges| && s !in done && s != START
    ensures CountIn(edges, k, t, done) == CountIn(edges, k, t, done + {s}) + Between(edges, k, s, t)
  {
    if k > 0 {
      RetireCount(edges, k - 1, t, done, s);
    }
  }

  /** Finishing `s` removes from `t` one unit for each edge `s -> t`. */
  lemma RetireSource(edges: seq<Edge>, k: nat, t: string, done: set<string>, s: string)
    requires k <= |edges| && s !in done && s != START && t != END
    ensures CountIn(edges, k, t, done) == CountIn(edges, k, t, done + {s}) + Count(Targets(edges, k, s), t)
  {
    hide CountIn, Targets, Between;
    RetireCount(edges, k, t, done, s);
    BetweenCounts(edges, k, s, t);
  }

  lemma {:induction false} TargetsAreNodes(nodes: set<string>, edges: seq<Edge>, k: nat, s: string)
    requires k <= |edges| && AllEndpoints(nodes, edges)
    ensures forall t | t in Targets(edges, k, s) :: t in nodes && t != END && Edge(s, t) in edges
  {
    if k > 0 {
      assert edges[k - 1] in edges && Endpoints(nodes, edges[k - 1]);
      TargetsAreNodes(nodes, edges, k - 1, s);
    }
  }

  function Lookup(outgoing: map<string, seq<string>>, s: string): seq<string> {
    if s in outgoing then outgoing[s] else []
  }

  /** `outgoing.entry(s).or_default().push(t)`. */
  function Pushed(outgoing: map<string, seq<string>>, s: string, t: string): (r: map<string, seq<string>>)
    ensures Lookup(r, s) == Lookup(outgoing, s) + [t]
    ensures forall x | x != s :: Lookup(r, x) == Lookup(outgoing, x)
    ensures r.Keys == outgoing.Keys + {s}
  {
    outgoing[s := Lookup(outgoing, s) + [t]]
  }

  /** First pass over the edge list: in-degrees and outgoing lists. */
  method CountEdges(nodes: set<string>, edges: seq<Edge>)
    returns (indegree: map<string, nat>, outgoing: map<string, seq<string>>)
    requires AllEndpoints(nodes, edges) && END !in nodes
    ensures indegree.Keys == nodes
    ensures forall n | n in nodes :: indegree[n] == CountIn(edges, |edges|, n, {})
    ensures forall s :: Lookup(outgoing, s) == Targets(edges, |edges|, s)
  {
    indegree := map n | n in nodes :: 0;
    outgoing := map[];
    for k := 0 to |edges|
      invariant indegree.Keys == nodes
      invariant forall n | n in nodes :: indegree[n] == CountIn(edges, k, n, {})
      invariant forall s :: Lookup(outgoing, s) == Targets(edges, k, s)
    {
      var e := edges[k];
      assert Endpoints(nodes, e);
      if e.target != END {
        if e.source != START {
          indegree := indegree[e.target := indegree[e.target] + 1];
        }
        outgoing := Pushed(outgoing, e.source, e.target);
      }
    }
  }

  ghost function Zeros(targets: seq<string>, indegree: map<string, nat>): set<string> {
    set t | t in targets && t in indegree && indegree[t] == 0
  }

  lemma ZeroStep(done: seq<string>, t: string, indegree: map<string, nat>)
    requires t in indegree && indegree[t] > 0
    ensures var after := indegree[t := indegree[t] - 1];
            Zeros(done + [t], after) == Zeros(done, indegree) + if after[t] == 0 then {t} else {}
  {
  }

  /** Decrements every target of one finished node; collects those that reach zero. */
  method RetireNode(targets: seq<string>, indegree0: map<string, nat>, ready0: set<string>)
    returns (indegree: map<string, nat>, ready: set<string>)
    requires forall t | t in targets :: t in indegree0 && indegree0[t] >= Count(targets, t)
    ensures indegree.Keys == indegree0.Keys
    ensures forall n | n in indegree0 :: indegree0[n] == indegree[n] + Count(targets, n)
    ensures ready == ready0 + Zeros(targets, indegree)
  {
    indegree, ready := indegree0, ready0;
    for k := 0 to |targets|
      invariant indegree.Keys == indegree0.Keys
      invariant forall n | n in indegree0 :: indegree0[n] == indegree[n] + CountTo(targets, k, n)
      invariant ready == ready0 + Zeros(targets[..k], indegree)
    {
      var t := targets[k];
      CountGrows(targets, k + 1, |targets|, t);
      assert targets[..k + 1] == targets[..k] + [t];
      ZeroStep(targets[..k], t, indegree);
      indegree := indegree[t := indegree[t] - 1];
      if indegree[t] == 0 {
        ready := ready + {t};
      }
    }
    assert targets[..|targets|] == targets;
  }

  // ---------------------------------------------------------------- algorithm

  /** Outside the finished set, exactly the ready nodes have in-degree zero. */
  ghost predicate ReadyIs(nodes: set<string>, indegree: map<string, nat>, closed: set<string>, ready: set<string>) {
    indegree.Keys == nodes && ready == set n | n in nodes && n !in closed && indegree[n] == 0
  }

  ghost predicate CountsIs(nodes: set<string>, edges: seq<Edge>, indegree: map<string, nat>, gone: set<string>) {
    indegree.Keys == nodes && forall n | n in nodes :: indegree[n] == CountIn(edges, |edges|, n, gone)
  }

  lemma FrontierByCount(nodes: set<string>, edges: seq<Edge>, done: set<string>, indegree: map<string, nat>)
    requires CountsIs(nodes, edges, indegree, done)
    ensures ReadyIs(nodes, indegree, done, Frontier(nodes, edges, done))
  {
    assert edges[..|edges|] == edges;
    forall n | n in nodes ensures indegree[n] == 0 <==> SourcesDone(edges, done, n) {
      CountZero(edges, |edges|, n, done);
    }
  }

  lemma ReadyStep(nodes: set<string>, closed: set<string>, targets: seq<string>, before: map<string, nat>,
                  readyBefore: set<string>, indegree: map<string, nat>, ready: set<string>)
    requires ReadyIs(nodes, before, closed, readyBefore) && indegree.Keys == nodes
    requires forall t | t in targets :: t in nodes && t !in closed
    requires forall n | n in nodes :: before[n] == indegree[n] + Count(targets, n)
    requires ready == readyBefore + Zeros(targets, indegree)
    ensures ReadyIs(nodes, indegree, closed, ready)
  {
    forall n | n in nodes && n !in closed ensures n in ready <==> indegree[n] == 0 {
      if n !in targets { CountAbsent(targets, |targets|, n); }
    }
  }

  /** One layer of the peeling loop. */
  method RetireLayer(nodes: set<string>, edges: seq<Edge>, outgoing: map<string, seq<string>>,
                     layer: seq<string>, indegree0: map<string, nat>, ghost done: set<string>)
    returns (indegree: map<string, nat>, ready: set<string>)
    requires AllEndpoints(nodes, edges) && NodeNames(nodes)
    requires forall s :: Lookup(outgoing, s) == Targets(edges, |edges|, s)
    requires Elements(layer) == Frontier(nodes, edges, done) && NoDuplicates(layer)
    requires CountsIs(nodes, edges, indegree0, done)
    requires DownClosed(edges, done)
    ensures CountsIs(nodes, edges, indegree, done + Elements(layer))
    ensures ReadyIs(nodes, indegree, done + Elements(layer), ready)
  {
    indegree, ready := indegree0, {};
    ghost var closed := done + Elements(layer);
    FrontierByCount(nodes, edges, done, indegree0);
    assert done + Elements(layer[..0]) == done;
    for i := 0 to |layer|
      invariant CountsIs(nodes, edges, indegree, done + Elements(layer[..i]))
      invariant ReadyIs(nodes, indegree, closed, ready)
    {
      var name := layer[i];
      ghost var gone := done + Elements(layer[..i]);
      assert name in Elements(layer);
      assert name !in gone;
      assert gone + {name} == done + Elements(layer[..i + 1]) by {
        assert layer[..i + 1] == layer[..i] + [name];
      }
      var targets := Lookup(outgoing, name);
      TargetsStayOpen(nodes, edges, done, gone, name);
      forall n | n in nodes
        ensures indegree[n] == CountIn(edges, |edges|, n, gone + {name}) + Count(targets, n)
      {
        RetireSource(edges, |edges|, n, gone, name);
      }
      ghost var before, readyBefore := indegree, ready;
      indegree, ready := RetireNode(targets, indegree, ready);
      ReadyStep(nodes, closed, targets, before, readyBefore, indegree, ready);
    }
    assert layer[..|layer|] == layer;
  }

  /** No target of a frontier node is itself finished or in the frontier. */
  lemma TargetsStayOpen(nodes: set<string>, edges: seq<Edge>, done: set<string>, gone: set<string>, name: string)
    requires AllEndpoints(nodes, edges) && NodeNames(nodes)
    requires DownClosed(edges, done)
    requires name in Frontier(nodes, edges, done)
    ensures forall t | t in Targets(edges, |edges|, name) ::
              t in nodes && t != END && t !in done + Frontier(nodes, edges, done)
  {
    TargetsAreNodes(nodes, edges, |edges|, name);
    forall t | t in Targets(edges, |edges|, name)
      ensures t !in done + Frontier(nodes, edges, done)
    {
      assert Edge(name, t) in edges && name != START;
      assert !SourcesDone(edges, done, t);
    }
  }

  /** One turn of the peeling loop moves one layer from the part to do to the part done. */
  lemma PeelStep(nodes: set<string>, edges: seq<Edge>, layers: seq<seq<string>>, done: set<string>)
    requires Frontier(nodes, edges, done) != {}
    ensures var f := Frontier(nodes, edges, done);
            layers + Peel(nodes, edges, done) == (layers + [Sorted(f)]) + Peel(nodes, edges, done + f)
  {
    hide Frontier, Sorted;
    var f := Frontier(nodes, edges, done);
    var rest := Peel(nodes, edges, done + f);
    assert Peel(nodes, edges, done) == [Sorted(f)] + rest;
    assert layers + ([Sorted(f)] + rest) == (layers + [Sorted(f)]) + rest;
  }

  lemma CoverStep(layers: seq<seq<string>>, f: set<string>)
    ensures Covered(layers + [Sorted(f)]) == Covered(layers) + f
  {
    hide Sorted;
    FlattenAppend(layers, [Sorted(f)]);
    assert Flatten([Sorted(f)]) == Sorted(f) + [];
    assert Elements(Flatten(layers) + Sorted(f)) == Elements(Flatten(layers)) + Elements(Sorted(f));
  }

  lemma FrontierGrows(nodes: set<string>, edges: seq<Edge>, done: set<string>)
    requires DownClosed(edges, done)
    ensures DownClosed(edges, done + Frontier(nodes, edges, done))
    ensures done !! Frontier(nodes, edges, done)
    ensures |done + Frontier(nodes, edges, done)| == |done| + |Frontier(nodes, edges, done)|
  {
  }

  /** The state of the peeling loop after the nodes in `done` have been emitted. */
  ghost predicate Peeled(nodes: set<string>, edges: seq<Edge>, done: set<string>, layers: seq<seq<string>>,
                         indegree: map<string, nat>, ready: set<string>) {
    && done <= nodes
    && done == Covered(layers)
    && DownClosed(edges, done)
    && CountsIs(nodes, edges, indegree, done)
    && ready == Frontier(nodes, edges, done)
    && layers + Peel(nodes, edges, done) == Peel(nodes, edges, {})
  }

  /** One turn of the peeling loop. */
  method PeelLayer(nodes: set<string>, edges: seq<Edge>, outgoing: map<string, seq<string>>, ghost done: set<string>,
                   layers: seq<seq<string>>, indegree0: map<string, nat>, ready0: set<string>)
    returns (layer: seq<string>, indegree: map<string, nat>, ready: set<string>)
    requires AllEndpoints(nodes, edges) && NodeNames(nodes)
    requires forall s :: Lookup(outgoing, s) == Targets(edges, |edges|, s)
    requires Peeled(nodes, edges, done, layers, indegree0, ready0) && ready0 != {}
    ensures Peeled(nodes, edges, done + ready0, layers + [layer], indegree, ready)
    ensures |done + ready0| == |done| + |layer|
    ensures nodes - (done + ready0) < nodes - done
  {
    layer := Sorted(ready0);
    SortedDistinct(ready0);
    indegree, ready := RetireLayer(nodes, edges, outgoing, layer, indegree0, done);
    PeelStep(nodes, edges, layers, done);
    CoverStep(layers, ready0);
    FrontierGrows(nodes, edges, done);
    FrontierByCount(nodes, edges, done + ready0, indegree);
    var x :| x in ready0;
    assert x in nodes - done;
  }

  method TopologicalLayers(nodes: set<string>, edges: seq<Edge>) returns (r: Result<seq<seq<string>>, AiError>)
    requires AllEndpoints(nodes, edges) && NodeNames(nodes)
    ensures r == if Covered(Peel(nodes, edges, {})) == nodes then Ok(Peel(nodes, edges, {}))
                 else Err(InvalidWorkflow(Cycle))
  {
    var indegree, outgoing := CountEdges(nodes, edges);
    FrontierByCount(nodes, edges, {}, indegree);
    var ready := set n | n in nodes && indegree[n] == 0;
    var layers: seq<seq<string>> := [];
    var visited := 0;
    ghost var done: set<string> := {};
    assert layers + Peel(nodes, edges, {}) == Peel(nodes, edges, {});
    while ready != {}
      invariant Peeled(nodes, edges, done, layers, indegree, ready)
      invariant visited == |done|
      decreases nodes - done
    {
      ghost var f := ready;
      var layer;
      layer, indegree, ready := PeelLayer(nodes, edges, outgoing, done, layers, indegree, ready);
      layers := layers + [layer];
      visited := visited + |layer|;
      done := done + f;
    }
    SubsetCount(done, nodes);
    assert layers + [] == layers;
    if visited != |nodes| {
      return Err(InvalidWorkflow(Cycle));
    }
    return Ok(layers);
  }
}
