/** `GraphBuilder` and `CompiledGraph` (compose.rs). */
module Compile {
  import opened Prelude
  import opened Names
  import opened Text
  import opened Workflow
  import opened Layers
  import opened LayerLaws
  import opened Reachability

  datatype GraphBuilder = GraphBuilder(nodes: map<string, Node>, edges: seq<Edge>)

  datatype CompiledGraph = CompiledGraph(
    nodes: map<string, Node>,
    incoming: map<string, seq<string>>,
    topology: seq<string>,
    layers: seq<seq<string>>)

  // --------------------------------------------------------------- the builder

  predicate ValidBuilder(b: GraphBuilder) {
    && START !in b.nodes && END !in b.nodes && "" !in b.nodes
    && forall i, j :: 0 <= i < j < |b.edges| ==> b.edges[i] != b.edges[j]
  }

  function NameDefect(name: string): Option<Defect> {
    if name == "" then Some(EmptyName)
    else if name == START || name == END then Some(ReservedName(name))
    else None
  }

  /** `insert_node`: the node is filed under its trimmed name. */
  function AddNode(b: GraphBuilder, rawName: string, node: Node): (r: Result<GraphBuilder, AiError>)
    ensures r.Ok? <==> NodeNames({Trim(rawName)}) && Trim(rawName) !in b.nodes
    ensures r.Ok? && ValidBuilder(b) ==> ValidBuilder(r.value) && r.value.nodes.Keys == b.nodes.Keys + {Trim(rawName)}
  {
    var name := Trim(rawName);
    if NameDefect(name).Some? then Err(InvalidWorkflow(NameDefect(name).value))
    else if name in b.nodes then Err(InvalidWorkflow(DuplicateNode(name)))
    else Ok(b.(nodes := b.nodes[name := node]))
  }

  function AddEdge(b: GraphBuilder, edge: Edge): (r: Result<GraphBuilder, AiError>)
    ensures r.Ok? <==> edge !in b.edges
    ensures r.Ok? && ValidBuilder(b) ==> ValidBuilder(r.value)
  {
    if edge in b.edges then Err(InvalidWorkflow(DuplicateEdge(edge)))
    else Ok(b.(edges := b.edges + [edge]))
  }

  // --------------------------------------------------------------- edge validation

  function EdgeDefect(nodes: set<string>, e: Edge): Option<Defect> {
    if e.source == END then Some(EndHasOutgoing)
    else if e.target == START then Some(StartHasIncoming)
    else if e.source != START && e.source !in nodes then Some(MissingSource(e.source))
    else if e.target != END && e.target !in nodes then Some(MissingTarget(e.target))
    else None
  }

  /** An edge list is accepted: sound endpoints, one edge out of START, one into END. */
  ghost predicate ValidEdges(nodes: set<string>, edges: seq<Edge>) {
    && AllEndpoints(nodes, edges)
    && (exists t :: Edge(START, t) in edges)
    && (exists s :: Edge(s, END) in edges)
  }

  lemma EndpointsSound(nodes: set<string>, e: Edge)
    requires NodeNames(nodes)
    ensures EdgeDefect(nodes, e).None? <==> Endpoints(nodes, e)
  {
  }

  method ValidateEdges(nodes: set<string>, edges: seq<Edge>) returns (r: Result<(), AiError>)
    requires NodeNames(nodes)
    ensures r.Ok? <==> ValidEdges(nodes, edges)
    ensures r.Err? && edges != [] && !AllEndpoints(nodes, edges) ==>
              exists i :: 0 <= i < |edges| && EdgeDefect(nodes, edges[i]).Some?
                          && r.error == InvalidWorkflow(EdgeDefect(nodes, edges[i]).value)
                          && AllEndpoints(nodes, edges[..i])
  {
    if edges == [] {
      return Err(InvalidWorkflow(NoEdges));
    }
    var fromStart, toEnd := false, false;
    for i := 0 to |edges|
      invariant AllEndpoints(nodes, edges[..i])
      invariant fromStart <==> exists t :: Edge(START, t) in edges[..i]
      invariant toEnd <==> exists s :: Edge(s, END) in edges[..i]
    {
      var e := edges[i];
      assert edges[..i + 1] == edges[..i] + [e];
      EndpointsSound(nodes, e);
      var defect := EdgeDefect(nodes, e);
      if defect.Some? {
        assert e in edges;
        return Err(InvalidWorkflow(defect.value));
      }
      if e.source == START {
        fromStart := true;
        assert e == Edge(START, e.target);
      }
      if e.target == END {
        toEnd := true;
        assert e == Edge(e.source, END);
      }
    }
    assert edges[..|edges|] == edges;
    if !fromStart {
      return Err(InvalidWorkflow(NoStartEdge));
    }
    if !toEnd {
      return Err(InvalidWorkflow(NoEndEdge));
    }
    return Ok(());
  }

  // --------------------------------------------------------------- incoming lists

  /** Sources of the edges into `t` among the first `k`, in edge order. */
  ghost function Sources(edges: seq<Edge>, k: nat, t: string): seq<string>
    requires k <= |edges|
  {
    if k == 0 then [] else
      Sources(edges, k - 1, t) + if edges[k - 1].target == t then [edges[k - 1].source] else []
  }

  lemma {:induction false} SourcesAreEdges(edges: seq<Edge>, k: nat, t: string, s: string)
    requires k <= |edges|
    ensures s in Sources(edges, k, t) <==> Edge(s, t) in edges[..k]
  {
    if k > 0 {
      assert edges[..k] == edges[..k - 1] + [edges[k - 1]];
      SourcesAreEdges(edges, k - 1, t, s);
    }
  }

  method IncomingEdges(nodes: set<string>, edges: seq<Edge>) returns (incoming: map<string, seq<string>>)
    requires AllEndpoints(nodes, edges)
    ensures incoming.Keys == nodes + {END}
    ensures forall t | t in incoming :: incoming[t] == Sources(edges, |edges|, t)
  {
    incoming := map n | n in nodes + {END} :: [];
    for k := 0 to |edges|
      invariant incoming.Keys == nodes + {END}
      invariant forall t | t in incoming :: incoming[t] == Sources(edges, k, t)
    {
      assert Endpoints(nodes, edges[k]);
      incoming := Pushed(incoming, edges[k].target, edges[k].source);
    }
  }

  // --------------------------------------------------------------- compile

  /** `g` is the compilation of the given nodes and edges. */
  ghost predicate IsCompiled(g: CompiledGraph, nodes: map<string, Node>, edges: seq<Edge>) {
    && g.nodes == nodes
    && g.layers == Peel(nodes.Keys, edges, {})
    && g.topology == Flatten(g.layers)
    && g.incoming.Keys == nodes.Keys + {END}
    && forall t | t in g.incoming :: g.incoming[t] == Sources(edges, |edges|, t)
  }

  ghost predicate Acceptable(nodes: set<string>, edges: seq<Edge>) {
    ValidEdges(nodes, edges) && Acyclic(nodes, edges) && AllReachable(nodes, edges)
  }

  /** Compilation succeeds exactly on sound, acyclic, fully reachable graphs. */
  method CompileGraph(b: GraphBuilder) returns (r: Result<CompiledGraph, AiError>)
    requires ValidBuilder(b)
    ensures r.Ok? <==> Acceptable(b.nodes.Keys, b.edges)
    ensures r.Ok? ==> IsCompiled(r.value, b.nodes, b.edges) && Covered(r.value.layers) == b.nodes.Keys
    ensures ValidEdges(b.nodes.Keys, b.edges) && !Acyclic(b.nodes.Keys, b.edges)
            ==> r == Err(InvalidWorkflow(Cycle))
  {
    hide Peel;
    var names := b.nodes.Keys;
    var checkedEdges := ValidateEdges(names, b.edges);
    if checkedEdges.Err? {
      return Err(checkedEdges.error);
    }
    LayeringSucceedsIffAcyclic(names, b.edges);
    var layers := TopologicalLayers(names, b.edges);
    if layers.Err? {
      return Err(layers.error);
    }
    var topology := Flatten(layers.value);
    var reached := ValidateReachability(names, b.edges);
    if reached.Err? {
      return Err(reached.error);
    }
    var incoming := IncomingEdges(names, b.edges);
    return Ok(CompiledGraph(b.nodes, incoming, topology, layers.value));
  }

  // --------------------------------------------------------------- what a compiled graph guarantees

  ghost predicate SourcesIn(g: CompiledGraph, n: string, available: set<string>) {
    n in g.incoming && forall s | s in g.incoming[n] :: s == START || s in available
  }

  /** The shape every executor relies on. */
  ghost predicate WellFormed(g: CompiledGraph) {
    && NodeNames(g.nodes.Keys)
    && NoDuplicates(g.topology) && Elements(g.topology) == g.nodes.Keys
    && g.topology == Flatten(g.layers)
    && g.incoming.Keys == g.nodes.Keys + {END}
    && (forall n | n in g.incoming :: |g.incoming[n]| > 0)
    && SourcesIn(g, END, g.nodes.Keys)
    && (forall i, n | 0 <= i < |g.layers| && n in g.layers[i] :: SourcesIn(g, n, Elements(Flatten(g.layers[..i]))))
    && (forall i | 0 <= i < |g.topology| :: SourcesIn(g, g.topology[i], Elements(g.topology[..i])))
  }

  /** A reachable name other than START has an incoming edge. */
  lemma ReachableHasSource(edges: seq<Edge>, n: string)
    requires Reachable(edges, n) && n != START
    ensures Sources(edges, |edges|, n) != []
  {
    var p :| IsWalk(edges, p, n);
    assert Stride(edges, p, |p| - 2);
    assert edges[..|edges|] == edges;
    SourcesAreEdges(edges, |edges|, n, p[|p| - 2]);
  }

  lemma {:induction false} FlattenLayersDone(nodes: set<string>, edges: seq<Edge>, i: nat)
    requires i <= |Peel(nodes, edges, {})|
    ensures Elements(Flatten(Peel(nodes, edges, {})[..i])) == Done(nodes, edges, i)
  {
    hide Peel, Sorted, Frontier;
    var layers := Peel(nodes, edges, {});
    if i > 0 {
      FlattenLayersDone(nodes, edges, i - 1);
      assert layers[..i] == layers[..i - 1] + [layers[i - 1]];
      PeelLayers(nodes, edges, 0, i - 1);
      CoverStep(layers[..i - 1], Frontier(nodes, edges, Done(nodes, edges, i - 1)));
    }
  }

  lemma {:induction false} FlattenDistinct(nodes: set<string>, edges: seq<Edge>, i: nat)
    requires i <= |Peel(nodes, edges, {})|
    ensures NoDuplicates(Flatten(Peel(nodes, edges, {})[..i]))
  {
    hide Peel, Sorted, Frontier;
    var layers := Peel(nodes, edges, {});
    if i > 0 {
      FlattenDistinct(nodes, edges, i - 1);
      FlattenLayersDone(nodes, edges, i - 1);
      PeelLayers(nodes, edges, 0, i - 1);
      var d := Done(nodes, edges, i - 1);
      var f := Frontier(nodes, edges, d);
      SortedDistinct(f);
      FrontierApart(nodes, edges, d);
      assert layers[..i] == layers[..i - 1] + [Sorted(f)];
      FlattenAppend(layers[..i - 1], [Sorted(f)]);
      assert Flatten([Sorted(f)]) == Sorted(f) + [];
      DistinctAppend(Flatten(layers[..i - 1]), Sorted(f));
      assert Flatten(layers[..i]) == Flatten(layers[..i - 1]) + Sorted(f);
    } else {
      assert layers[..0] == [];
    }
  }

  lemma FrontierApart(nodes: set<string>, edges: seq<Edge>, d: set<string>)
    ensures d !! Frontier(nodes, edges, d)
  {
  }

  lemma DistinctAppend<T>(a: seq<T>, b: seq<T>)
    requires NoDuplicates(a) && NoDuplicates(b) && Elements(a) !! Elements(b)
    ensures NoDuplicates(a + b)
  {
    forall i, j | 0 <= i < j < |a + b| ensures (a + b)[i] != (a + b)[j] {
      if i < |a| <= j {
        assert a[i] in Elements(a) && b[j - |a|] in Elements(b);
      }
    }
  }

  /** In a compiled graph a node's sources are START or lie in strictly lower layers. */
  lemma LayerSources(g: CompiledGraph, nodes: map<string, Node>, edges: seq<Edge>, i: nat, n: string)
    requires IsCompiled(g, nodes, edges) && i < |g.layers| && n in g.layers[i] && n in nodes
    ensures SourcesIn(g, n, Elements(Flatten(g.layers[..i])))
  {
    hide Peel;
    LayerAt(nodes.Keys, edges, i, n);
    FlattenLayersDone(nodes.Keys, edges, i);
    forall s | s in g.incoming[n] ensures s == START || s in Done(nodes.Keys, edges, i) {
      assert edges[..|edges|] == edges;
      SourcesAreEdges(edges, |edges|, n, s);
      assert Edge(s, n) in edges;
    }
  }

  /** Flattening: position `k` of the topology lies in some layer, all of whose lower layers come earlier. */
  lemma {:induction false} PositionInLayer(layers: seq<seq<string>>, k: nat) returns (i: nat)
    requires k < |Flatten(layers)|
    ensures i < |layers| && Flatten(layers)[k] in layers[i]
    ensures |Flatten(layers[..i])| <= k && Flatten(layers[..i]) <= Flatten(layers)
    decreases |layers|
  {
    var init, last := layers[..|layers| - 1], layers[|layers| - 1];
    assert layers == init + [last];
    FlattenAppend(init, [last]);
    assert Flatten([last]) == last + [];
    if k < |Flatten(init)| {
      i := PositionInLayer(init, k);
      assert init[..i] == layers[..i];
    } else {
      i := |layers| - 1;
      assert last[k - |Flatten(init)|] in last;
    }
  }

  lemma TopologySources(g: CompiledGraph, k: nat)
    requires g.topology == Flatten(g.layers) && k < |g.topology|
    requires forall i, n | 0 <= i < |g.layers| && n in g.layers[i] :: SourcesIn(g, n, Elements(Flatten(g.layers[..i])))
    ensures SourcesIn(g, g.topology[k], Elements(g.topology[..k]))
  {
    var i := PositionInLayer(g.layers, k);
    var before := Flatten(g.layers[..i]);
    forall s | s in g.incoming[g.topology[k]] ensures s == START || s in Elements(g.topology[..k]) {
      if s != START {
        assert s in before;
        var j :| 0 <= j < |before| && before[j] == s;
        assert g.topology[..k][j] == s;
      }
    }
  }

  /** Every accepted graph has the shape the executors rely on: no input is ever missing or empty. */
  lemma CompiledWellFormed(g: CompiledGraph, b: GraphBuilder)
    requires ValidBuilder(b) && Acceptable(b.nodes.Keys, b.edges)
    requires IsCompiled(g, b.nodes, b.edges) && Covered(g.layers) == b.nodes.Keys
    ensures WellFormed(g)
  {
    hide Peel;
    var nodes, edges := b.nodes.Keys, b.edges;
    assert g.layers[..|g.layers|] == g.layers;
    FlattenDistinct(nodes, edges, |g.layers|);
    forall n | n in g.incoming ensures |g.incoming[n]| > 0 {
      ReachableHasSource(edges, n);
    }
    forall s | s in g.incoming[END] ensures s == START || s in nodes {
      assert edges[..|edges|] == edges;
      SourcesAreEdges(edges, |edges|, END, s);
      assert Endpoints(nodes, Edge(s, END));
    }
    forall i, n | 0 <= i < |g.layers| && n in g.layers[i]
      ensures SourcesIn(g, n, Elements(Flatten(g.layers[..i])))
    {
      FlattenContains(g.layers, n);
      assert n in Covered(g.layers);
      LayerSources(g, b.nodes, edges, i, n);
    }
    forall k | 0 <= k < |g.topology| ensures SourcesIn(g, g.topology[k], Elements(g.topology[..k])) {
      TopologySources(g, k);
    }
  }
}
