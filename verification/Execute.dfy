/** Graph execution (compose.rs, `invoke_with_mode`, `execute_node`, `collect_inputs`). */
module Execute {
  import opened Prelude
  import opened Workflow
  import opened Compile

  /** The points of a run at which the request context is checked. */
  datatype Probe = AtEntry | BeforeLayer(layer: nat) | BeforeNode(name: string) | AfterNode(name: string)

  /** What each check of one run finds: nothing, or the error that aborts that step. */
  type Checks = Probe -> Option<AiError>

  /** One run: a graph, the context as the run sees it, its input, and inputs replaced by a human. */
  datatype Run = Run(graph: CompiledGraph, checks: Checks, input: Value, overrides: map<string, Value>)

  datatype Mode = Sequential | ParallelLayers

  // --------------------------------------------------------------- operations

  /** The values of the sources, or the first source without a value. */
  function Gather(name: string, sources: seq<string>, values: map<string, Value>): Result<seq<Value>, AiError> {
    if sources == [] then Ok([])
    else if sources[0] !in values then Err(InvalidWorkflow(ValueUnavailable(sources[0], name)))
    else
      var rest := Gather(name, sources[1..], values);
      if rest.Err? then rest else Ok([values[sources[0]]] + rest.value)
  }

  /** One input is passed as it is, several as an array. */
  function Join(name: string, inputs: Result<seq<Value>, AiError>): Result<Value, AiError> {
    if inputs.Err? then Err(inputs.error)
    else if |inputs.value| == 0 then Err(InvalidWorkflow(NoInput(name)))
    else if |inputs.value| == 1 then Ok(inputs.value[0])
    else Ok(Array(inputs.value))
  }

  function CollectInputs(name: string, incoming: map<string, seq<string>>, values: map<string, Value>): Result<Value,
      AiError> {
    if name !in incoming then Err(InvalidWorkflow(MissingInputs(name)))
    else Join(name, Gather(name, incoming[name], values))
  }

  /** What one node makes of its input, context checks included. */
  function Invoke(g: CompiledGraph, checks: Checks, name: string, input: Result<Value, AiError>): Result<Value,
      AiError> {
    if checks(BeforeNode(name)).Some? then Err(checks(BeforeNode(name)).value)
    else if input.Err? then Err(input.error)
    else if name !in g.nodes then Err(InvalidWorkflow(MissingNode(name)))
    else
      var output := g.nodes[name](input.value);
      if output.Err? then output
      else if checks(AfterNode(name)).Some? then Err(checks(AfterNode(name)).value)
      else output
  }

  function ExecuteNode(run: Run, name: string, values: map<string, Value>): Result<Value, AiError> {
    Invoke(run.graph, run.checks, name,
           if name in run.overrides then Ok(run.overrides[name]) else CollectInputs(name, run.graph.incoming, values))
  }

  // --------------------------------------------------------------- reference: evaluation of the DAG by recursion

  /** Where `n` stands in the topology. */
  ghost function Position(order: seq<string>, n: string): nat {
    if order == [] then 0
    else if order[|order| - 1] == n then |order| - 1
    else Position(order[..|order| - 1], n)
  }

  lemma {:induction false} PositionOf(order: seq<string>, i: nat)
    requires NoDuplicates(order) && i < |order|
    ensures Position(order, order[i]) == i
  {
    if i != |order| - 1 { PositionOf(order[..|order| - 1], i); }
  }

  ghost predicate Earlier(g: CompiledGraph, s: string, bound: nat) {
    s == START || (s in g.nodes && Position(g.topology, s) < bound)
  }

  ghost predicate AllEarlier(g: CompiledGraph, sources: seq<string>, bound: nat) {
    forall s | s in sources :: Earlier(g, s, bound)
  }

  lemma SourcesEarlier(g: CompiledGraph, n: string)
    requires WellFormed(g) && n in g.nodes
    ensures n in g.incoming && AllEarlier(g, g.incoming[n], Position(g.topology, n))
  {
    assert n in Elements(g.topology);
    var i :| 0 <= i < |g.topology| && g.topology[i] == n;
    PositionOf(g.topology, i);
    assert SourcesIn(g, n, Elements(g.topology[..i]));
    forall s | s in g.incoming[n] && s != START ensures Earlier(g, s, i) {
      var j :| 0 <= j < |g.topology[..i]| && g.topology[..i][j] == s;
      PositionOf(g.topology, j);
      assert g.topology[j] in Elements(g.topology);
    }
  }

  lemma EndSourcesEarlier(g: CompiledGraph)
    requires WellFormed(g)
    ensures END in g.incoming && AllEarlier(g, g.incoming[END], |g.topology|)
  {
    forall s | s in g.incoming[END] && s != START ensures Earlier(g, s, |g.topology|) {
      assert s in Elements(g.topology);
      var j :| 0 <= j < |g.topology| && g.topology[j] == s;
      PositionOf(g.topology, j);
    }
  }

  /** The result of node `n`: its function applied to the results of its sources. */
  ghost function Eval(run: Run, n: string): Result<Value, AiError>
    requires WellFormed(run.graph) && n in run.graph.nodes
    decreases Position(run.graph.topology, n), 1, 0
  {
    SourcesEarlier(run.graph, n);
    var bound := Position(run.graph.topology, n);
    Invoke(run.graph, run.checks, n,
           if n in run.overrides then Ok(run.overrides[n])
           else Join(n, EvalSources(run, bound, run.graph.incoming[n])))
  }

  /** The results of several sources, or the first error among them. */
  ghost function EvalSources(run: Run, bound: nat, sources: seq<string>): Result<seq<Value>, AiError>
    requires WellFormed(run.graph) && AllEarlier(run.graph, sources, bound)
    decreases bound, 0, |sources|
  {
    if sources == [] then Ok([]) else
      assert sources[0] in sources && Earlier(run.graph, sources[0], bound);
      var first := if sources[0] == START then Ok(run.input) else Eval(run, sources[0]);
      if first.Err? then Err(first.error) else
        var rest := EvalSources(run, bound, sources[1..]);
        if rest.Err? then rest else Ok([first.value] + rest.value)
  }

  /** What node `n` is given: the override put in its place, or the join of the results of its sources. */
  ghost function GivenTo(run: Run, n: string): Result<Value, AiError>
    requires WellFormed(run.graph) && n in run.graph.nodes
  {
    if n in run.overrides then Ok(run.overrides[n]) else SourcesJoined(run, n)
  }

  ghost function SourcesJoined(run: Run, n: string): Result<Value, AiError>
    requires WellFormed(run.graph) && n in run.graph.nodes
  {
    SourcesEarlier(run.graph, n);
    Join(n, EvalSources(run, Position(run.graph.topology, n), run.graph.incoming[n]))
  }

  // --------------------------------------------------------------- values computed so far agree with the reference

  ghost predicate Agrees(run: Run, values: map<string, Value>)
    requires WellFormed(run.graph)
  {
    && START in values && values[START] == run.input
    && forall n | n in values && n != START :: n in run.graph.nodes && Eval(run, n) == Ok(values[n])
  }

  lemma {:induction false} GatherAgrees(run: Run, bound: nat, name: string, sources: seq<string>, values: map<string,
                                        Value>)
    requires WellFormed(run.graph) && Agrees(run, values)
    requires AllEarlier(run.graph, sources, bound) && forall s | s in sources :: s in values
    ensures Gather(name, sources, values) == EvalSources(run, bound, sources)
    ensures Gather(name, sources, values).Ok? && |Gather(name, sources, values).value| == |sources|
  {
    hide WellFormed;
    if sources != [] {
      assert sources[0] in sources && forall s | s in sources[1..] :: s in sources;
      GatherAgrees(run, bound, name, sources[1..], values);
    }
  }

  lemma InputsAvailable(run: Run, n: string, values: map<string, Value>)
    requires WellFormed(run.graph) && SourcesIn(run.graph, n, values.Keys) && START in values
    ensures |run.graph.incoming[n]| > 0 && forall s | s in run.graph.incoming[n] :: s in values
  {
  }

  /** A node whose sources all have values executes to its reference result. */
  lemma ExecuteAgrees(run: Run, n: string, values: map<string, Value>)
    requires WellFormed(run.graph) && Agrees(run, values) && n in run.graph.nodes
    requires SourcesIn(run.graph, n, values.Keys)
    ensures ExecuteNode(run, n, values) == Eval(run, n)
    ensures CollectInputs(n, run.graph.incoming, values).Ok?
    ensures CollectInputs(n, run.graph.incoming, values) == SourcesJoined(run, n)
  {
    SourcesEarlier(run.graph, n);
    InputsAvailable(run, n, values);
    hide WellFormed;
    GatherAgrees(run, Position(run.graph.topology, n), n, run.graph.incoming[n], values);
  }

  // --------------------------------------------------------------- running along an order

  /** Executes `order[i..]`, adding each output to the values; stops at the first error. */
  function RunFrom(run: Run, order: seq<string>, i: nat, values: map<string, Value>): Result<map<string, Value>,
      AiError>
    requires i <= |order|
    decreases |order| - i
  {
    if i == |order| then Ok(values) else
      var output := ExecuteNode(run, order[i], values);
      if output.Err? then Err(output.error)
      else RunFrom(run, order, i + 1, values[order[i] := output.value])
  }

  ghost predicate IsTopological(g: CompiledGraph, order: seq<string>) {
    && NoDuplicates(order) && Elements(order) == g.nodes.Keys
    && forall i | 0 <= i < |order| :: SourcesIn(g, order[i], Elements(order[..i]))
  }

  ghost predicate AllSucceed(run: Run, order: seq<string>, i: int, j: int)
    requires WellFormed(run.graph) && Elements(order) == run.graph.nodes.Keys
  {
    forall k | 0 <= i <= k < j && k < |order| :: order[k] in run.graph.nodes && Eval(run, order[k]).Ok?
  }

  /** `e` is the error of the first node of `order`, from position `i`, whose reference result is an error. */
  ghost predicate FirstError(run: Run, order: seq<string>, i: nat, e: AiError)
    requires WellFormed(run.graph) && Elements(order) == run.graph.nodes.Keys
  {
    exists k :: i <= k < |order| && order[k] in run.graph.nodes && Eval(run, order[k]) == Err(e)
        && AllSucceed(run, order, i, k)
  }

  /** The values after the first `i` nodes of `order`. */
  ghost predicate Prefix(run: Run, order: seq<string>, i: nat, values: map<string, Value>)
    requires WellFormed(run.graph)
  {
    i <= |order| && Agrees(run, values) && values.Keys == {START} + Elements(order[..i])
  }

  lemma AgreesInsert(run: Run, values: map<string, Value>, n: string, v: Value)
    requires WellFormed(run.graph) && Agrees(run, values)
    requires n in run.graph.nodes && n != START && Eval(run, n) == Ok(v)
    ensures Agrees(run, values[n := v])
  {
    hide WellFormed, Eval;
  }

  lemma TopologicalAt(g: CompiledGraph, order: seq<string>, i: nat)
    requires IsTopological(g, order) && i < |order|
    ensures order[i] in g.nodes && SourcesIn(g, order[i], Elements(order[..i]))
  {
    assert order[i] in Elements(order);
  }

  lemma PrefixStep(run: Run, order: seq<string>, i: nat, values: map<string, Value>)
    requires WellFormed(run.graph) && IsTopological(run.graph, order) && Prefix(run, order, i, values) && i < |order|
    ensures order[i] in run.graph.nodes
    ensures ExecuteNode(run, order[i], values) == Eval(run, order[i])
    ensures CollectInputs(order[i], run.graph.incoming, values).Ok?
    ensures CollectInputs(order[i], run.graph.incoming, values) == SourcesJoined(run, order[i])
    ensures Eval(run, order[i]).Ok? ==> Prefix(run, order, i + 1, values[order[i] := Eval(run, order[i]).value])
  {
    hide WellFormed, Eval, ExecuteNode, CollectInputs, Agrees, IsTopological, SourcesJoined;
    StartIsNoNode(run.graph);
    TopologicalAt(run.graph, order, i);
    ExecuteAgrees(run, order[i], values);
    if Eval(run, order[i]).Ok? {
      AgreesInsert(run, values, order[i], Eval(run, order[i]).value);
      assert order[..i + 1] == order[..i] + [order[i]];
      assert Elements(order[..i + 1]) == Elements(order[..i]) + {order[i]};
    }
  }

  lemma StartIsNoNode(g: CompiledGraph)
    requires WellFormed(g)
    ensures START !in g.nodes && END !in g.nodes
  {
  }

  /** Along any topological order the run succeeds with the reference values, or reports the order's first error. */
  lemma {:induction false} RunFromAgrees(run: Run, order: seq<string>, i: nat, values: map<string, Value>)
    requires WellFormed(run.graph) && IsTopological(run.graph, order) && i <= |order| && Prefix(run, order, i, values)
    ensures match RunFrom(run, order, i, values)
            case Ok(all) => Prefix(run, order, |order|, all) && AllSucceed(run, order, i, |order|)
            case Err(e) => FirstError(run, order, i, e)
    decreases |order| - i
  {
    hide WellFormed, Prefix, Eval, ExecuteNode;
    if i < |order| {
      PrefixStep(run, order, i, values);
      if Eval(run, order[i]).Ok? {
        RunFromAgrees(run, order, i + 1, values[order[i] := Eval(run, order[i]).value]);
      }
    }
  }

  // --------------------------------------------------------------- invoke

  function Initial(run: Run): map<string, Value> {
    map[START := run.input]
  }

  /** The result of `invoke`. */
  function Outcome(run: Run): Result<Value, AiError> {
    if run.checks(AtEntry).Some? then Err(run.checks(AtEntry).value) else
      match RunFrom(run, run.graph.topology, 0, Initial(run))
      case Ok(values) => CollectInputs(END, run.graph.incoming, values)
      case Err(e) => Err(e)
  }

  method InvokeSequential(run: Run) returns (r: Result<Value, AiError>)
    ensures r == Outcome(run)
  {
    hide ExecuteNode, CollectInputs;
    if run.checks(AtEntry).Some? {
      return Err(run.checks(AtEntry).value);
    }
    var values := map[START := run.input];
    for i := 0 to |run.graph.topology|
      invariant RunFrom(run, run.graph.topology, i, values) == RunFrom(run, run.graph.topology, 0, Initial(run))
    {
      var name := run.graph.topology[i];
      var output := ExecuteNode(run, name, values);
      if output.Err? {
        return Err(output.error);
      }
      values := values[name := output.value];
    }
    return CollectInputs(END, run.graph.incoming, values);
  }

  lemma TopologyIsTopological(g: CompiledGraph)
    requires WellFormed(g)
    ensures IsTopological(g, g.topology)
  {
  }

  lemma InitialPrefix(run: Run, order: seq<string>)
    requires WellFormed(run.graph)
    ensures Prefix(run, order, 0, Initial(run))
  {
    assert order[..0] == [];
  }

  /** The topology position at which layer `i` begins. */
  ghost function LayerBase(g: CompiledGraph, i: nat): nat
    requires i <= |g.layers|
  {
    |Flatten(g.layers[..i])|
  }

  lemma LayerInTopology(g: CompiledGraph, i: nat)
    requires g.topology == Flatten(g.layers) && i < |g.layers|
    ensures LayerBase(g, i + 1) == LayerBase(g, i) + |g.layers[i]| <= |g.topology|
    ensures forall k | 0 <= k < |g.layers[i]| :: g.topology[LayerBase(g, i) + k] == g.layers[i][k]
  {
    assert g.layers[..i + 1] == g.layers[..i] + [g.layers[i]];
    assert g.layers == g.layers[..i + 1] + g.layers[i + 1..];
    FlattenAppend(g.layers[..i], [g.layers[i]]);
    assert Flatten([g.layers[i]]) == g.layers[i] + [];
    FlattenAppend(g.layers[..i + 1], g.layers[i + 1..]);
    assert g.topology == Flatten(g.layers[..i]) + g.layers[i] + Flatten(g.layers[i + 1..]);
  }

  lemma TopologyIsFlat(g: CompiledGraph)
    requires WellFormed(g)
    ensures g.topology == Flatten(g.layers)
  {
  }

  lemma LayerSourcesReady(run: Run, i: nat, k: nat, values: map<string, Value>)
    requires WellFormed(run.graph) && i < |run.graph.layers| && k < |run.graph.layers[i]|
    requires Prefix(run, run.graph.topology, LayerBase(run.graph, i), values)
    ensures run.graph.layers[i][k] in run.graph.nodes
    ensures ExecuteNode(run, run.graph.layers[i][k], values) == Eval(run, run.graph.layers[i][k])
  {
    hide WellFormed, Eval, ExecuteNode, Agrees, SourcesJoined, CollectInputs, Flatten;
    var g := run.graph;
    LayerReady(g, i, k);
    TopologyIsFlat(g);
    FrontIsFlat(g.layers, i);
    ExecuteAgrees(run, g.layers[i][k], values);
  }

  lemma FrontIsFlat(layers: seq<seq<string>>, i: nat)
    requires i <= |layers|
    ensures |Flatten(layers[..i])| <= |Flatten(layers)|
    ensures Flatten(layers)[..|Flatten(layers[..i])|] == Flatten(layers[..i])
  {
    assert layers == layers[..i] + layers[i..];
    FlattenAppend(layers[..i], layers[i..]);
  }

  lemma LayerReady(g: CompiledGraph, i: nat, k: nat)
    requires WellFormed(g) && i < |g.layers| && k < |g.layers[i]|
    ensures g.layers[i][k] in g.nodes && SourcesIn(g, g.layers[i][k], Elements(Flatten(g.layers[..i])))
  {
    var n := g.layers[i][k];
    assert n in g.layers[i];
    FlattenContains(g.layers, n);
    assert n in Elements(g.topology);
  }

  /** Runs every node of one layer on the same values. */
  method ExecuteLayer(run: Run, i: nat, values: map<string, Value>) returns (outputs: seq<Result<Value, AiError>>)
    requires WellFormed(run.graph) && i < |run.graph.layers|
    requires Prefix(run, run.graph.topology, LayerBase(run.graph, i), values)
    ensures |outputs| == |run.graph.layers[i]|
    ensures forall k | 0 <= k < |outputs| ::
              run.graph.layers[i][k] in run.graph.nodes && outputs[k] == Eval(run, run.graph.layers[i][k])
  {
    hide WellFormed, Eval, ExecuteNode, Prefix;
    outputs := [];
    for k := 0 to |run.graph.layers[i]|
      invariant |outputs| == k
      invariant forall j | 0 <= j < k ::
                  run.graph.layers[i][j] in run.graph.nodes && outputs[j] == Eval(run, run.graph.layers[i][j])
    {
      LayerSourcesReady(run, i, k, values);
      outputs := outputs + [ExecuteNode(run, run.graph.layers[i][k], values)];
    }
  }

  /** How far the layered run has come: the sequential run from here on gives the whole result. */
  ghost predicate OnTrack(run: Run, at: nat, values: map<string, Value>)
    requires WellFormed(run.graph)
  {
    && at <= |run.graph.topology|
    && Prefix(run, run.graph.topology, at, values)
    && RunFrom(run, run.graph.topology, at, values) == RunFrom(run, run.graph.topology, 0, Initial(run))
  }

  lemma OnTrackStep(run: Run, at: nat, values: map<string, Value>)
    requires WellFormed(run.graph) && OnTrack(run, at, values) && at < |run.graph.topology|
    ensures run.graph.topology[at] in run.graph.nodes
    ensures match Eval(run, run.graph.topology[at])
            case Ok(v) => OnTrack(run, at + 1, values[run.graph.topology[at] := v])
            case Err(e) => RunFrom(run, run.graph.topology, 0, Initial(run)) == Err(e)
  {
    hide WellFormed, Eval, ExecuteNode, Prefix;
    TopologyIsTopological(run.graph);
    PrefixStep(run, run.graph.topology, at, values);
  }

  method MergeLayer(run: Run, i: nat, outputs: seq<Result<Value, AiError>>, values0: map<string, Value>)
    returns (r: Result<map<string, Value>, AiError>)
    requires WellFormed(run.graph) && i < |run.graph.layers| && |outputs| == |run.graph.layers[i]|
    requires forall k | 0 <= k < |outputs| ::
               run.graph.layers[i][k] in run.graph.nodes && outputs[k] == Eval(run, run.graph.layers[i][k])
    requires OnTrack(run, LayerBase(run.graph, i), values0)
    ensures match r
            case Ok(values) => OnTrack(run, LayerBase(run.graph, i + 1), values)
            case Err(e) => RunFrom(run, run.graph.topology, 0, Initial(run)) == Err(e)
  {
    hide WellFormed, Eval, OnTrack;
    TopologyIsFlat(run.graph);
    LayerInTopology(run.graph, i);
    ghost var base := LayerBase(run.graph, i);
    var values := values0;
    for k := 0 to |outputs|
      invariant OnTrack(run, base + k, values)
    {
      OnTrackStep(run, base + k, values);
      assert run.graph.topology[base + k] == run.graph.layers[i][k];
      if outputs[k].Err? {
        return Err(outputs[k].error);
      }
      values := values[run.graph.layers[i][k] := outputs[k].value];
    }
    return Ok(values);
  }

  /** Layered execution gives the sequential result, value or error, unless a check between layers aborts it. */
  method InvokeParallel(run: Run) returns (r: Result<Value, AiError>)
    requires WellFormed(run.graph)
    ensures (forall i :: run.checks(BeforeLayer(i)).None?) ==> r == Outcome(run)
    ensures r.Ok? ==> r == Outcome(run)
    ensures r.Err? ==> r == Outcome(run) || exists i :: run.checks(BeforeLayer(i)) == Some(r.error)
  {
    hide WellFormed, OnTrack, RunFrom, CollectInputs;
    if run.checks(AtEntry).Some? {
      return Err(run.checks(AtEntry).value);
    }
    var values := map[START := run.input];
    OnTrackInitially(run);
    for i := 0 to |run.graph.layers|
      invariant OnTrack(run, LayerBase(run.graph, i), values)
    {
      if run.checks(BeforeLayer(i)).Some? {
        return Err(run.checks(BeforeLayer(i)).value);
      }
      OnTrackPrefix(run, LayerBase(run.graph, i), values);
      var outputs := ExecuteLayer(run, i, values);
      var merged := MergeLayer(run, i, outputs, values);
      if merged.Err? {
        return Err(merged.error);
      }
      values := merged.value;
    }
    OnTrackFinally(run, values);
    return CollectInputs(END, run.graph.incoming, values);
  }

  lemma OnTrackInitially(run: Run)
    requires WellFormed(run.graph)
    ensures OnTrack(run, LayerBase(run.graph, 0), Initial(run))
  {
    assert run.graph.layers[..0] == [];
    InitialPrefix(run, run.graph.topology);
  }

  lemma OnTrackPrefix(run: Run, at: nat, values: map<string, Value>)
    requires WellFormed(run.graph) && OnTrack(run, at, values)
    ensures Prefix(run, run.graph.topology, at, values)
  {
  }

  lemma OnTrackFinally(run: Run, values: map<string, Value>)
    requires WellFormed(run.graph) && OnTrack(run, LayerBase(run.graph, |run.graph.layers|), values)
    ensures RunFrom(run, run.graph.topology, 0, Initial(run)) == Ok(values)
  {
    assert run.graph.layers[..|run.graph.layers|] == run.graph.layers;
    TopologyIsFlat(run.graph);
    hide WellFormed;
  }
}
