/**
 * Which graphs stream chunks, and what the stream delivers (compose.rs, `validate_streaming_pipeline`,
 * `stream_chunks`).
 */
module Pipeline {
  import opened Prelude
  import opened Names
  import opened Workflow
  import opened Compile
  import opened Execute
  import opened ChunkStream

  // --------------------------------------------------------------- linear graphs

  /** What comes before position `i` of the topology. */
  function Before(g: CompiledGraph, i: nat): string
    requires i <= |g.topology|
  {
    if i == 0 then START else g.topology[i - 1]
  }

  ghost predicate ChainAt(g: CompiledGraph, i: nat) {
    i < |g.topology| && g.topology[i] in g.incoming && g.incoming[g.topology[i]] == [Before(g, i)]
  }

  /** The graph is one chain from START through the topology to END. */
  ghost predicate IsChain(g: CompiledGraph) {
    && g.incoming.Keys == Elements(g.topology) + {END}
    && (forall i | 0 <= i < |g.topology| :: ChainAt(g, i))
    && g.incoming[END] == [Before(g, |g.topology|)]
  }

  /** How often `s` occurs among the sources of the first `k` targets. */
  ghost function Uses(incoming: map<string, seq<string>>, targets: seq<string>, k: nat, s: string): nat
    requires k <= |targets| && Elements(targets) <= incoming.Keys
  {
    if k == 0 then 0 else
      assert targets[k - 1] in Elements(targets);
      Uses(incoming, targets, k - 1, s) + multiset(incoming[targets[k - 1]])[s]
  }

  function Counted(counts: map<string, nat>, s: string): nat {
    if s in counts then counts[s] else 0
  }

  method CountSources(counts0: map<string, nat>, sources: seq<string>) returns (counts: map<string, nat>)
    ensures forall s :: Counted(counts, s) == Counted(counts0, s) + multiset(sources)[s]
  {
    counts := counts0;
    for k := 0 to |sources|
      invariant forall s :: Counted(counts, s) == Counted(counts0, s) + multiset(sources[..k])[s]
    {
      assert sources[..k + 1] == sources[..k] + [sources[k]];
      counts := counts[sources[k] := Counted(counts, sources[k]) + 1];
    }
    assert sources[..|sources|] == sources;
  }

  ghost predicate OneInputEach(g: CompiledGraph) {
    forall n | n in g.incoming :: |g.incoming[n]| == 1
  }

  ghost predicate OneOutputEach(g: CompiledGraph, targets: seq<string>)
    requires Elements(targets) == g.incoming.Keys
  {
    && Uses(g.incoming, targets, |targets|, START) == 1
    && forall i | 0 <= i < |g.topology| :: Uses(g.incoming, targets, |targets|, g.topology[i]) == 1
  }

  ghost function Outputs(g: CompiledGraph, s: string): nat {
    Uses(g.incoming, Sorted(g.incoming.Keys), |Sorted(g.incoming.Keys)|, s)
  }

  /** Why a pipeline is refused: the first thing wrong with it, in the order of the checks. */
  ghost predicate Refused(g: CompiledGraph, maxChunks: nat, d: Defect) {
    if maxChunks == 0 then d == ZeroChunkLimit
    else if !OneInputEach(g) then
      && d.NotOneInput? && IsLeast((set n | n in g.incoming && |g.incoming[n]| != 1), d.name)
      && d.found == |g.incoming[d.name]|
    else if Outputs(g, START) != 1 then d == NotOnePathFromStart
    else
      && d.NotOneOutput?
      && exists i :: 0 <= i < |g.topology| && g.topology[i] == d.name && Outputs(g, d.name) != 1
                     && forall j | 0 <= j < i :: Outputs(g, g.topology[j]) == 1
  }

  lemma LeastOdd(g: CompiledGraph, k: nat)
    requires k < |Sorted(g.incoming.Keys)| && Sorted(g.incoming.Keys)[k] in g.incoming
    requires |g.incoming[Sorted(g.incoming.Keys)[k]]| != 1
    requires forall j | 0 <= j < k ::
               Sorted(g.incoming.Keys)[j] in g.incoming && |g.incoming[Sorted(g.incoming.Keys)[j]]| == 1
    ensures IsLeast((set n | n in g.incoming && |g.incoming[n]| != 1), Sorted(g.incoming.Keys)[k])
  {
    hide Sorted;
    var targets := Sorted(g.incoming.Keys);
    SortedAscends(g.incoming.Keys);
    forall n | n in g.incoming && |g.incoming[n]| != 1 ensures Leq(targets[k], n) {
      assert n in Elements(targets);
      var j :| 0 <= j < |targets| && targets[j] == n;
      LeqTotal(n, n);
    }
  }

  /** `validate_streaming_pipeline`, in terms of counts. */
  method CheckPipeline(g: CompiledGraph, maxChunks: nat) returns (r: Result<(), AiError>)
    ensures r.Ok? <==> maxChunks > 0 && OneInputEach(g) && OneOutputEach(g, Sorted(g.incoming.Keys))
    ensures r.Err? ==> r.error.InvalidWorkflow? && Refused(g, maxChunks, r.error.defect)
  {
    hide Sorted;
    if maxChunks == 0 {
      return Err(InvalidWorkflow(ZeroChunkLimit));
    }
    var targets := Sorted(g.incoming.Keys);
    assert forall n | n in g.incoming :: n in Elements(targets);
    for k := 0 to |targets|
      invariant forall j | 0 <= j < k :: targets[j] in g.incoming && |g.incoming[targets[j]]| == 1
    {
      assert targets[k] in Elements(targets);
      if |g.incoming[targets[k]]| != 1 {
        LeastOdd(g, k);
        return Err(InvalidWorkflow(NotOneInput(targets[k], |g.incoming[targets[k]]|)));
      }
    }
    var outgoing: map<string, nat> := map[];
    for k := 0 to |targets|
      invariant forall s :: Counted(outgoing, s) == Uses(g.incoming, targets, k, s)
    {
      assert targets[k] in Elements(targets);
      outgoing := CountSources(outgoing, g.incoming[targets[k]]);
    }
    if Counted(outgoing, START) != 1 {
      return Err(InvalidWorkflow(NotOnePathFromStart));
    }
    for i := 0 to |g.topology|
      invariant forall j | 0 <= j < i :: Uses(g.incoming, targets, |targets|, g.topology[j]) == 1
    {
      if Counted(outgoing, g.topology[i]) != 1 {
        return Err(InvalidWorkflow(NotOneOutput(g.topology[i])));
      }
    }
    return Ok(());
  }

  // --------------------------------------------------------------- one input and one output each is a chain

  /** With one input each, `s` used once means exactly one target has it as its input. */
  lemma {:induction false} UsesTwice(incoming: map<string, seq<string>>, targets: seq<string>, k: nat, s: string,
                                     i: nat, j: nat)
    requires Elements(targets) <= incoming.Keys && i < j < k <= |targets|
    requires incoming[targets[i]] == [s] == incoming[targets[j]]
    ensures Uses(incoming, targets, k, s) >= 2
    decreases k
  {
    if j < k - 1 {
      UsesTwice(incoming, targets, k - 1, s, i, j);
    } else {
      UsesOnce(incoming, targets, k - 1, s, i);
    }
  }

  lemma {:induction false} UsesOnce(incoming: map<string, seq<string>>, targets: seq<string>, k: nat, s: string, i: nat)
    requires Elements(targets) <= incoming.Keys && i < k <= |targets|
    requires targets[i] in incoming && incoming[targets[i]] == [s]
    ensures Uses(incoming, targets, k, s) >= 1
    decreases k
  {
    if i < k - 1 { UsesOnce(incoming, targets, k - 1, s, i); }
  }

  lemma SameTarget(g: CompiledGraph, s: string, a: string, b: string)
    requires Uses(g.incoming, Sorted(g.incoming.Keys), |Sorted(g.incoming.Keys)|, s) == 1
    requires a in g.incoming && b in g.incoming && g.incoming[a] == [s] == g.incoming[b]
    ensures a == b
  {
    hide Sorted;
    var targets := Sorted(g.incoming.Keys);
    assert a in Elements(targets) && b in Elements(targets);
    var i :| 0 <= i < |targets| && targets[i] == a;
    var j :| 0 <= j < |targets| && targets[j] == b;
    if i < j { UsesTwice(g.incoming, targets, |targets|, s, i, j); }
    if j < i { UsesTwice(g.incoming, targets, |targets|, s, j, i); }
  }

  ghost predicate ChainTo(g: CompiledGraph, i: nat) {
    i <= |g.topology| && forall j | 0 <= j < i :: ChainAt(g, j)
  }

  /** The only source left for a target whose sources lie among the first `i` nodes is the `i`-th predecessor. */
  lemma ChainNext(g: CompiledGraph, i: nat, n: string)
    requires WellFormed(g) && OneInputEach(g) && OneOutputEach(g, Sorted(g.incoming.Keys)) && ChainTo(g, i)
    requires SourcesIn(g, n, Elements(g.topology[..i])) && n !in g.topology[..i]
    ensures g.incoming[n] == [Before(g, i)]
  {
    hide WellFormed, Uses, Sorted;
    var s := g.incoming[n][0];
    assert g.incoming[n] == [s] && s in g.incoming[n];
    if s == START {
      if i > 0 {
        assert g.topology[..i][0] == g.topology[0] && ChainAt(g, 0);
        SameTarget(g, START, n, g.topology[0]);
      }
    } else {
      var j :| 0 <= j < |g.topology[..i]| && g.topology[..i][j] == s;
      if j + 1 < i {
        assert Before(g, j + 1) == s && ChainAt(g, j + 1);
        assert g.topology[..i][j + 1] == g.topology[j + 1];
        SameTarget(g, s, n, g.topology[j + 1]);
      }
    }
  }

  lemma TopologyFacts(g: CompiledGraph)
    requires WellFormed(g)
    ensures IsTopological(g, g.topology) && g.incoming.Keys == Elements(g.topology) + {END}
    ensures SourcesIn(g, END, Elements(g.topology)) && END !in Elements(g.topology) && START !in Elements(g.topology)
  {
  }

  lemma {:induction false} ChainUpTo(g: CompiledGraph, i: nat)
    requires WellFormed(g) && OneInputEach(g) && OneOutputEach(g, Sorted(g.incoming.Keys)) && i <= |g.topology|
    ensures ChainTo(g, i)
    decreases i
  {
    hide WellFormed, OneInputEach, OneOutputEach, Sorted, IsTopological, SourcesIn, ChainTo;
    if i > 0 {
      ChainUpTo(g, i - 1);
      TopologyFacts(g);
      TopologicalAt(g, g.topology, i - 1);
      DistinctPrefix(g, i - 1);
      ChainNext(g, i - 1, g.topology[i - 1]);
      ChainExtend(g, i - 1);
    } else {
      ChainNone(g);
    }
  }

  lemma ChainNone(g: CompiledGraph)
    ensures ChainTo(g, 0)
  {
  }

  lemma ChainExtend(g: CompiledGraph, i: nat)
    requires ChainTo(g, i) && i < |g.topology| && g.topology[i] in g.incoming
    requires g.incoming[g.topology[i]] == [Before(g, i)]
    ensures ChainTo(g, i + 1)
  {
    assert ChainAt(g, i);
  }

  lemma DistinctPrefix(g: CompiledGraph, i: nat)
    requires IsTopological(g, g.topology) && i < |g.topology|
    ensures g.topology[i] !in g.topology[..i]
  {
  }

  lemma CountsMakeChain(g: CompiledGraph)
    requires WellFormed(g) && OneInputEach(g) && OneOutputEach(g, Sorted(g.incoming.Keys))
    ensures IsChain(g)
  {
    hide WellFormed, OneOutputEach, Sorted, IsTopological;
    var t := g.topology;
    ChainUpTo(g, |t|);
    TopologyFacts(g);
    assert t[..|t|] == t;
    ChainNext(g, |t|, END);
  }

  /** In a chain, every name is the input of at most one target. */
  lemma {:induction false} ChainUses(g: CompiledGraph, targets: seq<string>, k: nat, s: string, n: string)
    requires IsChain(g) && NoDuplicates(targets) && Elements(targets) <= g.incoming.Keys && k <= |targets|
    requires n in g.incoming && forall m | m in g.incoming :: g.incoming[m] == [s] <==> m == n
    requires OneInputEach(g)
    ensures Uses(g.incoming, targets, k, s) == if n in targets[..k] then 1 else 0
    decreases k
  {
    hide IsChain;
    if k > 0 {
      ChainUses(g, targets, k - 1, s, n);
      var m := targets[k - 1];
      assert m in Elements(targets);
      assert targets[..k] == targets[..k - 1] + [m];
      assert g.incoming[m] == [g.incoming[m][0]];
    }
  }

  /** Target of `Before(g, i)` in a chain. */
  function After(g: CompiledGraph, i: nat): string
    requires i <= |g.topology|
  {
    if i < |g.topology| then g.topology[i] else END
  }

  lemma ChainUnique(g: CompiledGraph, i: nat, m: string)
    requires IsChain(g) && IsTopological(g, g.topology) && i <= |g.topology| && m in g.incoming
    requires START !in Elements(g.topology) && END !in Elements(g.topology)
    ensures g.incoming[m] == [Before(g, i)] <==> m == After(g, i)
  {
    var j: nat;
    if m == END { j := |g.topology|; } else {
      j :| 0 <= j < |g.topology| && g.topology[j] == m;
      assert ChainAt(g, j);
    }
    assert m == After(g, j);
    assert g.incoming[m] == [Before(g, j)];
    hide IsChain;
    BeforeInjective(g, i, j);
  }

  lemma BeforeInjective(g: CompiledGraph, i: nat, j: nat)
    requires IsTopological(g, g.topology) && i <= |g.topology| && j <= |g.topology|
    requires START !in Elements(g.topology) && END !in Elements(g.topology)
    ensures i != j ==> Before(g, i) != Before(g, j) && After(g, i) != After(g, j)
  {
    var t := g.topology;
    if i < |t| { assert t[i] in Elements(t); }
    if j < |t| { assert t[j] in Elements(t); }
    if i > 0 { assert t[i - 1] in Elements(t); }
    if j > 0 { assert t[j - 1] in Elements(t); }
  }

  lemma ChainOneInput(g: CompiledGraph)
    requires IsChain(g)
    ensures OneInputEach(g)
  {
    forall n | n in g.incoming ensures |g.incoming[n]| == 1 {
      if n != END {
        var j :| 0 <= j < |g.topology| && g.topology[j] == n;
        assert ChainAt(g, j);
      }
    }
  }

  lemma ChainOnce(g: CompiledGraph, i: nat)
    requires WellFormed(g) && IsChain(g) && i <= |g.topology|
    ensures var targets := Sorted(g.incoming.Keys);
            Uses(g.incoming, targets, |targets|, Before(g, i)) == 1
  {
    hide WellFormed, Sorted, IsTopological, Uses;
    var targets := Sorted(g.incoming.Keys);
    TopologyFacts(g);
    ChainOneInput(g);
    SortedDistinct(g.incoming.Keys);
    forall m | m in g.incoming ensures g.incoming[m] == [Before(g, i)] <==> m == After(g, i) {
      ChainUnique(g, i, m);
    }
    ChainUses(g, targets, |targets|, Before(g, i), After(g, i));
    assert targets[..|targets|] == targets;
    assert After(g, i) in Elements(targets) by {
      if i < |g.topology| { assert g.topology[i] in Elements(g.topology); }
    }
  }

  lemma ChainCounts(g: CompiledGraph)
    requires WellFormed(g) && IsChain(g)
    ensures OneInputEach(g) && OneOutputEach(g, Sorted(g.incoming.Keys))
  {
    hide WellFormed, Sorted, IsChain, Uses;
    ChainOneInput(g);
    ChainOnce(g, 0);
    forall i | 0 <= i < |g.topology|
      ensures Uses(g.incoming, Sorted(g.incoming.Keys), |Sorted(g.incoming.Keys)|, g.topology[i]) == 1
    {
      ChainOnce(g, i + 1);
    }
  }

  /** Streaming is accepted exactly for a positive bound on a graph that is one chain in topology order. */
  method ValidateStreamingPipeline(g: CompiledGraph, maxChunks: nat) returns (r: Result<(), AiError>)
    requires WellFormed(g)
    ensures r.Ok? <==> maxChunks > 0 && IsChain(g)
    ensures r.Err? ==> r.error.InvalidWorkflow? && Refused(g, maxChunks, r.error.defect)
  {
    hide WellFormed, OneInputEach, OneOutputEach, IsChain, Sorted, Refused;
    r := CheckPipeline(g, maxChunks);
    if r.Ok? {
      CountsMakeChain(g);
    } else if IsChain(g) {
      ChainCounts(g);
    }
  }

  // --------------------------------------------------------------- the chunk stream of a graph

  function Stages(g: CompiledGraph, streams: map<string, ChunkNode>): seq<ChunkNode>
    requires Elements(g.topology) <= streams.Keys
  {
    seq(|g.topology|, i requires 0 <= i < |g.topology| =>
      assert g.topology[i] in Elements(g.topology); streams[g.topology[i]])
  }

  /** The pipe after `k` stages have been stacked on the one-shot input. */
  function Stacked(stages: seq<ChunkNode>, k: nat, first: Item): Pipe
    requires k <= |stages|
  {
    if k == 0 then Source(Some(first)) else Stage(Stacked(stages, k - 1, first), stages[k - 1], [])
  }

  /** Reference: stage by stage flat map of the input. */
  function Composed(stages: seq<ChunkNode>, k: nat, input: Value): seq<Value>
    requires k <= |stages|
  {
    if k == 0 then [input] else FlatMap(stages[k - 1], Composed(stages, k - 1, input))
  }

  /** Chunks produced by all of the first `k` stages. */
  function TotalWork(stages: seq<ChunkNode>, k: nat, input: Value): nat
    requires k <= |stages|
  {
    if k == 0 then 0 else TotalWork(stages, k - 1, input) + |Composed(stages, k, input)|
  }

  ghost predicate NonFailing(stages: seq<ChunkNode>) {
    forall i, v | 0 <= i < |stages| :: AllOk(stages[i](v))
  }

  method StreamChunks(g: CompiledGraph, streams: map<string, ChunkNode>, entry: Option<AiError>, input: Value,
                      maxChunks: nat)
    returns (items: seq<Item>)
    requires WellFormed(g) && g.nodes.Keys == streams.Keys && Elements(g.topology) <= streams.Keys
    ensures !(maxChunks > 0 && IsChain(g)) ==>
              exists d :: Refused(g, maxChunks, d) && items == [Err(InvalidWorkflow(d))]
    ensures maxChunks > 0 && IsChain(g) ==>
              var first := if entry.Some? then Err(entry.value) else Ok(input);
              items == Drain(Stacked(Stages(g, streams), |g.topology|, first), 0, maxChunks).items
  {
    hide WellFormed, IsChain, Drain, Refused;
    var validation := ValidateStreamingPipeline(g, maxChunks);
    var first: Item := if validation.Err? then Err(validation.error)
                       else if entry.Some? then Err(entry.value) else Ok(input);
    var pipe := Source(Some(first));
    for k := 0 to |g.topology|
      invariant pipe == Stacked(Stages(g, streams), k, first)
    {
      assert g.topology[k] in Elements(g.topology);
      pipe := Stage(pipe, streams[g.topology[k]], []);
    }
    var emitted;
    items, emitted := Collect(pipe, maxChunks);
    if first.Err? { ErrorPasses(Stages(g, streams), |g.topology|, first, maxChunks); }
  }

  lemma {:induction false} PullError(stages: seq<ChunkNode>, k: nat, first: Item, max: nat)
    requires k <= |stages| && first.Err?
    ensures var r := Pull(Stacked(stages, k, first), 0, max);
            r.item == Some(first) && r.count == 0 && r.pipe == Spent(stages, k)
  {
    hide Outs, Size, Shrinks, IsSuffix;
    if k > 0 {
      PullError(stages, k - 1, first, max);
      var p := Stacked(stages, k, first);
      assert p.up == Stacked(stages, k - 1, first);
      PullUnfold(p, 0, max);
    }
  }

  /** A pipe with nothing left. */
  ghost function Spent(stages: seq<ChunkNode>, k: nat): Pipe
    requires k <= |stages|
  {
    if k == 0 then Source(None) else Stage(Spent(stages, k - 1), stages[k - 1], [])
  }

  lemma {:induction false} PullSpent(stages: seq<ChunkNode>, k: nat, max: nat)
    requires k <= |stages|
    ensures Pull(Spent(stages, k), 0, max).item.None?
  {
    hide Outs, Size, Shrinks, IsSuffix;
    if k > 0 {
      PullSpent(stages, k - 1, max);
      var p := Spent(stages, k);
      assert p.up == Spent(stages, k - 1);
      PullUnfold(p, 0, max);
    }
  }

  /** An error in front of the pipeline is the whole stream. */
  lemma ErrorPasses(stages: seq<ChunkNode>, k: nat, first: Item, max: nat)
    requires k <= |stages| && first.Err?
    ensures Drain(Stacked(stages, k, first), 0, max).items == [first]
  {
    hide Pull;
    PullError(stages, k, first, max);
    PullSpent(stages, k, max);
    assert Drain(Spent(stages, k), 0, max).items == [];
  }

  lemma {:induction false} StackedMeaning(stages: seq<ChunkNode>, k: nat, input: Value)
    requires k <= |stages| && NonFailing(stages)
    ensures var p := Stacked(stages, k, Ok(input));
            && Clean(p) && Outs(p) == Composed(stages, k, input) && Work(p) == TotalWork(stages, k, input)
            && (p.Stage? <==> k > 0)
  {
    if k > 0 {
      StackedMeaning(stages, k - 1, input);
      ChunksAreOutputs(stages[k - 1], Composed(stages, k - 1, input));
    }
  }

  lemma {:induction false} ChunksAreOutputs(node: ChunkNode, inputs: seq<Value>)
    requires forall v :: AllOk(node(v))
    ensures Chunks(node, inputs) == |FlatMap(node, inputs)|
  {
    if inputs != [] {
      ValuesOfOk(node(inputs[0]));
      ChunksAreOutputs(node, inputs[1..]);
    }
  }

  lemma {:induction false} ValuesOfOk(items: seq<Item>)
    requires AllOk(items)
    ensures |Values(items)| == |items|
  {
    if items != [] { ValuesOfOk(items[1..]); }
  }

  /** The stream of non-failing nodes is exactly the composed flat map if and only if the total work fits the bound. */
  lemma StreamExactIffFits(stages: seq<ChunkNode>, input: Value, max: nat)
    requires NonFailing(stages)
    ensures Drain(Stacked(stages, |stages|, Ok(input)), 0, max).items == Oks(Composed(stages, |stages|, input))
            <==> TotalWork(stages, |stages|, input) <= max
  {
    hide Drain, Composed, TotalWork;
    var p := Stacked(stages, |stages|, Ok(input));
    StackedMeaning(stages, |stages|, input);
    if Work(p) <= max {
      DrainExact(p, 0, max);
    } else {
      var k := DrainCut(p, 0, max);
    }
  }

  /** Otherwise it is a proper beginning of the flat map followed by errors only, the first of them the limit error. */
  lemma StreamCutShort(stages: seq<ChunkNode>, input: Value, max: nat) returns (k: nat)
    requires NonFailing(stages) && TotalWork(stages, |stages|, input) > max
    ensures var items, full := Drain(Stacked(stages, |stages|, Ok(input)), 0, max).items,
            Composed(stages, |stages|, input);
            && k <= |full| && k < |items| && items[..k] == Oks(full[..k])
            && items[k] == Err(WorkflowStreamLimit(max))
            && forall i | k <= i < |items| :: items[i].Err?
  {
    hide Drain, Composed, TotalWork;
    StackedMeaning(stages, |stages|, input);
    k := DrainCut(Stacked(stages, |stages|, Ok(input)), 0, max);
  }
}
