/** The execution event stream (compose.rs, `CompiledGraph::stream`). */
module EventStream {
  import opened Prelude
  import opened Workflow
  import opened Compile
  import opened Execute
  import opened ExecuteLaws

  datatype WorkflowEvent =
    | RunStarted(runId: string, mode: Mode)
    | NodeStarted(runId: string, node: string)
    | NodeCompleted(runId: string, node: string, output: Value)
    | RunCompleted(runId: string, output: Value)

  /** Where each node started and completed. */
  datatype Ledger = Ledger(started: map<string, nat>, completed: map<string, nat>)

  /** Event `i` is the run's start, or the one start or the one completion of a node. */
  ghost predicate Entry(run: Run, runId: string, mode: Mode, events: seq<WorkflowEvent>, log: Ledger, i: nat)
    requires WellFormed(run.graph) && i < |events|
  {
    match events[i]
    case RunStarted(id, m) => i == 0 && id == runId && m == mode
    case NodeStarted(id, n) => i > 0 && id == runId && n in log.started && log.started[n] == i
    case NodeCompleted(id, n, v) =>
      && i > 0 && id == runId && n in log.completed && log.completed[n] == i
      && n in run.graph.nodes && Eval(run, n) == Ok(v)
    case RunCompleted(_, _) => false
  }

  ghost predicate StartedWell(g: CompiledGraph, runId: string, events: seq<WorkflowEvent>, log: Ledger, n: string)
    requires n in log.started
  {
    && n in g.nodes && n in g.incoming
    && log.started[n] < |events| && events[log.started[n]] == NodeStarted(runId, n)
    && forall s | s in g.incoming[n] :: s == START || (s in log.completed && log.completed[s] < log.started[n])
  }

  ghost predicate CompletedWell(events: seq<WorkflowEvent>, log: Ledger, n: string)
    requires n in log.completed
  {
    && n in log.started && log.started[n] < log.completed[n] < |events|
    && events[log.completed[n]].NodeCompleted? && events[log.completed[n]].node == n
  }

  /** A legal event prefix: each node starts after all its sources completed, and completes after it started. */
  ghost predicate Legal(run: Run, runId: string, mode: Mode, events: seq<WorkflowEvent>, log: Ledger)
    requires WellFormed(run.graph)
  {
    && |events| > 0 && events[0].RunStarted?
    && (forall i | 0 <= i < |events| :: Entry(run, runId, mode, events, log, i))
    && (forall n | n in log.started :: StartedWell(run.graph, runId, events, log, n))
    && (forall n | n in log.completed :: CompletedWell(events, log, n))
  }

  /** A complete run: a legal prefix in which every node has completed, then the output. */
  ghost predicate CompleteRun(run: Run, runId: string, mode: Mode, events: seq<WorkflowEvent>, log: Ledger,
                              output: Value)
    requires WellFormed(run.graph)
  {
    && |events| > 1 && events[|events| - 1] == RunCompleted(runId, output)
    && Legal(run, runId, mode, events[..|events| - 1], log)
    && log.started.Keys == log.completed.Keys == run.graph.nodes.Keys
  }

  lemma StartStep(run: Run, runId: string, mode: Mode, events: seq<WorkflowEvent>, log: Ledger, n: string)
    requires WellFormed(run.graph) && Legal(run, runId, mode, events, log)
    requires n in run.graph.nodes && n !in log.started && SourcesIn(run.graph, n, log.completed.Keys)
    ensures Legal(run, runId, mode, events + [NodeStarted(runId, n)], log.(started := log.started[n := |events|]))
  {
    hide WellFormed, Eval;
    var after, log' := events + [NodeStarted(runId, n)], log.(started := log.started[n := |events|]);
    forall i | 0 <= i < |after| ensures Entry(run, runId, mode, after, log', i) {
      assert i < |events| ==> Entry(run, runId, mode, events, log, i);
    }
    forall m | m in log'.started ensures StartedWell(run.graph, runId, after, log', m) {
      assert m != n ==> StartedWell(run.graph, runId, events, log, m);
      if m == n {
        forall s | s in run.graph.incoming[n] && s != START ensures log.completed[s] < |events| {
          assert CompletedWell(events, log, s);
        }
      }
    }
    forall m | m in log'.completed ensures CompletedWell(after, log', m) {
      assert CompletedWell(events, log, m);
    }
  }

  lemma CompleteStep(run: Run, runId: string, mode: Mode, events: seq<WorkflowEvent>, log: Ledger, n: string, v: Value)
    requires WellFormed(run.graph) && Legal(run, runId, mode, events, log)
    requires n in run.graph.nodes && n in log.started && n !in log.completed && Eval(run, n) == Ok(v)
    ensures Legal(run, runId, mode, events + [NodeCompleted(runId, n, v)],
                  log.(completed := log.completed[n := |events|]))
  {
    hide WellFormed, Eval;
    var after, log' := events + [NodeCompleted(runId, n, v)], log.(completed := log.completed[n := |events|]);
    forall i | 0 <= i < |after| ensures Entry(run, runId, mode, after, log', i) {
      assert i < |events| ==> Entry(run, runId, mode, events, log, i);
    }
    assert StartedWell(run.graph, runId, events, log, n);
    forall m | m in log'.started ensures StartedWell(run.graph, runId, after, log', m) {
      assert StartedWell(run.graph, runId, events, log, m);
    }
    forall m | m in log'.completed ensures CompletedWell(after, log', m) {
      assert m != n ==> CompletedWell(events, log, m);
    }
  }

  // --------------------------------------------------------------- the stream

  /** Both kinds of progress: the events so far are legal, and the values are those of the sequential run. */
  ghost predicate Progress(run: Run, runId: string, mode: Mode, events: seq<WorkflowEvent>, log: Ledger,
                           begun: nat, at: nat, values: map<string, Value>)
    requires WellFormed(run.graph)
  {
    && at <= begun <= |run.graph.topology|
    && Legal(run, runId, mode, events, log)
    && log.started.Keys == Elements(run.graph.topology[..begun])
    && log.completed.Keys == Elements(run.graph.topology[..at])
    && OnTrack(run, at, values)
  }

  lemma NextIsNew(g: CompiledGraph, k: nat)
    requires WellFormed(g) && k < |g.topology|
    ensures g.topology[k] in g.nodes && g.topology[k] !in Elements(g.topology[..k])
    ensures SourcesIn(g, g.topology[k], Elements(g.topology[..k]))
    ensures Elements(g.topology[..k + 1]) == Elements(g.topology[..k]) + {g.topology[k]}
  {
    TopologyIsTopological(g);
    TopologicalAt(g, g.topology, k);
    assert NoDuplicates(g.topology);
    hide WellFormed;
    assert g.topology[..k + 1] == g.topology[..k] + [g.topology[k]];
  }

  /** Announces the start of `topology[begun]`, whose sources are among the first `at` nodes. */
  lemma BeginNode(run: Run, runId: string, mode: Mode, events: seq<WorkflowEvent>, log: Ledger,
                  begun: nat, at: nat, values: map<string, Value>)
    requires WellFormed(run.graph) && Progress(run, runId, mode, events, log, begun, at, values)
    requires begun < |run.graph.topology|
    requires SourcesIn(run.graph, run.graph.topology[begun], Elements(run.graph.topology[..at]))
    ensures var n := run.graph.topology[begun];
            Progress(run, runId, mode, events + [NodeStarted(runId, n)],
                     log.(started := log.started[n := |events|]), begun + 1, at, values)
  {
    hide WellFormed, OnTrack, Legal;
    NextIsNew(run.graph, begun);
    StartStep(run, runId, mode, events, log, run.graph.topology[begun]);
  }

  /** Announces the completion of `topology[at]`. */
  lemma FinishNode(run: Run, runId: string, mode: Mode, events: seq<WorkflowEvent>, log: Ledger,
                   begun: nat, at: nat, values: map<string, Value>, v: Value)
    requires WellFormed(run.graph) && Progress(run, runId, mode, events, log, begun, at, values) && at < begun
    requires run.graph.topology[at] in run.graph.nodes && Eval(run, run.graph.topology[at]) == Ok(v)
    ensures var n := run.graph.topology[at];
            Progress(run, runId, mode, events + [NodeCompleted(runId, n, v)],
                     log.(completed := log.completed[n := |events|]), begun, at + 1, values[n := v])
  {
    hide WellFormed, OnTrack, Legal, Eval;
    var t := run.graph.topology;
    NextIsNew(run.graph, at);
    OnTrackStep(run, at, values);
    assert t[at] in log.started by { assert t[at] == t[..begun][at]; }
    CompleteStep(run, runId, mode, events, log, t[at], v);
  }

  lemma ProgressInitially(run: Run, runId: string, mode: Mode)
    requires WellFormed(run.graph)
    ensures Progress(run, runId, mode, [RunStarted(runId, mode)], Ledger(map[], map[]), 0, 0, Initial(run))
  {
    hide WellFormed;
    InitialPrefix(run, run.graph.topology);
    var events := [RunStarted(runId, mode)];
    assert Entry(run, runId, mode, events, Ledger(map[], map[]), 0);
    assert run.graph.topology[..0] == [];
  }

  method StreamSequential(run: Run, runId: string)
    returns (events: seq<WorkflowEvent>, values: map<string, Value>, failure: Option<AiError>, ghost log: Ledger)
    requires WellFormed(run.graph)
    ensures Legal(run, runId, Sequential, events, log)
    ensures match failure
            case None => Progress(run, runId, Sequential, events, log, |run.graph.topology|, |run.graph.topology|,
                                  values)
            case Some(e) => RunFrom(run, run.graph.topology, 0, Initial(run)) == Err(e)
  {
    hide WellFormed, Legal, Eval, RunFrom, OnTrack;
    values := map[START := run.input];
    events := [RunStarted(runId, Sequential)];
    log := Ledger(map[], map[]);
    failure := None;
    ProgressInitially(run, runId, Sequential);
    for i := 0 to |run.graph.topology|
      invariant Progress(run, runId, Sequential, events, log, i, i, values)
    {
      var name := run.graph.topology[i];
      NextIsNew(run.graph, i);
      BeginNode(run, runId, Sequential, events, log, i, i, values);
      log := log.(started := log.started[name := |events|]);
      events := events + [NodeStarted(runId, name)];
      OnTrackExecutes(run, i, values);
      var output := ExecuteNode(run, name, values);
      if output.Err? {
        failure := Some(output.error);
        return;
      }
      FinishNode(run, runId, Sequential, events, log, i + 1, i, values, output.value);
      log := log.(completed := log.completed[name := |events|]);
      events := events + [NodeCompleted(runId, name, output.value)];
      values := values[name := output.value];
    }
  }

  lemma OnTrackExecutes(run: Run, at: nat, values: map<string, Value>)
    requires WellFormed(run.graph) && OnTrack(run, at, values) && at < |run.graph.topology|
    ensures run.graph.topology[at] in run.graph.nodes
    ensures ExecuteNode(run, run.graph.topology[at], values) == Eval(run, run.graph.topology[at])
    ensures Eval(run, run.graph.topology[at]).Err? ==>
              RunFrom(run, run.graph.topology, 0, Initial(run)) == Err(Eval(run, run.graph.topology[at]).error)
  {
    hide WellFormed, Eval, ExecuteNode, Prefix;
    TopologyIsTopological(run.graph);
    PrefixStep(run, run.graph.topology, at, values);
    OnTrackStep(run, at, values);
  }

  /** Announces every node of layer `i`, none of which waits for another of that layer. */
  method StartLayer(run: Run, runId: string, i: nat, events0: seq<WorkflowEvent>, ghost log0: Ledger,
                    ghost values: map<string, Value>)
    returns (events: seq<WorkflowEvent>, ghost log: Ledger)
    requires WellFormed(run.graph) && i < |run.graph.layers|
    requires Progress(run, runId, ParallelLayers, events0, log0, LayerBase(run.graph, i), LayerBase(run.graph, i),
                      values)
    ensures LayerBase(run.graph, i + 1) <= |run.graph.topology|
    ensures Progress(run, runId, ParallelLayers, events, log, LayerBase(run.graph, i + 1), LayerBase(run.graph, i),
                     values)
  {
    hide WellFormed, Legal, OnTrack;
    TopologyIsFlat(run.graph);
    LayerInTopology(run.graph, i);
    ghost var base := LayerBase(run.graph, i);
    events, log := events0, log0;
    for k := 0 to |run.graph.layers[i]|
      invariant Progress(run, runId, ParallelLayers, events, log, base + k, base, values)
    {
      var name := run.graph.layers[i][k];
      LayerReady(run.graph, i, k);
      LayerPrefix(run.graph, i);
      BeginNode(run, runId, ParallelLayers, events, log, base + k, base, values);
      log := log.(started := log.started[name := |events|]);
      events := events + [NodeStarted(runId, name)];
    }
  }

  lemma LayerPrefix(g: CompiledGraph, i: nat)
    requires g.topology == Flatten(g.layers) && i < |g.layers|
    ensures LayerBase(g, i) <= |g.topology| && g.topology[..LayerBase(g, i)] == Flatten(g.layers[..i])
  {
    assert g.layers == g.layers[..i] + g.layers[i..];
    FlattenAppend(g.layers[..i], g.layers[i..]);
  }

  /** One output of a layer: its completion is announced, or its error is that of the run. */
  lemma FinishOne(run: Run, runId: string, mode: Mode, events: seq<WorkflowEvent>, log: Ledger,
                  begun: nat, at: nat, values: map<string, Value>, output: Result<Value, AiError>)
    requires WellFormed(run.graph) && Progress(run, runId, mode, events, log, begun, at, values) && at < begun
    requires run.graph.topology[at] in run.graph.nodes && Eval(run, run.graph.topology[at]) == output
    ensures Legal(run, runId, mode, events, log)
    ensures match output
            case Ok(v) =>
              var n := run.graph.topology[at];
              Progress(run, runId, mode, events + [NodeCompleted(runId, n, v)],
                       log.(completed := log.completed[n := |events|]), begun, at + 1, values[n := v])
            case Err(e) => RunFrom(run, run.graph.topology, 0, Initial(run)) == Err(e)
  {
    ProgressParts(run, runId, mode, events, log, begun, at, values);
    OnTrackStep(run, at, values);
    hide WellFormed, Legal, OnTrack, Eval, RunFrom;
    if output.Ok? { FinishNode(run, runId, mode, events, log, begun, at, values, output.value); }
  }

  /** Emits completions in layer order, up to the first failed output. */
  method FinishLayer(run: Run, runId: string, i: nat, outputs: seq<Result<Value, AiError>>,
                     events0: seq<WorkflowEvent>, ghost log0: Ledger, values0: map<string, Value>)
    returns (events: seq<WorkflowEvent>, values: map<string, Value>, failure: Option<AiError>, ghost log: Ledger)
    requires WellFormed(run.graph) && i < |run.graph.layers| && |outputs| == |run.graph.layers[i]|
    requires forall k | 0 <= k < |outputs| ::
               run.graph.layers[i][k] in run.graph.nodes && outputs[k] == Eval(run, run.graph.layers[i][k])
    requires Progress(run, runId, ParallelLayers, events0, log0, LayerBase(run.graph, i + 1), LayerBase(run.graph, i),
                      values0)
    ensures Legal(run, runId, ParallelLayers, events, log)
    ensures match failure
            case None => Progress(run, runId, ParallelLayers, events, log, LayerBase(run.graph, i + 1),
                                  LayerBase(run.graph, i + 1), values)
            case Some(e) => RunFrom(run, run.graph.topology, 0, Initial(run)) == Err(e)
  {
    hide WellFormed, Progress, Eval, RunFrom, Legal, LayerBase;
    TopologyIsFlat(run.graph);
    LayerInTopology(run.graph, i);
    ghost var base, end := LayerBase(run.graph, i), LayerBase(run.graph, i + 1);
    events, values, failure, log := events0, values0, None, log0;
    for k := 0 to |outputs|
      invariant Progress(run, runId, ParallelLayers, events, log, end, base + k, values)
    {
      var name := run.graph.layers[i][k];
      assert run.graph.topology[base + k] == name;
      FinishOne(run, runId, ParallelLayers, events, log, end, base + k, values, outputs[k]);
      if outputs[k].Err? {
        failure := Some(outputs[k].error);
        return;
      }
      log := log.(completed := log.completed[name := |events|]);
      events := events + [NodeCompleted(runId, name, outputs[k].value)];
      values := values[name := outputs[k].value];
    }
    ProgressParts(run, runId, ParallelLayers, events, log, end, end, values);
  }

  lemma ProgressParts(run: Run, runId: string, mode: Mode, events: seq<WorkflowEvent>, log: Ledger,
                      begun: nat, at: nat, values: map<string, Value>)
    requires WellFormed(run.graph) && Progress(run, runId, mode, events, log, begun, at, values)
    ensures Legal(run, runId, mode, events, log) && OnTrack(run, at, values)
  {
    hide WellFormed, Legal, OnTrack;
  }

  method StreamParallel(run: Run, runId: string)
    returns (events: seq<WorkflowEvent>, values: map<string, Value>, failure: Option<AiError>, ghost log: Ledger)
    requires WellFormed(run.graph)
    ensures Legal(run, runId, ParallelLayers, events, log)
    ensures match failure
            case None => Progress(run, runId, ParallelLayers, events, log, |run.graph.topology|, |run.graph.topology|,
                                  values)
            case Some(e) => || RunFrom(run, run.graph.topology, 0, Initial(run)) == Err(e)
                            || exists i :: run.checks(BeforeLayer(i)) == Some(e)
  {
    hide WellFormed, Legal, Eval, RunFrom, OnTrack, Prefix;
    var layers := run.graph.layers;
    values := map[START := run.input];
    events := [RunStarted(runId, ParallelLayers)];
    log := Ledger(map[], map[]);
    failure := None;
    ProgressInitially(run, runId, ParallelLayers);
    assert layers[..0] == [];
    for i := 0 to |layers|
      invariant failure.None?
      invariant Progress(run, runId, ParallelLayers, events, log, LayerBase(run.graph, i), LayerBase(run.graph, i),
                         values)
    {
      if run.checks(BeforeLayer(i)).Some? {
        failure := Some(run.checks(BeforeLayer(i)).value);
        return;
      }
      events, log := StartLayer(run, runId, i, events, log, values);
      OnTrackPrefix(run, LayerBase(run.graph, i), values);
      var outputs := ExecuteLayer(run, i, values);
      events, values, failure, log := FinishLayer(run, runId, i, outputs, events, log, values);
      if failure.Some? {
        return;
      }
    }
    assert layers[..|layers|] == layers;
    TopologyIsFlat(run.graph);
  }

  /** The whole stream: either a complete run whose output is that of `invoke`, or a legal prefix and its error. */
  method Stream(run: Run, runId: string, mode: Mode)
    returns (events: seq<WorkflowEvent>, failure: Option<AiError>, ghost log: Ledger)
    requires WellFormed(run.graph)
    ensures failure.None? ==>
              && |events| > 0 && events[|events| - 1].RunCompleted?
              && CompleteRun(run, runId, mode, events, log, events[|events| - 1].output)
              && Outcome(run) == Ok(events[|events| - 1].output)
    ensures failure.Some? ==> events == [] || Legal(run, runId, mode, events, log)
    ensures failure.Some? ==>
              Outcome(run) == Err(failure.value) || exists i :: run.checks(BeforeLayer(i)) == Some(failure.value)
    ensures failure.Some? && mode.Sequential? ==> Outcome(run) == Err(failure.value)
  {
    hide WellFormed, Legal, Eval, RunFrom, CollectInputs, EvalEnd;
    log := Ledger(map[], map[]);
    if run.checks(AtEntry).Some? {
      return [], Some(run.checks(AtEntry).value), log;
    }
    var values;
    if mode.Sequential? {
      events, values, failure, log := StreamSequential(run, runId);
    } else {
      events, values, failure, log := StreamParallel(run, runId);
    }
    if failure.Some? {
      return;
    }
    var t := run.graph.topology;
    AllDone(run, values);
    assert t[..|t|] == t;
    CollectEnd(run, values);
    var output := CollectInputs(END, run.graph.incoming, values);
    ghost var before := events;
    LegalNonEmpty(run, runId, mode, events, log);
    events := events + [RunCompleted(runId, output.value)];
    assert events[..|events| - 1] == before;
  }

  lemma AllDone(run: Run, values: map<string, Value>)
    requires WellFormed(run.graph) && OnTrack(run, |run.graph.topology|, values)
    ensures RunFrom(run, run.graph.topology, 0, Initial(run)) == Ok(values)
    ensures Prefix(run, run.graph.topology, |run.graph.topology|, values)
    ensures Elements(run.graph.topology) == run.graph.nodes.Keys
  {
  }

  lemma LegalNonEmpty(run: Run, runId: string, mode: Mode, events: seq<WorkflowEvent>, log: Ledger)
    requires WellFormed(run.graph) && Legal(run, runId, mode, events, log)
    ensures |events| > 0
  {
  }

  // --------------------------------------------------------------- reading the protocol off the events

  /** In a complete run every node starts, then completes. */
  lemma EachNodeRuns(run: Run, runId: string, mode: Mode, events: seq<WorkflowEvent>, log: Ledger, output: Value,
                     n: string)
    requires WellFormed(run.graph) && CompleteRun(run, runId, mode, events, log, output) && n in run.graph.nodes
    ensures exists i, j :: 0 < i < j < |events| - 1 && events[i] == NodeStarted(runId, n)
                           && events[j].NodeCompleted? && events[j].node == n
  {
    hide WellFormed, Entry;
    var before := events[..|events| - 1];
    assert StartedWell(run.graph, runId, before, log, n) && CompletedWell(before, log, n);
    assert events[log.started[n]] == NodeStarted(runId, n) && log.started[n] != 0;
    assert events[log.completed[n]].node == n;
  }

  ghost predicate SameMilestone(a: WorkflowEvent, b: WorkflowEvent) {
    || (a.NodeStarted? && b.NodeStarted? && a.node == b.node)
    || (a.NodeCompleted? && b.NodeCompleted? && a.node == b.node)
  }

  /** ... and no node starts or completes twice. */
  lemma NoNodeTwice(run: Run, runId: string, mode: Mode, events: seq<WorkflowEvent>, log: Ledger, i: nat, j: nat)
    requires WellFormed(run.graph) && Legal(run, runId, mode, events, log) && i < |events| && j < |events|
    requires SameMilestone(events[i], events[j])
    ensures i == j
  {
    assert Entry(run, runId, mode, events, log, i) && Entry(run, runId, mode, events, log, j);
    hide WellFormed, Legal, Eval;
  }

  /** The source of every edge completes before its target starts. */
  lemma SourceBeforeTarget(run: Run, runId: string, mode: Mode, events: seq<WorkflowEvent>, log: Ledger,
                           s: string, n: string, i: nat, j: nat)
    requires WellFormed(run.graph) && Legal(run, runId, mode, events, log)
    requires i < |events| && events[i].NodeStarted? && events[i].node == n
    requires j < |events| && events[j].NodeCompleted? && events[j].node == s
    requires n in run.graph.incoming && s in run.graph.incoming[n] && s != START
    ensures j < i
  {
    hide WellFormed, Eval;
    assert Entry(run, runId, mode, events, log, i) && Entry(run, runId, mode, events, log, j);
    assert StartedWell(run.graph, runId, events, log, n);
  }
}
