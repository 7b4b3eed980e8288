/** What execution computes: recursive evaluation of the DAG, whatever the order. */
module ExecuteLaws {
  import opened Prelude
  import opened Workflow
  import opened Compile
  import opened Execute

  /** The value of END: the join of the reference results of its sources. */
  ghost function EvalEnd(run: Run): Result<Value, AiError>
    requires WellFormed(run.graph)
  {
    EndSourcesEarlier(run.graph);
    Join(END, EvalSources(run, |run.graph.topology|, run.graph.incoming[END]))
  }

  ghost predicate Aborted(run: Run) {
    run.checks(AtEntry).Some?
  }

  /** With every node present, END collects the reference value of its sources. */
  lemma CollectEnd(run: Run, values: map<string, Value>)
    requires WellFormed(run.graph) && Prefix(run, run.graph.topology, |run.graph.topology|, values)
    ensures CollectInputs(END, run.graph.incoming, values) == EvalEnd(run)
    ensures EvalEnd(run).Ok?
  {
    EndInputs(run, values);
    EndSourcesEarlier(run.graph);
    hide WellFormed, EvalSources, Gather;
    GatherAgrees(run, |run.graph.topology|, END, run.graph.incoming[END], values);
  }

  lemma EndInputs(run: Run, values: map<string, Value>)
    requires WellFormed(run.graph) && Prefix(run, run.graph.topology, |run.graph.topology|, values)
    ensures END in run.graph.incoming && |run.graph.incoming[END]| > 0
    ensures forall s | s in run.graph.incoming[END] :: s in values
  {
    var t := run.graph.topology;
    assert t[..|t|] == t;
    assert SourcesIn(run.graph, END, run.graph.nodes.Keys);
  }

  /** `invoke` is recursive evaluation: the value of END, or the first failing node's error in topology order. */
  lemma OutcomeIsEvaluation(run: Run)
    requires WellFormed(run.graph) && !Aborted(run)
    ensures Elements(run.graph.topology) == run.graph.nodes.Keys
    ensures match Outcome(run)
            case Ok(v) => AllSucceed(run, run.graph.topology, 0, |run.graph.topology|) && EvalEnd(run) == Ok(v)
            case Err(e) => FirstError(run, run.graph.topology, 0, e)
  {
    TopologyIsTopological(run.graph);
    hide WellFormed, Prefix, EvalEnd, RunFrom, CollectInputs;
    var t := run.graph.topology;
    InitialPrefix(run, t);
    RunFromAgrees(run, t, 0, Initial(run));
    match RunFrom(run, t, 0, Initial(run))
    case Ok(values) => CollectEnd(run, values);
    case Err(_) =>
  }

  /** Every topological order computes the same values, and fails exactly when another does. */
  lemma OrderDoesNotMatter(run: Run, a: seq<string>, b: seq<string>)
    requires WellFormed(run.graph) && IsTopological(run.graph, a) && IsTopological(run.graph, b)
    ensures var ra, rb := RunFrom(run, a, 0, Initial(run)), RunFrom(run, b, 0, Initial(run));
            (ra.Ok? <==> rb.Ok?) && (ra.Ok? ==> ra.value == rb.value)
  {
    hide WellFormed, RunFrom, IsTopological;
    InitialPrefix(run, a);
    InitialPrefix(run, b);
    RunFromAgrees(run, a, 0, Initial(run));
    RunFromAgrees(run, b, 0, Initial(run));
    SameNodes(run.graph, a, b);
    var ra, rb := RunFrom(run, a, 0, Initial(run)), RunFrom(run, b, 0, Initial(run));
    if ra.Err? { FailureShows(run, a, b, ra.error); }
    if rb.Err? { FailureShows(run, b, a, rb.error); }
    if ra.Ok? && rb.Ok? {
      assert a[..|a|] == a && b[..|b|] == b;
      SameValues(run, ra.value, rb.value);
    }
  }

  lemma SameNodes(g: CompiledGraph, a: seq<string>, b: seq<string>)
    requires IsTopological(g, a) && IsTopological(g, b)
    ensures Elements(a) == g.nodes.Keys == Elements(b)
  {
  }

  lemma FailureShows(run: Run, a: seq<string>, b: seq<string>, e: AiError)
    requires WellFormed(run.graph) && Elements(a) == run.graph.nodes.Keys == Elements(b)
    requires FirstError(run, a, 0, e)
    ensures !AllSucceed(run, b, 0, |b|)
  {
    hide WellFormed, Eval;
    var k :| 0 <= k < |a| && a[k] in run.graph.nodes && Eval(run, a[k]) == Err(e);
    assert a[k] in Elements(b);
    var j :| 0 <= j < |b| && b[j] == a[k];
    assert !Eval(run, b[j]).Ok?;
  }

  lemma SameValues(run: Run, u: map<string, Value>, v: map<string, Value>)
    requires WellFormed(run.graph) && Agrees(run, u) && Agrees(run, v) && u.Keys == v.Keys
    ensures u == v
  {
    hide WellFormed, Eval;
    forall n | n in u ensures u[n] == v[n] {
    }
  }

  // --------------------------------------------------------------- only nodes and the context can fail

  /** `e` was raised by a context check around node `n`, or by the node itself given all its inputs. */
  ghost predicate OwnError(run: Run, n: string, e: AiError)
    requires WellFormed(run.graph)
  {
    && n in run.graph.nodes && GivenTo(run, n).Ok?
    && (|| run.checks(BeforeNode(n)) == Some(e)
        || run.checks(AfterNode(n)) == Some(e)
        || run.graph.nodes[n](GivenTo(run, n).value) == Err(e))
  }

  lemma {:induction false} RunErrorIsOwn(run: Run, order: seq<string>, i: nat, values: map<string, Value>)
    requires WellFormed(run.graph) && IsTopological(run.graph, order) && i <= |order| && Prefix(run, order, i, values)
    requires RunFrom(run, order, i, values).Err?
    ensures exists n :: OwnError(run, n, RunFrom(run, order, i, values).error)
    decreases |order| - i
  {
    hide WellFormed, Prefix, IsTopological, Eval, CollectInputs, SourcesJoined;
    PrefixStep(run, order, i, values);
    var n := order[i];
    var output := ExecuteNode(run, n, values);
    if output.Ok? {
      RunErrorIsOwn(run, order, i + 1, values[n := output.value]);
    } else {
      assert OwnError(run, n, output.error);
    }
  }

  /** An accepted graph never fails for a missing or empty input: every error is a node's own or the context's. */
  lemma NeverMissingInput(run: Run)
    requires WellFormed(run.graph) && Outcome(run).Err?
    ensures run.checks(AtEntry) == Some(Outcome(run).error) || exists n :: OwnError(run, n, Outcome(run).error)
  {
    hide WellFormed, Prefix, IsTopological, RunFrom, EvalEnd, CollectInputs;
    var t := run.graph.topology;
    TopologyIsTopological(run.graph);
    InitialPrefix(run, t);
    RunFromAgrees(run, t, 0, Initial(run));
    match RunFrom(run, t, 0, Initial(run))
    case Ok(values) => CollectEnd(run, values);
    case Err(_) => if !Aborted(run) { RunErrorIsOwn(run, t, 0, Initial(run)); }
  }
}
