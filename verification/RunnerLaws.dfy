/** Recovery refines straight-through execution, and interrupts gate their nodes. */
module RunnerLaws {
  import opened Prelude
  import opened Workflow
  import opened Compile
  import opened Execute
  import opened ExecuteLaws
  import opened Runner

  function NoError(p: Probe): Option<AiError> {
    None
  }

  /** The undisturbed run: no context abort, and the given inputs replaced by a human. */
  function Plain(r: WorkflowRunner, input: Value, overrides: map<string, Value>): Run {
    Run(r.graph, NoError, input, overrides)
  }

  ghost predicate ValidRunner(r: WorkflowRunner) {
    WellFormed(r.graph) && r.interruptBefore <= r.graph.nodes.Keys
  }

  // --------------------------------------------------------------- overriding a node changes nothing before it

  ghost predicate SameBelow(a: Run, b: Run, bound: nat) {
    && a.graph == b.graph && a.checks == b.checks && a.input == b.input
    && forall m | m in a.graph.nodes && Position(a.graph.topology, m) < bound ::
         (m in a.overrides <==> m in b.overrides) && (m in a.overrides ==> a.overrides[m] == b.overrides[m])
  }

  lemma {:induction false} EvalSame(a: Run, b: Run, bound: nat, n: string)
    requires WellFormed(a.graph) && SameBelow(a, b, bound)
    requires n in a.graph.nodes && Position(a.graph.topology, n) < bound
    ensures Eval(a, n) == Eval(b, n)
    decreases Position(a.graph.topology, n), 1, 0
  {
    hide WellFormed;
    SourcesEarlier(a.graph, n);
    EvalSourcesSame(a, b, bound, Position(a.graph.topology, n), a.graph.incoming[n]);
  }

  lemma {:induction false} EvalSourcesSame(a: Run, b: Run, bound: nat, at: nat, sources: seq<string>)
    requires WellFormed(a.graph) && SameBelow(a, b, bound) && at <= bound && AllEarlier(a.graph, sources, at)
    ensures EvalSources(a, at, sources) == EvalSources(b, at, sources)
    decreases at, 0, |sources|
  {
    hide WellFormed, Eval;
    if sources != [] {
      assert sources[0] in sources && Earlier(a.graph, sources[0], at);
      if sources[0] != START { EvalSame(a, b, bound, sources[0]); }
      assert forall s | s in sources[1..] :: s in sources;
      EvalSourcesSame(a, b, bound, at, sources[1..]);
    }
  }

  lemma PrefixSame(a: Run, b: Run, i: nat, values: map<string, Value>)
    requires WellFormed(a.graph) && SameBelow(a, b, i) && i <= |a.graph.topology|
    requires Prefix(a, a.graph.topology, i, values)
    ensures Prefix(b, a.graph.topology, i, values)
  {
    DistinctTopology(a.graph);
    hide WellFormed, Eval;
    forall n | n in values && n != START ensures n in a.graph.nodes && Eval(b, n) == Ok(values[n]) {
      assert n in Elements(a.graph.topology[..i]);
      var j :| 0 <= j < i && a.graph.topology[j] == n;
      PositionOf(a.graph.topology, j);
      EvalSame(a, b, i, n);
    }
  }

  lemma DistinctTopology(g: CompiledGraph)
    requires WellFormed(g)
    ensures NoDuplicates(g.topology)
  {
  }

  // --------------------------------------------------------------- sound checkpoints

  /** The values are START plus exactly the first `nextNodeIndex` nodes, each with its reference result. */
  ghost predicate Progressed(r: WorkflowRunner, cp: WorkflowCheckpoint, input: Value, overrides: map<string, Value>)
    requires WellFormed(r.graph)
  {
    && cp.nextNodeIndex <= |r.graph.topology|
    && Prefix(Plain(r, input, overrides), r.graph.topology, cp.nextNodeIndex, cp.values)
    && overrides.Keys <= Elements(r.graph.topology[..cp.nextNodeIndex])
  }

  /** An interrupt mark names the next node, and that node is a gated one. */
  ghost predicate Marked(r: WorkflowRunner, cp: WorkflowCheckpoint, mark: Option<string>) {
    mark.Some? ==> && cp.nextNodeIndex < |r.graph.topology|
                   && mark.value == r.graph.topology[cp.nextNodeIndex] && mark.value in r.interruptBefore
  }

  ghost predicate SoundCheckpoint(r: WorkflowRunner, cp: WorkflowCheckpoint, runId: string, input: Value,
                                  overrides: map<string, Value>)
    requires WellFormed(r.graph)
  {
    && cp.version == 1 && cp.graphRevision == r.revision && cp.runId == runId
    && Progressed(r, cp, input, overrides) && Marked(r, cp, cp.interruptedBefore)
  }

  /** The human input, if any, recorded as an override. */
  function Recorded(name: string, given: Option<Value>): map<string, Value> {
    if given.Some? then map[name := given.value] else map[]
  }

  lemma NextNotOverridden(r: WorkflowRunner, cp: WorkflowCheckpoint, input: Value, overrides: map<string, Value>)
    requires ValidRunner(r) && Progressed(r, cp, input, overrides) && cp.nextNodeIndex < |r.graph.topology|
    ensures var name := r.graph.topology[cp.nextNodeIndex];
            name in r.graph.nodes && name !in overrides && name != START
  {
    TopologyIsTopological(r.graph);
    TopologicalAt(r.graph, r.graph.topology, cp.nextNodeIndex);
    StartIsNoNode(r.graph);
    DistinctTopology(r.graph);
    hide WellFormed, Prefix;
  }

  lemma OverrideBelow(r: WorkflowRunner, input: Value, overrides: map<string, Value>, given: Option<Value>, i: nat)
    requires i < |r.graph.topology| && Position(r.graph.topology, r.graph.topology[i]) == i
    ensures SameBelow(Plain(r, input, overrides), Plain(r, input, overrides + Recorded(r.graph.topology[i], given)), i)
  {
    hide Position;
  }

  lemma OverrideNext(r: WorkflowRunner, cp: WorkflowCheckpoint, input: Value, overrides: map<string, Value>,
                     given: Option<Value>)
    requires ValidRunner(r) && Progressed(r, cp, input, overrides) && cp.nextNodeIndex < |r.graph.topology|
    ensures var name := r.graph.topology[cp.nextNodeIndex];
            Prefix(Plain(r, input, overrides + Recorded(name, given)), r.graph.topology, cp.nextNodeIndex, cp.values)
  {
    hide WellFormed, Prefix, SameBelow, NoDuplicates;
    var t, i := r.graph.topology, cp.nextNodeIndex;
    DistinctTopology(r.graph);
    PositionOf(t, i);
    OverrideBelow(r, input, overrides, given, i);
    PrefixSame(Plain(r, input, overrides), Plain(r, input, overrides + Recorded(t[i], given)), i, cp.values);
  }

  /** A node that runs to success leaves a checkpoint with its reference result, human input included. */
  lemma StepSound(r: WorkflowRunner, cp: WorkflowCheckpoint, input: Value, overrides: map<string, Value>,
                  given: Option<Value>,
                  faults: Faults, output: Value)
    requires ValidRunner(r) && Progressed(r, cp, input, overrides) && cp.nextNodeIndex < |r.graph.topology|
    requires var name := r.graph.topology[cp.nextNodeIndex];
             RunNode(r, faults, cp.nextNodeIndex, name, NodeInput(r, cp, name, given)) == Ok(output)
    ensures var name := r.graph.topology[cp.nextNodeIndex];
            Progressed(r, Advanced(cp, name, output), input, overrides + Recorded(name, given))
  {
    hide WellFormed, Prefix, CollectInputs;
    var t, i := r.graph.topology, cp.nextNodeIndex;
    var name := t[i];
    var run := Plain(r, input, overrides + Recorded(name, given));
    NextNotOverridden(r, cp, input, overrides);
    OverrideNext(r, cp, input, overrides, given);
    TopologyIsTopological(r.graph);
    PrefixStep(run, t, i, cp.values);
    assert ExecuteNode(run, name, cp.values) == Ok(output);
    assert t[..i + 1] == t[..i] + [name];
  }

  // --------------------------------------------------------------- what one drive does

  ghost predicate Untouched(a: Store, b: Store, runId: string) {
    forall id | id != runId :: (id in a <==> id in b) && (id in a ==> a[id] == b[id])
  }

  /** The stored checkpoint is the one in hand, up to its interrupt mark. */
  ghost predicate InHand(r: WorkflowRunner, store: Store, cp: WorkflowCheckpoint, input: Value, overrides: map<string,
                         Value>)
    requires WellFormed(r.graph)
  {
    && cp.runId in store
    && SoundCheckpoint(r, store[cp.runId], cp.runId, input, overrides)
    && store[cp.runId].(interruptedBefore := None) == cp
  }

  /** Everything a call guarantees about its run. */
  ghost predicate SoundEffect(r: WorkflowRunner, cp: WorkflowCheckpoint, approved: Option<string>, store: Store,
                              input: Value, overrides: map<string, Value>, e: Effect)
    requires WellFormed(r.graph)
  {
    && Untouched(store, e.store, cp.runId)
    && (cp.runId in e.store ==>
          && SoundCheckpoint(r, e.store[cp.runId], cp.runId, input, overrides + e.landed)
          && cp.nextNodeIndex <= e.store[cp.runId].nextNodeIndex
          && Extends(cp.values, e.store[cp.runId].values))
    && (e.reply.Completed? ==>
          && e.reply.runId == cp.runId && cp.runId !in e.store
          && Outcome(Plain(r, input, overrides + e.landed)) == Ok(e.reply.output))
    && (e.reply.Interrupted? ==>
          && e.reply.runId == cp.runId && cp.runId in e.store
          && e.store[cp.runId].interruptedBefore == Some(e.reply.beforeNode))
    && (forall k | 0 <= k < |e.ran| && e.ran[k].node in r.interruptBefore :: approved == Some(e.ran[k].node))
    && (forall n | n in e.landed :: approved == Some(n))
  }

  ghost predicate Extends(a: map<string, Value>, b: map<string, Value>) {
    forall n | n in a :: n in b && b[n] == a[n]
  }

  /** All nodes done: what END collects is the output of the undisturbed run. */
  lemma FinishSound(r: WorkflowRunner, cp: WorkflowCheckpoint, input: Value, overrides: map<string, Value>)
    requires ValidRunner(r) && Progressed(r, cp, input, overrides) && cp.nextNodeIndex == |r.graph.topology|
    ensures CollectInputs(END, r.graph.incoming, cp.values) == Outcome(Plain(r, input, overrides))
    ensures Outcome(Plain(r, input, overrides)).Ok?
  {
    hide WellFormed, Prefix, RunFrom, CollectInputs, EvalEnd;
    var run, t := Plain(r, input, overrides), r.graph.topology;
    CollectEnd(run, cp.values);
    OutcomeIsEvaluation(run);
    AllOkFromPrefix(run, cp.values);
    if Outcome(run).Err? { NoFirstError(run, Outcome(run).error); }
  }

  lemma AllOkFromPrefix(run: Run, values: map<string, Value>)
    requires WellFormed(run.graph) && Prefix(run, run.graph.topology, |run.graph.topology|, values)
    ensures Elements(run.graph.topology) == run.graph.nodes.Keys
    ensures AllSucceed(run, run.graph.topology, 0, |run.graph.topology|)
  {
    var t := run.graph.topology;
    TopologyIsTopological(run.graph);
    StartIsNoNode(run.graph);
    hide WellFormed, Eval;
    assert t[..|t|] == t;
    forall k | 0 <= k < |t| ensures t[k] in run.graph.nodes && Eval(run, t[k]).Ok? {
      assert t[k] in Elements(t);
    }
  }

  lemma NoFirstError(run: Run, e: AiError)
    requires WellFormed(run.graph) && Elements(run.graph.topology) == run.graph.nodes.Keys
    requires AllSucceed(run, run.graph.topology, 0, |run.graph.topology|)
    ensures !FirstError(run, run.graph.topology, 0, e)
  {
    hide WellFormed, Eval;
  }

  /** A call that stops where it stands leaves everything as it was. */
  lemma StopSound(r: WorkflowRunner, cp: WorkflowCheckpoint, approved: Option<string>, store: Store, input: Value,
                  overrides: map<string, Value>, error: AiError, ran: seq<Ran>)
    requires ValidRunner(r) && InHand(r, store, cp, input, overrides)
    requires forall k | 0 <= k < |ran| && ran[k].node in r.interruptBefore :: approved == Some(ran[k].node)
    ensures SoundEffect(r, cp, approved, store, input, overrides, Effect(Failed(error), store, ran, map[]))
  {
    hide WellFormed, Prefix;
    assert overrides + map[] == overrides;
  }

  /** An interrupt stores the checkpoint in hand with a mark for the next, gated node. */
  lemma InterruptSound(r: WorkflowRunner, cp: WorkflowCheckpoint, approved: Option<string>, store: Store, input: Value,
                       overrides: map<string, Value>, fault: Fault, reply: Reply)
    requires ValidRunner(r) && InHand(r, store, cp, input, overrides) && cp.nextNodeIndex < |r.graph.topology|
    requires r.graph.topology[cp.nextNodeIndex] in r.interruptBefore
    requires reply.Failed? || (fault.Fine?
                               && reply == Interrupted(cp.runId, r.graph.topology[cp.nextNodeIndex], r.revision))
    ensures var marked := cp.(interruptedBefore := Some(r.graph.topology[cp.nextNodeIndex]));
            SoundEffect(r, cp, approved, store, input, overrides, Effect(reply, Saved(store, marked, fault), [], map[]))
  {
    hide WellFormed, Prefix;
    assert overrides + map[] == overrides;
  }

  /** The end of a run: the output is that of the undisturbed run, and the checkpoint goes. */
  lemma EndSound(r: WorkflowRunner, cp: WorkflowCheckpoint, approved: Option<string>, store: Store, input: Value,
                 overrides: map<string, Value>, fault: Fault, output: Value, reply: Reply)
    requires ValidRunner(r) && InHand(r, store, cp, input, overrides)
    requires Outcome(Plain(r, input, overrides)) == Ok(output)
    requires reply.Failed? || (fault.Fine? && reply == Completed(cp.runId, output))
    ensures SoundEffect(r, cp, approved, store, input, overrides,
                        Effect(reply, Deleted(store, cp.runId, fault), [], map[]))
  {
    hide WellFormed, Prefix, Outcome;
    assert overrides + map[] == overrides;
  }

  /** One executed node whose save may or may not have landed. */
  lemma StepHand(r: WorkflowRunner, cp: WorkflowCheckpoint, store: Store, input: Value, overrides: map<string, Value>,
                 given: Option<Value>, faults: Faults, output: Value)
    requires ValidRunner(r) && InHand(r, store, cp, input, overrides) && cp.nextNodeIndex < |r.graph.topology|
    requires var name := r.graph.topology[cp.nextNodeIndex];
             RunNode(r, faults, cp.nextNodeIndex, name, NodeInput(r, cp, name, given)) == Ok(output)
    ensures var name := r.graph.topology[cp.nextNodeIndex];
            var next := Advanced(cp, name, output);
            && InHand(r, store[cp.runId := next], next, input, overrides + Recorded(name, given))
            && Extends(cp.values, next.values)
            && Untouched(store, store[cp.runId := next], cp.runId)
  {
    hide WellFormed, Prefix, RunNode, NodeInput;
    StepSound(r, cp, input, overrides, given, faults, output);
    NextNotInValues(r, cp, input, overrides);
  }

  lemma NextNotInValues(r: WorkflowRunner, cp: WorkflowCheckpoint, input: Value, overrides: map<string, Value>)
    requires ValidRunner(r) && Progressed(r, cp, input, overrides) && cp.nextNodeIndex < |r.graph.topology|
    ensures r.graph.topology[cp.nextNodeIndex] !in cp.values
  {
    NextNotOverridden(r, cp, input, overrides);
    DistinctTopology(r.graph);
    hide WellFormed, Agrees;
  }

  /** A step that did not continue: its save failed, with or without effect. */
  lemma StepStopSound(r: WorkflowRunner, cp: WorkflowCheckpoint, approved: Option<string>, store: Store, input: Value,
                      overrides: map<string, Value>, next: WorkflowCheckpoint, landed: map<string, Value>,
                          ran: seq<Ran>, error: AiError)
    requires ValidRunner(r) && InHand(r, store[cp.runId := next], next, input, overrides + landed)
    requires next.runId == cp.runId && cp.nextNodeIndex <= next.nextNodeIndex && Extends(cp.values, next.values)
    requires forall k | 0 <= k < |ran| && ran[k].node in r.interruptBefore :: approved == Some(ran[k].node)
    requires forall n | n in landed :: approved == Some(n)
    ensures SoundEffect(r, cp, approved, store, input, overrides,
                        Effect(Failed(error), store[cp.runId := next], ran, landed))
  {
    hide WellFormed, Prefix;
  }

  /** A step followed by the rest of the drive. */
  lemma StepThenSound(r: WorkflowRunner, cp: WorkflowCheckpoint, approved: Option<string>, store: Store, input: Value,
                      overrides: map<string, Value>, next: WorkflowCheckpoint, landed: map<string, Value>,
                          ran: seq<Ran>, rest: Effect)
    requires ValidRunner(r)
    requires next.runId == cp.runId && cp.nextNodeIndex <= next.nextNodeIndex && Extends(cp.values, next.values)
    requires SoundEffect(r, next, approved, store[cp.runId := next], input, overrides + landed, rest)
    requires forall k | 0 <= k < |ran| && ran[k].node in r.interruptBefore :: approved == Some(ran[k].node)
    requires forall n | n in landed :: approved == Some(n)
    ensures SoundEffect(r, cp, approved, store, input, overrides,
                        Effect(rest.reply, rest.store, ran + rest.ran, landed + rest.landed))
  {
    hide WellFormed, SoundCheckpoint, Outcome;
    assert overrides + (landed + rest.landed) == (overrides + landed) + rest.landed;
  }

  /** Every drive, under any faults, keeps the run sound. */
  lemma {:induction false} DriveSound(r: WorkflowRunner, cp: WorkflowCheckpoint, approved: Option<string>,
                                      resumeInput: Option<Value>,
                                      store: Store, faults: Faults, input: Value, overrides: map<string, Value>)
    requires ValidRunner(r) && InHand(r, store, cp, input, overrides) && cp.nextNodeIndex <= |r.graph.topology|
    ensures SoundEffect(r, cp, approved, store, input, overrides, Driven(r, cp, approved, resumeInput, store, faults))
    decreases |r.graph.topology| - cp.nextNodeIndex
  {
    hide WellFormed, SoundEffect, Outcome, RunNode, CollectInputs, InHand;
    var i, t := cp.nextNodeIndex, r.graph.topology;
    HandProgressed(r, store, cp, input, overrides);
    if i == |t| {
      FinishSound(r, cp, input, overrides);
      var output := CollectInputs(END, r.graph.incoming, cp.values).value;
      var fault := faults(Deletion);
      EndSound(r, cp, approved, store, input, overrides, fault, output,
               if fault.Fine? then Completed(cp.runId, output) else Failed(fault.error));
    } else if ErrorAt(faults, Turn(i)).Some? {
      StopSound(r, cp, approved, store, input, overrides, ErrorAt(faults, Turn(i)).value, []);
    } else if t[i] in r.interruptBefore && approved != Some(t[i]) {
      var fault := faults(InterruptSave(i));
      InterruptSound(r, cp, approved, store, input, overrides, fault,
                     if fault.Fine? then Interrupted(cp.runId, t[i], r.revision) else Failed(fault.error));
    } else {
      DriveStep(r, cp, approved, resumeInput, store, faults, input, overrides);
    }
  }

  lemma {:induction false} DriveStep(r: WorkflowRunner, cp: WorkflowCheckpoint, approved: Option<string>,
                                     resumeInput: Option<Value>,
                                     store: Store, faults: Faults, input: Value, overrides: map<string, Value>)
    requires ValidRunner(r) && InHand(r, store, cp, input, overrides) && cp.nextNodeIndex < |r.graph.topology|
    requires ErrorAt(faults, Turn(cp.nextNodeIndex)).None?
    requires var name := r.graph.topology[cp.nextNodeIndex]; name in r.interruptBefore ==> approved == Some(name)
    ensures SoundEffect(r, cp, approved, store, input, overrides, Driven(r, cp, approved, resumeInput, store, faults))
    decreases |r.graph.topology| - cp.nextNodeIndex, 0
  {
    hide WellFormed, SoundEffect, Outcome, RunNode, NodeInput, InHand, Extends, Untouched;
    var i, name := cp.nextNodeIndex, r.graph.topology[cp.nextNodeIndex];
    var given := Given(approved, name, resumeInput);
    var inputs := NodeInput(r, cp, name, given);
    var output := RunNode(r, faults, i, name, inputs);
    var ran := Invocation(r, faults, i, name, inputs);
    if output.Err? {
      StopSound(r, cp, approved, store, input, overrides, output.error, ran);
    } else {
      var next := Advanced(cp, name, output.value);
      var fault := faults(StepSave(i));
      var landed := Recorded(name, given);
      StepHand(r, cp, store, input, overrides, given, faults, output.value);
      if fault.Fails? {
        StopSound(r, cp, approved, store, input, overrides, fault.error, ran);
      } else if fault.FailsAfter? {
        StepStopSound(r, cp, approved, store, input, overrides, next, landed, ran, fault.error);
      } else {
        var left := if approved == Some(name) then None else resumeInput;
        DriveSound(r, next, approved, left, store[cp.runId := next], faults, input, overrides + landed);
        StepThenSound(r, cp, approved, store, input, overrides, next, landed, ran,
                      Driven(r, next, approved, left, store[cp.runId := next], faults));
      }
    }
  }

  lemma HandProgressed(r: WorkflowRunner, store: Store, cp: WorkflowCheckpoint, input: Value, overrides: map<string,
                       Value>)
    requires WellFormed(r.graph) && InHand(r, store, cp, input, overrides)
    ensures Progressed(r, cp, input, overrides)
  {
  }
}
