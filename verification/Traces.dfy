/** What each node of a call was given, over whole histories. */
module Traces {
  import opened Prelude
  import opened Workflow
  import opened Compile
  import opened Execute
  import opened Runner
  import opened RunnerLaws
  import opened Histories

  /**
   * A node got the resume input if it was the approved one and there was one, and the results of its sources if not.
   */
  ghost predicate Fed(r: WorkflowRunner, run: Run, approved: Option<string>, resumeInput: Option<Value>, entry: Ran)
    requires WellFormed(r.graph)
  {
    && run.graph == r.graph && entry.node in r.graph.nodes
    && if approved == Some(entry.node) && resumeInput.Some? then entry.input == resumeInput.value
       else SourcesJoined(run, entry.node) == Ok(entry.input)
  }

  /** The invocations are the nodes of the topology from `i` on, one after the other, each with its due input. */
  ghost predicate FedInOrder(r: WorkflowRunner, run: Run, i: nat, approved: Option<string>,
                             resumeInput: Option<Value>, ran: seq<Ran>)
    requires WellFormed(r.graph)
  {
    forall k | 0 <= k < |ran| :: InTurn(r, i, ran, k) && Fed(r, run, approved, resumeInput, ran[k])
  }

  ghost predicate InTurn(r: WorkflowRunner, i: nat, ran: seq<Ran>, k: nat)
    requires k < |ran|
  {
    i + k < |r.graph.topology| && ran[k].node == r.graph.topology[i + k]
  }

  /** Names that stand at `i` or later. */
  ghost predicate From(r: WorkflowRunner, i: nat, names: set<string>)
    requires i <= |r.graph.topology|
  {
    names <= Elements(r.graph.topology[i..])
  }

  lemma LaterPosition(r: WorkflowRunner, i: nat, n: string)
    requires NoDuplicates(r.graph.topology) && i <= |r.graph.topology| && n in r.graph.topology[i..]
    ensures Position(r.graph.topology, n) >= i
  {
    var j :| 0 <= j < |r.graph.topology[i..]| && r.graph.topology[i..][j] == n;
    PositionOf(r.graph.topology, i + j);
  }

  /** What is put in later does not reach back. */
  lemma LaterOverrides(r: WorkflowRunner, input: Value, overrides: map<string, Value>, more: map<string, Value>, i: nat)
    requires NoDuplicates(r.graph.topology) && i <= |r.graph.topology| && From(r, i, more.Keys)
    ensures SameBelow(Plain(r, input, overrides), Plain(r, input, overrides + more), i)
  {
    hide Position;
    forall m | m in r.graph.nodes && Position(r.graph.topology, m) < i ensures m !in more {
      if m in more {
        LaterPosition(r, i, m);
      }
    }
  }

  lemma SourcesJoinedSame(a: Run, b: Run, n: string)
    requires WellFormed(a.graph) && n in a.graph.nodes && SameBelow(a, b, Position(a.graph.topology, n))
    ensures SourcesJoined(a, n) == SourcesJoined(b, n)
  {
    hide WellFormed, Eval;
    SourcesEarlier(a.graph, n);
    EvalSourcesSame(a, b, Position(a.graph.topology, n), Position(a.graph.topology, n), a.graph.incoming[n]);
  }

  /** The next node of a call gets its due input, whatever is put in at that node or later. */
  lemma NextFed(r: WorkflowRunner, cp: WorkflowCheckpoint, approved: Option<string>, resumeInput: Option<Value>,
                input: Value,
                overrides: map<string, Value>, more: map<string, Value>, v: Value)
    requires ValidRunner(r) && Progressed(r, cp, input, overrides) && cp.nextNodeIndex < |r.graph.topology|
    requires From(r, cp.nextNodeIndex, more.Keys)
    requires var name := r.graph.topology[cp.nextNodeIndex];
             NodeInput(r, cp, name, Given(approved, name, resumeInput)) == Ok(v)
    ensures Fed(r, Plain(r, input, overrides + more), approved, resumeInput, Ran(r.graph.topology[cp.nextNodeIndex], v))
  {
    hide WellFormed, Prefix, CollectInputs, SourcesJoined, SameBelow, From, NoDuplicates;
    var t, i := r.graph.topology, cp.nextNodeIndex;
    var plain := Plain(r, input, overrides);
    TopologyIsTopological(r.graph);
    PrefixStep(plain, t, i, cp.values);
    DistinctTopology(r.graph);
    PositionOf(t, i);
    LaterOverrides(r, input, overrides, more, i);
    SourcesJoinedSame(plain, Plain(r, input, overrides + more), t[i]);
  }

  /** Behind the approved node its input is spent, and no other node bears its name. */
  lemma FedAfter(r: WorkflowRunner, run: Run, i: nat, approved: Option<string>, resumeInput: Option<Value>,
                 ran: seq<Ran>)
    requires ValidRunner(r) && i < |r.graph.topology|
    requires FedInOrder(r, run, i + 1, approved, if approved == Some(r.graph.topology[i]) then None else resumeInput,
                        ran)
    ensures FedInOrder(r, run, i + 1, approved, resumeInput, ran)
  {
    DistinctTopology(r.graph);
    hide WellFormed, SourcesJoined;
    forall k | 0 <= k < |ran| ensures InTurn(r, i + 1, ran, k) && Fed(r, run, approved, resumeInput, ran[k]) {
      assert InTurn(r, i + 1, ran, k);
      assert ran[k].node != r.graph.topology[i];
    }
  }

  lemma FedCons(r: WorkflowRunner, run: Run, i: nat, approved: Option<string>, resumeInput: Option<Value>, first: Ran,
                rest: seq<Ran>)
    requires ValidRunner(r) && i < |r.graph.topology| && first.node == r.graph.topology[i]
    requires Fed(r, run, approved, resumeInput, first) && FedInOrder(r, run, i + 1, approved, resumeInput, rest)
    ensures FedInOrder(r, run, i, approved, resumeInput, [first] + rest)
  {
    hide WellFormed, Fed;
    var ran := [first] + rest;
    forall k | 0 <= k < |ran| ensures InTurn(r, i, ran, k) && Fed(r, run, approved, resumeInput, ran[k]) {
      if k > 0 {
        assert ran[k] == rest[k - 1] && InTurn(r, i + 1, rest, k - 1);
      }
    }
  }

  lemma FedOne(r: WorkflowRunner, run: Run, i: nat, approved: Option<string>, resumeInput: Option<Value>, ran: seq<Ran>)
    requires ValidRunner(r) && i < |r.graph.topology|
    requires ran == [] || (ran == [ran[0]] && ran[0].node == r.graph.topology[i]
                           && Fed(r, run, approved, resumeInput, ran[0]))
    ensures FedInOrder(r, run, i, approved, resumeInput, ran)
  {
    hide WellFormed, Fed;
  }

  lemma FromNext(r: WorkflowRunner, i: nat, name: string, given: Option<Value>, rest: map<string, Value>)
    requires i < |r.graph.topology| && name == r.graph.topology[i] && From(r, i + 1, rest.Keys)
    ensures From(r, i, (Recorded(name, given) + rest).Keys) && From(r, i, Recorded(name, given).Keys)
  {
    var t := r.graph.topology;
    assert t[i..] == [t[i]] + t[i + 1..];
  }

  /** Every drive, under any faults, gives each node it invokes its due input. */
  lemma {:induction false} DriveFeeds(r: WorkflowRunner, cp: WorkflowCheckpoint, approved: Option<string>,
                                      resumeInput: Option<Value>,
                                      store: Store, faults: Faults, input: Value, overrides: map<string, Value>)
    requires ValidRunner(r) && InHand(r, store, cp, input, overrides) && cp.nextNodeIndex <= |r.graph.topology|
    ensures var e := Driven(r, cp, approved, resumeInput, store, faults);
            && From(r, cp.nextNodeIndex, e.landed.Keys)
            && FedInOrder(r, Plain(r, input, overrides + e.landed), cp.nextNodeIndex, approved, resumeInput, e.ran)
    decreases |r.graph.topology| - cp.nextNodeIndex
  {
    hide WellFormed, RunNode, NodeInput, CollectInputs, InHand, Fed;
    var i := cp.nextNodeIndex;
    HandProgressed(r, store, cp, input, overrides);
    if i < |r.graph.topology| && ErrorAt(faults, Turn(i)).None?
       && (r.graph.topology[i] in r.interruptBefore ==> approved == Some(r.graph.topology[i])) {
      StepFeeds(r, cp, approved, resumeInput, store, faults, input, overrides);
    }
  }

  /** A step whose save did not go through is the last of its call. */
  lemma StepEnds(r: WorkflowRunner, cp: WorkflowCheckpoint, approved: Option<string>, resumeInput: Option<Value>,
                 store: Store, faults: Faults)
    requires cp.nextNodeIndex < |r.graph.topology| && ErrorAt(faults, Turn(cp.nextNodeIndex)).None?
    requires var name := r.graph.topology[cp.nextNodeIndex]; name in r.interruptBefore ==> approved == Some(name)
    requires var i, name := cp.nextNodeIndex, r.graph.topology[cp.nextNodeIndex];
             var output := RunNode(r, faults, i, name, NodeInput(r, cp, name, Given(approved, name, resumeInput)));
             output.Err? || !faults(StepSave(i)).Fine?
    ensures var i, name := cp.nextNodeIndex, r.graph.topology[cp.nextNodeIndex];
            var given, e := Given(approved, name, resumeInput), Driven(r, cp, approved, resumeInput, store, faults);
            && e.ran == Invocation(r, faults, i, name, NodeInput(r, cp, name, given))
            && (e.landed == map[] || e.landed == Recorded(name, given))
  {
    hide RunNode, NodeInput, Invocation, CollectInputs;
  }

  lemma StepGoesOn(r: WorkflowRunner, cp: WorkflowCheckpoint, approved: Option<string>, resumeInput: Option<Value>,
                   store: Store, faults: Faults, output: Value)
    requires cp.nextNodeIndex < |r.graph.topology| && ErrorAt(faults, Turn(cp.nextNodeIndex)).None?
    requires var name := r.graph.topology[cp.nextNodeIndex]; name in r.interruptBefore ==> approved == Some(name)
    requires var i, name := cp.nextNodeIndex, r.graph.topology[cp.nextNodeIndex];
             RunNode(r, faults, i, name, NodeInput(r, cp, name, Given(approved, name, resumeInput))) == Ok(output)
    requires faults(StepSave(cp.nextNodeIndex)).Fine?
    ensures var i, name := cp.nextNodeIndex, r.graph.topology[cp.nextNodeIndex];
            var given, next := Given(approved, name, resumeInput), Advanced(cp, name, output);
            var left := if approved == Some(name) then None else resumeInput;
            var e, rest := Driven(r, cp, approved, resumeInput, store, faults),
                           Driven(r, next, approved, left, store[cp.runId := next], faults);
            && e.ran == Invocation(r, faults, i, name, NodeInput(r, cp, name, given)) + rest.ran
            && e.landed == Recorded(name, given) + rest.landed
  {
    hide RunNode, NodeInput, Invocation, CollectInputs;
  }

  lemma {:induction false} StepFeeds(r: WorkflowRunner, cp: WorkflowCheckpoint, approved: Option<string>,
                                     resumeInput: Option<Value>,
                                     store: Store, faults: Faults, input: Value, overrides: map<string, Value>)
    requires ValidRunner(r) && InHand(r, store, cp, input, overrides) && cp.nextNodeIndex < |r.graph.topology|
    requires ErrorAt(faults, Turn(cp.nextNodeIndex)).None?
    requires var name := r.graph.topology[cp.nextNodeIndex]; name in r.interruptBefore ==> approved == Some(name)
    ensures var e := Driven(r, cp, approved, resumeInput, store, faults);
            && From(r, cp.nextNodeIndex, e.landed.Keys)
            && FedInOrder(r, Plain(r, input, overrides + e.landed), cp.nextNodeIndex, approved, resumeInput, e.ran)
    decreases |r.graph.topology| - cp.nextNodeIndex, 1
  {
    hide WellFormed, RunNode, NodeInput, InHand, Fed, FedInOrder, From, Progressed, Driven, Invocation;
    var i, name := cp.nextNodeIndex, r.graph.topology[cp.nextNodeIndex];
    var inputs := NodeInput(r, cp, name, Given(approved, name, resumeInput));
    var output := RunNode(r, faults, i, name, inputs);
    HandProgressed(r, store, cp, input, overrides);
    if output.Ok? && faults(StepSave(i)).Fine? {
      OnwardFeeds(r, cp, approved, resumeInput, store, faults, input, overrides, output.value);
    } else {
      StepEnds(r, cp, approved, resumeInput, store, faults);
      LastFeeds(r, cp, approved, resumeInput, faults, input, overrides,
                Driven(r, cp, approved, resumeInput, store, faults).landed);
    }
  }

  lemma LastFeeds(r: WorkflowRunner, cp: WorkflowCheckpoint, approved: Option<string>, resumeInput: Option<Value>,
                  faults: Faults, input: Value, overrides: map<string, Value>, landed: map<string, Value>)
    requires ValidRunner(r) && Progressed(r, cp, input, overrides) && cp.nextNodeIndex < |r.graph.topology|
    requires var name := r.graph.topology[cp.nextNodeIndex];
             landed == map[] || landed == Recorded(name, Given(approved, name, resumeInput))
    ensures From(r, cp.nextNodeIndex, landed.Keys)
    ensures var i, name := cp.nextNodeIndex, r.graph.topology[cp.nextNodeIndex];
            FedInOrder(r, Plain(r, input, overrides + landed), i, approved, resumeInput,
                       Invocation(r, faults, i, name, NodeInput(r, cp, name, Given(approved, name, resumeInput))))
  {
    hide WellFormed, NodeInput, Fed, FedInOrder, From, Progressed;
    var i, name := cp.nextNodeIndex, r.graph.topology[cp.nextNodeIndex];
    var inputs := NodeInput(r, cp, name, Given(approved, name, resumeInput));
    var ran := Invocation(r, faults, i, name, inputs);
    NoneFrom(r, i);
    NoneFrom(r, i + 1);
    FromNext(r, i, name, Given(approved, name, resumeInput), map[]);
    if ran != [] {
      NextFed(r, cp, approved, resumeInput, input, overrides, landed, inputs.value);
    }
    FedOne(r, Plain(r, input, overrides + landed), i, approved, resumeInput, ran);
  }

  lemma {:induction false} OnwardFeeds(r: WorkflowRunner, cp: WorkflowCheckpoint, approved: Option<string>,
                                       resumeInput: Option<Value>,
                                       store: Store, faults: Faults, input: Value, overrides: map<string, Value>,
                                           output: Value)
    requires ValidRunner(r) && InHand(r, store, cp, input, overrides) && cp.nextNodeIndex < |r.graph.topology|
    requires ErrorAt(faults, Turn(cp.nextNodeIndex)).None? && faults(StepSave(cp.nextNodeIndex)).Fine?
    requires var name := r.graph.topology[cp.nextNodeIndex]; name in r.interruptBefore ==> approved == Some(name)
    requires var i, name := cp.nextNodeIndex, r.graph.topology[cp.nextNodeIndex];
             RunNode(r, faults, i, name, NodeInput(r, cp, name, Given(approved, name, resumeInput))) == Ok(output)
    ensures var e := Driven(r, cp, approved, resumeInput, store, faults);
            && From(r, cp.nextNodeIndex, e.landed.Keys)
            && FedInOrder(r, Plain(r, input, overrides + e.landed), cp.nextNodeIndex, approved, resumeInput, e.ran)
    decreases |r.graph.topology| - cp.nextNodeIndex, 0
  {
    hide WellFormed, RunNode, NodeInput, InHand, Fed, FedInOrder, From, Progressed, Extends, Untouched, Driven,
         Invocation;
    var i, name := cp.nextNodeIndex, r.graph.topology[cp.nextNodeIndex];
    var given := Given(approved, name, resumeInput);
    var inputs := NodeInput(r, cp, name, given);
    var next := Advanced(cp, name, output);
    var left := if approved == Some(name) then None else resumeInput;
    var saved := store[cp.runId := next];
    HandProgressed(r, store, cp, input, overrides);
    StepGoesOn(r, cp, approved, resumeInput, store, faults, output);
    StepHand(r, cp, store, input, overrides, given, faults, output);
    DriveFeeds(r, next, approved, left, saved, faults, input, overrides + Recorded(name, given));
    var rest := Driven(r, next, approved, left, saved, faults);
    FromNext(r, i, name, given, rest.landed);
    var landed := Recorded(name, given) + rest.landed;
    assert (overrides + Recorded(name, given)) + rest.landed == overrides + landed;
    FedAfter(r, Plain(r, input, overrides + landed), i, approved, resumeInput, rest.ran);
    RanOk(r, faults, i, name, inputs);
    NextFed(r, cp, approved, resumeInput, input, overrides, landed, inputs.value);
    FedCons(r, Plain(r, input, overrides + landed), i, approved, resumeInput, Ran(name, inputs.value), rest.ran);
  }

  lemma NoneFrom(r: WorkflowRunner, i: nat)
    requires i <= |r.graph.topology|
    ensures var none: map<string, Value> := map[]; From(r, i, none.Keys)
  {
  }

  /** A node that succeeded was invoked. */
  lemma RanOk(r: WorkflowRunner, faults: Faults, i: nat, name: string, inputs: Result<Value, AiError>)
    requires RunNode(r, faults, i, name, inputs).Ok?
    ensures inputs.Ok? && Invocation(r, faults, i, name, inputs) == [Ran(name, inputs.value)]
  {
  }

  // --------------------------------------------------------------- whole histories

  /** The node a call was sent to approve, and the input it brings. */
  function ApprovedBy(w: World, call: Call): Option<string> {
    if call.ResumeCall? && call.runId in w.store then w.store[call.runId].interruptedBefore else None
  }

  function BroughtBy(call: Call): Option<Value> {
    if call.ResumeCall? then call.resumeInput else None
  }

  lemma StartFeeds(r: WorkflowRunner, w: World, call: Call)
    requires ValidRunner(r) && SoundWorld(r, w) && call.StartCall? && Fresh(w, call)
    ensures FedInOrder(r, Plain(r, call.input, map[]), 0, None, None, EffectOf(r, w, call).ran)
  {
    hide WellFormed, Driven, Prefix, Fed, SoundWorld;
    var cp := FirstCheckpoint(r, call.scope, call.runId, call.input);
    FirstInHand(r, call.scope, call.runId, call.input, w.store);
    if ErrorAt(call.faults, Entry).None? && call.faults(FirstSave).Fine? {
      var store := w.store[call.runId := cp];
      DriveFeeds(r, cp, None, None, store, call.faults, call.input, map[]);
      DriveLandsNothing(r, cp, None, store, call.faults);
      assert map[] + Driven(r, cp, None, None, store, call.faults).landed == map[];
    }
  }

  lemma ResumeFeeds(r: WorkflowRunner, w: World, call: Call)
    requires ValidRunner(r) && SoundWorld(r, w) && call.ResumeCall? && call.runId in w.store
    ensures call.runId in w.inputs && call.runId in w.overrides
    ensures var cp, e := w.store[call.runId], EffectOf(r, w, call);
            FedInOrder(r, Plain(r, w.inputs[call.runId], w.overrides[call.runId] + e.landed), cp.nextNodeIndex,
                       cp.interruptedBefore, call.resumeInput, e.ran)
  {
    hide WellFormed, Driven, Progressed, Fed;
    assert SoundRun(r, w, call.runId);
    var cp, input, overrides := w.store[call.runId], w.inputs[call.runId], w.overrides[call.runId];
    var bare := cp.(interruptedBefore := None);
    HandProgressed(r, w.store, bare, input, overrides);
    ProgressedBound(r, bare, input, overrides);
    DriveFeeds(r, bare, cp.interruptedBefore, call.resumeInput, w.store, call.faults, input, overrides);
  }

  /**
   * In every history, whatever fails: a node is given the resume input if it is the one the call approves and an input
   * came, and otherwise the joined results of its sources, as evaluated under the human inputs stored for its run.
   */
  lemma ResumeInputOnlyApproved(r: WorkflowRunner, calls: seq<Call>, k: nat, m: nat)
    requires ValidRunner(r) && History(r, calls) && k < |calls|
    requires m < |EffectOf(r, WorldAt(r, calls, k), calls[k]).ran|
    ensures var call, w, after := calls[k], WorldAt(r, calls, k), WorldAt(r, calls, k + 1);
            && call.runId in after.inputs && call.runId in after.overrides
            && Fed(r, Plain(r, after.inputs[call.runId], after.overrides[call.runId]), ApprovedBy(w, call),
                   BroughtBy(call),
                   EffectOf(r, w, call).ran[m])
  {
    hide WellFormed, Fed, Started, Resumed, SoundWorld, InTurn;
    WorldsSound(r, calls, k);
    var call, w := calls[k], WorldAt(r, calls, k);
    if call.StartCall? {
      StartFeeds(r, w, call);
    } else {
      if call.runId !in w.store {
        NothingRuns(r, w, call);
      }
      ResumeFeeds(r, w, call);
    }
  }

  lemma NothingRuns(r: WorkflowRunner, w: World, call: Call)
    requires call.ResumeCall? && call.runId !in w.store
    ensures EffectOf(r, w, call).ran == []
  {
  }
}
