/** Whole histories of start and resume calls on one store, with failures anywhere. */
module Histories {
  import opened Prelude
  import opened Workflow
  import opened Compile
  import opened Execute
  import opened Runner
  import opened RunnerLaws

  datatype Call =
    | StartCall(scope: Scope, runId: string, input: Value, faults: Faults)
    | ResumeCall(scope: Scope, runId: string, resumeInput: Option<Value>, faults: Faults)

  /** The store, and for every run ever started its input and the human inputs that reached the store. */
  datatype World = World(store: Store, inputs: map<string, Value>, overrides: map<string, map<string, Value>>)

  const Empty := World(map[], map[], map[])

  function EffectOf(r: WorkflowRunner, w: World, call: Call): Effect {
    match call
    case StartCall(scope, id, input, faults) => Started(r, scope, id, input, w.store, faults)
    case ResumeCall(scope, id, resumeInput, faults) => Resumed(r, scope, id, resumeInput, w.store, faults)
  }

  function Next(r: WorkflowRunner, w: World, call: Call): World {
    var e := EffectOf(r, w, call);
    match call
    case StartCall(_, id, input, _) => World(e.store, w.inputs[id := input], w.overrides[id := map[]])
    case ResumeCall(_, id, _, _) =>
      World(e.store, w.inputs, if id in w.overrides then w.overrides[id := w.overrides[id] + e.landed] else w.overrides)
  }

  /** Run ids are never reused. */
  predicate Fresh(w: World, call: Call) {
    call.StartCall? ==> call.runId !in w.inputs
  }

  ghost predicate SoundRun(r: WorkflowRunner, w: World, id: string)
    requires WellFormed(r.graph)
  {
    && id in w.inputs && id in w.overrides
    && (id in w.store ==> SoundCheckpoint(r, w.store[id], id, w.inputs[id], w.overrides[id]))
  }

  ghost predicate SoundWorld(r: WorkflowRunner, w: World)
    requires WellFormed(r.graph)
  {
    && w.overrides.Keys == w.inputs.Keys
    && (forall id | id in w.store :: id in w.inputs)
    && (forall id | id in w.inputs :: SoundRun(r, w, id))
  }

  // --------------------------------------------------------------- one call

  lemma FirstInHand(r: WorkflowRunner, scope: Scope, id: string, input: Value, store: Store)
    requires ValidRunner(r)
    ensures var cp := FirstCheckpoint(r, scope, id, input); InHand(r, store[id := cp], cp, input, map[])
  {
    hide WellFormed, Prefix;
    var cp := FirstCheckpoint(r, scope, id, input);
    InitialPrefix(Plain(r, input, map[]), r.graph.topology);
    assert r.graph.topology[..0] == [];
    assert cp.(interruptedBefore := None) == cp;
  }

  /** A start call: its run is sound, no gated node ran, and nothing else changed. */
  lemma StartSound(r: WorkflowRunner, scope: Scope, id: string, input: Value, store: Store, faults: Faults)
    requires ValidRunner(r) && id !in store
    ensures var e := Started(r, scope, id, input, store, faults);
            && Untouched(store, e.store, id) && e.landed == map[]
            && (id in e.store ==> SoundCheckpoint(r, e.store[id], id, input, map[]))
            && (e.reply.Completed? ==>
                  e.reply.runId == id && id !in e.store && Outcome(Plain(r, input, map[])) == Ok(e.reply.output))
            && (forall k | 0 <= k < |e.ran| :: e.ran[k].node !in r.interruptBefore)
  {
    hide WellFormed, Outcome, Driven, Prefix;
    var cp := FirstCheckpoint(r, scope, id, input);
    FirstInHand(r, scope, id, input, store);
    if ErrorAt(faults, Entry).None? && faults(FirstSave).Fine? {
      DriveSound(r, cp, None, None, store[id := cp], faults, input, map[]);
      var e := Driven(r, cp, None, None, store[id := cp], faults);
      assert map[] + e.landed == map[];
    }
  }

  /** A resume call does to its run, under any faults, only what a sound drive does. */
  lemma ResumeSound(r: WorkflowRunner, w: World, scope: Scope, id: string, resumeInput: Option<Value>, faults: Faults)
    requires ValidRunner(r) && SoundWorld(r, w) && id in w.store
    ensures SoundRun(r, w, id)
    ensures SoundEffect(r, w.store[id].(interruptedBefore := None), w.store[id].interruptedBefore, w.store,
                        w.inputs[id], w.overrides[id], Resumed(r, scope, id, resumeInput, w.store, faults))
    ensures w.store[id].runId == id
  {
    hide WellFormed, SoundEffect, Driven, Progressed;
    assert SoundRun(r, w, id);
    var cp, input, overrides := w.store[id], w.inputs[id], w.overrides[id];
    var bare := cp.(interruptedBefore := None);
    HandProgressed(r, w.store, bare, input, overrides);
    ProgressedBound(r, bare, input, overrides);
    var e := Resumed(r, scope, id, resumeInput, w.store, faults);
    if ErrorAt(faults, Entry).Some? || ErrorAt(faults, Loading).Some? || Refusal(r, scope, cp).Some? {
      StopSound(r, bare, cp.interruptedBefore, w.store, input, overrides, e.reply.error, []);
    } else {
      DriveSound(r, bare, cp.interruptedBefore, resumeInput, w.store, faults, input, overrides);
    }
  }

  lemma ProgressedBound(r: WorkflowRunner, cp: WorkflowCheckpoint, input: Value, overrides: map<string, Value>)
    requires WellFormed(r.graph) && Progressed(r, cp, input, overrides)
    ensures cp.nextNodeIndex <= |r.graph.topology|
  {
  }

  /** What one call of a history guarantees. */
  ghost predicate SoundCall(r: WorkflowRunner, w: World, call: Call)
    requires WellFormed(r.graph)
  {
    var e, w' := EffectOf(r, w, call), Next(r, w, call);
    && (e.reply.Completed? ==>
          && e.reply.runId in w'.inputs && e.reply.runId in w'.overrides
          && Outcome(Plain(r, w'.inputs[e.reply.runId], w'.overrides[e.reply.runId])) == Ok(e.reply.output))
    && (forall id | id in w.store && id in w'.store ::
          w.store[id].nextNodeIndex <= w'.store[id].nextNodeIndex && Extends(w.store[id].values, w'.store[id].values))
    && (forall id | id in w.inputs :: id in w'.inputs && w'.inputs[id] == w.inputs[id])
    && (forall id | id in w.inputs && id !in w.store :: id !in w'.store)
    && (forall k | 0 <= k < |e.ran| && e.ran[k].node in r.interruptBefore ::
          && call.ResumeCall? && call.runId in w.store
          && w.store[call.runId].interruptedBefore == Some(e.ran[k].node))
  }

  lemma StartStep(r: WorkflowRunner, w: World, call: Call)
    requires ValidRunner(r) && SoundWorld(r, w) && call.StartCall? && Fresh(w, call)
    ensures SoundWorld(r, Next(r, w, call)) && SoundCall(r, w, call)
  {
    hide WellFormed, Outcome, Started, SoundCheckpoint;
    var w' := Next(r, w, call);
    StartSound(r, call.scope, call.runId, call.input, w.store, call.faults);
    forall id | id in w'.inputs ensures SoundRun(r, w', id) {
      if id != call.runId { assert SoundRun(r, w, id); }
    }
  }

  lemma ResumeStep(r: WorkflowRunner, w: World, call: Call)
    requires ValidRunner(r) && SoundWorld(r, w) && call.ResumeCall? && call.runId in w.store
    ensures SoundWorld(r, Next(r, w, call)) && SoundCall(r, w, call)
  {
    hide WellFormed, Outcome, Resumed, SoundCheckpoint;
    var w' := Next(r, w, call);
    ResumeSound(r, w, call.scope, call.runId, call.resumeInput, call.faults);
    forall id | id in w'.inputs ensures SoundRun(r, w', id) {
      assert SoundRun(r, w, id);
    }
  }

  /** A resume of an unknown run changes nothing. */
  lemma ResumeUnknown(r: WorkflowRunner, w: World, call: Call)
    requires ValidRunner(r) && SoundWorld(r, w) && call.ResumeCall? && call.runId !in w.store
    ensures SoundWorld(r, Next(r, w, call)) && SoundCall(r, w, call)
  {
    hide WellFormed, Outcome, SoundCheckpoint, Driven;
    var w' := Next(r, w, call);
    assert w'.store == w.store;
    assert call.runId in w.overrides ==> w.overrides[call.runId] + map[] == w.overrides[call.runId];
    assert w' == w;
  }

  lemma CallSound(r: WorkflowRunner, w: World, call: Call)
    requires ValidRunner(r) && SoundWorld(r, w) && Fresh(w, call)
    ensures SoundWorld(r, Next(r, w, call)) && SoundCall(r, w, call)
  {
    hide WellFormed, SoundWorld, SoundCall, Next;
    if call.StartCall? { StartStep(r, w, call); }
    else if call.runId in w.store { ResumeStep(r, w, call); }
    else { ResumeUnknown(r, w, call); }
  }

  // --------------------------------------------------------------- whole histories

  /** The world after the first `k` calls. */
  function WorldAt(r: WorkflowRunner, calls: seq<Call>, k: nat): World
    requires k <= |calls|
  {
    if k == 0 then Empty else Next(r, WorldAt(r, calls, k - 1), calls[k - 1])
  }

  ghost predicate History(r: WorkflowRunner, calls: seq<Call>) {
    forall k | 0 <= k < |calls| :: Fresh(WorldAt(r, calls, k), calls[k])
  }

  lemma {:induction false} WorldsSound(r: WorkflowRunner, calls: seq<Call>, k: nat)
    requires ValidRunner(r) && History(r, calls) && k <= |calls|
    ensures SoundWorld(r, WorldAt(r, calls, k))
  {
    hide WellFormed, Next, SoundCall;
    if k > 0 {
      WorldsSound(r, calls, k - 1);
      CallSound(r, WorldAt(r, calls, k - 1), calls[k - 1]);
    }
  }

  /** The output of `invoke` on the same input, undisturbed. */
  function Straight(r: WorkflowRunner, input: Value): Result<Value, AiError> {
    Outcome(Plain(r, input, map[]))
  }

  /** A completed run gives the reference output for its input and the human inputs that reached the store. */
  lemma CompletedIsEvaluation(r: WorkflowRunner, calls: seq<Call>, k: nat)
    requires ValidRunner(r) && History(r, calls) && k < |calls|
    requires EffectOf(r, WorldAt(r, calls, k), calls[k]).reply.Completed?
    ensures var reply, w := EffectOf(r, WorldAt(r, calls, k), calls[k]).reply, WorldAt(r, calls, k + 1);
            && reply.runId in w.inputs && reply.runId in w.overrides
            && Outcome(Plain(r, w.inputs[reply.runId], w.overrides[reply.runId])) == Ok(reply.output)
  {
    hide WellFormed, Next, SoundWorld, Outcome, EffectOf;
    WorldsSound(r, calls, k);
    CallSound(r, WorldAt(r, calls, k), calls[k]);
  }

  lemma {:induction false} NoOverrides(r: WorkflowRunner, calls: seq<Call>, k: nat)
    requires ValidRunner(r) && History(r, calls) && k <= |calls|
    requires forall j | 0 <= j < |calls| && calls[j].ResumeCall? :: calls[j].resumeInput.None?
    ensures forall id | id in WorldAt(r, calls, k).overrides :: WorldAt(r, calls, k).overrides[id] == map[]
  {
    hide WellFormed, Started, Resumed, Fresh;
    if k > 0 {
      NoOverrides(r, calls, k - 1);
      var call := calls[k - 1];
      if call.ResumeCall? { NothingLands(r, WorldAt(r, calls, k - 1), call); }
    }
  }

  lemma NothingLands(r: WorkflowRunner, w: World, call: Call)
    requires call.ResumeCall? && call.resumeInput.None?
    ensures EffectOf(r, w, call).landed == map[]
  {
    hide Driven;
    if call.runId in w.store {
      var cp := w.store[call.runId];
      DriveLandsNothing(r, cp.(interruptedBefore := None), cp.interruptedBefore, w.store, call.faults);
    }
  }

  lemma {:induction false} DriveLandsNothing(r: WorkflowRunner, cp: WorkflowCheckpoint, approved: Option<string>,
                                             store: Store, faults: Faults)
    ensures Driven(r, cp, approved, None, store, faults).landed == map[]
    decreases |r.graph.topology| - cp.nextNodeIndex
  {
    hide RunNode, NodeInput, CollectInputs;
    var i := cp.nextNodeIndex;
    if i < |r.graph.topology| {
      var name := r.graph.topology[i];
      var output := RunNode(r, faults, i, name, NodeInput(r, cp, name, None));
      if output.Ok? {
        var next := Advanced(cp, name, output.value);
        DriveLandsNothing(r, next, approved, Saved(store, next, faults(StepSave(i))), faults);
      }
    }
  }

  /** Recovery refines straight-through execution: without human inputs, every completed run, however often
      interrupted, failed or retried, outputs what `invoke` outputs on its input. */
  lemma RecoveryRefinesInvoke(r: WorkflowRunner, calls: seq<Call>, k: nat)
    requires ValidRunner(r) && History(r, calls) && k < |calls|
    requires forall j | 0 <= j < |calls| && calls[j].ResumeCall? :: calls[j].resumeInput.None?
    requires EffectOf(r, WorldAt(r, calls, k), calls[k]).reply.Completed?
    ensures var reply, w := EffectOf(r, WorldAt(r, calls, k), calls[k]).reply, WorldAt(r, calls, k + 1);
            reply.runId in w.inputs && Straight(r, w.inputs[reply.runId]) == Ok(reply.output)
  {
    hide WellFormed, Outcome, EffectOf, Next;
    CompletedIsEvaluation(r, calls, k);
    NoOverrides(r, calls, k + 1);
  }

  /** Every stored checkpoint holds START and exactly the nodes before its index. */
  lemma CheckpointKeys(r: WorkflowRunner, calls: seq<Call>, k: nat, id: string)
    requires ValidRunner(r) && History(r, calls) && k <= |calls| && id in WorldAt(r, calls, k).store
    ensures var cp := WorldAt(r, calls, k).store[id];
            cp.nextNodeIndex <= |r.graph.topology| && cp.values.Keys == {START}
                + Elements(r.graph.topology[..cp.nextNodeIndex])
  {
    hide WellFormed, WorldAt, Agrees;
    WorldsSound(r, calls, k);
    assert SoundRun(r, WorldAt(r, calls, k), id);
  }

  /** A run that has been deleted never returns. */
  lemma {:induction false} DeletedNeverReturns(r: WorkflowRunner, calls: seq<Call>, j: nat, k: nat, id: string)
    requires ValidRunner(r) && History(r, calls) && j <= k <= |calls|
    requires id in WorldAt(r, calls, j).inputs && id !in WorldAt(r, calls, j).store
    ensures id in WorldAt(r, calls, k).inputs && id !in WorldAt(r, calls, k).store
    decreases k
  {
    hide WellFormed, Next, EffectOf, SoundRun;
    if j < k {
      DeletedNeverReturns(r, calls, j, k - 1, id);
      WorldsSound(r, calls, k - 1);
      CallSound(r, WorldAt(r, calls, k - 1), calls[k - 1]);
    }
  }

  /** Until its deletion a run's index never goes down and its values are never rewritten. */
  lemma {:induction false} IndexNeverGoesDown(r: WorkflowRunner, calls: seq<Call>, j: nat, k: nat, id: string)
    requires ValidRunner(r) && History(r, calls) && j <= k <= |calls| && id in WorldAt(r, calls, j).store
    ensures id in WorldAt(r, calls, k).inputs
    ensures id in WorldAt(r, calls, k).store ==>
              && WorldAt(r, calls, j).store[id].nextNodeIndex <= WorldAt(r, calls, k).store[id].nextNodeIndex
              && Extends(WorldAt(r, calls, j).store[id].values, WorldAt(r, calls, k).store[id].values)
    decreases k
  {
    hide WellFormed, Next, EffectOf, SoundRun;
    WorldsSound(r, calls, j);
    if j < k {
      IndexNeverGoesDown(r, calls, j, k - 1, id);
      WorldsSound(r, calls, k - 1);
      CallSound(r, WorldAt(r, calls, k - 1), calls[k - 1]);
    }
  }

  /** A gated node runs only inside a resume whose loaded checkpoint was saved as interrupted before that node. */
  lemma GatedNodesNeedApproval(r: WorkflowRunner, calls: seq<Call>, k: nat, m: nat)
    requires ValidRunner(r) && History(r, calls) && k < |calls|
    requires m < |EffectOf(r, WorldAt(r, calls, k), calls[k]).ran|
    ensures var node := EffectOf(r, WorldAt(r, calls, k), calls[k]).ran[m].node;
            node in r.interruptBefore ==>
              && calls[k].ResumeCall? && calls[k].runId in WorldAt(r, calls, k).store
              && WorldAt(r, calls, k).store[calls[k].runId].interruptedBefore == Some(node)
  {
    hide WellFormed, Next, EffectOf, SoundWorld;
    WorldsSound(r, calls, k);
    CallSound(r, WorldAt(r, calls, k), calls[k]);
  }
}
