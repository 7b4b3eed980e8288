/** Checkpointed runs with interrupts and recovery (compose.rs, `WorkflowRunner`). */
module Runner {
  import opened Prelude
  import opened Names
  import opened Text
  import opened Workflow
  import opened Compile
  import opened Execute

  datatype WorkflowCheckpoint = WorkflowCheckpoint(
    version: nat,
    runId: string,
    graphRevision: string,
    tenant: Option<string>,
    subject: Option<string>,
    nextNodeIndex: nat,
    values: map<string, Value>,
    interruptedBefore: Option<string>)

  type Store = map<string, WorkflowCheckpoint>

  datatype WorkflowRunner = WorkflowRunner(graph: CompiledGraph, revision: string, interruptBefore: set<string>)

  /** The caller's tenant and subject. */
  datatype Scope = Scope(tenant: Option<string>, subject: Option<string>)

  /** `WorkflowRunner::new`: the smallest gate that is no node is the one reported. */
  method NewRunner(graph: CompiledGraph, revision: string, gates: seq<string>)
    returns (r: Result<WorkflowRunner, AiError>)
    ensures r.Ok? <==> Trim(revision) != "" && forall g | g in gates :: g in graph.nodes
    ensures r.Ok? ==>
              r.value.graph == graph && r.value.revision == revision && r.value.interruptBefore == set g | g in gates
    ensures Trim(revision) == "" ==> r == Err(InvalidWorkflow(EmptyRevision))
    ensures Trim(revision) != "" && r.Err? ==>
              r.error.InvalidWorkflow? && r.error.defect.MissingInterruptNode?
              && IsLeast((set g | g in gates && g !in graph.nodes), r.error.defect.name)
  {
    if Trim(revision) == "" {
      return Err(InvalidWorkflow(EmptyRevision));
    }
    var interruptBefore := set g | g in gates;
    var names := Sorted(interruptBefore);
    SortedAscends(interruptBefore);
    for i := 0 to |names|
      invariant forall k | 0 <= k < i :: names[k] in graph.nodes
    {
      assert names[i] in Elements(names);
      if names[i] !in graph.nodes {
        forall g | g in gates && g !in graph.nodes ensures Leq(names[i], g) {
          assert g in Elements(names);
          var k :| 0 <= k < |names| && names[k] == g;
          LeqTotal(g, g);
        }
        return Err(InvalidWorkflow(MissingInterruptNode(names[i])));
      }
    }
    forall g | g in gates ensures g in graph.nodes {
      assert g in Elements(names);
    }
    return Ok(WorkflowRunner(graph, revision, interruptBefore));
  }

  // --------------------------------------------------------------- failures

  /** An operation works, fails without effect, or takes effect and still reports an error. */
  datatype Fault = Fine | Fails(error: AiError) | FailsAfter(error: AiError)

  /** The operations of one call that can fail; `i` is the node index at which they happen. */
  datatype Point =
    | Entry | Loading | FirstSave
    | Turn(i: nat) | NodeCheck(i: nat) | NodeRun(i: nat) | InterruptSave(i: nat) | StepSave(i: nat)
    | Deletion

  type Faults = Point -> Fault

  function ErrorAt(faults: Faults, p: Point): Option<AiError> {
    match faults(p)
    case Fine => None
    case Fails(e) => Some(e)
    case FailsAfter(e) => Some(e)
  }

  /** What the store holds after an attempted save. */
  function Saved(store: Store, cp: WorkflowCheckpoint, fault: Fault): Store {
    if fault.Fails? then store else store[cp.runId := cp]
  }

  function Deleted(store: Store, runId: string, fault: Fault): Store {
    if fault.Fails? then store else store - {runId}
  }

  // --------------------------------------------------------------- one call

  datatype Reply =
    | Completed(runId: string, output: Value)
    | Interrupted(runId: string, beforeNode: string, revision: string)
    | Failed(error: AiError)

  /** One node invocation: the node and the input it got. */
  datatype Ran = Ran(node: string, input: Value)

  /** What a call did: its reply, the store, the nodes it invoked, and the human inputs that reached the store. */
  datatype Effect = Effect(reply: Reply, store: Store, ran: seq<Ran>, landed: map<string, Value>)

  function NodeInput(r: WorkflowRunner, cp: WorkflowCheckpoint, name: string, given: Option<Value>): Result<Value,
      AiError> {
    if given.Some? then Ok(given.value) else CollectInputs(name, r.graph.incoming, cp.values)
  }

  /** `execute_node` at index `i` of a call. */
  function RunNode(r: WorkflowRunner, faults: Faults, i: nat, name: string, input: Result<Value,
                   AiError>): Result<Value, AiError> {
    if ErrorAt(faults, NodeCheck(i)).Some? then Err(ErrorAt(faults, NodeCheck(i)).value)
    else if input.Err? then Err(input.error)
    else if name !in r.graph.nodes then Err(InvalidWorkflow(MissingNode(name)))
    else if ErrorAt(faults, NodeRun(i)).Some? then Err(ErrorAt(faults, NodeRun(i)).value)
    else r.graph.nodes[name](input.value)
  }

  /** The invocation of a node, if it comes to one. */
  function Invocation(r: WorkflowRunner, faults: Faults, i: nat, name: string, input: Result<Value,
                      AiError>): seq<Ran> {
    if ErrorAt(faults, NodeCheck(i)).None? && input.Ok? && name in r.graph.nodes then [Ran(name, input.value)] else []
  }

  function Advanced(cp: WorkflowCheckpoint, name: string, output: Value): WorkflowCheckpoint {
    cp.(values := cp.values[name := output], nextNodeIndex := cp.nextNodeIndex + 1, interruptedBefore := None)
  }

  function Given(approved: Option<string>, name: string, resumeInput: Option<Value>): Option<Value> {
    if approved == Some(name) then resumeInput else None
  }

  /** The drive loop, from a checkpoint whose interrupt mark has been taken out as `approved`. */
  function Driven(r: WorkflowRunner, cp: WorkflowCheckpoint, approved: Option<string>, resumeInput: Option<Value>,
                  store: Store, faults: Faults): Effect
    decreases |r.graph.topology| - cp.nextNodeIndex
  {
    var i := cp.nextNodeIndex;
    if i < |r.graph.topology| then
      var name := r.graph.topology[i];
      if ErrorAt(faults, Turn(i)).Some? then Effect(Failed(ErrorAt(faults, Turn(i)).value), store, [], map[])
      else if name in r.interruptBefore && approved != Some(name) then
        var marked := cp.(interruptedBefore := Some(name));
        var fault := faults(InterruptSave(i));
        Effect(if ErrorAt(faults, InterruptSave(i)).Some? then Failed(fault.error)
               else Interrupted(cp.runId, name, r.revision),
               Saved(store, marked, fault), [], map[])
      else
        var given := Given(approved, name, resumeInput);
        var input := NodeInput(r, cp, name, given);
        var output := RunNode(r, faults, i, name, input);
        var ran := Invocation(r, faults, i, name, input);
        if output.Err? then Effect(Failed(output.error), store, ran, map[])
        else
          var next := Advanced(cp, name, output.value);
          var fault := faults(StepSave(i));
          var landed := if given.Some? && !fault.Fails? then map[name := given.value] else map[];
          if !fault.Fine? then Effect(Failed(fault.error), Saved(store, next, fault), ran, landed)
          else
            var rest := Driven(r, next, approved, if approved == Some(name) then None else resumeInput,
                               Saved(store, next, fault), faults);
            Effect(rest.reply, rest.store, ran + rest.ran, landed + rest.landed)
    else
      var output := CollectInputs(END, r.graph.incoming, cp.values);
      if output.Err? then Effect(Failed(output.error), store, [], map[])
      else
        var fault := faults(Deletion);
        Effect(if fault.Fine? then Completed(cp.runId, output.value) else Failed(fault.error),
               Deleted(store, cp.runId, fault), [], map[])
  }

  function FirstCheckpoint(r: WorkflowRunner, scope: Scope, runId: string, input: Value): WorkflowCheckpoint {
    WorkflowCheckpoint(1, runId, r.revision, scope.tenant, scope.subject, 0, map[START := input], None)
  }

  function Started(r: WorkflowRunner, scope: Scope, runId: string, input: Value, store: Store, faults: Faults): Effect {
    if ErrorAt(faults, Entry).Some? then Effect(Failed(ErrorAt(faults, Entry).value), store, [], map[])
    else
      var cp := FirstCheckpoint(r, scope, runId, input);
      var fault := faults(FirstSave);
      if !fault.Fine? then Effect(Failed(fault.error), Saved(store, cp, fault), [], map[])
      else Driven(r, cp, None, None, Saved(store, cp, fault), faults)
  }

  /** Why a stored checkpoint may not be resumed. */
  function Refusal(r: WorkflowRunner, scope: Scope, cp: WorkflowCheckpoint): Option<AiError> {
    if cp.version != 1 then Some(UnsupportedCheckpoint(cp.version))
    else if cp.graphRevision != r.revision then Some(CheckpointRevisionMismatch(r.revision, cp.graphRevision))
    else if cp.tenant != scope.tenant || cp.subject != scope.subject then Some(CheckpointScopeMismatch)
    else None
  }

  function Resumed(r: WorkflowRunner, scope: Scope, runId: string, resumeInput: Option<Value>, store: Store,
                   faults: Faults): Effect {
    if ErrorAt(faults, Entry).Some? then Effect(Failed(ErrorAt(faults, Entry).value), store, [], map[])
    else if ErrorAt(faults, Loading).Some? then Effect(Failed(ErrorAt(faults, Loading).value), store, [], map[])
    else if runId !in store then Effect(Failed(CheckpointNotFound(runId)), store, [], map[])
    else
      var cp := store[runId];
      if Refusal(r, scope, cp).Some? then Effect(Failed(Refusal(r, scope, cp).value), store, [], map[])
      else Driven(r, cp.(interruptedBefore := None), cp.interruptedBefore, resumeInput, store, faults)
  }

  // --------------------------------------------------------------- the runner in place

  /** A checkpoint store whose operations may fail. */
  class CheckpointStore {
    var checkpoints: Store

    constructor ()
      ensures checkpoints == map[]
    {
      checkpoints := map[];
    }

    method Save(cp: WorkflowCheckpoint, fault: Fault) returns (r: Result<(), AiError>)
      modifies this
      ensures checkpoints == Saved(old(checkpoints), cp, fault)
      ensures r == if fault.Fine? then Ok(()) else Err(fault.error)
    {
      if !fault.Fails? {
        checkpoints := checkpoints[cp.runId := cp];
      }
      return if fault.Fine? then Ok(()) else Err(fault.error);
    }

    method Delete(runId: string, fault: Fault) returns (r: Result<(), AiError>)
      modifies this
      ensures checkpoints == Deleted(old(checkpoints), runId, fault)
      ensures r == if fault.Fine? then Ok(()) else Err(fault.error)
    {
      if !fault.Fails? {
        checkpoints := checkpoints - {runId};
      }
      return if fault.Fine? then Ok(()) else Err(fault.error);
    }
  }

  /** The loop of `drive`: each turn saves an interrupt mark and stops, or runs one node and saves its output. */
  method Drive(r: WorkflowRunner, store: CheckpointStore, checkpoint: WorkflowCheckpoint, resumeInput0: Option<Value>,
               faults: Faults)
    returns (reply: Reply, ghost ran: seq<Ran>)
    modifies store
    ensures var e := Driven(r, checkpoint.(interruptedBefore := None), checkpoint.interruptedBefore, resumeInput0,
                            old(store.checkpoints), faults);
            reply == e.reply && store.checkpoints == e.store && ran == e.ran
  {
    hide CollectInputs, RunNode, Invocation;
    var approved, resumeInput := checkpoint.interruptedBefore, resumeInput0;
    var cp := checkpoint.(interruptedBefore := None);
    ghost var whole := Driven(r, cp, approved, resumeInput, store.checkpoints, faults);
    ran := [];
    while cp.nextNodeIndex < |r.graph.topology|
      invariant Driven(r, cp, approved, resumeInput, store.checkpoints, faults).reply == whole.reply
      invariant Driven(r, cp, approved, resumeInput, store.checkpoints, faults).store == whole.store
      invariant ran + Driven(r, cp, approved, resumeInput, store.checkpoints, faults).ran == whole.ran
      decreases |r.graph.topology| - cp.nextNodeIndex
    {
      var i := cp.nextNodeIndex;
      var name := r.graph.topology[i];
      if ErrorAt(faults, Turn(i)).Some? {
        return Failed(ErrorAt(faults, Turn(i)).value), ran;
      }
      if name in r.interruptBefore && approved != Some(name) {
        cp := cp.(interruptedBefore := Some(name));
        var marked := store.Save(cp, faults(InterruptSave(i)));
        if marked.Err? {
          return Failed(marked.error), ran;
        }
        return Interrupted(cp.runId, name, r.revision), ran;
      }
      var given := None;
      if approved == Some(name) {
        given, resumeInput := resumeInput, None;
      }
      var input := NodeInput(r, cp, name, given);
      ran := ran + Invocation(r, faults, i, name, input);
      var output := RunNode(r, faults, i, name, input);
      if output.Err? {
        return Failed(output.error), ran;
      }
      cp := Advanced(cp, name, output.value);
      var step := store.Save(cp, faults(StepSave(i)));
      if step.Err? {
        return Failed(step.error), ran;
      }
    }
    var output := CollectInputs(END, r.graph.incoming, cp.values);
    if output.Err? {
      return Failed(output.error), ran;
    }
    var gone := store.Delete(cp.runId, faults(Deletion));
    if gone.Err? {
      return Failed(gone.error), ran;
    }
    return Completed(cp.runId, output.value), ran;
  }

  method Start(r: WorkflowRunner, store: CheckpointStore, scope: Scope, runId: string, input: Value, faults: Faults)
    returns (reply: Reply, ghost ran: seq<Ran>)
    modifies store
    ensures var e := Started(r, scope, runId, input, old(store.checkpoints), faults);
            reply == e.reply && store.checkpoints == e.store && ran == e.ran
  {
    hide Driven;
    if ErrorAt(faults, Entry).Some? {
      return Failed(ErrorAt(faults, Entry).value), [];
    }
    var cp := FirstCheckpoint(r, scope, runId, input);
    var first := store.Save(cp, faults(FirstSave));
    if first.Err? {
      return Failed(first.error), [];
    }
    assert cp.(interruptedBefore := None) == cp;
    reply, ran := Drive(r, store, cp, None, faults);
  }

  method Resume(r: WorkflowRunner, store: CheckpointStore, scope: Scope, runId: string, resumeInput: Option<Value>,
                faults: Faults)
    returns (reply: Reply, ghost ran: seq<Ran>)
    modifies store
    ensures var e := Resumed(r, scope, runId, resumeInput, old(store.checkpoints), faults);
            reply == e.reply && store.checkpoints == e.store && ran == e.ran
  {
    hide Driven;
    if ErrorAt(faults, Entry).Some? {
      return Failed(ErrorAt(faults, Entry).value), [];
    }
    if ErrorAt(faults, Loading).Some? {
      return Failed(ErrorAt(faults, Loading).value), [];
    }
    if runId !in store.checkpoints {
      return Failed(CheckpointNotFound(runId)), [];
    }
    var cp := store.checkpoints[runId];
    var refusal := Refusal(r, scope, cp);
    if refusal.Some? {
      return Failed(refusal.value), [];
    }
    reply, ran := Drive(r, store, cp, resumeInput, faults);
  }
}
