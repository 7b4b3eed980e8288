/** How many resumes a run takes when nothing fails, whatever is answered at its gates. */
module Gates {
  import opened Prelude
  import opened Workflow
  import opened Compile
  import opened Execute
  import opened ExecuteLaws
  import opened Runner
  import opened RunnerLaws
  import opened Histories
  import opened Traces

  function NoFault(p: Point): Fault {
    Fine
  }

  /** Gated nodes among the first `i` of the topology. */
  ghost function Gated(r: WorkflowRunner, i: nat): nat
    requires i <= |r.graph.topology|
  {
    if i == 0 then 0 else Gated(r, i - 1) + if r.graph.topology[i - 1] in r.interruptBefore then 1 else 0
  }

  ghost function GatedIn(r: WorkflowRunner, names: set<string>): nat {
    |r.interruptBefore * names|
  }

  lemma GatedInsert(r: WorkflowRunner, names: set<string>, x: string)
    requires x !in names
    ensures GatedIn(r, names + {x}) == GatedIn(r, names) + if x in r.interruptBefore then 1 else 0
  {
    var a := r.interruptBefore;
    if x in a {
      assert a * (names + {x}) == a * names + {x};
    } else {
      assert a * (names + {x}) == a * names;
    }
  }

  lemma PrefixInsert(t: seq<string>, i: nat)
    requires NoDuplicates(t) && i < |t|
    ensures t[i] !in Elements(t[..i]) && Elements(t[..i + 1]) == Elements(t[..i]) + {t[i]}
  {
    assert t[..i + 1] == t[..i] + [t[i]];
  }

  lemma {:induction false} GatedCounts(r: WorkflowRunner, i: nat)
    requires NoDuplicates(r.graph.topology) && i <= |r.graph.topology|
    ensures Gated(r, i) == GatedIn(r, Elements(r.graph.topology[..i]))
  {
    hide GatedIn, Elements, NoDuplicates;
    var t := r.graph.topology;
    if i > 0 {
      GatedCounts(r, i - 1);
      PrefixInsert(t, i - 1);
      GatedInsert(r, Elements(t[..i - 1]), t[i - 1]);
    } else {
      GatedNone(r);
    }
  }

  lemma GatedNone(r: WorkflowRunner)
    ensures GatedIn(r, Elements(r.graph.topology[..0])) == 0
  {
    assert r.interruptBefore * Elements(r.graph.topology[..0]) == {};
  }

  lemma AllGates(r: WorkflowRunner)
    requires ValidRunner(r)
    ensures Gated(r, |r.graph.topology|) == |r.interruptBefore|
  {
    TopologyIsTopological(r.graph);
    hide WellFormed, Gated;
    var t := r.graph.topology;
    assert t[..|t|] == t;
    GatedCounts(r, |t|);
    assert r.interruptBefore * Elements(t) == r.interruptBefore;
  }

  lemma {:induction false} GatedGrows(r: WorkflowRunner, i: nat, j: nat)
    requires i <= j <= |r.graph.topology|
    ensures Gated(r, i) <= Gated(r, j)
    decreases j
  {
    if i < j { GatedGrows(r, i, j - 1); }
  }

  /** Gates already passed when the drive stands at `i` with `approved` in hand. */
  ghost function Passed(r: WorkflowRunner, i: nat, approved: Option<string>): nat
    requires i <= |r.graph.topology|
  {
    Gated(r, i) + if i < |r.graph.topology| && r.graph.topology[i] in r.interruptBefore
        && approved == Some(r.graph.topology[i]) then 1 else 0
  }

  // --------------------------------------------------------------- answers

  /** One answer for each gate, in topology order: a human input that replaces the input of the gated node, or none. */
  type Answers = seq<Option<Value>>

  /** Human inputs of a run: those on record when it stood at `from`, and answers to the gates from there on. */
  datatype Sheet = Sheet(record: map<string, Value>, from: nat, answers: Answers)

  /** The answers of a run from its start. */
  function Blank(answers: Answers): Sheet {
    Sheet(map[], 0, answers)
  }

  /** The answer to the node at `i`, if it is a gate. */
  ghost function AnswerAt(r: WorkflowRunner, sheet: Sheet, i: nat): Option<Value>
    requires sheet.from <= i < |r.graph.topology|
  {
    var number := Gated(r, i) - Gated(r, sheet.from);
    if r.graph.topology[i] in r.interruptBefore && 0 <= number < |sheet.answers| then sheet.answers[number] else None
  }

  /** The human inputs to the gates among the first `i` nodes, by name. */
  ghost function AnswersTo(r: WorkflowRunner, sheet: Sheet, i: nat): map<string, Value>
    requires sheet.from <= i <= |r.graph.topology|
  {
    if i == sheet.from then sheet.record
    else AnswersTo(r, sheet, i - 1) + Recorded(r.graph.topology[i - 1], AnswerAt(r, sheet, i - 1))
  }

  /** Evaluation of the graph in which every answered gate takes its answer. */
  ghost function Answered(r: WorkflowRunner, input: Value, sheet: Sheet): Run
    requires sheet.from <= |r.graph.topology|
  {
    Plain(r, input, AnswersTo(r, sheet, |r.graph.topology|))
  }

  ghost predicate Succeeds(r: WorkflowRunner, input: Value, sheet: Sheet) {
    sheet.from <= |r.graph.topology| && Outcome(Answered(r, input, sheet)).Ok?
  }

  lemma FromMore(r: WorkflowRunner, i: nat, j: nat, before: map<string, Value>, given: Option<Value>)
    requires i <= j < |r.graph.topology| && From(r, i, before.Keys)
    ensures From(r, i, (before + Recorded(r.graph.topology[j], given)).Keys)
  {
    assert r.graph.topology[i..][j - i] == r.graph.topology[j];
  }

  lemma RegroupMaps(a: map<string, Value>, b: map<string, Value>, c: map<string, Value>)
    ensures a + b + c == a + (b + c)
  {
  }

  /** Later answers do not reach back. */
  lemma {:induction false} AnswersSplit(r: WorkflowRunner, sheet: Sheet, i: nat, j: nat)
    returns (more: map<string, Value>)
    requires sheet.from <= i <= j <= |r.graph.topology|
    ensures AnswersTo(r, sheet, j) == AnswersTo(r, sheet, i) + more && From(r, i, more.Keys)
    decreases j
  {
    hide AnswerAt, From, Recorded;
    if i == j {
      NoneFrom(r, i);
      more := map[];
    } else {
      var before := AnswersSplit(r, sheet, i, j - 1);
      var last := Recorded(r.graph.topology[j - 1], AnswerAt(r, sheet, j - 1));
      more := before + last;
      FromMore(r, i, j - 1, before, AnswerAt(r, sheet, j - 1));
      RegroupMaps(AnswersTo(r, sheet, i), before, last);
    }
  }

  lemma AnswersBelow(r: WorkflowRunner, input: Value, sheet: Sheet, i: nat)
    requires ValidRunner(r) && sheet.from <= i <= |r.graph.topology|
    ensures SameBelow(Plain(r, input, AnswersTo(r, sheet, i)), Answered(r, input, sheet), i)
  {
    DistinctTopology(r.graph);
    hide WellFormed, AnswersTo, SameBelow, NoDuplicates;
    var more := AnswersSplit(r, sheet, i, |r.graph.topology|);
    LaterOverrides(r, input, AnswersTo(r, sheet, i), more, i);
  }

  /** The next node of a run succeeds if the whole answered run does. */
  lemma NodeSucceeds(r: WorkflowRunner, cp: WorkflowCheckpoint, input: Value, sheet: Sheet)
    requires ValidRunner(r) && Succeeds(r, input, sheet) && sheet.from <= cp.nextNodeIndex < |r.graph.topology|
    requires Progressed(r, cp, input, AnswersTo(r, sheet, cp.nextNodeIndex))
    ensures var i, name := cp.nextNodeIndex, r.graph.topology[cp.nextNodeIndex];
            RunNode(r, NoFault, i, name, NodeInput(r, cp, name, AnswerAt(r, sheet, i))).Ok?
  {
    hide WellFormed, Prefix, CollectInputs, AnswerAt, AnswersTo, ExecuteNode, RunNode, Succeeds;
    var i := cp.nextNodeIndex;
    NextNotOverridden(r, cp, input, AnswersTo(r, sheet, i));
    NextEvaluates(r, cp, input, sheet);
    AnswerGiven(r, cp, input, sheet);
  }

  /** Every node of an answered run that succeeds has a value. */
  lemma AnsweredNode(r: WorkflowRunner, input: Value, sheet: Sheet, i: nat)
    requires ValidRunner(r) && Succeeds(r, input, sheet) && sheet.from <= i < |r.graph.topology|
    requires r.graph.topology[i] in r.graph.nodes
    ensures Eval(Plain(r, input, AnswersTo(r, sheet, i + 1)), r.graph.topology[i]).Ok?
  {
    DistinctTopology(r.graph);
    PositionOf(r.graph.topology, i);
    hide WellFormed, AnswersTo, SameBelow, Eval, EvalEnd, Outcome, Position, NoDuplicates;
    var whole := Answered(r, input, sheet);
    OutcomeIsEvaluation(whole);
    AnswersBelow(r, input, sheet, i + 1);
    EvalSame(Plain(r, input, AnswersTo(r, sheet, i + 1)), whole, i + 1, r.graph.topology[i]);
  }

  lemma NextEvaluates(r: WorkflowRunner, cp: WorkflowCheckpoint, input: Value, sheet: Sheet)
    requires ValidRunner(r) && Succeeds(r, input, sheet) && sheet.from <= cp.nextNodeIndex < |r.graph.topology|
    requires Progressed(r, cp, input, AnswersTo(r, sheet, cp.nextNodeIndex))
    ensures var i := cp.nextNodeIndex;
            ExecuteNode(Plain(r, input, AnswersTo(r, sheet, i + 1)), r.graph.topology[i], cp.values).Ok?
  {
    TopologyIsTopological(r.graph);
    hide WellFormed, Prefix, IsTopological, CollectInputs, AnswerAt, Eval, SourcesJoined, ExecuteNode, Succeeds;
    var i, t := cp.nextNodeIndex, r.graph.topology;
    OverrideNext(r, cp, input, AnswersTo(r, sheet, i), AnswerAt(r, sheet, i));
    PrefixStep(Plain(r, input, AnswersTo(r, sheet, i + 1)), t, i, cp.values);
    AnsweredNode(r, input, sheet, i);
  }

  lemma AnswerGiven(r: WorkflowRunner, cp: WorkflowCheckpoint, input: Value, sheet: Sheet)
    requires sheet.from <= cp.nextNodeIndex < |r.graph.topology|
    requires var i, name := cp.nextNodeIndex, r.graph.topology[cp.nextNodeIndex];
             && name in r.graph.nodes && name !in AnswersTo(r, sheet, i)
             && ExecuteNode(Plain(r, input, AnswersTo(r, sheet, i + 1)), name, cp.values).Ok?
    ensures var i, name := cp.nextNodeIndex, r.graph.topology[cp.nextNodeIndex];
            RunNode(r, NoFault, i, name, NodeInput(r, cp, name, AnswerAt(r, sheet, i))).Ok?
  {
    hide CollectInputs, AnswerAt;
  }

  // --------------------------------------------------------------- one drive

  /** A stored checkpoint that waits at gate number `number`. */
  ghost predicate AtGate(r: WorkflowRunner, cp: WorkflowCheckpoint, number: int) {
    && cp.nextNodeIndex < |r.graph.topology| && r.graph.topology[cp.nextNodeIndex] in r.interruptBefore
    && Gated(r, cp.nextNodeIndex) == number && cp.interruptedBefore == Some(r.graph.topology[cp.nextNodeIndex])
  }

  /** Where an undisturbed drive stops: at the next gate not yet passed, or at completion with the answered output. */
  ghost predicate StopsAtGate(r: WorkflowRunner, id: string, input: Value, sheet: Sheet, passed: nat, e: Effect)
    requires WellFormed(r.graph) && sheet.from <= |r.graph.topology|
  {
    if passed == Gated(r, |r.graph.topology|) then
      e.reply.Completed? && e.reply.runId == id && Outcome(Answered(r, input, sheet)) == Ok(e.reply.output)
    else
      && id in e.store && AtGate(r, e.store[id], passed)
      && e.reply.Interrupted? && Some(e.reply.beforeNode) == e.store[id].interruptedBefore
      && sheet.from <= e.store[id].nextNodeIndex
      && SoundCheckpoint(r, e.store[id], id, input, AnswersTo(r, sheet, e.store[id].nextNodeIndex))
  }

  ghost predicate ApprovedBehind(r: WorkflowRunner, i: nat, approved: Option<string>) {
    approved.Some? ==> exists j :: 0 <= j <= i && j < |r.graph.topology| && r.graph.topology[j] == approved.value
  }

  /** The resume input in hand at `i` is the answer to that gate, or spent. */
  ghost predicate Answering(r: WorkflowRunner, sheet: Sheet, i: nat, approved: Option<string>,
                            resumeInput: Option<Value>)
    requires sheet.from <= i
  {
    i < |r.graph.topology| && approved == Some(r.graph.topology[i]) ==>
      r.graph.topology[i] in r.interruptBefore && resumeInput == AnswerAt(r, sheet, i)
  }

  /** An undisturbed drive over a node it may run goes on from the next checkpoint. */
  lemma DrivenOnward(r: WorkflowRunner, cp: WorkflowCheckpoint, approved: Option<string>, resumeInput: Option<Value>,
                     store: Store, output: Value)
    requires cp.nextNodeIndex < |r.graph.topology|
    requires var i, name := cp.nextNodeIndex, r.graph.topology[cp.nextNodeIndex];
             && (name in r.interruptBefore ==> approved == Some(name))
             && RunNode(r, NoFault, i, name, NodeInput(r, cp, name, Given(approved, name, resumeInput))) == Ok(output)
    ensures var name := r.graph.topology[cp.nextNodeIndex];
            var next := Advanced(cp, name, output);
            var left := if approved == Some(name) then None else resumeInput;
            var e, rest := Driven(r, cp, approved, resumeInput, store, NoFault),
                           Driven(r, next, approved, left, store[cp.runId := next], NoFault);
            e.reply == rest.reply && e.store == rest.store
  {
    hide RunNode, NodeInput, CollectInputs, Invocation;
  }

  lemma DrivenToGate(r: WorkflowRunner, cp: WorkflowCheckpoint, approved: Option<string>, resumeInput: Option<Value>,
                     store: Store)
    requires cp.nextNodeIndex < |r.graph.topology|
    requires var name := r.graph.topology[cp.nextNodeIndex];
             name in r.interruptBefore && approved != Some(name)
    ensures var name, e := r.graph.topology[cp.nextNodeIndex], Driven(r, cp, approved, resumeInput, store, NoFault);
            && e.reply == Interrupted(cp.runId, name, r.revision)
            && e.store == store[cp.runId := cp.(interruptedBefore := Some(name))]
  {
    hide RunNode, NodeInput, CollectInputs, Invocation;
  }

  lemma DrivenToEnd(r: WorkflowRunner, cp: WorkflowCheckpoint, approved: Option<string>, resumeInput: Option<Value>,
                    store: Store)
    requires cp.nextNodeIndex == |r.graph.topology| && CollectInputs(END, r.graph.incoming, cp.values).Ok?
    ensures Driven(r, cp, approved, resumeInput, store, NoFault).reply ==
            Completed(cp.runId, CollectInputs(END, r.graph.incoming, cp.values).value)
  {
    hide CollectInputs;
  }

  /** A checkpoint in hand with a mark for the gate in front of it is sound. */
  lemma MarkedSound(r: WorkflowRunner, store: Store, cp: WorkflowCheckpoint, input: Value, sheet: Sheet)
    requires ValidRunner(r) && sheet.from <= cp.nextNodeIndex < |r.graph.topology|
    requires InHand(r, store, cp, input, AnswersTo(r, sheet, cp.nextNodeIndex))
    requires r.graph.topology[cp.nextNodeIndex] in r.interruptBefore
    ensures var marked := cp.(interruptedBefore := Some(r.graph.topology[cp.nextNodeIndex]));
            && SoundCheckpoint(r, marked, cp.runId, input, AnswersTo(r, sheet, cp.nextNodeIndex))
            && AtGate(r, marked, Gated(r, cp.nextNodeIndex))
  {
    hide WellFormed, Prefix, AnswersTo;
  }

  lemma {:induction false} FineDrive(r: WorkflowRunner, cp: WorkflowCheckpoint, approved: Option<string>,
                                     resumeInput: Option<Value>,
                                     store: Store, input: Value, sheet: Sheet)
    requires ValidRunner(r) && Succeeds(r, input, sheet) && sheet.from <= cp.nextNodeIndex <= |r.graph.topology|
    requires InHand(r, store, cp, input, AnswersTo(r, sheet, cp.nextNodeIndex))
    requires ApprovedBehind(r, cp.nextNodeIndex, approved)
             && Answering(r, sheet, cp.nextNodeIndex, approved, resumeInput)
    ensures StopsAtGate(r, cp.runId, input, sheet, Passed(r, cp.nextNodeIndex, approved),
                        Driven(r, cp, approved, resumeInput, store, NoFault))
    decreases |r.graph.topology| - cp.nextNodeIndex
  {
    hide WellFormed, InHand, Succeeds, Driven, StopsAtGate, Passed;
    var i, t := cp.nextNodeIndex, r.graph.topology;
    if i == |t| {
      FineEnd(r, cp, approved, resumeInput, store, input, sheet);
    } else if t[i] in r.interruptBefore && approved != Some(t[i]) {
      FineGate(r, cp, approved, resumeInput, store, input, sheet);
    } else {
      FineStep(r, cp, approved, resumeInput, store, input, sheet);
    }
  }

  lemma FineEnd(r: WorkflowRunner, cp: WorkflowCheckpoint, approved: Option<string>, resumeInput: Option<Value>,
                store: Store,
                input: Value, sheet: Sheet)
    requires ValidRunner(r) && sheet.from <= cp.nextNodeIndex == |r.graph.topology|
    requires InHand(r, store, cp, input, AnswersTo(r, sheet, cp.nextNodeIndex))
    ensures StopsAtGate(r, cp.runId, input, sheet, Passed(r, cp.nextNodeIndex, approved),
                        Driven(r, cp, approved, resumeInput, store, NoFault))
  {
    hide WellFormed, InHand, CollectInputs, Outcome, Driven, SoundCheckpoint, AnswersTo, AtGate;
    HandProgressed(r, store, cp, input, AnswersTo(r, sheet, cp.nextNodeIndex));
    FinishSound(r, cp, input, AnswersTo(r, sheet, cp.nextNodeIndex));
    DrivenToEnd(r, cp, approved, resumeInput, store);
  }

  lemma FineGate(r: WorkflowRunner, cp: WorkflowCheckpoint, approved: Option<string>, resumeInput: Option<Value>,
                 store: Store,
                 input: Value, sheet: Sheet)
    requires ValidRunner(r) && sheet.from <= cp.nextNodeIndex < |r.graph.topology|
    requires InHand(r, store, cp, input, AnswersTo(r, sheet, cp.nextNodeIndex))
    requires var name := r.graph.topology[cp.nextNodeIndex]; name in r.interruptBefore && approved != Some(name)
    ensures StopsAtGate(r, cp.runId, input, sheet, Passed(r, cp.nextNodeIndex, approved),
                        Driven(r, cp, approved, resumeInput, store, NoFault))
  {
    hide WellFormed, InHand, Outcome, Driven, SoundCheckpoint, AnswersTo, AtGate;
    GatedGrows(r, cp.nextNodeIndex + 1, |r.graph.topology|);
    DrivenToGate(r, cp, approved, resumeInput, store);
    MarkedSound(r, store, cp, input, sheet);
  }

  lemma {:induction false} FineStep(r: WorkflowRunner, cp: WorkflowCheckpoint, approved: Option<string>,
                                    resumeInput: Option<Value>,
                                    store: Store, input: Value, sheet: Sheet)
    requires ValidRunner(r) && Succeeds(r, input, sheet) && sheet.from <= cp.nextNodeIndex < |r.graph.topology|
    requires InHand(r, store, cp, input, AnswersTo(r, sheet, cp.nextNodeIndex))
    requires ApprovedBehind(r, cp.nextNodeIndex, approved)
             && Answering(r, sheet, cp.nextNodeIndex, approved, resumeInput)
    requires var name := r.graph.topology[cp.nextNodeIndex]; name in r.interruptBefore ==> approved == Some(name)
    ensures StopsAtGate(r, cp.runId, input, sheet, Passed(r, cp.nextNodeIndex, approved),
                        Driven(r, cp, approved, resumeInput, store, NoFault))
    decreases |r.graph.topology| - cp.nextNodeIndex, 0
  {
    hide WellFormed, InHand, RunNode, NodeInput, Succeeds, Driven, StopsAtGate, Progressed, Extends, Untouched, Passed;
    var i, name := cp.nextNodeIndex, r.graph.topology[cp.nextNodeIndex];
    var given := AnswerAt(r, sheet, i);
    assert Given(approved, name, resumeInput) == given;
    HandProgressed(r, store, cp, input, AnswersTo(r, sheet, i));
    NodeSucceeds(r, cp, input, sheet);
    var output := RunNode(r, NoFault, i, name, NodeInput(r, cp, name, given)).value;
    var next := Advanced(cp, name, output);
    var left := if approved == Some(name) then None else resumeInput;
    StepHand(r, cp, store, input, AnswersTo(r, sheet, i), given, NoFault, output);
    NotApprovedAhead(r, i, approved);
    DrivenOnward(r, cp, approved, resumeInput, store, output);
    FineDrive(r, next, approved, left, store[cp.runId := next], input, sheet);
    PassedNext(r, i, approved);
    StopsAlike(r, cp.runId, input, sheet, Passed(r, i, approved),
               Driven(r, cp, approved, resumeInput, store, NoFault),
               Driven(r, next, approved, left, store[cp.runId := next], NoFault));
  }

  lemma PassedNext(r: WorkflowRunner, i: nat, approved: Option<string>)
    requires i < |r.graph.topology|
             && (r.graph.topology[i] in r.interruptBefore ==> approved == Some(r.graph.topology[i]))
    requires i + 1 < |r.graph.topology| ==> approved != Some(r.graph.topology[i + 1])
    ensures Passed(r, i, approved) == Passed(r, i + 1, approved)
  {
  }

  /** Where a call stops shows in its reply and the store. */
  lemma StopsAlike(r: WorkflowRunner, id: string, input: Value, sheet: Sheet, passed: nat, e: Effect, f: Effect)
    requires ValidRunner(r) && sheet.from <= |r.graph.topology| && StopsAtGate(r, id, input, sheet, passed, f)
    requires e.reply == f.reply && e.store == f.store
    ensures StopsAtGate(r, id, input, sheet, passed, e)
  {
    hide WellFormed, SoundCheckpoint, AtGate, Outcome, AnswersTo;
  }

  /** Names are distinct, so what is approved here or before is not approved again later. */
  lemma NotApprovedAhead(r: WorkflowRunner, i: nat, approved: Option<string>)
    requires ValidRunner(r) && i < |r.graph.topology| && ApprovedBehind(r, i, approved)
    ensures ApprovedBehind(r, i + 1, approved)
    ensures i + 1 < |r.graph.topology| ==> approved != Some(r.graph.topology[i + 1])
  {
    DistinctTopology(r.graph);
    hide WellFormed;
  }

  // --------------------------------------------------------------- whole runs

  /** A resume for each answer after the effect `first`, nothing failing. */
  function ResumeAll(r: WorkflowRunner, scope: Scope, id: string, first: Effect, answers: Answers): Effect {
    if answers == [] then first
    else
      var last := |answers| - 1;
      Resumed(r, scope, id, answers[last], ResumeAll(r, scope, id, first, answers[..last]).store, NoFault)
  }

  /** One start and a resume for each answer, nothing failing. */
  function Undisturbed(r: WorkflowRunner, scope: Scope, id: string, input: Value, store: Store,
                       answers: Answers): Effect {
    ResumeAll(r, scope, id, Started(r, scope, id, input, store, NoFault), answers)
  }

  /** The run waits at its gate number `passed` or is complete, and `scope` may resume it. */
  ghost predicate WaitsAtGate(r: WorkflowRunner, scope: Scope, id: string, input: Value, sheet: Sheet, passed: nat,
                              e: Effect)
    requires WellFormed(r.graph) && sheet.from <= |r.graph.topology|
  {
    StopsAtGate(r, id, input, sheet, passed, e) && (id in e.store ==> Refusal(r, scope, e.store[id]).None?)
  }

  /** A call has left its run, if stored, with its identity, and all other runs alone. */
  ghost predicate Keeps(cp: WorkflowCheckpoint, store: Store, after: Store) {
    && (cp.runId in after ==> Identity(after[cp.runId]) == Identity(cp))
    && Untouched(store, after, cp.runId)
  }

  lemma {:induction false} ScopeKept(r: WorkflowRunner, cp: WorkflowCheckpoint, approved: Option<string>,
                                     resumeInput: Option<Value>,
                                     store: Store, faults: Faults)
    requires cp.runId in store && Identity(store[cp.runId]) == Identity(cp)
    ensures Keeps(cp, store, Driven(r, cp, approved, resumeInput, store, faults).store)
    decreases |r.graph.topology| - cp.nextNodeIndex
  {
    hide RunNode, NodeInput, Driven;
    var i := cp.nextNodeIndex;
    if i < |r.graph.topology| && ErrorAt(faults, Turn(i)).None? && faults(StepSave(i)).Fine?
       && (r.graph.topology[i] in r.interruptBefore ==> approved == Some(r.graph.topology[i])) {
      var name := r.graph.topology[i];
      var output := RunNode(r, faults, i, name, NodeInput(r, cp, name, Given(approved, name, resumeInput)));
      if output.Ok? {
        var next := Advanced(cp, name, output.value);
        var left := if approved == Some(name) then None else resumeInput;
        StoreOnward(r, cp, approved, resumeInput, store, faults, output.value);
        ScopeKept(r, next, approved, left, store[cp.runId := next], faults);
      } else {
        StoreStops(r, cp, approved, resumeInput, store, faults);
      }
    } else {
      StoreStops(r, cp, approved, resumeInput, store, faults);
    }
  }

  lemma StoreOnward(r: WorkflowRunner, cp: WorkflowCheckpoint, approved: Option<string>, resumeInput: Option<Value>,
                    store: Store, faults: Faults, output: Value)
    requires cp.nextNodeIndex < |r.graph.topology| && ErrorAt(faults, Turn(cp.nextNodeIndex)).None?
    requires faults(StepSave(cp.nextNodeIndex)).Fine?
    requires var i, name := cp.nextNodeIndex, r.graph.topology[cp.nextNodeIndex];
             && (name in r.interruptBefore ==> approved == Some(name))
             && RunNode(r, faults, i, name, NodeInput(r, cp, name, Given(approved, name, resumeInput))) == Ok(output)
    ensures var name := r.graph.topology[cp.nextNodeIndex];
            var next := Advanced(cp, name, output);
            var left := if approved == Some(name) then None else resumeInput;
            Driven(r, cp, approved, resumeInput, store, faults).store
            == Driven(r, next, approved, left, store[cp.runId := next], faults).store
  {
    hide RunNode, NodeInput, CollectInputs, Invocation;
  }

  /** A call that does not get past its next node leaves the store as it is, marks its run, or removes it. */
  lemma StoreStops(r: WorkflowRunner, cp: WorkflowCheckpoint, approved: Option<string>, resumeInput: Option<Value>,
                   store: Store, faults: Faults)
    requires cp.runId in store && Identity(store[cp.runId]) == Identity(cp)
    requires cp.nextNodeIndex < |r.graph.topology| ==>
               var i, name := cp.nextNodeIndex, r.graph.topology[cp.nextNodeIndex];
               || ErrorAt(faults, Turn(i)).Some? || !faults(StepSave(i)).Fine?
               || (name in r.interruptBefore && approved != Some(name))
               || RunNode(r, faults, i, name, NodeInput(r, cp, name, Given(approved, name, resumeInput))).Err?
    ensures Keeps(cp, store, Driven(r, cp, approved, resumeInput, store, faults).store)
  {
    hide RunNode, NodeInput, CollectInputs, Invocation;
  }

  /** What a resume checks: it never changes along a run. */
  function Identity(cp: WorkflowCheckpoint): (nat, string, Option<string>, Option<string>) {
    (cp.version, cp.graphRevision, cp.tenant, cp.subject)
  }

  lemma FirstStop(r: WorkflowRunner, scope: Scope, id: string, input: Value, store: Store, answers: Answers)
    requires ValidRunner(r) && Succeeds(r, input, Blank(answers))
    ensures var e := Started(r, scope, id, input, store, NoFault);
            WaitsAtGate(r, scope, id, input, Blank(answers), 0, e) && Untouched(store, e.store, id)
  {
    hide WellFormed, Outcome, Driven, Succeeds, StopsAtGate, InHand;
    var cp := FirstCheckpoint(r, scope, id, input);
    FirstInHand(r, scope, id, input, store);
    FineDrive(r, cp, None, None, store[id := cp], input, Blank(answers));
    ScopeKept(r, cp, None, None, store[id := cp], NoFault);
  }

  /** A resume that brings the answer to the gate a run waits at takes it to the next one. */
  lemma NextStop(r: WorkflowRunner, scope: Scope, id: string, input: Value, sheet: Sheet, m: nat, e: Effect)
    requires ValidRunner(r) && Succeeds(r, input, sheet) && m < |sheet.answers|
    requires Gated(r, sheet.from) + m < Gated(r, |r.graph.topology|)
    requires WaitsAtGate(r, scope, id, input, sheet, Gated(r, sheet.from) + m, e)
    ensures var f := Resumed(r, scope, id, sheet.answers[m], e.store, NoFault);
            && WaitsAtGate(r, scope, id, input, sheet, Gated(r, sheet.from) + m + 1, f)
            && Untouched(e.store, f.store, id)
  {
    hide WellFormed, Outcome, Driven, Succeeds, Progressed;
    var cp := e.store[id];
    var bare := cp.(interruptedBefore := None);
    FineDrive(r, bare, cp.interruptedBefore, sheet.answers[m], e.store, input, sheet);
    ScopeKept(r, bare, cp.interruptedBefore, sheet.answers[m], e.store, NoFault);
  }

  /** Gates that a run standing at `i` has still in front of it. */
  ghost function GatesLeft(r: WorkflowRunner, i: nat): nat
    requires i <= |r.graph.topology|
  {
    GatedGrows(r, i, |r.graph.topology|);
    Gated(r, |r.graph.topology|) - Gated(r, i)
  }

  /** From where a run waits, each answer takes it one gate further, and no other run changes. */
  lemma {:induction false} StopsInOrder(r: WorkflowRunner, scope: Scope, id: string, input: Value, sheet: Sheet,
                                        first: Effect, m: nat)
    requires ValidRunner(r) && Succeeds(r, input, sheet)
    requires m <= |sheet.answers| == GatesLeft(r, sheet.from)
    requires WaitsAtGate(r, scope, id, input, sheet, Gated(r, sheet.from), first)
    ensures var e := ResumeAll(r, scope, id, first, sheet.answers[..m]);
            && WaitsAtGate(r, scope, id, input, sheet, Gated(r, sheet.from) + m, e)
            && Untouched(first.store, e.store, id)
  {
    hide WellFormed, WaitsAtGate, Succeeds, Resumed;
    if m > 0 {
      StopsInOrder(r, scope, id, input, sheet, first, m - 1);
      NextStop(r, scope, id, input, sheet, m - 1, ResumeAll(r, scope, id, first, sheet.answers[..m - 1]));
      assert sheet.answers[..m][..m - 1] == sheet.answers[..m - 1];
    }
  }

  /** The reply and the store of a run that has passed `passed` of its gates. */
  ghost predicate Reached(r: WorkflowRunner, id: string, input: Value, sheet: Sheet, passed: int, e: Effect)
    requires sheet.from <= |r.graph.topology|
  {
    if passed < Gated(r, |r.graph.topology|) then
      e.reply.Interrupted? && id in e.store && AtGate(r, e.store[id], passed)
    else e.reply.Completed? && Outcome(Answered(r, input, sheet)) == Ok(e.reply.output)
  }

  lemma WaitingReached(r: WorkflowRunner, scope: Scope, id: string, input: Value, sheet: Sheet, passed: nat, e: Effect)
    requires ValidRunner(r) && sheet.from <= |r.graph.topology| && passed <= Gated(r, |r.graph.topology|)
    requires WaitsAtGate(r, scope, id, input, sheet, passed, e)
    ensures Reached(r, id, input, sheet, passed, e)
  {
    hide WellFormed, SoundCheckpoint, AtGate, Answered, Outcome;
  }

  /**
   * Without failures, whatever is answered and whatever else is stored: a run stops at its gates in order and completes
   * after exactly as many resumes as there are gates, with the output of the graph in which each answered gate took its
   * answer.
   */
  lemma ResumesNeeded(r: WorkflowRunner, scope: Scope, id: string, input: Value, store: Store, answers: Answers, m: nat)
    requires ValidRunner(r) && Succeeds(r, input, Blank(answers)) && m <= |answers| == |r.interruptBefore|
    ensures var e := Undisturbed(r, scope, id, input, store, answers[..m]);
            && (m < |r.interruptBefore| ==> e.reply.Interrupted? && id in e.store && AtGate(r, e.store[id], m))
            && (m == |r.interruptBefore| ==>
                  e.reply.Completed? && Outcome(Answered(r, input, Blank(answers))) == Ok(e.reply.output))
            && Untouched(store, e.store, id)
  {
    hide WellFormed, ResumeAll, Succeeds, WaitsAtGate, AtGate, Answered, Outcome, Started;
    var sheet, first := Blank(answers), Started(r, scope, id, input, store, NoFault);
    AllGates(r);
    assert Gated(r, 0) == 0;
    FirstStop(r, scope, id, input, store, answers);
    StopsInOrder(r, scope, id, input, sheet, first, m);
    WaitingReached(r, scope, id, input, sheet, m, ResumeAll(r, scope, id, first, answers[..m]));
  }

  // --------------------------------------------------------------- after failures

  /** Only the store of what went before matters to a resume. */
  lemma {:induction false} ResumeAllSame(r: WorkflowRunner, scope: Scope, id: string, a: Effect, b: Effect,
                                         answers: Answers)
    requires a.store == b.store && answers != []
    ensures ResumeAll(r, scope, id, a, answers) == ResumeAll(r, scope, id, b, answers)
    decreases |answers|
  {
    hide Resumed;
    if |answers| > 1 {
      ResumeAllSame(r, scope, id, a, b, answers[..|answers| - 1]);
    }
  }

  lemma {:induction false} ResumeAllFirst(r: WorkflowRunner, scope: Scope, id: string, found: Effect, answers: Answers)
    requires answers != []
    ensures ResumeAll(r, scope, id, found, answers) ==
              ResumeAll(r, scope, id, Resumed(r, scope, id, answers[0], found.store, NoFault), answers[1..])
    decreases |answers|
  {
    hide Resumed;
    var last := |answers| - 1;
    if last > 0 {
      ResumeAllFirst(r, scope, id, found, answers[..last]);
      assert answers[1..][..last - 1] == answers[..last][1..];
    } else {
      assert answers[..last] == [];
    }
  }

  /**
   * How many fault-free resumes a stored run still takes: one for each gate left, and one more if no gate is marked.
   */
  ghost function ResumesLeft(r: WorkflowRunner, cp: WorkflowCheckpoint): nat
    requires cp.nextNodeIndex <= |r.graph.topology|
  {
    GatesLeft(r, cp.nextNodeIndex) + if cp.interruptedBefore.Some? then 0 else 1
  }

  /** The answers to the gates left: if no gate is marked, the first resume brings its input in vain. */
  function Remaining(cp: WorkflowCheckpoint, inputs: Answers): Answers {
    if cp.interruptedBefore.Some? || inputs == [] then inputs else inputs[1..]
  }

  function Onward(cp: WorkflowCheckpoint, record: map<string, Value>, inputs: Answers): Sheet {
    Sheet(record, cp.nextNodeIndex, Remaining(cp, inputs))
  }

  /** A run found waiting at a gate. */
  lemma FoundMarked(r: WorkflowRunner, scope: Scope, id: string, input: Value, sheet: Sheet, store: Store)
    requires ValidRunner(r) && id in store && sheet.from == store[id].nextNodeIndex <= |r.graph.topology|
    requires SoundCheckpoint(r, store[id], id, input, sheet.record) && store[id].interruptedBefore.Some?
    requires Refusal(r, scope, store[id]).None?
    ensures var found := Effect(Interrupted(id, store[id].interruptedBefore.value, r.revision), store, [], map[]);
            WaitsAtGate(r, scope, id, input, sheet, Gated(r, sheet.from), found) && GatesLeft(r, sheet.from) > 0
  {
    hide WellFormed, Progressed, Outcome;
    GatedGrows(r, sheet.from + 1, |r.graph.topology|);
  }

  /** A run found between gates is taken to the next one by any resume. */
  lemma FoundBetween(r: WorkflowRunner, scope: Scope, id: string, input: Value, sheet: Sheet, store: Store,
                     spare: Option<Value>)
    requires ValidRunner(r) && id in store && sheet.from == store[id].nextNodeIndex <= |r.graph.topology|
    requires SoundCheckpoint(r, store[id], id, input, sheet.record) && store[id].interruptedBefore.None?
    requires Refusal(r, scope, store[id]).None? && Succeeds(r, input, sheet)
    ensures var e := Resumed(r, scope, id, spare, store, NoFault);
            WaitsAtGate(r, scope, id, input, sheet, Gated(r, sheet.from), e) && Untouched(store, e.store, id)
  {
    hide WellFormed, Outcome, Driven, Succeeds, Progressed, StopsAtGate;
    var cp := store[id];
    assert cp.(interruptedBefore := None) == cp;
    FineDrive(r, cp, None, spare, store, input, sheet);
    ScopeKept(r, cp, None, spare, store, NoFault);
  }

  /** One stored, sound run, resumed until it completes. */
  lemma SoundRunCompletes(r: WorkflowRunner, scope: Scope, id: string, input: Value, record: map<string, Value>,
                          found: Effect, inputs: Answers, m: nat)
    requires ValidRunner(r) && id in found.store && found.store[id].nextNodeIndex <= |r.graph.topology|
    requires SoundCheckpoint(r, found.store[id], id, input, record) && Refusal(r, scope, found.store[id]).None?
    requires Succeeds(r, input, Onward(found.store[id], record, inputs))
    requires 0 < m <= |inputs| == ResumesLeft(r, found.store[id])
    ensures var cp, e := found.store[id], ResumeAll(r, scope, id, found, inputs[..m]);
            && Reached(r, id, input, Onward(cp, record, inputs),
                       Gated(r, |r.graph.topology|) - (|inputs| - m), e)
            && Untouched(found.store, e.store, id)
  {
    hide WellFormed, ResumeAll, Succeeds, WaitsAtGate, Reached, SoundCheckpoint, Refusal, Resumed;
    var cp := found.store[id];
    var sheet := Onward(cp, record, inputs);
    if cp.interruptedBefore.Some? {
      FoundMarked(r, scope, id, input, sheet, found.store);
      var first := Effect(Interrupted(id, cp.interruptedBefore.value, r.revision), found.store, [], map[]);
      StopsInOrder(r, scope, id, input, sheet, first, m);
      ResumeAllSame(r, scope, id, found, first, inputs[..m]);
      WaitingReached(r, scope, id, input, sheet, Gated(r, sheet.from) + m, ResumeAll(r, scope, id, first, inputs[..m]));
    } else {
      FoundBetween(r, scope, id, input, sheet, found.store, inputs[0]);
      var first := Resumed(r, scope, id, inputs[0], found.store, NoFault);
      StopsInOrder(r, scope, id, input, sheet, first, m - 1);
      ResumeAllFirst(r, scope, id, found, inputs[..m]);
      assert inputs[..m][1..] == inputs[1..][..m - 1];
      var e := ResumeAll(r, scope, id, first, sheet.answers[..m - 1]);
      WaitingReached(r, scope, id, input, sheet, Gated(r, sheet.from) + (m - 1), e);
      UntouchedTwice(found.store, first.store, e.store, id);
    }
  }

  lemma UntouchedTwice(a: Store, b: Store, c: Store, id: string)
    requires Untouched(a, b, id) && Untouched(b, c, id)
    ensures Untouched(a, c, id)
  {
  }

  lemma StoredRun(r: WorkflowRunner, w: World, scope: Scope, id: string)
    requires ValidRunner(r) && SoundWorld(r, w) && id in w.store
    requires scope == Scope(w.store[id].tenant, w.store[id].subject)
    ensures id in w.inputs && id in w.overrides && w.store[id].nextNodeIndex <= |r.graph.topology|
    ensures SoundCheckpoint(r, w.store[id], id, w.inputs[id], w.overrides[id]) && Refusal(r, scope, w.store[id]).None?
  {
    hide WellFormed, Prefix;
    assert SoundRun(r, w, id);
  }

  /**
   * The graph succeeds on the human inputs on record for a stored run and on those brought by its remaining resumes.
   */
  ghost predicate Recoverable(r: WorkflowRunner, w: World, id: string, inputs: Answers) {
    && id in w.store && id in w.inputs && id in w.overrides && w.store[id].nextNodeIndex <= |r.graph.topology|
    && |inputs| == ResumesLeft(r, w.store[id])
    && Succeeds(r, w.inputs[id], Onward(w.store[id], w.overrides[id], inputs))
  }

  /** What `e` must be after `m` of those resumes: a wait at the gate that is next, or completion at the last. */
  ghost predicate Recovering(r: WorkflowRunner, w: World, id: string, inputs: Answers, m: nat, e: Effect)
    requires Recoverable(r, w, id, inputs)
  {
    && (if m < |inputs| then
          e.reply.Interrupted? && id in e.store && AtGate(r, e.store[id], |r.interruptBefore| - (|inputs| - m))
        else
          && e.reply.Completed?
          && Outcome(Answered(r, w.inputs[id], Onward(w.store[id], w.overrides[id], inputs))) == Ok(e.reply.output))
    && Untouched(w.store, e.store, id)
  }

  /**
   * Recovery makes progress. However a history went, with whatever failures: a run that is still stored, resumed by its
   * own scope without further failures, completes after exactly one resume for each gate left, and one more if it was
   * not left waiting at a gate. Before the last of them it waits at its gates in order. Its output is that of the graph
   * with the human inputs on record and those brought now, provided the graph succeeds on them.
   */
  lemma RecoveryCompletes(r: WorkflowRunner, calls: seq<Call>, k: nat, scope: Scope, id: string, found: Effect,
                          inputs: Answers, m: nat)
    requires ValidRunner(r) && History(r, calls) && k <= |calls|
    requires Recoverable(r, WorldAt(r, calls, k), id, inputs) && 0 < m <= |inputs|
    requires var cp := WorldAt(r, calls, k).store[id]; scope == Scope(cp.tenant, cp.subject)
    requires found.store == WorldAt(r, calls, k).store
    ensures Recovering(r, WorldAt(r, calls, k), id, inputs, m, ResumeAll(r, scope, id, found, inputs[..m]))
  {
    hide WellFormed, WorldAt, ResumeAll, Succeeds, AtGate, Answered, Outcome, SoundCheckpoint, SoundWorld, Refusal,
         Untouched, GatesLeft, Onward;
    var w := WorldAt(r, calls, k);
    WorldsSound(r, calls, k);
    StoredRun(r, w, scope, id);
    AllGates(r);
    SoundRunCompletes(r, scope, id, w.inputs[id], w.overrides[id], found, inputs, m);
  }
}
