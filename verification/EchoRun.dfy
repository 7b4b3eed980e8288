/** A smallest gated workflow, to which the laws of runs apply. */
module EchoRun {
  import opened Prelude
  import opened Workflow
  import opened Compile
  import opened Execute
  import opened Runner
  import opened RunnerLaws
  import opened Histories
  import opened Gates

  const EchoGraph := CompiledGraph(
    map["echo" := (v: Value) => Ok(v)],
    map["echo" := [START], END := ["echo"]],
    ["echo"],
    [["echo"]])

  const EchoRunner := WorkflowRunner(EchoGraph, "v1", {"echo"})

  lemma EchoIsValid()
    ensures ValidRunner(EchoRunner)
  {
    var g := EchoGraph;
    assert "echo" != START && "echo" != END && START != END by {
      assert |"echo"| == 4 && |START| == 9 && |END| == 7;
    }
    assert Elements(g.topology) == {"echo"} == g.nodes.Keys;
    assert Flatten(g.layers) == ["echo"] + Flatten(g.layers[1..]) == ["echo"];
    assert g.incoming["echo"] == [START] && g.incoming[END] == ["echo"];
  }

  /** The answer takes the place of the input. */
  function Heard(input: Value, answer: Option<Value>): Value {
    if answer.Some? then answer.value else input
  }

  lemma EchoAnswers(answer: Option<Value>)
    ensures AnswersTo(EchoRunner, Blank([answer]), |EchoGraph.topology|) == Recorded("echo", answer)
  {
    assert Gated(EchoRunner, 0) == 0;
    assert AnswerAt(EchoRunner, Blank([answer]), 0) == answer;
    assert AnswersTo(EchoRunner, Blank([answer]), 0) == map[];
    assert AnswersTo(EchoRunner, Blank([answer]), 1) == map[] + Recorded("echo", answer);
  }

  lemma EchoOutcome(input: Value, answer: Option<Value>)
    ensures Outcome(Answered(EchoRunner, input, Blank([answer]))) == Ok(Heard(input, answer))
  {
    EchoAnswers(answer);
    var g, run := EchoGraph, Answered(EchoRunner, input, Blank([answer]));
    hide AnswersTo;
    assert "echo" != START && "echo" != END && START != END by {
      assert |"echo"| == 4 && |START| == 9 && |END| == 7;
    }
    assert g.incoming["echo"] == [START] && g.incoming[END] == ["echo"];
    var v0, heard := Initial(run), Heard(input, answer);
    assert Gather("echo", [START], v0) == Ok([input] + []);
    assert ExecuteNode(run, "echo", v0) == Ok(heard);
    var v1 := v0["echo" := heard];
    assert RunFrom(run, g.topology, 1, v1) == Ok(v1);
    assert RunFrom(run, g.topology, 0, v0) == Ok(v1);
    assert Gather(END, ["echo"], v1) == Ok([heard] + []);
  }

  /** It stops at its gate, and completes after one resume, with the answer if there is one. */
  lemma EchoWaitsOnce(scope: Scope, id: string, input: Value, store: Store, answer: Option<Value>)
    ensures Undisturbed(EchoRunner, scope, id, input, store, []).reply.Interrupted?
    ensures var reply := Undisturbed(EchoRunner, scope, id, input, store, [answer]).reply;
            reply.Completed? && reply.output == Heard(input, answer)
  {
    hide Undisturbed, ValidRunner, Outcome, Answered;
    EchoIsValid();
    EchoOutcome(input, answer);
    ResumesNeeded(EchoRunner, scope, id, input, store, [answer], 0);
    ResumesNeeded(EchoRunner, scope, id, input, store, [answer], 1);
    assert [answer][..0] == [] && [answer][..1] == [answer];
  }

  /** A history that starts it and leaves it waiting is one to which the law of recovery applies. */
  lemma EchoIsRecoverable(scope: Scope, id: string, input: Value, answer: Option<Value>)
    ensures var calls := [StartCall(scope, id, input, NoFault)];
            History(EchoRunner, calls) && Recoverable(EchoRunner, WorldAt(EchoRunner, calls, 1), id, [answer])
  {
    hide ValidRunner, Outcome, Answered, Started;
    var calls := [StartCall(scope, id, input, NoFault)];
    EchoIsValid();
    EchoOutcome(input, answer);
    ResumesNeeded(EchoRunner, scope, id, input, map[], [answer], 0);
    assert [answer][..0] == [];
    assert WorldAt(EchoRunner, calls, 0) == Empty;
    var w := WorldAt(EchoRunner, calls, 1);
    assert w.store == Undisturbed(EchoRunner, scope, id, input, map[], []).store;
    assert w.store[id].nextNodeIndex == 0;
    assert Gated(EchoRunner, 0) == 0 && Gated(EchoRunner, 1) == 1;
  }
}
