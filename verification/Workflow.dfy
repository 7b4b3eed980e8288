/** Values, errors, nodes and edges of an AI workflow. */
module Workflow {
  import opened Prelude

  const START := "__start__"
  const END := "__end__"

  /** A JSON value: opaque except for the array built by joins. */
  datatype Value = Null | Scalar(text: string) | Array(items: seq<Value>)

  /** Why a workflow definition, or an input lookup, is refused. */
  datatype Defect =
    | EmptyName
    | ReservedName(name: string)
    | DuplicateNode(name: string)
    | DuplicateEdge(edge: Edge)
    | NoEdges
    | EndHasOutgoing
    | StartHasIncoming
    | MissingSource(name: string)
    | MissingTarget(name: string)
    | NoStartEdge
    | NoEndEdge
    | Cycle
    | UnreachableNode(name: string)
    | UnreachableEnd
    | MissingNode(name: string)
    | MissingInputs(name: string)
    | ValueUnavailable(source: string, name: string)
    | NoInput(name: string)
    | ZeroChunkLimit
    | NotOneInput(name: string, found: nat)
    | NotOnePathFromStart
    | NotOneOutput(name: string)
    | EmptyRevision
    | MissingInterruptNode(name: string)

  datatype AiError =
    | InvalidWorkflow(defect: Defect)
    | WorkflowNode(message: string)
    | WorkflowStreamLimit(maxChunks: nat)
    | Cancelled
    | DeadlineExceeded
    | Checkpoint(message: string)
    | UnsupportedCheckpoint(version: nat)
    | CheckpointNotFound(runId: string)
    | CheckpointScopeMismatch
    | CheckpointRevisionMismatch(expected: string, actual: string)

  datatype Edge = Edge(source: string, target: string)

  /** A node is a deterministic function of its input. */
  type Node = Value -> Result<Value, AiError>

  /** A node-to-node edge: START and END take no part in layering. */
  predicate Link(edges: seq<Edge>, source: string, target: string) {
    Edge(source, target) in edges && source != START && target != END
  }

  ghost predicate NodeNames(nodes: set<string>) {
    START !in nodes && END !in nodes && "" !in nodes
  }

  /** Every edge runs from START or a node to a node or END. */
  predicate Endpoints(nodes: set<string>, e: Edge) {
    (e.source == START || e.source in nodes) && (e.target == END || e.target in nodes)
  }

  ghost predicate AllEndpoints(nodes: set<string>, edges: seq<Edge>) {
    forall e | e in edges :: Endpoints(nodes, e)
  }
}
