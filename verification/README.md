# Roze: a verified model

Roze is a Rust toolkit for services and AI workflows. This project models its most intricate parts in Dafny and proves
what they are for. Every `.dfy` file is one module; `dafny verify dfyconfig.toml` covers them all.

**The workflow engine** (`crates/roze-ai/src/compose.rs`). A graph builder compiles nodes and edges into layers; four
executors run the result; a runner adds checkpoints, interrupts and recovery.

- `Layers`, `LayerLaws`, `Reachability`, `Compile`: layering succeeds exactly on acyclic graphs, layers are longest-path
  depths, and an accepted graph never lacks an input.
- `Execute`, `ExecuteLaws`, `EventStream`: sequential execution, layered execution and the event stream all refine
  evaluation of the graph by well-founded recursion.
- `ChunkStream`, `Pipeline`, `LongStreams`: chunk streaming refines the composed flat map, up to a global bound.
- `Runner`, `RunnerLaws`, `Histories`, `Traces`, `Gates`, `EchoRun`: over every history of calls, with failures at any point, recovery gives
  what a straight run gives, and gated nodes run only when approved.

**The request context** (`crates/roze-context/src/context.rs`). `RequestContext` holds the contexts and the cells they
share; `Interleaving` lets contexts take atomic steps in any order and proves the laws of such runs; `ContextHeap` ties the
objects to those steps, so the laws hold of the heap; `Propagation` and `PropagationLaws` are the header codec and exactly
which contexts survive it.

**The contract language** (`apps/rozectl/src/parser.rs`, `format_api_spec` in `apps/rozectl/src/main.rs`). `ApiParser` and
`ApiPrinter` describe reading and printing, `ApiMethods` are the loops, `ApiLexical`, `ApiFields`, `ApiBlocks` and
`ApiRoundTrip` prove that what was printed reads back, `ApiCanonical` says exactly which contracts come back unchanged, and
`ApiSettled` that what came back always does.

**Smaller kernels.** `Sse` (event framing), `CivilDate` (day numbers), `CargoManifest`, `ServiceSync`,
`ServiceRendering` and `ProjectFiles` (dependency synchronization and its file transaction), `TextSplitter` (overlapping chunks), `CacheKey` (escaped keys).
`Prelude`, `Names`, `Numbers`, `Text` and `Workflow` hold what they share.

## How it is modelled

- Code that works by updating is imperative here too: loops carry invariants, contexts, stores, buffers and projects are
  classes. Where laws are about whole runs, a recursive function describes one call, the method is proved equal to it, and
  the laws are proved about the function.
- A workflow node is a deterministic function of its input. `Value` is opaque apart from the array built by joins.
- What the program cannot control is a parameter: context checks (an answer for each point of a run), store and file
  operations (each works, fails without effect, or takes effect and still fails; a failed file write may leave anything),
  generated identifiers, the clock, and the texts made by code outside this model (rendered manifest, `rustfmt`).
- Histories are sequences of calls, so calls on one run do not overlap; a start gets an identifier not used before.
- A node's chunk stream is a finite sequence for each input; `LongStreams` proves that nothing after its first
  `max_chunks + 1` chunks can matter, which covers streams that never end.
- Integers are unbounded. Where a machine word matters it is written out: the saturating sum of a restored budget,
  `parse::<usize>` and `parse::<i64>`, the overflow of `start + max_chars`. Division toward zero is its own function.
- Strings are sequences of characters. Byte positions matter only in `get(..10)`, which is modelled with UTF-8 widths, and
  in SSE framing and cache keys, which work on bytes.
- The lexical domain of the contract language (`Printable`) asks that texts are trimmed, keep to their line, hold no `//`,
  and do not contain the separators of their position; annotations the parser would refuse together are excluded.

## Where the code and what it promises differ

- `format_api_spec` does not print the middlewares of RPC methods, which the parser reads (`GuardedPingIsLost`), and a route
  without a server printed after one with a server is read under that server (`TwoRoutesAreLost`). `RoundTrip` gives the
  exact condition.
- `parse_expiry_date` is asked for a date and accepts 31 days in every month (`NoSuchDayIsAccepted`). The day spelled is the
  day meant exactly when its month is long enough (`ExpiresOnTheDaySpelled`).

## Model

| member | source | states |
|---|---|---|
| Compile.AddNode | crates/roze-ai/src/compose.rs:203-211 | a node is filed under its trimmed name exactly when that name is not empty, not reserved and new; the builder stays well formed and gains that one name |
| Compile.AddEdge | crates/roze-ai/src/compose.rs:167-181 | an edge is accepted exactly when it is not there yet, so no accepted edge list holds an edge twice |
| Compile.ValidateEdges | crates/roze-ai/src/compose.rs:810-852 | accepts exactly the edge lists whose ends are START, END or nodes on the allowed sides, with an edge out of START and one into END; otherwise the first offending edge is reported |
| Compile.IncomingEdges | crates/roze-ai/src/compose.rs:854-870 | every node and END gets its sources in edge order |
| Compile.CompileGraph | crates/roze-ai/src/compose.rs:188-201 | compilation succeeds if and only if the edges are valid, the node graph has no cycle and every node and END is reachable; a valid but cyclic graph gives the cycle error |
| Compile.CompiledWellFormed | crates/roze-ai/src/compose.rs:188-201 | every compiled graph has what the executors rely on: no node twice, every node and END has a source, every source is START or comes earlier in topology order and in a lower layer |
| Layers.CountEdges | crates/roze-ai/src/compose.rs:876-893 | the first pass gives each node its number of incoming node edges and each name its targets in edge order |
| Layers.RetireNode | crates/roze-ai/src/compose.rs:903-913 | finishing a node takes one unit per edge from each target; the decrement never underflows and exactly the targets that reach zero become ready |
| Layers.TopologicalLayers | crates/roze-ai/src/compose.rs:872-922 | the in-place in-degree loop computes the peeling of one frontier after another, and reports a cycle exactly when some node is never peeled |
| LayerLaws.LayeringSucceedsIffAcyclic | crates/roze-ai/src/compose.rs:872-922 | the peeling covers all nodes if and only if no path of node edges returns to its start |
| LayerLaws.LayersPartition | crates/roze-ai/src/compose.rs:872-922 | on success every node lies in exactly one layer |
| LayerLaws.EdgesGoUp | crates/roze-ai/src/compose.rs:872-922 | every node-to-node edge goes from a lower layer to a strictly higher one |
| LayerLaws.LayerIsDepth | crates/roze-ai/src/compose.rs:872-922 | the layer of a node is the number of edges of the longest path that ends in it |
| LayerLaws.NoLayeringIsShallower | crates/roze-ai/src/compose.rs:872-922 | any assignment of levels in which every node edge goes up puts each node at least as high as its layer |
| Reachability.Search | crates/roze-ai/src/compose.rs:928-942 | the queue-driven search, which may queue a name many times, ends and has visited exactly the names reachable from START |
| Reachability.ValidateReachability | crates/roze-ai/src/compose.rs:924-956 | accepts exactly when every node and END is reachable; otherwise the smallest unreachable node, or END, is reported |
| Execute.InvokeSequential | crates/roze-ai/src/compose.rs:260-274 | the sequential loop computes the run in topology order followed by the collection at END, checks included |
| Execute.InvokeParallel | crates/roze-ai/src/compose.rs:275-292 | running whole layers on the same values gives the sequential result, the same value and the same error; only a context check between layers can make a difference, and then it is that error |
| Execute.ExecuteAgrees | crates/roze-ai/src/compose.rs:412-446 | a node whose sources have their reference values executes to its own reference value: the recursive evaluation of the graph |
| Execute.RunFromAgrees | crates/roze-ai/src/compose.rs:260-274 | along any topological order the run ends with all reference values, or with the error of the first failing node of that order |
| ExecuteLaws.OutcomeIsEvaluation | crates/roze-ai/src/compose.rs:255-292 | `invoke` is evaluation of the graph by well-founded recursion: the value END collects, or the error of the first node in topology order whose evaluation fails |
| ExecuteLaws.OrderDoesNotMatter | crates/roze-ai/src/compose.rs:260-292 | any two topological orders compute the same values, and one fails exactly when the other does |
| ExecuteLaws.NeverMissingInput | crates/roze-ai/src/compose.rs:958-985 | on a compiled graph every error is a context check, or what a node returned when given the joined results of its sources: no input is ever missing or empty |
| ExecuteLaws.CollectEnd | crates/roze-ai/src/compose.rs:958-985 | END collects the reference values of its sources, one alone or several as an array |
| EventStream.Stream | crates/roze-ai/src/compose.rs:298-358 | a stream that does not fail is a complete run whose last event carries the output of `invoke`; one that fails is a legal beginning and the error of `invoke`, or of a check between layers |
| EventStream.StreamSequential | crates/roze-ai/src/compose.rs:306-327 | the sequential event loop keeps the ledger of starts and completions in step with the values |
| EventStream.StreamParallel | crates/roze-ai/src/compose.rs:328-353 | the layered event loop announces a whole layer, then its completions in layer order, and keeps the same ledger |
| EventStream.EachNodeRuns | crates/roze-ai/src/compose.rs:298-358 | in a complete run every node starts and later completes, between the first and the last event |
| EventStream.NoNodeTwice | crates/roze-ai/src/compose.rs:298-358 | no node starts twice or completes twice |
| EventStream.SourceBeforeTarget | crates/roze-ai/src/compose.rs:298-358 | the source of every edge completes before its target starts |
| Pipeline.ValidateStreamingPipeline | crates/roze-ai/src/compose.rs:493-526 | streaming is accepted if and only if the bound is positive and the graph is one START-to-END chain in topology order; a refusal names the first thing wrong, in the order of the checks |
| Pipeline.StreamChunks | crates/roze-ai/src/compose.rs:365-399 | a refused pipeline is one item, the error of its refusal; an accepted one is the stack of its stages over the input, drained under one shared counter |
| Pipeline.StreamExactIffFits | crates/roze-ai/src/compose.rs:365-399 | for non-failing nodes the stream is exactly the composed flat map if and only if the chunks of all stages together fit the bound |
| Pipeline.StreamCutShort | crates/roze-ai/src/compose.rs:448-491 | otherwise it is a beginning of the flat map, then the limit error, then errors only: no chunk follows a limit error |
| Pipeline.ErrorPasses | crates/roze-ai/src/compose.rs:365-399 | an error in front of the pipeline is the whole stream |
| ChunkStream.PullBound | crates/roze-ai/src/compose.rs:456-490 | the counter never goes down and all stages together yield at most the bound, failing nodes included |
| ChunkStream.DrainBound | crates/roze-ai/src/compose.rs:365-399 | over a whole stream all stages together yield at most the bound |
| LongStreams.OnlyTheBeginningMatters | crates/roze-ai/src/compose.rs:448-491 | of what a node makes of an input only the first `max_chunks + 1` chunks can matter, so a stream that never ends behaves as any longer-than-the-bound beginning of it |
| ChunkStream.DrainExact | crates/roze-ai/src/compose.rs:448-491 | from any state of a pipeline whose remaining work fits, exactly the remaining flat map comes out |
| ChunkStream.DrainCut | crates/roze-ai/src/compose.rs:448-491 | from any state whose remaining work does not fit, a prefix comes out, then the limit error, then only errors |
| Runner.NewRunner | crates/roze-ai/src/compose.rs:669-698 | a runner exists exactly for a revision that is not blank and gates that are nodes; the smallest gate that is no node is reported |
| Runner.CheckpointStore.Save | crates/roze-ai/src/compose.rs:625-635 | a save stores the checkpoint under its run, unless it fails without effect |
| Runner.CheckpointStore.Delete | crates/roze-ai/src/compose.rs:637-643 | a deletion removes the run, unless it fails without effect |
| Runner.Drive | crates/roze-ai/src/compose.rs:750-793 | the loop with its taken interrupt mark, interrupt saves, node steps and final deletion does to the store, invokes and replies what the recursive description of one call says, under any failures |
| Runner.Start | crates/roze-ai/src/compose.rs:700-718 | a start checks, saves the first checkpoint and drives; store, invocations and reply are those described |
| Runner.Resume | crates/roze-ai/src/compose.rs:720-748 | a resume checks, loads, refuses another version, revision or scope, and drives from the stored checkpoint; store, invocations and reply are those described |
| RunnerLaws.DriveSound | crates/roze-ai/src/compose.rs:750-793 | every drive, whatever fails, keeps the run sound: stored values are reference values of exactly the nodes before the index, the index does not go down, other runs are untouched, gated nodes run only if approved |
| Histories.RecoveryRefinesInvoke | crates/roze-ai/src/compose.rs:700-793 | in every history of starts and resumes without resume input, with failures anywhere, a completed run outputs what sequential `invoke` outputs on its input |
| Histories.CompletedIsEvaluation | crates/roze-ai/src/compose.rs:700-793 | with resume inputs, a completed run outputs the evaluation in which each approved node took the human input that reached the store |
| Histories.CheckpointKeys | crates/roze-ai/src/compose.rs:750-793 | every stored checkpoint holds values for exactly START and the nodes before its index |
| Histories.IndexNeverGoesDown | crates/roze-ai/src/compose.rs:700-793 | while a run is stored its index never goes down and its values are never rewritten |
| Histories.DeletedNeverReturns | crates/roze-ai/src/compose.rs:700-793 | a run that was deleted is never stored again |
| Histories.GatedNodesNeedApproval | crates/roze-ai/src/compose.rs:756-772 | in every history a gated node runs only inside a resume whose loaded checkpoint was saved as interrupted before that node |
| Gates.ResumesNeeded | crates/roze-ai/src/compose.rs:750-793 | without failures, whatever is answered at the gates and whatever else is stored: a run waits at its gates in topology order, completes after exactly as many resumes as there are gates, outputs the graph evaluated with each answered gate taking its answer, and touches no other run |
| Gates.RecoveryCompletes | crates/roze-ai/src/compose.rs:720-793 | recovery makes progress: after any history with any failures, a run still stored, resumed by its own scope without further failures, completes after exactly one resume per gate left, and one more if it was not left waiting at a gate; until then it waits at its gates in order; its output is that of the graph with the human inputs on record and those brought now, given that the graph succeeds on them; no other run changes |
| EchoRun.EchoWaitsOnce | crates/roze-ai/src/compose.rs:750-793 | a one-node workflow with a gate stops there and completes after one resume with the answer it got, or its input: the laws of runs are about something |
| EchoRun.EchoIsRecoverable | crates/roze-ai/src/compose.rs:700-793 | a history that starts that workflow and leaves it waiting meets the hypotheses of the law of recovery |
| Traces.ResumeInputOnlyApproved | crates/roze-ai/src/compose.rs:773-781 | in every history, whatever fails: an invoked node was given the resume input if it is the one the call approves and an input came, and otherwise the joined results of its sources, evaluated under the human inputs stored for its run |
| Traces.DriveFeeds | crates/roze-ai/src/compose.rs:750-793 | a drive invokes the nodes of the topology from its checkpoint on, in order and one after the other, each with its due input, under any failures |
| RequestContext.Context.Background | crates/roze-context/src/context.rs:237-244 | a background context has empty fields, no budget and a cancel state of its own |
| RequestContext.Context.Fork | crates/roze-context/src/context.rs:742-785 | a fork copies the fields and shares the budget cell and the cancel state of its parent |
| RequestContext.Context.WithRequestId | crates/roze-context/src/context.rs:254-262 | the result is a new context that differs from this one in the one change and shares both cells; nothing that existed is changed |
| RequestContext.Context.WithTraceId | crates/roze-context/src/context.rs:272-280 | the result is a new context that differs from this one in the one change and shares both cells; nothing that existed is changed |
| RequestContext.Context.WithAuth | crates/roze-context/src/context.rs:290-294 | the result is a new context that differs from this one in the one change and shares both cells; nothing that existed is changed |
| RequestContext.Context.WithMetadata | crates/roze-context/src/context.rs:482-490 | the result is a new context that differs from this one in the one change and shares both cells; nothing that existed is changed |
| RequestContext.Context.WithMetadataMap | crates/roze-context/src/context.rs:492-500 | the result is a new context that differs from this one in the one change and shares both cells; nothing that existed is changed |
| RequestContext.Context.WithMergedMetadata | crates/roze-context/src/context.rs:502-510 | the result is a new context that differs from this one in the one change and shares both cells; nothing that existed is changed |
| RequestContext.Context.WithDeadline | crates/roze-context/src/context.rs:619-627 | the result is a new context that differs from this one in the one change and shares both cells; nothing that existed is changed |
| RequestContext.Context.WithError | crates/roze-context/src/context.rs:672-680 | the result is a new context that differs from this one in the one change and shares both cells; nothing that existed is changed |
| RequestContext.Context.WithRetryBudget | crates/roze-context/src/context.rs:371-381 | as the other derivations, with a new budget cell holding at most 64 |
| RequestContext.Context.EnsureRetryBudget | crates/roze-context/src/context.rs:383-394 | a present budget stays; an absent one becomes a new cell holding at most 64 |
| RequestContext.Context.TryConsumeRetryBudget | crates/roze-context/src/context.rs:405-420 | grants one unit if there is one, and always without a budget; the cell goes down by what was granted |
| RequestContext.Context.TakeRetryBudgetUpTo | crates/roze-context/src/context.rs:422-438 | takes the lesser of the maximum and the remainder, and nothing without a budget |
| RequestContext.Context.RestoreRetryBudget | crates/roze-context/src/context.rs:440-462 | adds up to the cap of 64, or creates the cell; zero changes nothing |
| RequestContext.Context.LimitRetryBudget | crates/roze-context/src/context.rs:464-480 | lowers the cell to the limit and never raises it, or creates it |
| RequestContext.Context.CancelWithReason | crates/roze-context/src/context.rs:642-658 | sets the flag and the reason in the shared state |
| RequestContext.Context.WithExpirationReason | crates/roze-context/src/context.rs:734-740 | an expired fork cancels the shared state with the deadline reason; otherwise nothing is cancelled |
| Interleaving.BudgetConserved | crates/roze-context/src/context.rs:371-480 | over every interleaving of atomic steps a cell stays at most 64 and remaining plus granted plus thrown away equals the initial amount plus what was restored |
| Interleaving.RetriesBounded | crates/roze-context/src/context.rs:405-438 | without restores the units granted never exceed what the cell started with |
| Interleaving.ForksAreIsolated | crates/roze-context/src/context.rs:742-785 | no run of steps changes a field seen through an existing context; a budget appears only where it was missing and only by an ensure of that very context |
| Interleaving.FamilyIsTree | crates/roze-context/src/context.rs:742-785 | two contexts share a cancel state if and only if they descend from the same background context |
| Interleaving.CancelReachesTheTree | crates/roze-context/src/context.rs:642-662 | cancelling through any context is seen by every context of its tree, later forks included, and is never undone |
| Interleaving.OnlyTheTreeCancels | crates/roze-context/src/context.rs:642-662 | a context is cancelled exactly if it was before or a step of the run set the flag of its own tree |
| Interleaving.ReasonImpliesCancelled | crates/roze-context/src/context.rs:642-670 | a stored reason is always that of a cancelled context and stays stored |
| ContextHeap.Family.AddBackground | crates/roze-context/src/context.rs:237-244 | on the heap a background context is the step of that name in the world of the laws |
| ContextHeap.Family.AddDerived | crates/roze-context/src/context.rs:254-294 | on the heap every `with_*` call is a derivation step: nothing existing changes and the world takes that step |
| ContextHeap.Family.Ensure | crates/roze-context/src/context.rs:383-394 | `ensure_retry_budget` on the heap is the ensure step |
| ContextHeap.Family.Consume | crates/roze-context/src/context.rs:405-420 | `try_consume_retry_budget` on the heap is the consume step, and its answer is what that step grants |
| ContextHeap.Family.Take | crates/roze-context/src/context.rs:422-438 | `take_retry_budget_up_to` on the heap is the take step, and its answer is what that step grants |
| ContextHeap.Family.Restore | crates/roze-context/src/context.rs:440-462 | `restore_retry_budget` on the heap is the restore step followed by the creation of a cell that was missing; zero is no step |
| ContextHeap.Family.Limit | crates/roze-context/src/context.rs:464-480 | `limit_retry_budget` on the heap is the limit step followed by the creation of a cell that was missing |
| ContextHeap.Family.Cancel | crates/roze-context/src/context.rs:642-658 | cancelling on the heap is the flag step followed by the reason step |
| ContextHeap.Family.SharedByTheTree | crates/roze-context/src/context.rs:742-785 | two contexts hold the same cancel state object if and only if they were forked from the same background context |
| ContextHeap.Family.PerformAll | crates/roze-context/src/context.rs:371-785 | any run of steps taken on the heap keeps heap and world in step, and what the calls returned is what the run granted |
| ContextHeap.Family.Interleave | crates/roze-context/src/context.rs:371-785 | the laws on the heap over every interleaving: existing contexts keep their fields and cells; each budget cell stays at most 64, and what it holds plus what the calls returned plus what was thrown away is what it held plus what was restored; a cancel state is set exactly by the flags stored through its contexts |
| Propagation.PropagationHeaders | crates/roze-context/src/context.rs:512-541 | the insertion loop builds the fixed headers and one prefixed header per metadata entry |
| Propagation.MetadataFromHeaders | crates/roze-context/src/context.rs:812-842 | the loops gather the prefixed headers, then aliases and the idempotency header where a key is still missing |
| PropagationLaws.FixedValue | crates/roze-context/src/context.rs:787-804 | reading a fixed name, in any letter case, from generated headers finds exactly what was written under it |
| PropagationLaws.RolesTravel | crates/roze-context/src/context.rs:866-875 | a role list comes back if and only if every role is trimmed, not empty and free of commas |
| PropagationLaws.AuthTravels | crates/roze-context/src/context.rs:852-877 | the caller identity comes back if and only if its subject is not empty, its tenant absent or not empty and its roles plain |
| PropagationLaws.MetadataTravels | crates/roze-context/src/context.rs:812-842 | metadata comes back if and only if every key is lower-case; the idempotency fallback and foreign aliases add nothing |
| PropagationLaws.BudgetTravels | crates/roze-context/src/context.rs:806-810 | a retry budget comes back if and only if it is within the cap |
| PropagationLaws.RoundTripIffPortable | crates/roze-context/src/context.rs:512-574 | a context comes back from its own headers if and only if its identifiers and subject are not empty, its tenant absent or not empty, its roles plain, its metadata keys lower-case and its budget within the cap; for all aliases that name headers of other systems |
| PropagationLaws.HulaIsForeign | crates/roze-context/src/context.rs:61-72 | the built-in aliases all name headers of another system, so the default reader is covered |
| ApiMethods.ParseApi | apps/rozectl/src/parser.rs:100-332 | the cursor-driven loops compute the recursive reading of the lines, errors and their line numbers included |
| ApiMethods.ParseServiceBlock | apps/rozectl/src/parser.rs:199-282 | the service loop with its pending annotations and its two servers reads a block as the recursive reading does |
| ApiMethods.ParseServerBlock | apps/rozectl/src/parser.rs:421-459 | reads entries until the closing parenthesis, and refuses unknown keys |
| ApiMethods.ParseFieldsUntilBrace | apps/rozectl/src/parser.rs:471-493 | reads fields until the closing brace |
| ApiMethods.NormalizeEmptyRequests | apps/rozectl/src/parser.rs:334-381 | fills in blank requests and responses in place and declares the empty types that are then needed |
| ApiMethods.FormatApiSpec | apps/rozectl/src/main.rs:2649-2737 | the one string buffer ends up with the canonical lines of the contract |
| ApiMethods.RenderServerBlock | apps/rozectl/src/main.rs:2739-2757 | appends the lines of a server block |
| ApiMethods.FormatFieldTags | apps/rozectl/src/main.rs:2770-2798 | collects and joins the tags of a field |
| ApiRoundTrip.ParseOfFormat | apps/rozectl/src/parser.rs:100-332 | parsing what was printed succeeds for every contract in the lexical domain and gives its settled form |
| ApiCanonical.RoundTrip | apps/rozectl/src/main.rs:2649-2798 | parsing what was printed gives the contract back if and only if it is canonical |
| ApiCanonical.CanonicalMeans | apps/rozectl/src/main.rs:2649-2798 | being unchanged by the settling is exactly: no route without a server after one with a server, the contract server equal to the first route server if any route has one, no RPC middlewares, tag names that agree, nothing blank, no package, the empty types declared where used |
| ApiCanonical.CanonIsCanonical | apps/rozectl/src/parser.rs:100-332 | one pass through the text settles every contract: what comes back is canonical |
| ApiCanonical.CanonIdempotent | apps/rozectl/src/parser.rs:100-332 | settling a contract is idempotent |
| ApiSettled.SettledIsPrintable | apps/rozectl/src/parser.rs:334-381 | what comes back from a printed contract lies in the lexical domain again |
| ApiSettled.SecondPassChangesNothing | apps/rozectl/src/main.rs:2649-2798 | formatting and parsing what came back gives it back unchanged: the first pass settles a contract for good |
| ApiCanonical.RpcMiddlewaresAreLost | apps/rozectl/src/main.rs:2699-2707 | a contract with a middleware on an RPC method never comes back, since the printer does not print it |
| ApiCanonical.GuardedPingIsLost | apps/rozectl/src/main.rs:2699-2707 | one such contract, in full |
| ApiCanonical.BareRouteIsLost | apps/rozectl/src/main.rs:2669-2698 | a contract with a route without a server after one with a server never comes back |
| ApiCanonical.TwoRoutesAreLost | apps/rozectl/src/main.rs:2669-2698 | one such contract, whose second route comes back in the group of the first |
| ApiRoundTrip.ServiceReads | apps/rozectl/src/parser.rs:199-286 | the printed routes and RPC methods of a service read back in order, each route under the server in force |
| ApiBlocks.ServerBlockReads | apps/rozectl/src/parser.rs:421-459 | a printed server block reads back as the same server |
| ApiBlocks.RouteReads | apps/rozectl/src/parser.rs:383-419 | a printed route with its annotations adds exactly that route, and no annotation stays pending |
| Sse.Position | crates/roze-ai/src/openai_compatible.rs:451-452 | the first place of a byte pattern, or none |
| Sse.EventBuffer.Take | crates/roze-ai/src/openai_compatible.rs:450-463 | takes the first complete event and its delimiter off the buffer; what remains frames to the remaining events |
| Sse.FirstIsStable | crates/roze-ai/src/openai_compatible.rs:450-463 | more bytes never move the first delimiter: an unfinished carriage-return delimiter cannot start before a finished one and end after it |
| Sse.ChunkingDoesNotMatter | crates/roze-ai/src/openai_compatible.rs:117-128 | two ways to split the same bytes give the same events and the same leftover, those of framing all bytes at once |
| Sse.NothingLost | crates/roze-ai/src/openai_compatible.rs:450-463 | events, their delimiters and the leftover are the input again; no delimiter starts inside an event or in the leftover |
| Sse.Drain | crates/roze-ai/src/openai_compatible.rs:121-128 | the inner loop handles the complete events up to the first that ends the stream |
| Sse.Receive | crates/roze-ai/src/openai_compatible.rs:117-128 | the events handled before the stream ends depend only on the bytes, not on how they were chunked |
| CivilDate.FormulaIsDayNumber | apps/rozectl/src/gate.rs:362-370 | the closed formula equals the day count through the proleptic Gregorian calendar, year by year and month by month, for every year |
| CivilDate.EpochIsZero | apps/rozectl/src/gate.rs:362-370 | 1970-01-01 is day 0 |
| CivilDate.NextDayAddsOne | apps/rozectl/src/gate.rs:362-370 | the next calendar day adds exactly one, across month ends, leap days, years and eras |
| CivilDate.OrderIsCalendarOrder | apps/rozectl/src/gate.rs:334-338 | comparing day numbers is comparing dates, and equal numbers are equal dates |
| CivilDate.EveryNumberIsADay | apps/rozectl/src/gate.rs:362-370 | every integer is the number of a date |
| CivilDate.IsoDateReads | apps/rozectl/src/gate.rs:350-360 | every month and every day up to 31 of the years 0 to 9999, followed by anything, reads as its day number |
| CivilDate.AcceptedDates | apps/rozectl/src/gate.rs:350-360 | a text is accepted with number n if and only if its first ten bytes are three dash-free numbers with dashes between them, the second 1 to 12 and the third 1 to 31, and n is their day number |
| CivilDate.ExcessDaysRunOn | apps/rozectl/src/gate.rs:362-370 | a day past the end of its month counts on into the next month |
| CivilDate.SpellingIsUnique | apps/rozectl/src/gate.rs:350-360 | the three numbers a text spells are determined by it |
| CivilDate.ExpiresOnTheDaySpelled | apps/rozectl/src/gate.rs:350-360 | an accepted text expires on the day it spells if and only if that day is within its month; otherwise on a day of the next month |
| CivilDate.NoSuchDayIsAccepted | apps/rozectl/src/gate.rs:350-360 | the text 2023-02-30 is accepted as the second of March 2023 |
| ProjectFiles.Project.UpdateFile | apps/rozectl/src/service.rs:547-569 | writes exactly when the file differs, and in check mode refuses instead |
| ProjectFiles.Project.SyncClients | apps/rozectl/src/generator/mod.rs:5031-5070 | rewrites the service context exactly when its rendering differs |
| ProjectFiles.Project.SyncInner | apps/rozectl/src/service.rs:255-290 | the three updates in order, up to the first error |
| ProjectFiles.Project.Capture | apps/rozectl/src/service.rs:100-119 | a snapshot of every path, absent files included, or the first read error |
| ProjectFiles.Project.RestoreAll | apps/rozectl/src/service.rs:121-145 | the restore loop, up to its first error |
| ProjectFiles.Project.ApplyManifestTransaction | apps/rozectl/src/service.rs:233-253 | the command in place has the described effect on files, under any failures |
| ProjectFiles.Project.Sync | apps/rozectl/src/service.rs:214-231 | likewise for a synchronization or a check |
| ServiceSync.DependencyChangeIsAtomic | apps/rozectl/src/service.rs:233-253 | whatever fails, torn writes included: a failed change leaves every file as it was unless undoing itself failed; a successful one leaves all four managed files as planned; no other file is touched |
| ServiceSync.SyncIsAtomic | apps/rozectl/src/service.rs:214-231 | the same for the three files of a synchronization; a check writes nothing |
| ServiceSync.ChangeDoneIffFeasible | apps/rozectl/src/service.rs:233-253 | when nothing fails, a dependency change goes through if and only if the manifest is valid and both files it renders are there and can be rendered |
| ServiceSync.SyncDoneIffFeasible | apps/rozectl/src/service.rs:214-231 | likewise for a synchronization |
| ServiceSync.RestoredAllSets | apps/rozectl/src/service.rs:121-145 | restoring gives every listed path its content or absence again, and fails only if an undo operation fails |
| ServiceSync.CheckMeansInSync | apps/rozectl/src/service.rs:214-218 | a check passes if and only if the manifest is valid and every managed file is what it asks for |
| ServiceSync.CheckPassesIfStable | apps/rozectl/src/service.rs:214-231 | after a synchronization a check passes, given renderers that are idempotent |
| CargoManifest.RenderCargo | apps/rozectl/src/service.rs:481-514 | the remove and insert loops compute the described rendering, and refuse dependencies that are no table |
| CargoManifest.RenderedIs | apps/rozectl/src/service.rs:481-514 | a rendering is the entries nobody manages, unchanged and in order, followed by the declared crates |
| CargoManifest.ManagedIsDeclared | apps/rozectl/src/service.rs:503-511 | the managed entries are exactly the declared crates, once each, with the path declared last |
| CargoManifest.RenderAfterRender | apps/rozectl/src/service.rs:481-514 | a second rendering forgets the first: crates no longer declared are gone |
| CargoManifest.RenderIsIdempotent | apps/rozectl/src/service.rs:481-514 | rendering again changes nothing |
| CargoManifest.UnmanagedKept | apps/rozectl/src/service.rs:481-514 | entries nobody manages keep their values and relative order |
| CargoManifest.RenderedKeysDistinct | apps/rozectl/src/service.rs:481-514 | a rendering of a table without repeated keys has none either |
| ServiceRendering.CargoTextIsStable | apps/rozectl/src/service.rs:481-514 | as a renderer of texts it is idempotent, in any document format that reads back what was rendered from a text it could read |
| ServiceRendering.CheckPassesAfterSync | apps/rozectl/src/service.rs:214-231 | after a synchronization a check passes, given that the document format reads back what was rendered from a text it could read, and that rendering the service context twice changes nothing |
| TextSplitter.NewSplitter | crates/roze-ai/src/rag.rs:80-96 | a splitter exists exactly for an overlap smaller than the maximum |
| TextSplitter.Split | crates/roze-ai/src/rag.rs:99-125 | the loop yields the counted number of chunks, each with its text window, number and origin, and `start + max_chars` does not overflow |
| TextSplitter.LastChunk | crates/roze-ai/src/rag.rs:107-121 | the chunk count is that of the first window that reaches the end: one, or one plus the rounded-up number of further steps |
| TextSplitter.NeighboursOverlap | crates/roze-ai/src/rag.rs:106-122 | neighbouring chunks share exactly the overlap, and the later one adds something |
| TextSplitter.SplittingIsLossless | crates/roze-ai/src/rag.rs:99-125 | the first chunk and the later ones without their overlap are the text |
| TextSplitter.SplittingIsMinimal | crates/roze-ai/src/rag.rs:99-125 | no cover by windows of this size and overlap uses fewer |
| TextSplitter.RenderContext | crates/roze-ai/src/rag.rs:409-420 | exactly the first `max_chars` characters of the joined sections |
| CacheKey.EscapeCacheSegment | crates/roze-cache/src/lib.rs:108-119 | the byte loop computes the escape |
| CacheKey.EscapeHasInverse | crates/roze-cache/src/lib.rs:108-119 | percent-decoding (section 2.1 of RFC 3986) undoes the escape of every byte string |
| CacheKey.EscapeHasNoColon | crates/roze-cache/src/lib.rs:108-119 | an escaped segment never holds a colon |
| CacheKey.KeyReads | crates/roze-cache/src/lib.rs:99-106 | a key can be taken apart again into its three parts |
| CacheKey.KeysAreInjective | crates/roze-cache/src/lib.rs:99-106 | equal keys come from equal prefix, field and value |

## Left out

- Observers, tracing, metrics, UUID generation, serde and JSON encoding of the workflow engine: no effect on results.
- Overlapping resumes of one run: the store has no compare-and-swap, so the laws are about calls that do not overlap.
- Errors of chunk nodes other than the limit: the flat-map laws are for non-failing nodes; only `ChunkStream.PullBound` covers failing ones.
- The native `invoke` of a streaming node, whose own bound is a loop of the same kind.
- Deadlines that pass during a call, timeouts on headers and the typed value store of a context: clock reads and `Any`.
- `with_propagation_headers` on an existing context: the same readers followed by `with_*` calls.
- Bytes after the done mark of an event stream: whether they are seen depends on the chunk they arrive in.
- Other line endings of the event stream standard (sections 9.2.5 and 9.2.6 of the WHATWG HTML Living Standard): the program ends an event at LF LF and CRLF CRLF only, and that is what is modelled.
- HTTP, status mapping, decoding of event data and tool-call assembly around the event buffer.
- TOML layout and comments, and the table encodings of the managed list: dependencies are an ordered list of entries.
- `generator` code that renders clients and `rustfmt`: a function from the old service context to the new one, or a failure.
- Validation details of a service manifest and importing of existing dependencies: only whether the manifest is valid.
- The rest of the gate (digests, diffs of generated code), of `rozectl` and of the other crates (Redis access, OIDC, Kafka, gateway, admin): I/O around code of other systems, or easy members.
- ServiceRendering.CheckPassesAfterSync: takes as given that what was rendered reads back, since the TOML library is outside, and that rendering the service context twice changes nothing, since that renderer and `rustfmt` are outside.
- Pipeline.StreamChunks: a context check that fails inside a stage shows as an error chunk that ends the stream of that stage for that input; a node's chunks and errors are a function of its input, so an abort that comes at one time and not at another for equal inputs is not modelled.
- Gates.ResumesNeeded: speaks of runs whose nodes all succeed; with failures the number of calls has no bound, and `Gates.RecoveryCompletes` says what is left once they stop.
- TextSplitter.Split: asks that the text fits a vector of characters, four bytes each, as every Rust text does.
